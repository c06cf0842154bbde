/** The task-reasoning agent (src/simple_agent.py); graph construction is not modelled. */
module SimpleAgent {
  import opened Wrappers
  import opened SharedLists

  /** The state dictionary: two list references and the current task. */
  datatype AgentState = AgentState(
    messages: SharedList<string>,
    currentTask: string,
    completedTasks: SharedList<string>)

  /** The contents of an agent state. */
  datatype TaskSnapshot = TaskSnapshot(messages: seq<string>, currentTask: string, completedTasks: seq<string>)

  ghost function View(s: AgentState): TaskSnapshot
    reads s.messages, s.completedTasks
  {
    TaskSnapshot(s.messages.items, s.currentTask, s.completedTasks.items)
  }

  function ProcessingMessage(task: string): string {
    "Processing task: " + task
  }

  /** There is a task to work on: non-empty and not done before. */
  predicate Pending(s: TaskSnapshot) {
    s.currentTask != "" && s.currentTask !in s.completedTasks
  }

  /** What one reasoning step does to the contents of two distinct lists. */
  function Step(s: TaskSnapshot): TaskSnapshot {
    if Pending(s)
    then TaskSnapshot(s.messages + [ProcessingMessage(s.currentTask)], "", s.completedTasks + [s.currentTask])
    else s
  }

  /**
   * `reasoning_node`: appends to the caller's lists in place. When the two lists are
   * different objects the contents follow Step; when they are the same object, both
   * appends land in it, the message first.
   */
  method ReasoningNode(state: AgentState) returns (r: AgentState)
    modifies state.messages, state.completedTasks
    ensures r.messages == state.messages && r.completedTasks == state.completedTasks
    ensures old(Pending(View(state))) ==> r.currentTask == ""
    ensures !old(Pending(View(state))) ==> r == state && unchanged(state.messages, state.completedTasks)
    ensures state.messages != state.completedTasks ==> View(r) == Step(old(View(state)))
    ensures state.messages == state.completedTasks && old(Pending(View(state))) ==>
              state.messages.items == old(state.messages.items) + [ProcessingMessage(state.currentTask), state.currentTask]
  {
    var task := state.currentTask;
    if task != "" && task !in state.completedTasks.items {
      state.messages.Append(ProcessingMessage(task));
      state.completedTasks.Append(task);
      return AgentState(state.messages, "", state.completedTasks);
    }
    return state;
  }

  /** `should_continue`: go on while there is a current task. */
  function ShouldContinue(s: TaskSnapshot): (r: Route)
    ensures r == Continue <==> s.currentTask != ""
  {
    if s.currentTask != "" then Continue else End
  }

  /** Running the step a second time changes nothing, because the first one cleared the task. */
  lemma StepIdempotent(s: TaskSnapshot)
    ensures Step(Step(s)) == Step(s)
  {
  }

  /** Each step adds at most one message and one completed task, and never rewrites old ones. */
  lemma StepGrowsByAtMostOne(s: TaskSnapshot)
    ensures var r := Step(s);
            |s.messages| <= |r.messages| <= |s.messages| + 1 && r.messages[..|s.messages|] == s.messages &&
            |s.completedTasks| <= |r.completedTasks| <= |s.completedTasks| + 1 &&
            r.completedTasks[..|s.completedTasks|] == s.completedTasks
  {
  }

  /** After a step that processed a task, the router ends the run. */
  lemma ProcessedStepEnds(s: TaskSnapshot)
    requires Pending(s)
    ensures ShouldContinue(Step(s)) == End
  {
  }

  /**
   * A current task that is already completed is never cleared: the step leaves the
   * state as it is and the router keeps answering "continue".
   */
  lemma CompletedTaskStalls(s: TaskSnapshot)
    requires s.currentTask != "" && s.currentTask in s.completedTasks
    ensures Step(s) == s && ShouldContinue(Step(s)) == Continue
  {
  }

  predicate NoDuplicates(tasks: seq<string>) {
    forall i, j :: 0 <= i < j < |tasks| ==> tasks[i] != tasks[j]
  }

  /** A task is completed at most once: the step keeps the completed list free of repeats. */
  lemma StepKeepsCompletedDistinct(s: TaskSnapshot)
    requires NoDuplicates(s.completedTasks)
    ensures NoDuplicates(Step(s).completedTasks)
  {
    if Pending(s) {
      var c := Step(s).completedTasks;
      forall i, j | 0 <= i < j < |c| ensures c[i] != c[j] {
        if j == |c| - 1 {
          assert c[i] == s.completedTasks[i];
        } else {
          assert c[i] == s.completedTasks[i] && c[j] == s.completedTasks[j];
        }
      }
    }
  }
}
