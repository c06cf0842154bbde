/** Sequence helpers and the bounded cache (src/agent_test/utils.py). */
module AgentUtils {
  import opened Wrappers

  /** `get_first(items, default)`: the first item, or the default (None when none is given). */
  function GetFirst<T>(items: seq<T>, default: Option<T>): (r: Option<T>)
    ensures |items| > 0 ==> r == Some(items[0])
    ensures |items| == 0 ==> r == default
  {
    if |items| > 0 then Some(items[0]) else default
  }

  /** The first item of a concatenation comes from the left part unless it is empty. */
  lemma GetFirstConcat<T>(a: seq<T>, b: seq<T>, default: Option<T>)
    ensures GetFirst(a + b, default) == GetFirst(a, GetFirst(b, default))
  {
    if |a| > 0 {
      assert (a + b)[0] == a[0];
    } else {
      assert a + b == b;
    }
  }

  /** Whether `process_items` keeps an item: no filter keeps everything. */
  predicate Keeps<T>(filter: Option<T -> bool>, x: T) {
    filter.None? || filter.value(x)
  }

  /** What one item contributes to `process_items`: its processed value when kept. */
  function Contribution<T, U>(x: T, processor: T -> U, filter: Option<T -> bool>): seq<U> {
    if Keeps(filter, x) then [processor(x)] else []
  }

  /** `process_items`: the processor applied to the items the filter keeps, in their order. */
  function ProcessItems<T, U>(items: seq<T>, processor: T -> U, filter: Option<T -> bool>): (r: seq<U>)
    ensures |r| <= |items|
    ensures filter.None? ==> |r| == |items| && forall i :: 0 <= i < |items| ==> r[i] == processor(items[i])
  {
    if items == [] then []
    else Contribution(items[0], processor, filter) + ProcessItems(items[1..], processor, filter)
  }

  /** The output for an item followed by more items: its contribution, then theirs. */
  lemma ProcessItemsCons<T, U>(x: T, rest: seq<T>, processor: T -> U, filter: Option<T -> bool>)
    ensures ProcessItems([x] + rest, processor, filter) ==
            Contribution(x, processor, filter) + ProcessItems(rest, processor, filter)
  {
    assert ([x] + rest)[0] == x;
    assert ([x] + rest)[1..] == rest;
  }

  /** Processing a concatenation is processing each part, in order. */
  lemma {:induction false} ProcessItemsConcat<T, U>(a: seq<T>, b: seq<T>, processor: T -> U, filter: Option<T -> bool>)
    ensures ProcessItems(a + b, processor, filter) == ProcessItems(a, processor, filter) + ProcessItems(b, processor, filter)
    decreases |a|
  {
    if a == [] {
      assert a + b == b;
    } else {
      var head := Contribution(a[0], processor, filter);
      assert a + b == [a[0]] + (a[1..] + b);
      assert a == [a[0]] + a[1..];
      calc {
        ProcessItems(a + b, processor, filter);
        { ProcessItemsCons(a[0], a[1..] + b, processor, filter); }
        head + ProcessItems(a[1..] + b, processor, filter);
        { ProcessItemsConcat(a[1..], b, processor, filter); }
        head + (ProcessItems(a[1..], processor, filter) + ProcessItems(b, processor, filter));
        (head + ProcessItems(a[1..], processor, filter)) + ProcessItems(b, processor, filter);
        { ProcessItemsCons(a[0], a[1..], processor, filter); }
        ProcessItems(a, processor, filter) + ProcessItems(b, processor, filter);
      }
    }
  }

  /** A single item yields its processed value when kept, and nothing otherwise. */
  lemma ProcessItemsSingle<T, U>(x: T, processor: T -> U, filter: Option<T -> bool>)
    ensures ProcessItems([x], processor, filter) == if Keeps(filter, x) then [processor(x)] else []
  {
    assert [x][1..] == [];
  }

  /** Every output comes from a kept item, and every kept item contributes its output. */
  lemma {:induction false} ProcessItemsMembers<T, U>(items: seq<T>, processor: T -> U, filter: Option<T -> bool>)
    ensures forall i :: 0 <= i < |items| && Keeps(filter, items[i]) ==>
              processor(items[i]) in ProcessItems(items, processor, filter)
    ensures forall y :: y in ProcessItems(items, processor, filter) ==>
              exists i :: 0 <= i < |items| && Keeps(filter, items[i]) && y == processor(items[i])
    decreases |items|
  {
    if items != [] {
      var rest := items[1..];
      ProcessItemsMembers(rest, processor, filter);
      var r := ProcessItems(items, processor, filter);
      var head := Contribution(items[0], processor, filter);
      assert r == head + ProcessItems(rest, processor, filter);
      forall i | 0 <= i < |items| && Keeps(filter, items[i]) ensures processor(items[i]) in r {
        if i > 0 { assert items[i] == rest[i - 1]; }
      }
      forall y | y in r ensures exists i :: 0 <= i < |items| && Keeps(filter, items[i]) && y == processor(items[i]) {
        if y in head {
          assert Keeps(filter, items[0]) && y == processor(items[0]);
        } else {
          assert y in ProcessItems(rest, processor, filter);
          var k :| 0 <= k < |rest| && Keeps(filter, rest[k]) && y == processor(rest[k]);
          assert items[k + 1] == rest[k];
        }
      }
    }
  }

  function Double(x: int): int { x * 2 }

  predicate IsEven(x: int) { x % 2 == 0 }

  /** Doubling every item of [1, 2, 3, 4] gives [2, 4, 6, 8]. */
  lemma ProcessItemsNoFilterExample()
    ensures ProcessItems([1, 2, 3, 4], Double, None) == [2, 4, 6, 8]
  {
    var r := ProcessItems([1, 2, 3, 4], Double, None);
    assert r[0] == 2 && r[1] == 4 && r[2] == 6 && r[3] == 8;
  }

  /** Doubling the even items of [1, 2, 3, 4, 5] gives [4, 8]. */
  lemma ProcessItemsFilterExample()
    ensures ProcessItems([1, 2, 3, 4, 5], Double, Some(IsEven)) == [4, 8]
  {
    var even: Option<int -> bool> := Some(IsEven);
    assert Contribution(1, Double, even) == [];
    assert Contribution(2, Double, even) == [4];
    assert Contribution(3, Double, even) == [];
    assert Contribution(4, Double, even) == [8];
    assert Contribution(5, Double, even) == [];
    assert [1, 2, 3, 4, 5] == [1, 2] + [3, 4, 5];
    assert [1, 2] == [1] + [2];
    assert [3, 4, 5] == [3] + ([4] + [5]);
    ProcessItemsConcat([1, 2], [3, 4, 5], Double, even);
    ProcessItemsConcat([1], [2], Double, even);
    ProcessItemsConcat([3], [4] + [5], Double, even);
    ProcessItemsConcat([4], [5], Double, even);
    ProcessItemsSingle(1, Double, even);
    ProcessItemsSingle(2, Double, even);
    ProcessItemsSingle(3, Double, even);
    ProcessItemsSingle(4, Double, even);
    ProcessItemsSingle(5, Double, even);
  }

  const DefaultMaxSize := 100
  const StopIterationError := "StopIteration"

  /**
   * The cache's dictionary: its keys in insertion order and the key-to-value table.
   * Python keeps a dict's keys in insertion order; an update keeps a key's place.
   */
  datatype Entries<T> = Entries(order: seq<string>, table: map<string, T>) {

    ghost predicate Valid() {
      (forall i, j :: 0 <= i < j < |order| ==> order[i] != order[j]) &&
      (forall k :: k in table <==> k in order)
    }

    /** `dict.get(key)`. */
    function Get(key: string): (r: Option<T>)
      ensures r.Some? <==> key in table
      ensures r.Some? ==> r.value == table[key]
    {
      if key in table then Some(table[key]) else None
    }

    function Size(): nat {
      |order|
    }
  }

  /** `self._cache[key] = value`: a new key goes last, an existing one keeps its place. */
  function Insert<T>(e: Entries<T>, key: string, value: T): Entries<T> {
    if key in e.table then Entries(e.order, e.table[key := value])
    else Entries(e.order + [key], e.table[key := value])
  }

  /**
   * `set(key, value)` on a cache holding `e`: when the dict is at or above `maxSize` and
   * the key is new, the earliest-inserted key is deleted first; on an empty dict that
   * first-key lookup raises StopIteration.
   */
  function Put<T>(e: Entries<T>, maxSize: int, key: string, value: T): (r: Outcome<Entries<T>>)
    requires e.Valid()
    ensures r.Raised? <==> maxSize <= 0 && e.Size() == 0
    ensures r.Raised? ==> r.error == StopIterationError
    ensures r.Returned? ==> r.value.Valid() && r.value.Get(key) == Some(value)
    ensures r.Returned? && key !in e.table ==> r.value.order[|r.value.order| - 1] == key
  {
    var evict := e.Size() >= maxSize && key !in e.table;
    if evict && e.Size() == 0 then Raised(StopIterationError)
    else
      var kept := if evict then EvictOldest(e) else e;
      InsertKeepsValid(kept, key, value);
      Returned(Insert(kept, key, value))
  }

  /** `del self._cache[next(iter(self._cache))]`: the earliest-inserted key goes. */
  function EvictOldest<T>(e: Entries<T>): (r: Entries<T>)
    requires e.Valid() && e.Size() > 0
    ensures r.Valid() && r.order == e.order[1..] && r.table == e.table - {e.order[0]}
  {
    var r := Entries(e.order[1..], e.table - {e.order[0]});
    assert r.Valid() by {
      forall k ensures k in r.table <==> k in r.order {
        if k in r.order {
          var i :| 0 <= i < |r.order| && r.order[i] == k;
          assert e.order[i + 1] == k && e.order[0] != e.order[i + 1];
        }
        if k in e.table && k != e.order[0] {
          var i :| 0 <= i < |e.order| && e.order[i] == k;
          assert r.order[i - 1] == k;
        }
      }
    }
    r
  }

  lemma InsertKeepsValid<T>(e: Entries<T>, key: string, value: T)
    requires e.Valid()
    ensures Insert(e, key, value).Valid()
  {
  }

  /** With room for at least one entry, a cache within its bound stays within it. */
  lemma PutBounded<T>(e: Entries<T>, maxSize: int, key: string, value: T)
    requires e.Valid() && maxSize >= 1 && e.Size() <= maxSize
    ensures Put(e, maxSize, key, value).Returned?
    ensures Put(e, maxSize, key, value).value.Size() <= maxSize
  {
  }

  /**
   * A new key into a full cache removes exactly the earliest-inserted key: it goes
   * from the front of the order, the new key goes to the back, and every other
   * entry keeps its value.
   */
  lemma PutEvictsOldest<T>(e: Entries<T>, maxSize: int, key: string, value: T)
    requires e.Valid() && e.Size() >= maxSize && e.Size() > 0 && key !in e.table
    ensures var r := Put(e, maxSize, key, value).value;
            r.order == e.order[1..] + [key] && r.Get(e.order[0]) == None &&
            forall k :: k != key && k != e.order[0] ==> r.Get(k) == e.Get(k)
  {
  }

  /** Updating a key already present never evicts and keeps the insertion order. */
  lemma PutUpdateKeepsOrder<T>(e: Entries<T>, maxSize: int, key: string, value: T)
    requires e.Valid() && key in e.table
    ensures var r := Put(e, maxSize, key, value);
            r.Returned? && r.value.order == e.order &&
            forall k :: k != key ==> r.value.Get(k) == e.Get(k)
  {
  }

  /** Below the bound, a new key is appended at the back and nothing is evicted. */
  lemma PutBelowBoundKeepsAll<T>(e: Entries<T>, maxSize: int, key: string, value: T)
    requires e.Valid() && e.Size() < maxSize
    ensures var r := Put(e, maxSize, key, value);
            r.Returned? && forall k :: k != key ==> r.value.Get(k) == e.Get(k)
    ensures key !in e.table ==> Put(e, maxSize, key, value).value.order == e.order + [key]
  {
  }

  /** The run with capacity two: key1, key2, key3 inserted; key1 is gone, the others stay. */
  lemma CapacityTwoScenario(v1: string, v2: string, v3: string)
    ensures var e0: Entries<string> := Entries([], map[]);
            var e1 := Put(e0, 2, "key1", v1).value;
            var e2 := Put(e1, 2, "key2", v2).value;
            var e3 := Put(e2, 2, "key3", v3).value;
            e1.Get("key1") == Some(v1) && e1.Get("missing") == None &&
            e3.Get("key1") == None && e3.Get("key2") == Some(v2) && e3.Get("key3") == Some(v3)
  {
    var e0: Entries<string> := Entries([], map[]);
    var e1 := Put(e0, 2, "key1", v1).value;
    assert e1 == Entries(["key1"], map["key1" := v1]);
    var e2 := Put(e1, 2, "key2", v2).value;
    assert e2 == Entries(["key1", "key2"], map["key1" := v1, "key2" := v2]);
    PutEvictsOldest(e2, 2, "key3", v3);
  }

  /**
   * `TypedCache`: a dict bounded by `maxSize` that evicts in insertion order.
   * `get` never refreshes an entry, so eviction is first-in first-out.
   */
  class TypedCache<T> {
    var order: seq<string>
    var table: map<string, T>
    const maxSize: int

    ghost function View(): Entries<T>
      reads this
    {
      Entries(order, table)
    }

    ghost predicate Valid()
      reads this
    {
      View().Valid()
    }

    constructor (maxSize: int)
      ensures Valid() && View() == Entries([], map[]) && this.maxSize == maxSize
    {
      order := [];
      table := map[];
      this.maxSize := maxSize;
    }

    /** `get(key)`: the stored value, or None for a key never set, evicted or cleared. */
    method Get(key: string) returns (r: Option<T>)
      requires Valid()
      ensures r.Some? <==> key in order
      ensures r.Some? ==> r.value == table[key]
    {
      r := if key in table then Some(table[key]) else None;
    }

    /** `set(key, value)`: the new contents are Put's; a raise leaves the cache as it was. */
    method Set(key: string, value: T) returns (outcome: Outcome<()>)
      requires Valid()
      modifies this
      ensures Valid()
      ensures Put(old(View()), maxSize, key, value).Returned? ==>
                outcome == Returned(()) && View() == Put(old(View()), maxSize, key, value).value
      ensures Put(old(View()), maxSize, key, value).Raised? ==>
                outcome == Raised(StopIterationError) && View() == old(View())
    {
      if |order| >= maxSize && key !in table {
        if |order| == 0 {
          return Raised(StopIterationError);
        }
        var oldest := order[0];
        table := table - {oldest};
        order := order[1..];
      }
      if key !in table {
        order := order + [key];
      }
      table := table[key := value];
      outcome := Returned(());
    }

    /** `clear()`: afterwards every key reads as absent. */
    method Clear()
      modifies this
      ensures Valid() && View() == Entries([], map[])
      ensures forall k :: View().Get(k) == None
    {
      order := [];
      table := map[];
    }
  }
}
