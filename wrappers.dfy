/** Small value types shared by every module of the model. */
module Wrappers {

  /** Python's `X | None`. */
  datatype Option<T> = None | Some(value: T)

  /** What a Python call does: return a value, or raise an exception with a message. */
  datatype Outcome<T> = Returned(value: T) | Raised(error: string)

  /** The two edge labels a routing function hands to the graph: "continue" and "end". */
  datatype Route = Continue | End {
    function Label(): string {
      match this
      case Continue => "continue"
      case End => "end"
    }
  }

  /** Python truthiness of an optional string: present and not empty. */
  predicate Truthy(o: Option<string>) {
    o.Some? && o.value != ""
  }
}

/** A Python list object: every holder of the reference sees an `append`. */
module SharedLists {

  class SharedList<T> {
    var items: seq<T>

    constructor (init: seq<T>)
      ensures items == init
    {
      items := init;
    }

    method Append(x: T)
      modifies this
      ensures items == old(items) + [x]
    {
      items := items + [x];
    }
  }
}
