/** The storage seam both use cases are given: an object with a single
    `save` operation that either returns or throws. */
module Repository {
  import opened Outcomes

  /** An in-memory repository. `failure` selects how the next `save`
      behaves: `None` makes it return normally, `Some(cause)` makes it throw
      an `Error(cause)` and keep nothing. A client may change `failure`
      between calls, so a store can fail on some calls and not on others. */
  class Store<T> {
    /** What `save` has kept, oldest first. */
    var stored: seq<T>
    /** Every value handed to `save`, whether it was kept or not. */
    ghost var received: seq<T>
    var failure: Option<string>

    constructor (failure: Option<string>)
      ensures this.failure == failure
      ensures stored == [] && received == []
    {
      this.failure := failure;
      stored := [];
      received := [];
    }

    /** Returns the cause of the thrown error, or `None` when `save` returned. */
    method Save(item: T) returns (error: Option<string>)
      modifies this
      ensures error == failure && failure == old(failure)
      ensures received == old(received) + [item]
      ensures stored == if failure.None? then old(stored) + [item] else old(stored)
    {
      received := received + [item];
      if failure.None? {
        stored := stored + [item];
      }
      error := failure;
    }
  }
}
