/**
 * The process-wide state store: one mutable cell holding the URL of the
 * image currently presented, or nothing before any image was published.
 */
module Storage {
  import opened Options

  /** The store's record; `getState` hands out a copy of it. */
  datatype PresentationState = PresentationState(currentImage: Option<string>)

  /** The state a fresh store starts in (and returns to when the process restarts). */
  const Initial := PresentationState(None)

  /** The state after writing `url` over `st`; no validation, `""` included. */
  function Written(st: PresentationState, url: string): (r: PresentationState)
    ensures r.currentImage == Some(url)
  {
    st.(currentImage := Some(url))
  }

  /** Last write wins: a second write hides the first. */
  lemma LastWriteWins(st: PresentationState, a: string, b: string)
    ensures Written(Written(st, a), b) == Written(st, b)
  {
  }

  /** Writing the same URL twice is writing it once. */
  lemma WriteIdempotent(st: PresentationState, url: string)
    ensures Written(Written(st, url), url) == Written(st, url)
  {
  }

  class Store {
    var state: PresentationState

    constructor ()
      ensures state == Initial && state.currentImage == None
    {
      state := PresentationState(None);
    }

    /** The stored URL, or `None`; reads only. */
    method GetCurrentImage() returns (image: Option<string>)
      ensures image == state.currentImage
    {
      image := state.currentImage;
    }

    /** Overwrites the stored value with `url`, whatever it is. */
    method SetCurrentImage(url: string)
      modifies this
      ensures state == Written(old(state), url)
    {
      state := state.(currentImage := Some(url));
    }

    /** A copy of the whole record; the store is left as it was. */
    method GetState() returns (copy: PresentationState)
      ensures copy == state
    {
      copy := state;
    }
  }

  /**
   * Read-after-write on a store object: after `SetCurrentImage(a)` and
   * `SetCurrentImage(b)` the store reads back exactly `b`.
   */
  method WriteThenRead(store: Store, a: string, b: string) returns (seen: Option<string>)
    modifies store
    ensures seen == Some(b) && store.state == Written(old(store.state), b)
  {
    store.SetCurrentImage(a);
    store.SetCurrentImage(b);
    seen := store.GetCurrentImage();
    LastWriteWins(old(store.state), a, b);
  }
}
