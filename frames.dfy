/** The browser's animation-frame registry, as `requestAnimationFrame` and
    `cancelAnimationFrame` use it: a fresh, non-zero handle per request and the
    set of handles whose callback has neither run nor been cancelled. */
module Frames {

  class FrameRegistry {
    /** Handles whose callback is still due at the next display refresh. */
    var due: set<nat>
    /** The handle the next request returns. */
    var next: nat

    ghost predicate Valid()
      reads this
    {
      0 < next && forall h :: h in due ==> 0 < h < next
    }

    constructor ()
      ensures Valid() && due == {} && next == 1
    {
      due := {};
      next := 1;
    }

    /** `requestAnimationFrame(callback)`: registers a callback under a handle never used before. */
    method Request() returns (h: nat)
      requires Valid()
      modifies this
      ensures Valid()
      ensures h == old(next) && h > 0 && h !in old(due)
      ensures due == old(due) + {h} && next == old(next) + 1
    {
      h := next;
      due := due + {h};
      next := next + 1;
    }

    /** `cancelAnimationFrame(h)`: drops the callback if it is still due; a stale or unknown handle is ignored. */
    method Cancel(h: nat)
      requires Valid()
      modifies this
      ensures Valid()
      ensures due == old(due) - {h} && next == old(next)
    {
      due := due - {h};
    }

    /** The display refresh reaches handle h: its callback runs exactly when it is still due, and at most once. */
    method Dispatch(h: nat) returns (runs: bool)
      requires Valid()
      modifies this
      ensures Valid()
      ensures runs == (h in old(due))
      ensures due == old(due) - {h} && next == old(next)
    {
      runs := h in due;
      due := due - {h};
    }
  }
}
