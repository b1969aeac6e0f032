/**
 * The shared local belief about the position (`state` in the source).
 * The fields are written in place by several passes, so the model keeps
 * them in a class; `Snap` gives their value as a datatype, which the
 * specification functions of those passes take and return.
 */
module State {
  import opened Wrappers

  datatype Snapshot = Snapshot(
    positionOpen: bool,
    direction: Option<string>,
    entryPrice: Option<real>,
    quantity: Option<real>)

  /** The snapshot of a flat account: what `reset_all` leaves behind. */
  const Flat: Snapshot := Snapshot(false, None, None, None)

  class BotState {
    var positionOpen: bool
    var currentDirection: Option<string>
    var currentEntryPrice: Option<real>
    var currentQuantity: Option<real>

    function Snap(): Snapshot
      reads this
    {
      Snapshot(positionOpen, currentDirection, currentEntryPrice, currentQuantity)
    }

    /** The state at process start: flat. */
    constructor ()
      ensures Snap() == Flat
    {
      positionOpen := false;
      currentDirection := None;
      currentEntryPrice := None;
      currentQuantity := None;
    }

    /** `state.reset_all()`. */
    method ResetAll()
      modifies this
      ensures Snap() == Flat
    {
      positionOpen := false;
      currentDirection := None;
      currentEntryPrice := None;
      currentQuantity := None;
    }

    /** Replaces all four fields at once (the writes that open a position). */
    method SetOpen(direction: string, entry: real, qty: real)
      modifies this
      ensures Snap() == Snapshot(true, Some(direction), Some(entry), Some(qty))
    {
      positionOpen := true;
      currentDirection := Some(direction);
      currentEntryPrice := Some(entry);
      currentQuantity := Some(qty);
    }
  }
}
