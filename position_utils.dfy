/**
 * `sync_position` of core/position_utils.py: the local `position_open`
 * flag is overwritten by the exchange's answer; the other fields of the
 * shared state are left as they are.
 */
module PositionUtils {
  import opened Attempts
  import opened Exchange
  import opened State
  import BinanceClient

  /** The snapshot after a sync against the answer `query`. */
  function Synced(s: Snapshot, query: Attempt<seq<Position>>): (r: Snapshot)
    ensures r.positionOpen <==> query.Ok? && HasOpenPosition(query.value)
    ensures r.direction == s.direction && r.entryPrice == s.entryPrice && r.quantity == s.quantity
  {
    HasOpenPositionIff(if query.Ok? then query.value else []);
    s.(positionOpen := BinanceClient.CheckPositionOpen(query))
  }

  /** Syncing twice against the same answer is the same as syncing once. */
  lemma SyncedIdempotent(s: Snapshot, query: Attempt<seq<Position>>)
    ensures Synced(Synced(s, query), query) == Synced(s, query)
  {
  }

  /** Only the latest answer matters: a sync overrides the previous one. */
  lemma SyncedOverrides(s: Snapshot, q1: Attempt<seq<Position>>, q2: Attempt<seq<Position>>)
    ensures Synced(Synced(s, q1), q2) == Synced(s, q2)
  {
  }

  /** The in-place sync of the shared state. */
  method SyncPosition(st: BotState, query: Attempt<seq<Position>>)
    modifies st
    ensures st.Snap() == Synced(old(st.Snap()), query)
  {
    st.positionOpen := BinanceClient.CheckPositionOpen(query);
  }
}
