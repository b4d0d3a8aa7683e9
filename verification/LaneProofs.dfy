/** Every engine operation keeps the lane invariant and the paging ledger, lane by lane. */
module LaneProofs {
  import opened Base
  import opened Lanes

  /** The observation a check can be fed. */
  predicate ObsOk(c: Check, o: Obs) {
    && (c.Liveness? || c.Threshold?)
    && (c.Threshold? ==> o.alerting)
    && o.loaded
    && (c.Liveness? ==> IsLivenessState(o.raw) && o.eval.None?)
  }

  /** The root cause an alert opened now may carry: for a node's own alert, the node while down. */
  predicate RootCauseOk(c: Check, rc: Option<NodeId>, isDown: bool) {
    !c.Liveness? ==> rc == if isDown then c.Node() else None
  }

  lemma WeighedIsOk(c: Check, l: Lane, o: Obs, isDown: bool)
    requires LaneOk(c, l, isDown) && ObsOk(c, o)
    ensures TrackerOk(c, Weighed(l, o).tracker)
    ensures Committed(l, o).Some? ==> Committed(l, o).value.state == o.raw == Weighed(l, o).tracker.committed
    ensures Committed(l, o).None? ==> Weighed(l, o).tracker.committed == Ready(l, o).tracker.committed
    ensures Committed(l, o).Some? ==> Ready(l, o).tracker.committed != o.raw
  {
  }

  /** The tracker weighs the sample, whatever becomes of the alert; a sweep leaves it alone. */
  lemma TrackersMove(c: Check, l: Lane, o: Obs, rc: Option<NodeId>, wait: Option<int>, changed: Option<NodeId>)
    ensures Observed(c, l, o, rc, wait).tracker == Some(Weighed(l, o))
    ensures Swept(c, l, rc, changed).tracker == l.tracker
  {
  }

  /** An observed threshold check stays sound, whatever it commits. */
  lemma ObservedThreshold(c: Check, l: Lane, o: Obs, isDown: bool, rc: Option<NodeId>, wait: Option<int>)
    requires c.Threshold? && LaneOk(c, l, isDown) && ObsOk(c, o) && RootCauseOk(c, rc, isDown)
    ensures LaneOk(c, Observed(c, l, o, rc, wait), isDown)
  {
    WeighedIsOk(c, l, o, isDown);
  }

  lemma ObservedThresholdLedger(c: Check, l: Lane, o: Obs, isDown: bool, rc: Option<NodeId>, wait: Option<int>,
                                paged: bool)
    requires c.Threshold? && LaneOk(c, l, isDown) && ObsOk(c, o) && RootCauseOk(c, rc, isDown)
    requires LedgerOk(c, l, paged)
    ensures LedgerOk(c, Observed(c, l, o, rc, wait), PagedAfter(paged, ObservedAction(c, l, o, rc, wait)))
  {
    WeighedIsOk(c, l, o, isDown);
  }

  /** An observed liveness check stays sound for the membership its own commit decides. */
  lemma ObservedLiveness(c: Check, l: Lane, o: Obs, isDown: bool, nowDown: bool, rc: Option<NodeId>, wait: Option<int>)
    requires c.Liveness? && LaneOk(c, l, isDown) && ObsOk(c, o)
    ensures LaneOk(c, Observed(c, l, o, rc, wait), nowDown)
  {
    WeighedIsOk(c, l, o, isDown);
  }

  lemma ObservedLivenessLedger(c: Check, l: Lane, o: Obs, isDown: bool, rc: Option<NodeId>, wait: Option<int>,
                               paged: bool)
    requires c.Liveness? && LaneOk(c, l, isDown) && ObsOk(c, o) && LedgerOk(c, l, paged)
    ensures LedgerOk(c, Observed(c, l, o, rc, wait), PagedAfter(paged, ObservedAction(c, l, o, rc, wait)))
  {
    WeighedIsOk(c, l, o, isDown);
  }

  /**
   * A sweep after `changed` moved. For the checks it does not visit, nothing about their node
   * changed; for the node that moved, `isDown` is the membership before and `nowDown` after.
   */
  lemma SweptIsOk(c: Check, l: Lane, isDown: bool, nowDown: bool, rc: Option<NodeId>, changed: Option<NodeId>)
    requires LaneOk(c, l, isDown) && RootCauseOk(c, rc, nowDown)
    requires c.Node() != changed ==> isDown == nowDown
    ensures LaneOk(c, Swept(c, l, rc, changed), nowDown)
  {
  }

  lemma SweptLedger(c: Check, l: Lane, isDown: bool, rc: Option<NodeId>, changed: Option<NodeId>, paged: bool)
    requires LaneOk(c, l, isDown) && LedgerOk(c, l, paged)
    ensures LedgerOk(c, Swept(c, l, rc, changed), PagedAfter(paged, SweptAction(c, l, rc, changed)))
  {
  }

  lemma OrphanedIsOk(c: Check, l: Lane, isDown: bool, paged: bool)
    requires LaneOk(c, l, isDown) && LedgerOk(c, l, paged)
    ensures LaneOk(c, Orphaned(l), isDown)
    ensures LedgerOk(c, Orphaned(l), PagedAfter(paged, ClosedAction(l)))
  {
  }

  lemma LetGoIsOk(c: Check, l: Lane, isDown: bool, paged: bool)
    requires LaneOk(c, l, isDown) && LedgerOk(c, l, paged)
    ensures LaneOk(c, LetGo(l), isDown)
    ensures LedgerOk(c, LetGo(l), PagedAfter(paged, LetGoAction(l)))
  {
  }
}
