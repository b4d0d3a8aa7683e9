/** The invariant of the alert engine and the paging ledger, kept by every step of every run. */
module EngineProofs {
  import opened Base
  import opened Lanes
  import opened LaneProofs
  import opened Engine

  // ------------------------------------------------------------------------------------------
  // The invariant. `retired` holds the node ids that have been deleted; they do not come back.

  ghost predicate LanesOk(s: State) {
    forall c: Check :: LaneOk(c, LaneOf(s, c), NodeDown(s, c))
  }

  /** The incremental down set is the set of nodes whose committed liveness is `Unreachable`. */
  ghost predicate DownIsExact(s: State) {
    forall n: NodeId :: n in s.down <==> WasDown(s, n)
  }

  /** The liveness map is what the liveness trackers have observed. */
  ghost predicate LiveIsObserved(s: State, retired: set<NodeId>) {
    && (forall n: NodeId :: n in s.live ==>
          Liveness(n) in s.states && s.states[Liveness(n)].tracker.Observed() == Some(s.live[n]))
    && (forall n: NodeId :: n !in retired && Liveness(n) in s.states ==>
          s.states[Liveness(n)].tracker.Observed().Some? ==> n in s.live)
  }

  ghost predicate Inv(s: State, retired: set<NodeId>) {
    LanesOk(s) && DownIsExact(s) && LiveIsObserved(s, retired)
  }

  /** A check is paged exactly when its alert is open, unrolled and not held. */
  ghost predicate LedgerHolds(s: State, paged: set<Check>) {
    forall c: Check :: LedgerOk(c, LaneOf(s, c), c in paged)
  }

  function PagedNext(paged: set<Check>, em: Emission): set<Check> {
    (set c | c in paged && !(c in em && !em[c].Fire?)) + (set c | c in em && em[c].Fire? && em[c].alert.rootCause.None?)
  }

  lemma PagedPointwise(paged: set<Check>, em: Emission, c: Check)
    ensures c in PagedNext(paged, em) <==> PagedAfter(c in paged, Lookup(em, c))
  {
  }

  // ------------------------------------------------------------------------------------------
  // One observation.

  /** Down membership flips only with a committed transition: `live` already says what was held. */
  lemma FlipNeedsATransition(s: State, c: Check, o: Obs, retired: set<NodeId>)
    requires Inv(s, retired) && ObsOk(c, o) && c.Liveness? && c.node !in retired
    requires Reattributes(s, c, Weighed(LaneOf(s, c), o)) || Flips(s, c, Weighed(LaneOf(s, c), o))
    ensures Committed(LaneOf(s, c), o).Some?
  {
    var l := LaneOf(s, c);
    assert LaneOk(c, l, NodeDown(s, c));
    if l.tracker.None? {
      assert c.node !in s.live;
    } else {
      assert c in s.states;
    }
  }

  lemma ObserveKeepsDown(env: Env, s: State, s': State, c: Check, o: Obs, em: Emission)
    requires DownIsExact(s) && ObsOk(c, o) && ObserveStep(env, s, s', c, o, em)
    ensures DownIsExact(s')
  {
    forall n: NodeId
      ensures n in s'.down <==> WasDown(s', n)
    {
      assert n in s.down <==> WasDown(s, n);
    }
  }

  /** Only the observed check's own tracker moves. */
  lemma ObserveKeepsOtherTrackers(env: Env, s: State, s': State, c: Check, o: Obs, em: Emission, x: Check)
    requires ObsOk(c, o) && ObserveStep(env, s, s', c, o, em)
    ensures Lookup(s'.states, x) == if x == c then Some(Weighed(LaneOf(s, c), o)) else Lookup(s.states, x)
  {
    TrackersMove(x, LaneOf(s, x), o, RcNow(env, x, s'.down), WaitOn(env, s, c, o), c.Node());
  }

  lemma ObserveKeepsLive(env: Env, s: State, s': State, c: Check, o: Obs, em: Emission, retired: set<NodeId>)
    requires LiveIsObserved(s, retired) && ObsOk(c, o) && c.Node().value !in retired
    requires ObserveStep(env, s, s', c, o, em)
    ensures LiveIsObserved(s', retired)
  {
    forall n: NodeId
      ensures n in s'.live ==>
          Liveness(n) in s'.states && s'.states[Liveness(n)].tracker.Observed() == Some(s'.live[n])
      ensures n !in retired && Liveness(n) in s'.states ==>
          s'.states[Liveness(n)].tracker.Observed().Some? ==> n in s'.live
    {
      ObserveKeepsOtherTrackers(env, s, s', c, o, em, Liveness(n));
      assert n in s.live ==> Liveness(n) in s.states;
      if n in s'.live && Liveness(n) == c && n in s.live {
        ConfirmationStays(LaneOf(s, c), o);
      }
    }
  }

  /** A confirmed tracker stays confirmed. */
  lemma ConfirmationStays(l: Lane, o: Obs)
    requires l.tracker.Some? && l.tracker.value.tracker.confirmed
    ensures Weighed(l, o).tracker.confirmed
  {
  }

  /** A lane nobody swept, when its node left the down set for maintenance. */
  lemma UndownedLaneIsOk(c: Check, l: Lane)
    requires LaneOk(c, l, true)
    ensures LaneOk(c, l, false)
  {
  }

  /** When no sweep follows, a node can only have left the down set. */
  lemma UnsweptNodesDoNotGoDown(env: Env, s: State, s': State, c: Check, o: Obs, em: Emission, retired: set<NodeId>,
                                x: Check)
    requires Inv(s, retired) && ObsOk(c, o) && c.Node().value !in retired
    requires ObserveStep(env, s, s', c, o, em)
    ensures NodeDown(s', x) && !NodeDown(s, x) ==> SweepFollows(s, c, o)
    ensures x.Node() != c.Node() ==> NodeDown(s', x) == NodeDown(s, x)
  {
    var cs := Weighed(LaneOf(s, c), o);
    if Flips(s, c, cs) {
      FlipNeedsATransition(s, c, o, retired);
    }
  }

  lemma SweptLaneStaysOk(env: Env, s: State, s': State, c: Check, x: Check, em: Emission)
    requires LaneOk(x, LaneOf(s, x), NodeDown(s, x)) && c.Liveness?
    requires SweptTo(env, s, s', s'.down, x, c.Node(), em)
    requires x.Node() != c.Node() ==> NodeDown(s', x) == NodeDown(s, x)
    ensures LaneOk(x, LaneOf(s', x), NodeDown(s', x))
  {
    SweptIsOk(x, LaneOf(s, x), NodeDown(s, x), NodeDown(s', x), RcNow(env, x, s'.down), c.Node());
  }

  lemma ObserveKeepsOtherLanes(env: Env, s: State, s': State, c: Check, o: Obs, em: Emission, retired: set<NodeId>,
                               x: Check)
    requires Inv(s, retired) && ObsOk(c, o) && c.Node().value !in retired
    requires ObserveStep(env, s, s', c, o, em) && x != c
    ensures LaneOk(x, LaneOf(s', x), NodeDown(s', x))
  {
    assert LaneOk(x, LaneOf(s, x), NodeDown(s, x));
    UnsweptNodesDoNotGoDown(env, s, s', c, o, em, retired, x);
    if SweepFollows(s, c, o) {
      SweptLaneStaysOk(env, s, s', c, x, em);
    } else {
      assert LaneOf(s', x) == LaneOf(s, x);
      if NodeDown(s, x) && !NodeDown(s', x) {
        UndownedLaneIsOk(x, LaneOf(s, x));
      }
    }
  }

  lemma ObserveKeepsOwnLane(env: Env, s: State, s': State, c: Check, o: Obs, em: Emission, retired: set<NodeId>)
    requires Inv(s, retired) && ObsOk(c, o)
    requires ObserveStep(env, s, s', c, o, em)
    ensures LaneOk(c, LaneOf(s', c), NodeDown(s', c))
  {
    assert LaneOk(c, LaneOf(s, c), NodeDown(s, c));
    var rc, wait := RcNow(env, c, s'.down), WaitOn(env, s, c, o);
    if c.Liveness? {
      ObservedLiveness(c, LaneOf(s, c), o, NodeDown(s, c), NodeDown(s', c), rc, wait);
    } else {
      ObservedThreshold(c, LaneOf(s, c), o, NodeDown(s, c), rc, wait);
    }
  }

  lemma ObserveKeepsInv(env: Env, s: State, s': State, c: Check, o: Obs, em: Emission, retired: set<NodeId>)
    requires Inv(s, retired) && ObsOk(c, o) && c.Node().value !in retired
    requires ObserveStep(env, s, s', c, o, em)
    ensures Inv(s', retired)
  {
    ObserveKeepsDown(env, s, s', c, o, em);
    ObserveKeepsLive(env, s, s', c, o, em, retired);
    forall x: Check
      ensures LaneOk(x, LaneOf(s', x), NodeDown(s', x))
    {
      if x == c {
        ObserveKeepsOwnLane(env, s, s', c, o, em, retired);
      } else {
        ObserveKeepsOtherLanes(env, s, s', c, o, em, retired, x);
      }
    }
  }

  lemma ObserveKeepsLedger(env: Env, s: State, s': State, c: Check, o: Obs, em: Emission, retired: set<NodeId>,
                           paged: set<Check>)
    requires Inv(s, retired) && ObsOk(c, o)
    requires ObserveStep(env, s, s', c, o, em) && LedgerHolds(s, paged)
    ensures LedgerHolds(s', PagedNext(paged, em))
  {
    forall x: Check
      ensures LedgerOk(x, LaneOf(s', x), x in PagedNext(paged, em))
    {
      PagedPointwise(paged, em, x);
      assert LaneOk(x, LaneOf(s, x), NodeDown(s, x)) && LedgerOk(x, LaneOf(s, x), x in paged);
      if x == c {
        ObserveKeepsOwnLedger(env, s, s', c, o, em, c in paged);
      } else if SweepFollows(s, c, o) {
        SweptLedger(x, LaneOf(s, x), NodeDown(s, x), RcNow(env, x, s'.down), c.Node(), x in paged);
      }
    }
  }

  lemma ObserveKeepsOwnLedger(env: Env, s: State, s': State, c: Check, o: Obs, em: Emission, paged: bool)
    requires LaneOk(c, LaneOf(s, c), NodeDown(s, c)) && LedgerOk(c, LaneOf(s, c), paged)
    requires ObsOk(c, o) && ObserveStep(env, s, s', c, o, em)
    ensures LedgerOk(c, LaneOf(s', c), PagedAfter(paged, Lookup(em, c)))
  {
    var rc, wait := RcNow(env, c, s'.down), WaitOn(env, s, c, o);
    if c.Liveness? {
      ObservedLivenessLedger(c, LaneOf(s, c), o, NodeDown(s, c), rc, wait, paged);
    } else {
      ObservedThresholdLedger(c, LaneOf(s, c), o, NodeDown(s, c), rc, wait, paged);
    }
  }

  // ------------------------------------------------------------------------------------------
  // The other steps.

  lemma SameTrackersKeepLiveness(s: State, s': State, retired: set<NodeId>)
    requires DownIsExact(s) && LiveIsObserved(s, retired) && s'.live == s.live && s'.down == s.down
    requires forall n: NodeId :: Lookup(s'.states, Liveness(n)) == Lookup(s.states, Liveness(n))
    ensures DownIsExact(s') && LiveIsObserved(s', retired)
  {
    forall n: NodeId
      ensures Liveness(n) in s'.states <==> Liveness(n) in s.states
    {
      assert Lookup(s'.states, Liveness(n)) == Lookup(s.states, Liveness(n));
    }
    assert forall n: NodeId :: WasDown(s', n) <==> WasDown(s, n);
  }

  /** Steps that move lanes only, and leave liveness trackers alone. */
  ghost predicate TrackersStay(s: State, s': State) {
    forall x: Check :: x.Liveness? ==> LaneOf(s', x).tracker == LaneOf(s, x).tracker
  }

  lemma LaneStepKeepsInv(s: State, s': State, retired: set<NodeId>)
    requires Inv(s, retired) && SameBeside(s, s') && TrackersStay(s, s') && LanesOk(s')
    ensures Inv(s', retired)
  {
    forall n: NodeId
      ensures Lookup(s'.states, Liveness(n)) == Lookup(s.states, Liveness(n))
    {
      assert LaneOf(s', Liveness(n)).tracker == LaneOf(s, Liveness(n)).tracker;
    }
    SameTrackersKeepLiveness(s, s', retired);
  }

  lemma RegroupKeepsInv(env: Env, s: State, s': State, em: Emission, retired: set<NodeId>, paged: set<Check>)
    requires Inv(s, retired) && LedgerHolds(s, paged) && RegroupStep(env, s, s', em)
    ensures Inv(s', retired) && LedgerHolds(s', PagedNext(paged, em))
  {
    forall x: Check
      ensures LaneOk(x, LaneOf(s', x), NodeDown(s', x)) && LedgerOk(x, LaneOf(s', x), x in PagedNext(paged, em))
      ensures LaneOf(s', x).tracker == LaneOf(s, x).tracker
    {
      assert LaneOk(x, LaneOf(s, x), NodeDown(s, x)) && LedgerOk(x, LaneOf(s, x), x in paged);
      assert SweptTo(env, s, s', s.down, x, None, em);
      PagedPointwise(paged, em, x);
      SweptIsOk(x, LaneOf(s, x), NodeDown(s, x), NodeDown(s', x), RcNow(env, x, s.down), None);
      SweptLedger(x, LaneOf(s, x), NodeDown(s, x), RcNow(env, x, s.down), None, x in paged);
    }
    LaneStepKeepsInv(s, s', retired);
  }

  /** One check's part of keeping the invariant and the ledger. */
  ghost predicate KeepsLane(s': State, em: Emission, paged: set<Check>, x: Check) {
    LaneOk(x, LaneOf(s', x), NodeDown(s', x)) && LedgerOk(x, LaneOf(s', x), x in PagedNext(paged, em))
  }

  lemma LetGoKeepsLane(s: State, s': State, c: Check, em: Emission, paged: set<Check>, x: Check)
    requires LaneOk(x, LaneOf(s, x), NodeDown(s, x)) && LedgerOk(x, LaneOf(s, x), x in paged) && s'.down == s.down
    requires if x == c then LaneOf(s', x) == LetGo(LaneOf(s, x)) && Emits(em, x, LetGoAction(LaneOf(s, x)))
             else LaneOf(s', x) == LaneOf(s, x) && Emits(em, x, None)
    ensures KeepsLane(s', em, paged, x)
  {
    PagedPointwise(paged, em, x);
    if x == c {
      LetGoIsOk(x, LaneOf(s, x), NodeDown(s, x), x in paged);
    }
  }

  lemma LetGoKeepsInv(s: State, s': State, c: Check, em: Emission, retired: set<NodeId>, paged: set<Check>)
    requires Inv(s, retired) && LedgerHolds(s, paged) && LetGoStep(s, s', c, em)
    ensures Inv(s', retired) && LedgerHolds(s', PagedNext(paged, em))
  {
    forall x: Check
      ensures LaneOk(x, LaneOf(s', x), NodeDown(s', x)) && LedgerOk(x, LaneOf(s', x), x in PagedNext(paged, em))
      ensures LaneOf(s', x).tracker == LaneOf(s, x).tracker
    {
      assert LaneOk(x, LaneOf(s, x), NodeDown(s, x)) && LedgerOk(x, LaneOf(s, x), x in paged);
      LetGoKeepsLane(s, s', c, em, paged, x);
    }
    LaneStepKeepsInv(s, s', retired);
  }

  lemma OrphanKeepsLane(s: State, s': State, gone: bool, em: Emission, paged: set<Check>, x: Check)
    requires LaneOk(x, LaneOf(s, x), NodeDown(s, x)) && LedgerOk(x, LaneOf(s, x), x in paged)
    requires NodeDown(s', x) == NodeDown(s, x) || (gone && !NodeDown(s', x))
    requires if gone then LaneOf(s', x) == Orphaned(LaneOf(s, x)) && Emits(em, x, ClosedAction(LaneOf(s, x)))
             else LaneOf(s', x) == LaneOf(s, x) && Emits(em, x, None)
    ensures KeepsLane(s', em, paged, x)
  {
    PagedPointwise(paged, em, x);
    if gone {
      OrphanedIsOk(x, LaneOf(s, x), NodeDown(s, x), x in paged);
      if NodeDown(s, x) && !NodeDown(s', x) {
        UndownedLaneIsOk(x, LaneOf(s', x));
      }
    }
  }

  lemma OrphanKeepsInv(s: State, s': State, orphans: set<Check>, em: Emission, retired: set<NodeId>, paged: set<Check>)
    requires Inv(s, retired) && LedgerHolds(s, paged) && OrphanStep(s, s', orphans, em)
    requires forall c :: c in orphans ==> !c.Liveness?
    ensures Inv(s', retired) && LedgerHolds(s', PagedNext(paged, em))
  {
    forall x: Check
      ensures LaneOk(x, LaneOf(s', x), NodeDown(s', x)) && LedgerOk(x, LaneOf(s', x), x in PagedNext(paged, em))
      ensures x.Liveness? ==> LaneOf(s', x).tracker == LaneOf(s, x).tracker
    {
      assert LaneOk(x, LaneOf(s, x), NodeDown(s, x)) && LedgerOk(x, LaneOf(s, x), x in paged);
      assert OrphanedTo(s, s', orphans, x, em);
      OrphanKeepsLane(s, s', x in orphans, em, paged, x);
    }
    LaneStepKeepsInv(s, s', retired);
  }

  /** A raised alert is fresh: unrolled, not held, and on a check no rule observes. */
  predicate RaiseOk(a: Alert) {
    (a.check.Event? || a.check.Marker? || a.check.Fleet?) && a.rootCause.None? && a.heldUntil.None?
  }

  lemma RaiseKeepsInv(s: State, s': State, a: Alert, em: Emission, retired: set<NodeId>, paged: set<Check>)
    requires Inv(s, retired) && LedgerHolds(s, paged) && RaiseStep(s, s', a, em) && RaiseOk(a)
    ensures Inv(s', retired) && LedgerHolds(s', PagedNext(paged, em))
  {
    forall x: Check
      ensures LaneOk(x, LaneOf(s', x), NodeDown(s', x)) && LedgerOk(x, LaneOf(s', x), x in PagedNext(paged, em))
      ensures LaneOf(s', x).tracker == LaneOf(s, x).tracker
    {
      assert LaneOk(x, LaneOf(s, x), NodeDown(s, x)) && LedgerOk(x, LaneOf(s, x), x in paged);
      PagedPointwise(paged, em, x);
    }
    LaneStepKeepsInv(s, s', retired);
  }

  lemma CloseKeepsInv(s: State, s': State, c: Check, em: Emission, retired: set<NodeId>, paged: set<Check>)
    requires Inv(s, retired) && LedgerHolds(s, paged) && CloseStep(s, s', c, em)
    requires c.Event? || c.Marker? || c.Fleet?
    ensures Inv(s', retired) && LedgerHolds(s', PagedNext(paged, em))
  {
    forall x: Check
      ensures LaneOk(x, LaneOf(s', x), NodeDown(s', x)) && LedgerOk(x, LaneOf(s', x), x in PagedNext(paged, em))
      ensures LaneOf(s', x).tracker == LaneOf(s, x).tracker
    {
      assert LaneOk(x, LaneOf(s, x), NodeDown(s, x)) && LedgerOk(x, LaneOf(s, x), x in paged);
      PagedPointwise(paged, em, x);
    }
    LaneStepKeepsInv(s, s', retired);
  }

  /** The ids a deletion retires: the nodes it forgets. */
  function RetiredBy(s: State, kept: set<NodeId>): set<NodeId> {
    s.live.Keys - kept
  }

  lemma ForgetKeepsLiveness(s: State, s': State, kept: set<NodeId>, em: Emission, retired: set<NodeId>)
    requires Inv(s, retired) && ForgetStep(s, s', kept, em)
    ensures DownIsExact(s') && LiveIsObserved(s', retired + RetiredBy(s, kept))
  {
    forall n: NodeId
      ensures n in s'.down <==> WasDown(s', n)
    {
      assert n in s.down <==> WasDown(s, n);
    }
    forall n: NodeId
      ensures n in kept ==> Lookup(s'.states, Liveness(n)) == Lookup(s.states, Liveness(n))
      ensures Liveness(n) in s'.states ==> Lookup(s'.states, Liveness(n)) == Lookup(s.states, Liveness(n))
    {
      assert LaneOf(s', Liveness(n)).tracker == Lookup(s'.states, Liveness(n));
      assert LaneOf(s, Liveness(n)).tracker == Lookup(s.states, Liveness(n));
    }
  }

  /** A deleted node is down no longer, and nobody else's standing moves. */
  lemma ForgetTakesDown(s: State, s': State, kept: set<NodeId>, x: Check)
    requires DownIsExact(s) && s'.down == s.down - (s.live.Keys - kept)
    ensures NodeDown(s', x) <==> NodeDown(s, x) && !AboutDeleted(x, kept)
  {
    if NodeDown(s, x) {
      assert WasDown(s, x.Node().value);
    }
  }

  lemma ForgetKeepsInv(s: State, s': State, kept: set<NodeId>, em: Emission, retired: set<NodeId>, paged: set<Check>)
    requires Inv(s, retired) && LedgerHolds(s, paged) && ForgetStep(s, s', kept, em)
    ensures Inv(s', retired + RetiredBy(s, kept)) && LedgerHolds(s', PagedNext(paged, em))
  {
    ForgetKeepsLiveness(s, s', kept, em, retired);
    forall x: Check
      ensures LaneOk(x, LaneOf(s', x), NodeDown(s', x)) && LedgerOk(x, LaneOf(s', x), x in PagedNext(paged, em))
    {
      assert LaneOk(x, LaneOf(s, x), NodeDown(s, x)) && LedgerOk(x, LaneOf(s, x), x in paged);
      ForgetTakesDown(s, s', kept, x);
      OrphanKeepsLane(s, s', AboutDeleted(x, kept), em, paged, x);
    }
  }
}
