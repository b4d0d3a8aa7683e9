/** Event alerts in the paging ledger: exactly which open ones nobody has been paged about. */
module Events {
  import opened Base
  import opened Lanes
  import opened Engine
  import opened EngineProofs
  import opened Restore
  import opened Runs
  import opened Silences

  /** The step raises the check's alert, and that is news: it is not open, or open at another severity. */
  predicate RaisesAsNews(pre: State, step: Step, c: Check) {
    && step.Raising? && step.raised.check == c
    && (c !in pre.active || pre.active[c].severity != step.raised.severity)
  }

  /** A raise that is news replaces the alert and fires it; any other changes and says nothing. */
  lemma ARaiseSpeaksExactlyWhenNews(s: State, s': State, a: Alert, em: Emission)
    requires RaiseStep(s, s', a, em)
    ensures if a.check in s.active && s.active[a.check].severity == a.severity then
              a.check !in em && Lookup(s'.active, a.check) == Lookup(s.active, a.check)
            else
              Lookup(em, a.check) == Some(Fire(a)) && Lookup(s'.active, a.check) == Some(a)
    ensures forall c: Check :: c != a.check ==> c !in em && Lookup(s'.active, c) == Lookup(s.active, c)
  {
    assert LaneOf(s', a.check).alert == Lookup(s'.active, a.check);
    forall c: Check | c != a.check
      ensures c !in em && Lookup(s'.active, c) == Lookup(s.active, c)
    {
      assert LaneOf(s', c) == LaneOf(s, c);
    }
  }

  /** Whether an outage has rolled the check's alert up since it was last raised as news. */
  function RolledSince(s: State, run: seq<Entry>, c: Check): bool {
    if run == [] then RolledUp(s, c)
    else
      var init, last := run[..|run| - 1], run[|run| - 1];
      !RaisesAsNews(EndState(s, init), last.step, c) && (RolledSince(s, init, c) || RolledUp(last.post, c))
  }

  /** An event alert is paged exactly when it is open, unrolled and has been since it was raised. */
  predicate EventLedger(l: Lane, paged: bool, rolled: bool) {
    && (paged <==> Pages(l) && !rolled)
    && (l.alert.Some? && l.alert.value.rootCause.Some? ==> rolled)
  }

  lemma EventLane(env: Env, s: State, down: set<NodeId>, step: Step, c: Check, l': Lane, act: Option<Action>,
                  retired: set<NodeId>, paged: bool, rolled: bool)
    requires LaneTakes(env, s, down, step, c, l', act) && Legal(step, retired) && c.Event?
    requires LaneOk(c, LaneOf(s, c), NodeDown(s, c)) && EventLedger(LaneOf(s, c), paged, rolled)
    ensures EventLedger(l', PagedAfter(paged, act), !RaisesAsNews(s, step, c) &&
                        (rolled || (l'.alert.Some? && l'.alert.value.rootCause.Some?)))
  {
  }

  lemma EventStep(s: State, e: Entry, retired: set<NodeId>, c: Check, paged: set<Check>, rolled: bool)
    requires Inv(s, retired) && Follows(s, retired, e) && c.Event? && EventLedger(LaneOf(s, c), c in paged, rolled)
    ensures EventLedger(LaneOf(e.post, c), c in PagedBy(paged, e.acts),
                        !RaisesAsNews(s, e.step, c) && (rolled || RolledUp(e.post, c)))
  {
    assert LaneOk(c, LaneOf(s, c), NodeDown(s, c));
    LaneOfStep(e.env, s, e.post, e.step, e.em, c);
    EventLane(e.env, s, e.post.down, e.step, c, LaneOf(e.post, c), Lookup(e.em, c), retired, c in paged, rolled);
    PagedByPointwise(paged, e.acts, c);
    ListingAnswers(e.acts, e.em, c);
    assert LaneOf(e.post, c).alert == Lookup(e.post.active, c);
  }

  lemma {:induction false} EventLedgerHolds(s: State, retired: set<NodeId>, run: seq<Entry>, c: Check)
    requires IsStart(s, retired) && IsRun(s, retired, run) && c.Event?
    ensures EventLedger(LaneOf(EndState(s, run), c), c in PagedBy(PagedAtStart(s), Log(run)), RolledSince(s, run, c))
  {
    if run == [] {
      assert LaneOf(s, c).alert == Lookup(s.active, c);
    } else {
      var init, last := run[..|run| - 1], run[|run| - 1];
      LastEntry(s, retired, run);
      EventLedgerHolds(s, retired, init, c);
      EveryReachableStateIsSound(s, retired, init);
      EventStep(EndState(s, init), last, EndRetired(s, retired, init), c, PagedBy(PagedAtStart(s), Log(init)),
                RolledSince(s, init, c));
      PagedByConcat(PagedAtStart(s), Log(init), last.acts);
    }
  }

  /**
   * After every run an event check is paged exactly when its alert is open, carries no root cause and
   * has carried none since it was last raised as news. The exception to the rule for all other checks
   * is thus an alert that an outage rolled up and its node's return silently took the marker off.
   */
  lemma EventPagedExactlyWhen(s: State, retired: set<NodeId>, run: seq<Entry>, c: Check)
    requires IsStart(s, retired) && IsRun(s, retired, run) && c.Event?
    ensures var end := EndState(s, run);
            c in PagedBy(PagedAtStart(s), Log(run)) <==>
            c in end.active && end.active[c].rootCause.None? && !RolledSince(s, run, c)
  {
    EventLedgerHolds(s, retired, run, c);
    EveryReachableStateIsSound(s, retired, run);
    var end := EndState(s, run);
    assert LaneOk(c, LaneOf(end, c), NodeDown(end, c)) && LaneOf(end, c).alert == Lookup(end.active, c);
  }
}
