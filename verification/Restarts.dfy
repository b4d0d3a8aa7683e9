/** A restart: what comes back, and that nobody notices. */
module Restarts {
  import opened Base
  import opened Hysteresis
  import opened Grouping
  import opened Lanes
  import opened LaneProofs
  import opened Engine
  import opened EngineProofs
  import opened Restore
  import opened Runs
  import opened Lifelines

  // ------------------------------------------------------------------------------------------
  // What a restore on an empty engine brings back.

  /** Row `i` is the first about its check; later duplicates do not count. */
  predicate IsFirstRow(alerts: seq<Alert>, i: nat) {
    i < |alerts| && forall j :: 0 <= j < i ==> alerts[j].check != alerts[i].check
  }

  lemma {:induction false} TheFirstRowIsFound(alerts: seq<Alert>, i: nat)
    requires IsFirstRow(alerts, i)
    ensures FirstAbout(alerts, alerts[i].check) == Some(alerts[i])
  {
    if i > 0 {
      assert alerts[0].check != alerts[i].check;
      var rest := alerts[1..];
      assert forall j :: 0 <= j < i - 1 ==> rest[j] == alerts[j + 1];
      TheFirstRowIsFound(rest, i - 1);
    }
  }

  /**
   * The first row about a check comes back as an open alert, the same in everything but its roll-up,
   * which is worked out again from who is down: a liveness alert's by the grouping, any other's by its own
   * node. Its tracker holds the row's state, already observed, with nothing pending and no flaps.
   */
  lemma TheFirstRowComesBack(env: Env, s': State, alerts: seq<Alert>, i: nat)
    requires RowsOk(alerts) && RestoreStep(env, EMPTY, s', alerts) && IsFirstRow(alerts, i)
    ensures var c := alerts[i].check;
            && c in s'.active && s'.active[c] == alerts[i].(rootCause := s'.active[c].rootCause)
            && s'.active[c].rootCause == (match c
                                          case Liveness(n) => RootCause(env.graph, n, s'.down)
                                          case Fleet(_) => None
                                          case _ => if c.node in s'.down then Some(c.node) else None)
            && c in s'.states && s'.states[c].tracker == Tracker(alerts[i].state, true, None, 3)
            && s'.states[c].flap.transitions == []
            && c !in s'.held && c !in s'.releasing && c !in s'.sidePending
  {
    var c := alerts[i].check;
    TheFirstRowIsFound(alerts, i);
    assert LaneOf(EMPTY, c) == EMPTY_LANE && RowOk(alerts[i]);
    assert LaneOf(s', c) == SeededLane(env, LaneOf(EMPTY, c), FirstAbout(alerts, c), s'.down);
    assert LaneOf(s', c).alert == Lookup(s'.active, c) && LaneOf(s', c).tracker == Lookup(s'.states, c);
    assert LaneOf(s', c).hold == Lookup(s'.held, c) && LaneOf(s', c).release == Lookup(s'.releasing, c);
    assert LaneOf(s', c).side == Lookup(s'.sidePending, c);
  }

  /** What no row is about does not come back, and the down nodes are the ones whose liveness has a row. */
  lemma NothingElseComesBack(env: Env, s': State, alerts: seq<Alert>, c: Check)
    requires RowsOk(alerts) && RestoreStep(env, EMPTY, s', alerts)
    ensures var known := exists i :: 0 <= i < |alerts| && alerts[i].check == c;
            && (c in s'.active <==> known) && (c in s'.states <==> known)
            && (c in s'.rowStates <==> known && c.Threshold? && c.dim.Row?)
            && (c in s'.legacy <==> known && c.Threshold? && c.dim.Whole?)
            && (c.Liveness? ==> (c.node in s'.down <==> known))
  {
    FirstAboutIsARow(alerts, c);
    RowsAreOk(alerts, c);
    assert LaneOf(EMPTY, c) == EMPTY_LANE;
    assert LaneOf(s', c) == SeededLane(env, LaneOf(EMPTY, c), FirstAbout(alerts, c), s'.down);
    assert LaneOf(s', c).alert == Lookup(s'.active, c) && LaneOf(s', c).tracker == Lookup(s'.states, c);
    if c.Liveness? {
      assert Lookup(s'.live, c.node) == Or(Lookup(EMPTY.live, c.node), StateOf(FirstAbout(alerts, c)));
    }
  }

  /** What the engine has observed by then wins over any row: its trackers, its alerts and its liveness stay. */
  lemma WhatWasObservedWins(env: Env, s: State, s': State, alerts: seq<Alert>, c: Check)
    requires RestoreStep(env, s, s', alerts)
    ensures c in s.states ==> Lookup(s'.states, c) == Lookup(s.states, c)
    ensures c in s.active ==> Lookup(s'.active, c) == Lookup(s.active, c)
    ensures c.Liveness? && c.node in s.live ==>
              Lookup(s'.live, c.node) == Lookup(s.live, c.node) && (c.node in s'.down <==> c.node in s.down)
  {
    assert LaneOf(s', c) == SeededLane(env, LaneOf(s, c), FirstAbout(alerts, c), s'.down);
    assert LaneOf(s', c).alert == Lookup(s'.active, c) && LaneOf(s', c).tracker == Lookup(s'.states, c);
    assert LaneOf(s, c).alert == Lookup(s.active, c) && LaneOf(s, c).tracker == Lookup(s.states, c);
    if c.Liveness? {
      assert Lookup(s'.live, c.node) == Or(Lookup(s.live, c.node), StateOf(FirstAbout(alerts, c)));
    }
  }

  // ------------------------------------------------------------------------------------------
  // Nobody notices.

  /** A sample that shows what the alert already says: its state, on its side. */
  predicate Confirms(a: Alert, o: Obs) {
    o.raw == a.state && (a.breach.Some? && o.eval.Some? ==> a.breach.value.direction == o.eval.value.direction)
  }

  predicate AllConfirm(a: Alert, os: seq<Obs>) {
    forall i :: 0 <= i < |os| ==> Confirms(a, os[i])
  }

  /** An open, unrolled threshold alert with nothing pending: how a restart leaves it. */
  predicate Steady(c: Check, l: Lane, a: Alert) {
    && c.Threshold? && LaneOk(c, l, false) && l.alert == Some(a) && a.rootCause.None?
    && l.tracker.Some? && l.tracker.value.tracker.candidate.None? && l.side.None? && l.release.None?
  }

  lemma ConfirmedStep(c: Check, l: Lane, a: Alert, o: Obs)
    requires Steady(c, l, a) && ObsOk(c, o) && Confirms(a, o)
    ensures Steady(c, Observed(c, l, o, None, None), a) && ObservedAction(c, l, o, None, None).None?
  {
    ObservedThreshold(c, l, o, false, None, None);
  }

  lemma {:induction false} StaysSteady(c: Check, l: Lane, a: Alert, os: seq<Obs>)
    requires Steady(c, l, a) && AllOk(c, os) && AllConfirm(a, os)
    ensures Steady(c, LaneAfter(c, l, os), a) && ActsOf(c, l, os) == []
  {
    if os != [] {
      StaysSteady(c, l, a, os[..|os| - 1]);
      ConfirmedStep(c, LaneAfter(c, l, os[..|os| - 1]), a, os[|os| - 1]);
    }
  }

  /** Every sample is healthy, at one dwell. */
  predicate AllHealthy(os: seq<Obs>, d: nat) {
    forall i :: 0 <= i < |os| ==> os[i].raw == Ok && Max(os[i].dwell, 1) == d
  }

  /** The alert is open, and its check has been healthy for `k` samples in a row. */
  predicate Recovering(c: Check, l: Lane, a: Alert, k: nat) {
    && c.Threshold? && LaneOk(c, l, false) && l.alert == Some(a)
    && l.tracker.Some? && l.release.None?
    && l.tracker.value.tracker.candidate == if k == 0 then None else Some(Run(Ok, k))
  }

  lemma HealthyStep(c: Check, l: Lane, a: Alert, k: nat, o: Obs)
    requires Recovering(c, l, a, k) && ObsOk(c, o) && o.raw == Ok
    ensures k + 1 < o.Dwell() ==>
              Recovering(c, Observed(c, l, o, None, None), a, k + 1) && ObservedAction(c, l, o, None, None).None?
    ensures o.Dwell() <= k + 1 ==>
              Observed(c, l, o, None, None).alert.None? && ObservedAction(c, l, o, None, None) == Some(Resolve(a))
  {
    ObservedThreshold(c, l, o, false, None, None);
  }

  lemma {:induction false} StaysRecovering(c: Check, l: Lane, a: Alert, os: seq<Obs>, d: nat)
    requires Recovering(c, l, a, 0) && AllOk(c, os) && AllHealthy(os, d) && |os| < d
    ensures Recovering(c, LaneAfter(c, l, os), a, |os|) && ActsOf(c, l, os) == []
  {
    if os != [] {
      StaysRecovering(c, l, a, os[..|os| - 1], d);
      HealthyStep(c, LaneAfter(c, l, os[..|os| - 1]), a, |os| - 1, os[|os| - 1]);
    }
  }

  lemma RecoversOnce(c: Check, l: Lane, a: Alert, os: seq<Obs>, d: nat)
    requires Steady(c, l, a) && AllOk(c, os) && AllHealthy(os, d) && 1 <= d && |os| <= d
    ensures if |os| < d then ActsOf(c, l, os) == [] && LaneAfter(c, l, os).alert == Some(a)
            else ActsOf(c, l, os) == [Resolve(a)] && LaneAfter(c, l, os).alert.None?
  {
    if |os| < d {
      StaysRecovering(c, l, a, os, d);
    } else {
      var init, o := os[..d - 1], os[d - 1];
      assert os == init + [o];
      StaysRecovering(c, l, a, init, d);
      OneMore(c, l, init, o);
      LastHealthyStep(c, LaneAfter(c, l, init), a, d - 1, o);
    }
  }

  lemma LastHealthyStep(c: Check, l: Lane, a: Alert, k: nat, o: Obs)
    requires Recovering(c, l, a, k) && ObsOk(c, o) && o.raw == Ok && o.Dwell() <= k + 1
    ensures Observed(c, l, o, None, None).alert.None? && AsSeq(ObservedAction(c, l, o, None, None)) == [Resolve(a)]
  {
    HealthyStep(c, l, a, k, o);
  }

  /** A restored threshold alert that stands on its own, and a quiet run after the restart. */
  ghost predicate AfterRestart(env: Env, s: State, alerts: seq<Alert>, i: nat, run: seq<Entry>) {
    && RowsOk(alerts) && RestoreStep(env, EMPTY, s, alerts) && IsFirstRow(alerts, i)
    && alerts[i].check.Threshold? && alerts[i].check.node !in s.down
    && IsRun(s, {}, run) && Quiet(s, run, alerts[i].check)
  }

  lemma RestoredIsSteady(env: Env, s: State, alerts: seq<Alert>, i: nat)
    requires RowsOk(alerts) && RestoreStep(env, EMPTY, s, alerts) && IsFirstRow(alerts, i)
    requires alerts[i].check.Threshold? && alerts[i].check.node !in s.down
    ensures Inv(s, {}) && Steady(alerts[i].check, LaneOf(s, alerts[i].check), alerts[i])
  {
    RestoreEstablishesInv(env, s, alerts);
    TheFirstRowComesBack(env, s, alerts, i);
    assert RowOk(alerts[i]) && LaneOk(alerts[i].check, LaneOf(s, alerts[i].check), NodeDown(s, alerts[i].check));
  }

  /**
   * A check that was broken before the restart and still is: as long as its samples show what its alert
   * already says, nothing is delivered about it, and the alert stays open as it was.
   */
  lemma StillBrokenSaysNothing(env: Env, s: State, alerts: seq<Alert>, i: nat, run: seq<Entry>)
    requires AfterRestart(env, s, alerts, i, run) && AllConfirm(alerts[i], ObsAbout(run, alerts[i].check))
    ensures LogAbout(Log(run), alerts[i].check) == []
    ensures Lookup(EndState(s, run).active, alerts[i].check) == Some(alerts[i])
  {
    var c := alerts[i].check;
    RestoredIsSteady(env, s, alerts, i);
    LaneFollowsItsObservations(s, {}, run, c);
    StaysSteady(c, LaneOf(s, c), alerts[i], ObsAbout(run, c));
  }

  /** A check that recovers after the restart: its first full dwell of healthy samples resolves it, once. */
  lemma RecoveredResolvesOnce(env: Env, s: State, alerts: seq<Alert>, i: nat, run: seq<Entry>, d: nat)
    requires AfterRestart(env, s, alerts, i, run) && 1 <= d
    requires AllHealthy(ObsAbout(run, alerts[i].check), d) && |ObsAbout(run, alerts[i].check)| <= d
    ensures var c, end := alerts[i].check, EndState(s, run);
            if |ObsAbout(run, c)| < d then LogAbout(Log(run), c) == [] && Lookup(end.active, c) == Some(alerts[i])
            else LogAbout(Log(run), c) == [Resolve(alerts[i])] && c !in end.active
  {
    var c := alerts[i].check;
    RestoredIsSteady(env, s, alerts, i);
    LaneFollowsItsObservations(s, {}, run, c);
    RecoversOnce(c, LaneOf(s, c), alerts[i], ObsAbout(run, c), d);
    assert LaneOf(EndState(s, run), c).alert == Lookup(EndState(s, run).active, c);
  }

  // ------------------------------------------------------------------------------------------
  // The same for a node that was down.

  /** No step finds anybody to speak for the node, or deletes it. */
  ghost predicate NobodySpeaksFor(e: Entry, n: NodeId) {
    match e.step
    case Observing(c, _) => c.Liveness? && c.node != n ==> RootCause(e.env.graph, n, e.post.down).None?
    case Regrouping => RootCause(e.env.graph, n, e.post.down).None?
    case Forgetting(kept) => n in kept
    case _ => true
  }

  ghost predicate StandsAloneThroughout(run: seq<Entry>, n: NodeId) {
    run != [] ==> StandsAloneThroughout(run[..|run| - 1], n) && NobodySpeaksFor(run[|run| - 1], n)
  }

  /** The node's alert is open and sent, and it has answered for `k` samples in a row. */
  predicate Answering(c: Check, l: Lane, a: Alert, k: nat) {
    && c.Liveness? && LaneOk(c, l, true) && l.alert == Some(a) && a.rootCause.None? && a.heldUntil.None?
    && l.tracker.value.tracker.candidate == if k == 0 then None else Some(Run(Ok, k))
  }

  /** Every sample finds the node in one state, with a rule in force that asks for `d` in a row. */
  predicate AllShow(os: seq<Obs>, p: NodeState, d: nat) {
    forall i :: 0 <= i < |os| ==> os[i].raw == p && os[i].alerting && Max(os[i].dwell, 1) == d
  }

  lemma UnspokenStep(env: Env, s: State, down: set<NodeId>, step: Step, n: NodeId, l': Lane, act: Option<Action>,
                     a: Alert, k: nat)
    requires LaneTakes(env, s, down, step, Liveness(n), l', act) && Answering(Liveness(n), LaneOf(s, Liveness(n)), a, k)
    requires step.Orphaning? ==> Liveness(n) !in step.orphans
    requires step.Raising? ==> step.raised.check != Liveness(n)
    requires step.Closing? ==> step.closed != Liveness(n)
    requires step.Forgetting? ==> n in step.kept
    requires step.Observing? ==> step.c != Liveness(n) && (step.c.Liveness? ==> RootCause(env.graph, n, down).None?)
    requires step.Regrouping? ==> RootCause(env.graph, n, down).None?
    ensures l' == LaneOf(s, Liveness(n)) && act.None?
  {
  }

  lemma OwnSample(c: Check, l: Lane, a: Alert, k: nat, o: Obs, rc: Option<NodeId>, wait: Option<int>)
    requires Answering(c, l, a, k) && ObsOk(c, o) && o.alerting
    ensures o.raw == Unreachable && k == 0 ==>
              Answering(c, Observed(c, l, o, rc, wait), a, 0) && ObservedAction(c, l, o, rc, wait).None?
    ensures o.raw == Ok && k + 1 < o.Dwell() ==>
              Answering(c, Observed(c, l, o, rc, wait), a, k + 1) && ObservedAction(c, l, o, rc, wait).None?
    ensures o.raw == Ok && o.Dwell() <= k + 1 ==>
              Observed(c, l, o, rc, wait).alert.None? && ObservedAction(c, l, o, rc, wait) == Some(Resolve(a))
  {
    WeighedIsOk(c, l, o, true);
  }

  /** How far `os` samples of state `p` have brought the node's recovery. */
  function Progress(p: NodeState, os: seq<Obs>): nat {
    if p == Ok then |os| else 0
  }

  lemma EntryWhileDown(s: State, retired: set<NodeId>, e: Entry, n: NodeId, a: Alert, k: nat, p: NodeState, d: nat)
    requires Follows(s, retired, e) && NobodySpeaksFor(e, n) && p in {Ok, Unreachable}
    requires Answering(Liveness(n), LaneOf(s, Liveness(n)), a, k) && AllShow(ObsIn(e.step, Liveness(n)), p, d)
    requires if p == Ok then k + |ObsIn(e.step, Liveness(n))| < d else k == 0
    ensures Answering(Liveness(n), LaneOf(e.post, Liveness(n)), a, k + Progress(p, ObsIn(e.step, Liveness(n))))
    ensures Lookup(e.em, Liveness(n)).None?
  {
    var c := Liveness(n);
    LaneOfStep(e.env, s, e.post, e.step, e.em, c);
    if e.step.Observing? && e.step.c == c {
      assert ObsIn(e.step, c)[0] == e.step.o;
      OwnSample(c, LaneOf(s, c), a, k, e.step.o, RcNow(e.env, c, e.post.down), WaitOn(e.env, s, c, e.step.o));
    } else {
      UnspokenStep(e.env, s, e.post.down, e.step, n, LaneOf(e.post, c), Lookup(e.em, c), a, k);
    }
  }

  lemma OneMoreWhileDown(s: State, retired: set<NodeId>, e: Entry, n: NodeId, a: Alert, before: seq<Obs>, p: NodeState,
                         d: nat)
    requires Follows(s, retired, e) && NobodySpeaksFor(e, n) && p in {Ok, Unreachable}
    requires Answering(Liveness(n), LaneOf(s, Liveness(n)), a, Progress(p, before))
    requires AllShow(before + ObsIn(e.step, Liveness(n)), p, d)
    requires p == Ok ==> |before + ObsIn(e.step, Liveness(n))| < d
    ensures Answering(Liveness(n), LaneOf(e.post, Liveness(n)), a, Progress(p, before + ObsIn(e.step, Liveness(n))))
    ensures Lookup(e.em, Liveness(n)).None?
  {
    ShownInParts(before, ObsIn(e.step, Liveness(n)), p, d);
    EntryWhileDown(s, retired, e, n, a, Progress(p, before), p, d);
  }

  lemma TheLastAnswer(s: State, retired: set<NodeId>, e: Entry, n: NodeId, a: Alert, d: nat)
    requires Follows(s, retired, e) && e.step.Observing? && e.step.c == Liveness(n) && 1 <= d
    requires Answering(Liveness(n), LaneOf(s, Liveness(n)), a, d - 1) && AllShow(ObsIn(e.step, Liveness(n)), Ok, d)
    ensures LaneOf(e.post, Liveness(n)).alert.None? && Lookup(e.em, Liveness(n)) == Some(Resolve(a))
  {
    var c, o := Liveness(n), e.step.o;
    LaneOfStep(e.env, s, e.post, e.step, e.em, c);
    assert ObsIn(e.step, c)[0] == o;
    OwnSample(c, LaneOf(s, c), a, d - 1, o, RcNow(e.env, c, e.post.down), WaitOn(e.env, s, c, o));
  }

  lemma {:induction false} StaysDown(s: State, retired: set<NodeId>, run: seq<Entry>, n: NodeId, a: Alert,
                                     p: NodeState, d: nat)
    requires IsRun(s, retired, run) && StandsAloneThroughout(run, n) && p in {Ok, Unreachable}
    requires Answering(Liveness(n), LaneOf(s, Liveness(n)), a, 0) && AllShow(ObsAbout(run, Liveness(n)), p, d)
    requires p == Ok ==> |ObsAbout(run, Liveness(n))| < d
    ensures Answering(Liveness(n), LaneOf(EndState(s, run), Liveness(n)), a, Progress(p, ObsAbout(run, Liveness(n))))
    ensures LogAbout(Log(run), Liveness(n)) == []
  {
    if run != [] {
      var c, init, last := Liveness(n), run[..|run| - 1], run[|run| - 1];
      assert AllShow(ObsAbout(init, c), p, d) by {
        ShownInParts(ObsAbout(init, c), ObsIn(last.step, c), p, d);
      }
      LastEntry(s, retired, run);
      StaysDown(s, retired, init, n, a, p, d);
      OneMoreWhileDown(EndState(s, init), EndRetired(s, retired, init), last, n, a, ObsAbout(init, c), p, d);
      LogAboutGrows(init, last, c);
    }
  }

  lemma ShownInParts(a: seq<Obs>, b: seq<Obs>, p: NodeState, d: nat)
    requires AllShow(a + b, p, d)
    ensures AllShow(a, p, d) && AllShow(b, p, d)
  {
    assert forall i :: 0 <= i < |a| ==> (a + b)[i] == a[i];
    assert forall i :: 0 <= i < |b| ==> (a + b)[|a| + i] == b[i];
  }

  /** A node whose alert came back on its own, and a run in which it is polled under a rule and stands alone. */
  ghost predicate DownAfterRestart(env: Env, s: State, alerts: seq<Alert>, i: nat, n: NodeId, run: seq<Entry>) {
    && RowsOk(alerts) && RestoreStep(env, EMPTY, s, alerts) && IsFirstRow(alerts, i)
    && alerts[i].check == Liveness(n) && RootCause(env.graph, n, s.down).None?
    && IsRun(s, {}, run) && StandsAloneThroughout(run, n)
  }

  lemma RestoredIsDown(env: Env, s: State, alerts: seq<Alert>, i: nat, n: NodeId)
    requires RowsOk(alerts) && RestoreStep(env, EMPTY, s, alerts) && IsFirstRow(alerts, i)
    requires alerts[i].check == Liveness(n) && RootCause(env.graph, n, s.down).None?
    ensures Inv(s, {}) && Answering(Liveness(n), LaneOf(s, Liveness(n)), alerts[i], 0)
  {
    RestoreEstablishesInv(env, s, alerts);
    TheFirstRowComesBack(env, s, alerts, i);
    assert RowOk(alerts[i]) && LaneOk(Liveness(n), LaneOf(s, Liveness(n)), NodeDown(s, Liveness(n)));
  }

  /** A node that was down before the restart and still is: nothing is delivered, and its alert stays as it was. */
  lemma StillDownSaysNothing(env: Env, s: State, alerts: seq<Alert>, i: nat, n: NodeId, run: seq<Entry>, d: nat)
    requires DownAfterRestart(env, s, alerts, i, n, run) && AllShow(ObsAbout(run, Liveness(n)), Unreachable, d)
    ensures LogAbout(Log(run), Liveness(n)) == []
    ensures Lookup(EndState(s, run).active, Liveness(n)) == Some(alerts[i])
  {
    RestoredIsDown(env, s, alerts, i, n);
    StaysDown(s, {}, run, n, alerts[i], Unreachable, d);
    assert LaneOf(EndState(s, run), Liveness(n)).alert == Lookup(EndState(s, run).active, Liveness(n));
  }

  /** A node that came back while nobody watched: the answer that completes its dwell resolves its alert, once. */
  lemma AnsweringResolvesOnce(env: Env, s: State, alerts: seq<Alert>, i: nat, n: NodeId, run: seq<Entry>, d: nat)
    requires DownAfterRestart(env, s, alerts, i, n, run) && AllShow(ObsAbout(run, Liveness(n)), Ok, d)
    requires run != [] && run[|run| - 1].step.Observing? && run[|run| - 1].step.c == Liveness(n)
    requires |ObsAbout(run, Liveness(n))| == d
    ensures LogAbout(Log(run), Liveness(n)) == [Resolve(alerts[i])] && Liveness(n) !in EndState(s, run).active
  {
    var c, init, last := Liveness(n), run[..|run| - 1], run[|run| - 1];
    RestoredIsDown(env, s, alerts, i, n);
    ShownInParts(ObsAbout(init, c), ObsIn(last.step, c), Ok, d);
    LastEntry(s, {}, run);
    StaysDown(s, {}, init, n, alerts[i], Ok, d);
    TheLastAnswer(EndState(s, init), EndRetired(s, {}, init), last, n, alerts[i], d);
    LogAboutGrows(init, last, c);
    assert LaneOf(EndState(s, run), c).alert == Lookup(EndState(s, run).active, c);
  }
}
