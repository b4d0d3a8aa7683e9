/** A page held for a failing neighbour is held long enough, in every run. */
module Waits {
  import opened Base
  import opened Hysteresis
  import opened CheckStates
  import opened Grouping
  import opened GroupingMeaning
  import opened Lanes
  import opened LaneProofs
  import opened Engine
  import opened EngineProofs
  import opened Runs
  import opened Lifelines

  /** A tracker part of the way to `Unreachable`. */
  predicate Failing(t: Tracker) {
    t.Valid() && t.committed != Unreachable && t.candidate.Some? && t.candidate.value.state == Unreachable
  }

  /** The tracker `k` failures later, its dwell still not complete. */
  predicate OnTheWay(cs: Option<CheckState>, t: Tracker, k: nat)
    requires Failing(t)
  {
    cs.Some? && cs.value.tracker == t.(candidate := Some(Run(Unreachable, t.candidate.value.count + k)))
  }

  /** Only its own observations move the tracker of a liveness check that has not committed an outage. */
  lemma OnlyItsObservationsMoveIt(env: Env, s: State, s': State, step: Step, em: Emission, retired: set<NodeId>,
                                  c: Check)
    requires Inv(s, retired) && Legal(step, retired) && Takes(env, s, s', step, em) && c.Liveness? && c in s.states
    requires s.states[c].tracker.committed != Unreachable
    ensures Lookup(s'.states, c) ==
            Some(if ObsIn(step, c) == [] then s.states[c] else Weighed(LaneOf(s, c), step.o))
  {
    assert LaneOk(c, LaneOf(s, c), NodeDown(s, c)) && LaneOf(s, c).tracker == Some(s.states[c]);
    LaneOfStep(env, s, s', step, em, c);
    LaneMovesIt(env, s, s'.down, step, c, LaneOf(s', c), Lookup(em, c), retired);
    assert LaneOf(s', c).tracker == Lookup(s'.states, c);
  }

  lemma LaneMovesIt(env: Env, s: State, down: set<NodeId>, step: Step, c: Check, l': Lane, act: Option<Action>,
                    retired: set<NodeId>)
    requires LaneTakes(env, s, down, step, c, l', act) && Legal(step, retired) && c.Liveness?
    requires LaneOf(s, c).alert.None?
    ensures l'.tracker == if ObsIn(step, c) == [] then LaneOf(s, c).tracker else Some(Weighed(LaneOf(s, c), step.o))
  {
  }

  /** Every observation finds the node unreachable, at one dwell. */
  predicate KeepsFailing(os: seq<Obs>, d: nat) {
    forall i :: 0 <= i < |os| ==> os[i].raw == Unreachable && os[i].Dwell() == d
  }

  /** One more failure counts, unless it completes the dwell and commits. */
  lemma OneMoreFailure(l: Lane, o: Obs, t: Tracker, k: nat)
    requires Failing(t) && OnTheWay(l.tracker, t, k) && o.raw == Unreachable && o.Dwell() == t.dwell
    ensures t.candidate.value.count + k + 1 < t.dwell ==> OnTheWay(Some(Weighed(l, o)), t, k + 1)
    ensures t.dwell <= t.candidate.value.count + k + 1 ==>
            Weighed(l, o).tracker.committed == Unreachable && Weighed(l, o).tracker.confirmed
  {
  }

  /** A run that stops short of the dwell leaves the check on its way. */
  lemma {:induction false} RunStaysOnTheWay(s: State, retired: set<NodeId>, run: seq<Entry>, c: Check, t: Tracker)
    requires Inv(s, retired) && IsRun(s, retired, run) && c.Liveness? && Failing(t)
    requires OnTheWay(Lookup(s.states, c), t, 0)
    requires KeepsFailing(ObsAbout(run, c), t.dwell) && t.candidate.value.count + |ObsAbout(run, c)| < t.dwell
    ensures OnTheWay(Lookup(EndState(s, run).states, c), t, |ObsAbout(run, c)|)
  {
    if run != [] {
      var init, last := run[..|run| - 1], run[|run| - 1];
      var before, now := ObsAbout(init, c), ObsIn(last.step, c);
      assert ObsAbout(run, c) == before + now;
      PartsFail(before, now, t.dwell);
      LastEntry(s, retired, run);
      RunStaysOnTheWay(s, retired, init, c, t);
      RunStaysSound(s, retired, init);
      OnlyItsObservationsMoveIt(last.env, EndState(s, init), last.post, last.step, last.em,
                                EndRetired(s, retired, init), c);
      if now != [] {
        assert now[0] == last.step.o;
        OneMoreFailure(LaneOf(EndState(s, init), c), last.step.o, t, |before|);
      }
    }
  }

  lemma PartsFail(a: seq<Obs>, b: seq<Obs>, d: nat)
    requires KeepsFailing(a + b, d)
    ensures KeepsFailing(a, d) && KeepsFailing(b, d)
  {
    assert forall i :: 0 <= i < |a| ==> (a + b)[i] == a[i];
    assert forall i :: 0 <= i < |b| ==> (a + b)[|a| + i] == b[i];
  }

  /** A node is down exactly when its liveness tracker has committed an outage. */
  lemma DownWhenCommitted(s: State, retired: set<NodeId>, n: NodeId)
    requires Inv(s, retired) && n !in retired && Liveness(n) in s.states
    requires s.states[Liveness(n)].tracker.committed == Unreachable ==> s.states[Liveness(n)].tracker.confirmed
    ensures n in s.down <==> s.states[Liveness(n)].tracker.committed == Unreachable
  {
    assert n in s.down <==> WasDown(s, n);
  }

  /** An observation that starts holding the page about `n`. */
  ghost predicate StartsHolding(env: Env, s: State, s': State, n: NodeId, o: Obs, em: Emission) {
    && ObsOk(Liveness(n), o) && ObserveStep(env, s, s', Liveness(n), o, em)
    && Liveness(n) !in s.held && Liveness(n) in s'.held
  }

  /** The instant recorded for a hold is the wait computed from the state the observation leaves. */
  lemma HeldUntilTheWaitEnds(env: Env, s: State, s': State, n: NodeId, o: Obs, em: Emission)
    requires StartsHolding(env, s, s', n, o, em)
    ensures WaitUntil(env, s'.states, s'.down, n, o.at) == Some(s'.held[Liveness(n)])
  {
    var c := Liveness(n);
    WaitOnReadsWhatIsLeft(env, s, s', n, o, em);
    assert LaneOf(s', c).hold == Some(s'.held[c]) && LaneOf(s, c).hold.None?;
  }

  // ------------------------------------------------------------------------------------------
  // When a hold begins and when it ends, read off the maps and the configuration.

  /** A neighbour that `n` is judged by is not down but part of the way to `Unreachable`. */
  predicate OnItsWayDown(env: Env, s: State, n: NodeId, m: NodeId) {
    && IsJudgedBy(env.graph, n, m) && m !in s.down && Liveness(m) in s.states
    && s.states[Liveness(m)].tracker.candidate.Some?
    && s.states[Liveness(m)].tracker.candidate.value.state == Unreachable
  }

  /** One poll for every sample its dwell still lacks; a poll interval unknown counts as five minutes. */
  function MsToComplete(env: Env, s: State, n: NodeId, m: NodeId): int
    requires OnItsWayDown(env, s, n, m)
  {
    var t := s.states[Liveness(m)].tracker;
    match env.interval(m)
    case Some(secs) => (t.dwell - t.candidate.value.count) * secs * 1000
    case None => (t.dwell - t.candidate.value.count) * 300_000
  }

  /** The failing neighbours a wait looks at are the ones on their way down, each waited for as long as it needs. */
  lemma WaitsForThoseOnTheWay(env: Env, s: State, retired: set<NodeId>, n: NodeId, m: NodeId)
    requires Inv(s, retired)
    ensures m in FailingNeighbours(env, s.states, s.down, n) <==> OnItsWayDown(env, s, n, m)
    ensures OnItsWayDown(env, s, n, m) ==> WaitFor(env, s.states, s.down, m) == MsToComplete(env, s, n, m)
  {
    TheNeighboursItIsJudgedBy(env.graph, n, m);
    if OnItsWayDown(env, s, n, m) {
      FailingIsUncommitted(s, retired, m);
    }
  }

  /**
   * The instant a hold is recorded to end: 30 seconds after the slowest of the neighbours on their way
   * down can have completed its dwell.
   */
  lemma TheHoldEndsExactly(env: Env, s: State, s': State, retired: set<NodeId>, n: NodeId, o: Obs, em: Emission)
    requires Inv(s, retired) && n !in retired && StartsHolding(env, s, s', n, o, em)
    ensures forall m :: OnItsWayDown(env, s', n, m) ==>
              o.at + MsToComplete(env, s', n, m) + 30_000 <= s'.held[Liveness(n)]
    ensures exists m :: OnItsWayDown(env, s', n, m) &&
              s'.held[Liveness(n)] == o.at + MsToComplete(env, s', n, m) + 30_000
  {
    ObserveKeepsInv(env, s, s', Liveness(n), o, em, retired);
    HeldUntilTheWaitEnds(env, s, s', n, o, em);
    var failing := FailingNeighbours(env, s'.states, s'.down, n);
    LongestWaitExists(env, s'.states, s'.down, failing);
    var w :| IsLongestWait(env, s'.states, s'.down, failing, w);
    LongestWaitIsUnique(env, s'.states, s'.down, n, o.at, w);
    forall m | OnItsWayDown(env, s', n, m)
      ensures o.at + MsToComplete(env, s', n, m) + 30_000 <= s'.held[Liveness(n)]
    {
      WaitsForThoseOnTheWay(env, s', retired, n, m);
    }
    var longest :| longest in failing && w == WaitFor(env, s'.states, s'.down, longest);
    WaitsForThoseOnTheWay(env, s', retired, n, longest);
  }

  /** An observation that makes a node down, with a rule to alert by. */
  ghost predicate GoesDown(env: Env, s: State, s': State, retired: set<NodeId>, n: NodeId, o: Obs, em: Emission) {
    && Inv(s, retired) && n !in retired && ObsOk(Liveness(n), o) && o.alerting
    && ObserveStep(env, s, s', Liveness(n), o, em) && n !in s.down && n in s'.down
  }

  /**
   * A node that goes down has its page held back exactly when nobody speaks for it, waiting is switched
   * on, its level groups at all, and a neighbour is on its way down; otherwise it fires there and then.
   */
  lemma HeldExactlyWhenANeighbourFails(env: Env, s: State, s': State, retired: set<NodeId>, n: NodeId, o: Obs,
                                       em: Emission)
    requires GoesDown(env, s, s', retired, n, o, em)
    ensures var c := Liveness(n);
            && c in s'.active && s'.active[c].rootCause == RootCause(env.graph, n, s'.down)
            && (c in s'.held <==>
                && RootCause(env.graph, n, s'.down).None? && env.wait && env.graph.LevelOf(n) != Off
                && exists m :: OnItsWayDown(env, s', n, m))
            && (if c in s'.held then c !in em else c in em && em[c] == Fire(s'.active[c]))
  {
    var c := Liveness(n);
    var l := LaneOf(s, c);
    assert n in s.down <==> WasDown(s, n);
    assert LaneOk(c, l, NodeDown(s, c));
    ObserveKeepsInv(env, s, s', c, o, em, retired);
    assert n in s'.down <==> WasDown(s', n);
    FlipNeedsATransition(s, c, o, retired);
    assert LaneOf(s', c).hold == Lookup(s'.held, c) && LaneOf(s', c).alert == Lookup(s'.active, c);
    WaitOnReadsWhatIsLeft(env, s, s', n, o, em);
    forall m: NodeId
      ensures m in FailingNeighbours(env, s'.states, s'.down, n) <==> OnItsWayDown(env, s', n, m)
    {
      WaitsForThoseOnTheWay(env, s', retired, n, m);
    }
    assert FailingNeighbours(env, s'.states, s'.down, n) == {} <==> forall m :: !OnItsWayDown(env, s', n, m);
  }

  lemma WaitOnReadsWhatIsLeft(env: Env, s: State, s': State, n: NodeId, o: Obs, em: Emission)
    requires ObsOk(Liveness(n), o) && ObserveStep(env, s, s', Liveness(n), o, em)
    ensures WaitOn(env, s, Liveness(n), o) == WaitUntil(env, s'.states, s'.down, n, o.at)
  {
    var c := Liveness(n);
    var before := s.states[c := Weighed(LaneOf(s, c), o)];
    forall m: NodeId
      ensures Lookup(before, Liveness(m)) == Lookup(s'.states, Liveness(m))
    {
      ObserveKeepsOtherTrackers(env, s, s', c, o, em, Liveness(m));
    }
    WaitReadsLiveness(env, before, s'.states, s'.down, n, o.at);
  }

  /**
   * When an observation starts holding the page about `n` because neighbour `m` is failing without
   * having committed: in every run from there in which `m` keeps answering unreachable at least once
   * per its poll interval, the answer that completes its dwell puts it into the down set, no earlier
   * one does, and that answer comes at least 30 seconds before the recorded end of the hold. The
   * interval is the configured seconds, or five minutes when none is configured.
   */
  lemma TheWaitIsLongEnough(env: Env, s: State, s': State, retired: set<NodeId>, n: NodeId, o: Obs, em: Emission,
                            m: NodeId, run: seq<Entry>)
    requires Inv(s, retired) && n !in retired && StartsHolding(env, s, s', n, o, em)
    requires OnItsWayDown(env, s', n, m) && IsRun(s', retired, run) && run != []
    requires run[|run| - 1].step.Observing? && run[|run| - 1].step.c == Liveness(m)
    requires var t, os := s'.states[Liveness(m)].tracker, ObsAbout(run, Liveness(m));
             var ms := match env.interval(m) case Some(secs) => secs * 1000 case None => 300_000;
             && KeepsFailing(os, t.dwell) && |os| == t.dwell - t.candidate.value.count
             && forall i :: 0 <= i < |os| ==> os[i].at <= o.at + (i + 1) * ms
    ensures m !in EndState(s', run[..|run| - 1]).down && m in EndState(s', run).down
    ensures run[|run| - 1].step.o.at <= s'.held[Liveness(n)] - 30_000
  {
    ObserveKeepsInv(env, s, s', Liveness(n), o, em, retired);
    StillFailing(s', retired, run, m);
    LastAnswerInTime(env, s', n, m, run, o.at);
    TheHoldEndsExactly(env, s, s', retired, n, o, em);
  }

  lemma LastAnswerInTime(env: Env, s: State, n: NodeId, m: NodeId, run: seq<Entry>, start: int)
    requires OnItsWayDown(env, s, n, m) && run != []
    requires run[|run| - 1].step.Observing? && run[|run| - 1].step.c == Liveness(m)
    requires var t, os := s.states[Liveness(m)].tracker, ObsAbout(run, Liveness(m));
             var ms := match env.interval(m) case Some(secs) => secs * 1000 case None => 300_000;
             && |os| == t.dwell - t.candidate.value.count
             && forall i :: 0 <= i < |os| ==> os[i].at <= start + (i + 1) * ms
    ensures run[|run| - 1].step.o.at <= start + MsToComplete(env, s, n, m)
  {
    var os := ObsAbout(run, Liveness(m));
    assert os[|os| - 1] == run[|run| - 1].step.o;
  }

  /** The run up to the answer that completes the dwell, and that answer. */
  lemma StillFailing(s: State, retired: set<NodeId>, run: seq<Entry>, m: NodeId)
    requires Inv(s, retired) && IsFailing(s.states, s.down, m) && IsRun(s, retired, run) && run != []
    requires run[|run| - 1].step.Observing? && run[|run| - 1].step.c == Liveness(m)
    requires var t, os := s.states[Liveness(m)].tracker, ObsAbout(run, Liveness(m));
             KeepsFailing(os, t.dwell) && |os| == t.dwell - t.candidate.value.count
    ensures m !in EndState(s, run[..|run| - 1]).down && m in EndState(s, run).down
  {
    var c, t := Liveness(m), s.states[Liveness(m)].tracker;
    var init, last := run[..|run| - 1], run[|run| - 1];
    var before, o := ObsAbout(init, c), last.step.o;
    assert ObsAbout(run, c) == before + [o];
    PartsFail(before, [o], t.dwell);
    assert [o][0] == o;
    FailingIsUncommitted(s, retired, m);
    LastEntry(s, retired, run);
    RunStaysOnTheWay(s, retired, init, c, t);
    RunStaysSound(s, retired, init);
    RunStaysSound(s, retired, run);
    CompletingAnswer(last.env, EndState(s, init), last.post, o, last.em, EndRetired(s, retired, init), m, t, |before|);
  }

  lemma FailingIsUncommitted(s: State, retired: set<NodeId>, m: NodeId)
    requires Inv(s, retired) && IsFailing(s.states, s.down, m)
    ensures Failing(s.states[Liveness(m)].tracker)
    ensures OnTheWay(Lookup(s.states, Liveness(m)), s.states[Liveness(m)].tracker, 0)
    ensures s.states[Liveness(m)].tracker.candidate.value.count < s.states[Liveness(m)].tracker.dwell
  {
    var c := Liveness(m);
    assert LaneOk(c, LaneOf(s, c), NodeDown(s, c)) && LaneOf(s, c).tracker == Some(s.states[c]);
  }

  lemma CompletingAnswer(env: Env, s: State, s': State, o: Obs, em: Emission, retired: set<NodeId>, m: NodeId,
                         t: Tracker, k: nat)
    requires Inv(s, retired) && Inv(s', retired) && Legal(Observing(Liveness(m), o), retired)
    requires Takes(env, s, s', Observing(Liveness(m), o), em) && o.raw == Unreachable && o.Dwell() == t.dwell
    requires Failing(t) && t.candidate.value.count + k + 1 == t.dwell && OnTheWay(Lookup(s.states, Liveness(m)), t, k)
    ensures m !in s.down && m in s'.down
  {
    var c := Liveness(m);
    OnlyItsObservationsMoveIt(env, s, s', Observing(c, o), em, retired, c);
    OneMoreFailure(LaneOf(s, c), o, t, k);
    DownWhenCommitted(s, retired, m);
    DownWhenCommitted(s', retired, m);
  }
}
