/**
 * Skipping healthy table rows is exact: the engine that observes only the rows that breach or are
 * already held, asking which ones once per result, against one that observes every row.
 */
module RowsExact {
  import opened Base
  import opened CheckStates
  import opened Lanes
  import opened LaneProofs
  import opened Engine
  import opened Restore
  import opened Runs
  import opened Trails
  import opened Rows

  // ------------------------------------------------------------------------------------------
  // Two engines side by side.

  /** A state that has never seen anything but `Ok`. */
  predicate Blank(cs: CheckState) {
    cs.tracker.committed == Ok && cs.tracker.candidate.None? && cs.flap.threshold == FLAP_THRESHOLD
      && cs.flap.transitions == []
  }

  /** Only whether the committed state has been confirmed may differ; no row's alert reads that. */
  predicate SameButConfirmed(a: CheckState, b: CheckState) {
    b == a.(tracker := a.tracker.(confirmed := b.tracker.confirmed))
  }

  /** The skipping engine's tracker against that of the engine that observes every row. */
  predicate TrackersMatch(lazy: Option<CheckState>, eager: Option<CheckState>) {
    if lazy.Some? then eager.Some? && SameButConfirmed(lazy.value, eager.value) else eager.Some? ==> Blank(eager.value)
  }

  predicate LanesMatch(lazy: Lane, eager: Lane) {
    eager == lazy.(tracker := eager.tracker)
  }

  /** Both engines' lanes of a check; `indexed` says whether the skipping one holds the row. */
  predicate Mirrored(c: Check, lazy: Lane, eager: Lane, indexed: bool, retired: bool) {
    && LanesMatch(lazy, eager)
    && (!IsRowCheck(c) ==> lazy == eager)
    && (IsRowCheck(c) && !retired ==> TrackersMatch(lazy.tracker, eager.tracker))
    && (IsRowCheck(c) && !retired && !indexed ==> lazy == EMPTY_LANE)
  }

  predicate IsRetired(c: Check, retired: set<NodeId>) {
    c.Node().Some? && c.Node().value in retired
  }

  /** Both engines, the skipping one holding the rows in `index`. */
  ghost predicate Mirrors(lazy: State, eager: State, index: set<Check>, retired: set<NodeId>) {
    && eager.live == lazy.live && eager.down == lazy.down && eager.legacy == lazy.legacy
    && forall c: Check :: Mirrored(c, LaneOf(lazy, c), LaneOf(eager, c), c in index, IsRetired(c, retired))
  }

  // ------------------------------------------------------------------------------------------
  // One check at a time.

  lemma BlankReadsAsNew(cs: CheckState, dwell: nat, window: int)
    requires Blank(cs) && dwell >= 1
    ensures SameButConfirmed(NewCheckState(Ok, dwell, window), Repointed(cs, dwell, window))
  {
  }

  lemma ReadyMatches(l: Lane, e: Lane, o: Obs)
    requires TrackersMatch(l.tracker, e.tracker)
    ensures SameButConfirmed(Ready(l, o), Ready(e, o))
  {
    if l.tracker.None? && e.tracker.Some? {
      BlankReadsAsNew(e.tracker.value, o.Dwell(), o.window);
    }
  }

  lemma AdvanceMatches(a: CheckState, b: CheckState, raw: NodeState, at: int)
    requires SameButConfirmed(a, b)
    ensures SameButConfirmed(Advance(a, raw, at), Advance(b, raw, at))
    ensures TransitionOf(a, raw, at) == TransitionOf(b, raw, at)
  {
  }

  lemma SettledMatches(l: Lane, e: Lane, o: Obs)
    requires LanesMatch(l, e)
    ensures SettledAction(l, o) == SettledAction(e, o) && LanesMatch(Settled(l, o), Settled(e, o))
    ensures Settled(l, o).tracker == l.tracker && Settled(e, o).tracker == e.tracker
  {
  }

  lemma TransitedMatches(c: Check, l: Lane, e: Lane, o: Obs, t: Transition, rc: Option<NodeId>, wait: Option<int>)
    requires LanesMatch(l, e)
    ensures TransitedAction(c, l, o, t, rc, wait) == TransitedAction(c, e, o, t, rc, wait)
    ensures LanesMatch(Transited(c, l, o, t, rc, wait), Transited(c, e, o, t, rc, wait))
    ensures Transited(c, l, o, t, rc, wait).tracker == l.tracker && Transited(c, e, o, t, rc, wait).tracker == e.tracker
  {
  }

  lemma ObservedMatches(c: Check, l: Lane, e: Lane, o: Obs, rc: Option<NodeId>, wait: Option<int>)
    requires LanesMatch(l, e) && TrackersMatch(l.tracker, e.tracker)
    ensures ObservedAction(c, l, o, rc, wait) == ObservedAction(c, e, o, rc, wait)
    ensures var l', e' := Observed(c, l, o, rc, wait), Observed(c, e, o, rc, wait);
            LanesMatch(l', e') && TrackersMatch(l'.tracker, e'.tracker)
  {
    ReadyMatches(l, e, o);
    AdvanceMatches(Ready(l, o), Ready(e, o), o.raw, o.at);
    FedMatches(c, l, e, l.(tracker := Some(Weighed(l, o))), e.(tracker := Some(Weighed(e, o))), o, rc, wait);
  }

  lemma FedMatches(c: Check, l: Lane, e: Lane, fedL: Lane, fedE: Lane, o: Obs, rc: Option<NodeId>, wait: Option<int>)
    requires LanesMatch(l, e) && LanesMatch(fedL, fedE) && Committed(l, o) == Committed(e, o)
    requires fedL == l.(tracker := Some(Weighed(l, o))) && fedE == e.(tracker := Some(Weighed(e, o)))
    ensures ObservedAction(c, l, o, rc, wait) == ObservedAction(c, e, o, rc, wait)
    ensures LanesMatch(Observed(c, l, o, rc, wait), Observed(c, e, o, rc, wait))
    ensures Observed(c, l, o, rc, wait).tracker == fedL.tracker && Observed(c, e, o, rc, wait).tracker == fedE.tracker
  {
    if Committed(l, o).None? {
      SettledMatches(l, e, o);
      SettledMatches(fedL, fedE, o);
    } else {
      TransitedMatches(c, l, e, o, Committed(l, o).value, rc, wait);
      TransitedMatches(c, fedL, fedE, o, Committed(l, o).value, rc, wait);
    }
  }

  lemma SkippedStaysBlank(c: Check, e: Lane, o: Obs, rc: Option<NodeId>, wait: Option<int>)
    requires c.Threshold? && e == EMPTY_LANE.(tracker := e.tracker) && TrackersMatch(None, e.tracker) && o.raw == Ok
    requires o.alerting
    ensures ObservedAction(c, e, o, rc, wait).None?
    ensures var e' := Observed(c, e, o, rc, wait);
            e' == EMPTY_LANE.(tracker := e'.tracker) && TrackersMatch(None, e'.tracker)
  {
  }

  lemma SweptMatches(c: Check, l: Lane, e: Lane, rc: Option<NodeId>, changed: Option<NodeId>)
    requires LanesMatch(l, e)
    ensures SweptAction(c, l, rc, changed) == SweptAction(c, e, rc, changed)
    ensures LanesMatch(Swept(c, l, rc, changed), Swept(c, e, rc, changed))
    ensures Swept(c, l, rc, changed).tracker == l.tracker && Swept(c, e, rc, changed).tracker == e.tracker
  {
  }

  /** Orphaning, letting go and closing do the same to both lanes; so does a raise, on no row. */
  lemma OperationsMirror(c: Check, l: Lane, e: Lane, indexed: bool, retired: bool)
    requires Mirrored(c, l, e, indexed, retired)
    ensures ClosedAction(l) == ClosedAction(e) && LetGoAction(l) == LetGoAction(e)
    ensures Mirrored(c, Orphaned(l), Orphaned(e), indexed, retired)
    ensures Mirrored(c, LetGo(l), LetGo(e), indexed, retired)
    ensures Mirrored(c, Closed(l), Closed(e), indexed, retired)
  {
  }

  // ------------------------------------------------------------------------------------------
  // One step of both engines.

  /** What the two engines agree on about a check after a step. */
  ghost predicate SameOutcome(lazy: State, eager: State, index: set<Check>, retired: set<NodeId>,
                              em: Emission, eagerEm: Emission, x: Check)
  {
    && Mirrored(x, LaneOf(lazy, x), LaneOf(eager, x), x in index, IsRetired(x, retired))
    && Lookup(em, x) == Lookup(eagerEm, x)
  }

  lemma SameEverywhere(lazy: State, eager: State, index: set<Check>, retired: set<NodeId>, em: Emission,
                       eagerEm: Emission)
    requires lazy.live == eager.live && lazy.down == eager.down && lazy.legacy == eager.legacy
    requires forall x: Check :: SameOutcome(lazy, eager, index, retired, em, eagerEm, x)
    ensures Mirrors(lazy, eager, index, retired) && em == eagerEm
  {
    forall x: Check
      ensures x in em <==> x in eagerEm
      ensures x in em ==> em[x] == eagerEm[x]
      ensures Mirrored(x, LaneOf(lazy, x), LaneOf(eager, x), x in index, IsRetired(x, retired))
    {
      assert SameOutcome(lazy, eager, index, retired, em, eagerEm, x);
    }
  }

  lemma LivenessTrackersAgree(lazy: State, eager: State, index: set<Check>, retired: set<NodeId>, m: NodeId)
    requires Mirrors(lazy, eager, index, retired)
    ensures Lookup(lazy.states, Liveness(m)) == Lookup(eager.states, Liveness(m))
  {
    assert LaneOf(lazy, Liveness(m)) == LaneOf(eager, Liveness(m));
  }

  lemma WaitOnMatches(env: Env, lazy: State, eager: State, index: set<Check>, retired: set<NodeId>, c: Check, o: Obs)
    requires Mirrors(lazy, eager, index, retired)
    ensures WaitOn(env, lazy, c, o) == WaitOn(env, eager, c, o)
  {
    if c.Liveness? {
      assert LaneOf(lazy, c) == LaneOf(eager, c);
      var cs := Weighed(LaneOf(lazy, c), o);
      var a, b := lazy.states[c := cs], eager.states[c := cs];
      forall m: NodeId
        ensures Lookup(a, Liveness(m)) == Lookup(b, Liveness(m))
      {
        LivenessTrackersAgree(lazy, eager, index, retired, m);
      }
      WaitReadsLiveness(env, a, b, NextDown(lazy, c, cs), c.node, o.at);
    }
  }

  /** The index once a check has been observed. */
  function IndexWith(index: set<Check>, c: Check): set<Check> {
    if IsRowCheck(c) then index + {c} else index
  }

  lemma OwnObservationMirrors(env: Env, lazy: State, lazy': State, eager: State, eager': State, index: set<Check>,
                              retired: set<NodeId>, c: Check, o: Obs, em: Emission, eagerEm: Emission)
    requires Mirrors(lazy, eager, index, retired) && !IsRetired(c, retired) && c.Node().Some?
    requires ObserveStep(env, lazy, lazy', c, o, em) && ObserveStep(env, eager, eager', c, o, eagerEm)
    ensures lazy'.live == eager'.live && lazy'.down == eager'.down && lazy'.legacy == eager'.legacy
    ensures SameOutcome(lazy', eager', IndexWith(index, c), retired, em, eagerEm, c)
  {
    var l, e := LaneOf(lazy, c), LaneOf(eager, c);
    assert Mirrored(c, l, e, c in index, false);
    WaitOnMatches(env, lazy, eager, index, retired, c, o);
    if IsRowCheck(c) {
      ObservedMatches(c, l, e, o, RcNow(env, c, lazy'.down), WaitOn(env, lazy, c, o));
    }
  }

  lemma SweepFollowsAlike(lazy: State, eager: State, index: set<Check>, retired: set<NodeId>, c: Check, o: Obs)
    requires Mirrors(lazy, eager, index, retired)
    ensures SweepFollows(lazy, c, o) == SweepFollows(eager, c, o)
  {
    assert Mirrored(c, LaneOf(lazy, c), LaneOf(eager, c), c in index, IsRetired(c, retired));
  }

  lemma OtherObservationMirrors(env: Env, lazy: State, lazy': State, eager: State, eager': State, index: set<Check>,
                                retired: set<NodeId>, c: Check, o: Obs, em: Emission, eagerEm: Emission, x: Check)
    requires Mirrored(x, LaneOf(lazy, x), LaneOf(eager, x), x in index, IsRetired(x, retired)) && c.Node().Some?
    requires x != c
    requires SweepFollows(lazy, c, o) == SweepFollows(eager, c, o) && lazy'.down == eager'.down
    requires ObserveStep(env, lazy, lazy', c, o, em) && ObserveStep(env, eager, eager', c, o, eagerEm)
    ensures SameOutcome(lazy', eager', IndexWith(index, c), retired, em, eagerEm, x)
  {
    LaneOfStep(env, lazy, lazy', Observing(c, o), em, x);
    LaneOfStep(env, eager, eager', Observing(c, o), eagerEm, x);
    SweptMatches(x, LaneOf(lazy, x), LaneOf(eager, x), RcNow(env, x, lazy'.down), c.Node());
  }

  /** Both engines observe the same sample. */
  lemma ObservationMirrors(env: Env, lazy: State, lazy': State, eager: State, eager': State, index: set<Check>,
                           retired: set<NodeId>, c: Check, o: Obs, em: Emission, eagerEm: Emission)
    requires Mirrors(lazy, eager, index, retired) && !IsRetired(c, retired) && c.Node().Some?
    requires ObserveStep(env, lazy, lazy', c, o, em) && ObserveStep(env, eager, eager', c, o, eagerEm)
    ensures Mirrors(lazy', eager', IndexWith(index, c), retired) && em == eagerEm
  {
    forall x: Check
      ensures SameOutcome(lazy', eager', IndexWith(index, c), retired, em, eagerEm, x)
      ensures lazy'.live == eager'.live && lazy'.down == eager'.down && lazy'.legacy == eager'.legacy
    {
      OwnObservationMirrors(env, lazy, lazy', eager, eager', index, retired, c, o, em, eagerEm);
      if x != c {
        SweepFollowsAlike(lazy, eager, index, retired, c, o);
        assert Mirrored(x, LaneOf(lazy, x), LaneOf(eager, x), x in index, IsRetired(x, retired));
        OtherObservationMirrors(env, lazy, lazy', eager, eager', index, retired, c, o, em, eagerEm, x);
      }
    }
    SameEverywhere(lazy', eager', IndexWith(index, c), retired, em, eagerEm);
  }

  /** The sample the skipping engine ignores changes nothing it would have to show. */
  lemma SkippingMirrors(env: Env, lazy: State, eager: State, eager': State, index: set<Check>, retired: set<NodeId>,
                        c: Check, o: Obs, eagerEm: Emission)
    requires Mirrors(lazy, eager, index, retired) && ObsOk(c, o) && !IsRetired(c, retired)
    requires IsRowCheck(c) && c !in index && o.raw == Ok
    requires ObserveStep(env, eager, eager', c, o, eagerEm)
    ensures Mirrors(lazy, eager', index, retired) && eagerEm == map[]
  {
    var e := LaneOf(eager, c);
    assert Mirrored(c, LaneOf(lazy, c), e, false, false);
    SkippedStaysBlank(c, e, o, RcNow(env, c, eager.down), None);
    assert Lookup(eagerEm, c).None?;
    forall x: Check
      ensures SameOutcome(lazy, eager', index, retired, map[], eagerEm, x)
    {
      assert Mirrored(x, LaneOf(lazy, x), LaneOf(eager, x), x in index, IsRetired(x, retired));
    }
    SameEverywhere(lazy, eager', index, retired, map[], eagerEm);
  }

  // The steps that observe nothing, check by check.

  /** What becomes of the index when nodes are deleted. */
  function IndexForgetting(lazy: State, index: set<Check>, kept: set<NodeId>): set<Check> {
    set c | c in index && !(c.Node().Some? && c.Node().value in lazy.live.Keys - kept)
  }

  function IndexAfterStep(lazy: State, index: set<Check>, step: Step): set<Check> {
    match step
    case Observing(c, _) => IndexWith(index, c)
    case Forgetting(kept) => IndexForgetting(lazy, index, kept)
    case _ => index
  }

  /** Every step but an observation does the same to both engines' lanes of a check. */
  lemma LaneMirrors(env: Env, lazy: State, eager: State, down: set<NodeId>, step: Step, x: Check, l': Lane, e': Lane,
                    act: Option<Action>, eagerAct: Option<Action>, indexed: bool, retired: set<NodeId>)
    requires Mirrored(x, LaneOf(lazy, x), LaneOf(eager, x), indexed, IsRetired(x, retired))
    requires !step.Observing? && Legal(step, retired)
    requires LaneTakes(env, lazy, down, step, x, l', act) && LaneTakes(env, eager, down, step, x, e', eagerAct)
    ensures Mirrored(x, l', e', indexed, IsRetired(x, retired)) && act == eagerAct
  {
    SweptMatches(x, LaneOf(lazy, x), LaneOf(eager, x), RcNow(env, x, down), None);
    OperationsMirror(x, LaneOf(lazy, x), LaneOf(eager, x), indexed, IsRetired(x, retired));
  }

  /** A step that observes nothing drops a check from the index only with its node. */
  lemma IndexAside(lazy: State, index: set<Check>, step: Step, x: Check, retired: set<NodeId>)
    requires !step.Observing?
    ensures IsRetired(x, retired) ==> IsRetired(x, RetiredAfter(lazy, step, retired))
    ensures !IsRetired(x, RetiredAfter(lazy, step, retired)) ==>
            (x in IndexAfterStep(lazy, index, step) <==> x in index)
  {
  }

  lemma SameBesides(env: Env, lazy: State, lazy': State, eager: State, eager': State, step: Step, em: Emission,
                    eagerEm: Emission)
    requires lazy.live == eager.live && lazy.down == eager.down && lazy.legacy == eager.legacy && !step.Observing?
    requires Takes(env, lazy, lazy', step, em) && Takes(env, eager, eager', step, eagerEm)
    ensures lazy'.live == eager'.live && lazy'.down == eager'.down && lazy'.legacy == eager'.legacy
  {
  }

  /** Every step but an observation, check by check. */
  lemma OtherStepMirrors(env: Env, lazy: State, lazy': State, eager: State, eager': State, index: set<Check>,
                         retired: set<NodeId>, step: Step, em: Emission, eagerEm: Emission, x: Check)
    requires Mirrors(lazy, eager, index, retired) && !step.Observing? && Legal(step, retired)
    requires Takes(env, lazy, lazy', step, em) && Takes(env, eager, eager', step, eagerEm)
    ensures SameOutcome(lazy', eager', IndexAfterStep(lazy, index, step), RetiredAfter(lazy, step, retired), em,
                        eagerEm, x)
    ensures lazy'.live == eager'.live && lazy'.down == eager'.down && lazy'.legacy == eager'.legacy
  {
    assert Mirrored(x, LaneOf(lazy, x), LaneOf(eager, x), x in index, IsRetired(x, retired));
    SameBesides(env, lazy, lazy', eager, eager', step, em, eagerEm);
    LaneOfStep(env, lazy, lazy', step, em, x);
    LaneOfStep(env, eager, eager', step, eagerEm, x);
    LaneMirrors(env, lazy, eager, lazy'.down, step, x, LaneOf(lazy', x), LaneOf(eager', x), Lookup(em, x),
                Lookup(eagerEm, x), x in index, retired);
    IndexAside(lazy, index, step, x, retired);
  }

  /** Both engines take the same step: they emit the same and stay alike. */
  lemma StepMirrors(env: Env, lazy: State, lazy': State, eager: State, eager': State, index: set<Check>,
                    retired: set<NodeId>, step: Step, em: Emission, eagerEm: Emission)
    requires Mirrors(lazy, eager, index, retired) && Legal(step, retired)
    requires Takes(env, lazy, lazy', step, em) && Takes(env, eager, eager', step, eagerEm)
    ensures Mirrors(lazy', eager', IndexAfterStep(lazy, index, step), RetiredAfter(lazy, step, retired))
    ensures em == eagerEm
  {
    if step.Observing? {
      ObservationMirrors(env, lazy, lazy', eager, eager', index, retired, step.c, step.o, em, eagerEm);
    } else {
      var index', retired' := IndexAfterStep(lazy, index, step), RetiredAfter(lazy, step, retired);
      forall x: Check
        ensures SameOutcome(lazy', eager', index', retired', em, eagerEm, x)
        ensures lazy'.live == eager'.live && lazy'.down == eager'.down && lazy'.legacy == eager'.legacy
      {
        OtherStepMirrors(env, lazy, lazy', eager, eager', index, retired, step, em, eagerEm, x);
      }
      SameEverywhere(lazy', eager', index', retired', em, eagerEm);
    }
  }

  // ------------------------------------------------------------------------------------------
  // One result's rows: the skipping engine's run against that of the engine that observes every row.

  /** What a run says, in order: the emissions of the steps that emit anything. */
  function Spoken(run: seq<Entry>): seq<Emission> {
    if run == [] then []
    else Spoken(run[..|run| - 1]) + if run[|run| - 1].em == map[] then [] else [run[|run| - 1].em]
  }

  /** A run under one configuration that takes these steps. */
  ghost predicate Walks(env: Env, s: State, retired: set<NodeId>, run: seq<Entry>, steps: seq<Step>) {
    IsRun(s, retired, run) && Steps(run) == steps && forall i :: 0 <= i < |run| ==> run[i].env == env
  }

  /** The last step of such a run. */
  lemma WalksOneStep(env: Env, s: State, retired: set<NodeId>, run: seq<Entry>, steps: seq<Step>, step: Step)
    requires Walks(env, s, retired, run, steps + [step])
    ensures run != []
    ensures var init, e := run[..|run| - 1], run[|run| - 1];
            && Walks(env, s, retired, init, steps) && e.step == step && EndState(s, run) == e.post
            && Legal(step, EndRetired(s, retired, init)) && Takes(env, EndState(s, init), e.post, step, e.em)
            && EndRetired(s, retired, run) == RetiredAfter(EndState(s, init), step, EndRetired(s, retired, init))
            && Spoken(run) == Spoken(init) + if e.em == map[] then [] else [e.em]
  {
    assert run != [];
    assert Steps(run)[..|steps|] == steps;
    LastEntry(s, retired, run);
    StepsCount(run[..|run| - 1]);
    assert Steps(run[..|run| - 1]) == Steps(run)[..|steps|];
  }

  lemma {:induction false} StepsCount(run: seq<Entry>)
    ensures |Steps(run)| == |run|
  {
    if run != [] {
      StepsCount(run[..|run| - 1]);
    }
  }

  lemma NoStepsNoRun(env: Env, s: State, retired: set<NodeId>, run: seq<Entry>)
    requires Walks(env, s, retired, run, [])
    ensures run == []
  {
    StepsCount(run);
  }

  /** Steps both engines take alike that leave the row index alone. */
  predicate Plain(steps: seq<Step>) {
    forall i :: 0 <= i < |steps| ==> steps[i].Retiring? || steps[i].Orphaning?
  }

  /** Where both engines are after their runs, and that they have said the same. */
  ghost predicate Even(l: State, a: seq<Entry>, e: State, b: seq<Entry>, index: set<Check>, retired: set<NodeId>) {
    && Mirrors(EndState(l, a), EndState(e, b), index, retired) && Spoken(a) == Spoken(b)
    && EndRetired(l, retired, a) == retired && EndRetired(e, retired, b) == retired
  }

  lemma {:induction false} PlainMirrors(env: Env, l: State, a: seq<Entry>, e: State, b: seq<Entry>, index: set<Check>,
                                        retired: set<NodeId>, steps: seq<Step>)
    requires Mirrors(l, e, index, retired) && Plain(steps)
    requires Walks(env, l, retired, a, steps) && Walks(env, e, retired, b, steps)
    ensures Even(l, a, e, b, index, retired)
  {
    if steps == [] {
      NoStepsNoRun(env, l, retired, a);
      NoStepsNoRun(env, e, retired, b);
    } else {
      var init, step := steps[..|steps| - 1], steps[|steps| - 1];
      assert steps == init + [step];
      WalksOneStep(env, l, retired, a, init, step);
      WalksOneStep(env, e, retired, b, init, step);
      var a', b' := a[..|a| - 1], b[..|b| - 1];
      PlainMirrors(env, l, a', e, b', index, retired, init);
      StepMirrors(env, EndState(l, a'), EndState(l, a), EndState(e, b'), EndState(e, b), index, retired, step,
                  a[|a| - 1].em, b[|b| - 1].em);
    }
  }

  /** A row that is not kept is healthy, and nothing it says has been held back from the index. */
  lemma SkippedIsUnheld(rows: seq<RowSample>, index: set<Check>)
    requires rows != [] && RowsValid(rows) && !LateRecovery(rows, index, false)
    ensures !LateRecovery(rows[..|rows| - 1], index, false) && RowsValid(rows[..|rows| - 1])
    ensures var init, last := rows[..|rows| - 1], rows[|rows| - 1];
            && last.Valid() && ObsOk(last.c, last.Seen(false))
            && (!last.Breaching(false) && last.c !in index ==>
                  last.Seen(false).raw == Ok && last.c !in IndexAfter(init, index, false))
  {
    LateRecoveryAtTheEnd(rows, index, false);
  }

  /**
   * Row by row: a kept row is observed by both engines, and a row that is not kept changes nothing
   * in the engine that observes it, as long as no unheld row breaches and then recovers.
   */
  lemma {:induction false} RowsMirror(env: Env, l: State, a: seq<Entry>, e: State, b: seq<Entry>, index: set<Check>,
                                      retired: set<NodeId>, plain: seq<Step>, rows: seq<RowSample>)
    requires Mirrors(l, e, index, retired) && Plain(plain) && RowsValid(rows) && !LateRecovery(rows, index, false)
    requires Walks(env, l, retired, a, plain + Observations(Kept(rows, index, false), false))
    requires Walks(env, e, retired, b, plain + Observations(rows, false))
    ensures Even(l, a, e, b, IndexAfter(rows, index, false), retired)
  {
    if rows == [] {
      assert plain + [] == plain;
      PlainMirrors(env, l, a, e, b, index, retired, plain);
    } else {
      SkippedIsUnheld(rows, index);
      var init, r := rows[..|rows| - 1], rows[|rows| - 1];
      var b' := b[..|b| - 1];
      assert plain + Observations(rows, false) == (plain + Observations(init, false)) + [Observing(r.c, r.Seen(false))];
      WalksOneStep(env, e, retired, b, plain + Observations(init, false), Observing(r.c, r.Seen(false)));
      if r.Breaching(false) || r.c in index {
        KeptOneMore(rows, index, plain);
        WalksOneStep(env, l, retired, a, plain + Observations(Kept(init, index, false), false),
                     Observing(r.c, r.Seen(false)));
        RowsMirror(env, l, a[..|a| - 1], e, b', index, retired, plain, init);
        BothObserve(env, EndState(l, a[..|a| - 1]), a[|a| - 1], EndState(e, b'), b[|b| - 1], rows, index, retired);
      } else {
        assert Kept(rows, index, false) == Kept(init, index, false) + [] == Kept(init, index, false);
        RowsMirror(env, l, a, e, b', index, retired, plain, init);
        SkippingMirrors(env, EndState(l, a), EndState(e, b'), EndState(e, b), IndexAfter(init, index, false), retired,
                        r.c, r.Seen(false), b[|b| - 1].em);
      }
    }
  }

  lemma KeptOneMore(rows: seq<RowSample>, index: set<Check>, plain: seq<Step>)
    requires rows != [] && (rows[|rows| - 1].Breaching(false) || rows[|rows| - 1].c in index)
    ensures var init, r := rows[..|rows| - 1], rows[|rows| - 1];
            plain + Observations(Kept(rows, index, false), false) ==
            (plain + Observations(Kept(init, index, false), false)) + [Observing(r.c, r.Seen(false))]
  {
    var kept := Kept(rows[..|rows| - 1], index, false);
    assert (kept + [rows[|rows| - 1]])[..|kept|] == kept;
  }

  /** Both engines observe a kept row, which is held from then on. */
  lemma BothObserve(env: Env, lazy: State, x: Entry, eager: State, y: Entry, rows: seq<RowSample>, index: set<Check>,
                    retired: set<NodeId>)
    requires rows != [] && (rows[|rows| - 1].Breaching(false) || rows[|rows| - 1].c in index)
    requires rows[|rows| - 1].Valid()
    requires Mirrors(lazy, eager, IndexAfter(rows[..|rows| - 1], index, false), retired)
    requires var step := Observing(rows[|rows| - 1].c, rows[|rows| - 1].Seen(false));
             Legal(step, retired) && Takes(env, lazy, x.post, step, x.em) && Takes(env, eager, y.post, step, y.em)
    ensures Mirrors(x.post, y.post, IndexAfter(rows, index, false), retired) && x.em == y.em
  {
    var init, r := rows[..|rows| - 1], rows[|rows| - 1];
    ObservationMirrors(env, lazy, x.post, eager, y.post, IndexAfter(init, index, false), retired, r.c, r.Seen(false),
                       x.em, y.em);
    HeldOnceKept(rows, index);
  }

  lemma HeldOnceKept(rows: seq<RowSample>, index: set<Check>)
    requires rows != [] && (rows[|rows| - 1].Breaching(false) || rows[|rows| - 1].c in index)
    requires rows[|rows| - 1].Valid()
    ensures IndexWith(IndexAfter(rows[..|rows| - 1], index, false), rows[|rows| - 1].c) ==
            IndexAfter(rows, index, false)
  {
    IndexHoldsTheBreached(rows[..|rows| - 1], index, false, rows[|rows| - 1].c);
  }

  // ------------------------------------------------------------------------------------------
  // Whole runs: results, and any other step between them.

  /** Something happens to both engines: one step, or the table rows of one result. */
  datatype Happening = Single(step: Step) | RowResult(rows: seq<RowSample>)

  /** What the engine does: it asks the index once per result and grows it at the result's end. */
  function LazySteps(s: State, h: Happening): seq<Step>
    requires h.RowResult? ==> RowsValid(h.rows)
  {
    match h
    case Single(step) => [step]
    case RowResult(rows) => RowSteps(rows, s.rowStates, s.legacy, false)
  }

  /**
   * The trail the manager's `ObserveRows` leaves behind, from any state, is the skipping engine's turn:
   * what is proved of that engine is proved of the method.
   */
  lemma ObserveRowsIsTheSkippingEngine(env: Env, s: State, retired: set<NodeId>, rows: seq<RowSample>, t: Trail,
                                       here: State, acts: seq<Action>)
    requires RowsValid(rows) && LeadsTo(env, t, here, acts)
    requires Continues(Trail(s, retired, []), t, RowSteps(rows, s.rowStates, s.legacy, false))
    ensures Walks(env, s, retired, t.run, LazySteps(s, RowResult(rows)))
    ensures EndState(s, t.run) == here && Log(t.run) == acts
  {
    assert [] + RowSteps(rows, s.rowStates, s.legacy, false) == RowSteps(rows, s.rowStates, s.legacy, false);
  }

  /** What an engine that keeps a state for every row does. */
  function EagerSteps(s: State, h: Happening): seq<Step>
    requires h.RowResult? ==> RowsValid(h.rows)
  {
    match h
    case Single(step) => [step]
    case RowResult(rows) => Retirements(rows, s.legacy) + Observations(rows, false)
  }

  /** Rows come in results, outside maintenance, and no unheld row breaches and then recovers in one. */
  ghost predicate Ordinary(s: State, h: Happening) {
    match h
    case Single(step) => !step.Indexing? && (step.Observing? ==> !IsRowCheck(step.c))
    case RowResult(rows) => RowsValid(rows) && !LateRecovery(rows, s.rowStates, false)
  }

  datatype Turn = Turn(env: Env, what: Happening, lazyRun: seq<Entry>, eagerRun: seq<Entry>)

  function LazyEnd(s: State, turns: seq<Turn>): State {
    if turns == [] then s else EndState(LazyEnd(s, turns[..|turns| - 1]), turns[|turns| - 1].lazyRun)
  }

  function EagerEnd(s: State, turns: seq<Turn>): State {
    if turns == [] then s else EndState(EagerEnd(s, turns[..|turns| - 1]), turns[|turns| - 1].eagerRun)
  }

  function RetiredEnd(s: State, retired: set<NodeId>, turns: seq<Turn>): set<NodeId> {
    if turns == [] then retired
    else
      var init := turns[..|turns| - 1];
      EndRetired(LazyEnd(s, init), RetiredEnd(s, retired, init), turns[|turns| - 1].lazyRun)
  }

  /** Both engines take the same turn. */
  ghost predicate TurnTaken(l: State, e: State, retired: set<NodeId>, t: Turn) {
    && Ordinary(l, t.what)
    && Walks(t.env, l, retired, t.lazyRun, LazySteps(l, t.what))
    && Walks(t.env, e, retired, t.eagerRun, EagerSteps(e, t.what))
  }

  /** Both engines, started alike, see the same things happen. */
  ghost predicate SideBySide(s: State, retired: set<NodeId>, turns: seq<Turn>) {
    turns != [] ==>
      var init := turns[..|turns| - 1];
      && SideBySide(s, retired, init)
      && TurnTaken(LazyEnd(s, init), EagerEnd(s, init), RetiredEnd(s, retired, init), turns[|turns| - 1])
  }

  lemma {:induction false} RetirementsArePlain(rows: seq<RowSample>, legacy: set<Check>)
    requires RowsValid(rows)
    ensures Plain(Retirements(rows, legacy))
  {
    if rows != [] {
      RetirementsArePlain(rows[..|rows| - 1], legacy);
    }
  }

  /** One result's rows: the same is said, and the index is what it has to be. */
  lemma ResultMirrors(env: Env, l: State, a: seq<Entry>, e: State, b: seq<Entry>, retired: set<NodeId>,
                      rows: seq<RowSample>)
    requires Mirrors(l, e, l.rowStates, retired) && RowsValid(rows) && !LateRecovery(rows, l.rowStates, false)
    requires Walks(env, l, retired, a, RowSteps(rows, l.rowStates, l.legacy, false))
    requires Walks(env, e, retired, b, Retirements(rows, e.legacy) + Observations(rows, false))
    ensures Even(l, a, e, b, EndState(l, a).rowStates, retired)
  {
    var kept := Kept(rows, l.rowStates, false);
    var plain := Retirements(rows, l.legacy);
    RetirementsArePlain(rows, l.legacy);
    WalksOneStep(env, l, retired, a, plain + Observations(kept, false), Indexing(l.rowStates + ChecksOf(kept)));
    var a' := a[..|a| - 1];
    RowsMirror(env, l, a', e, b, l.rowStates, retired, plain, rows);
    IndexGrowsByTheKept(rows, l.rowStates, false);
    SameLanesMirror(EndState(l, a'), EndState(l, a), EndState(e, b), IndexAfter(rows, l.rowStates, false), retired);
  }

  lemma SameLanesMirror(l: State, l': State, e: State, index: set<Check>, retired: set<NodeId>)
    requires Mirrors(l, e, index, retired) && l' == l.(rowStates := l'.rowStates)
    ensures Mirrors(l', e, index, retired)
  {
    forall c: Check
      ensures LaneOf(l', c) == LaneOf(l, c)
    {
    }
  }

  lemma SingleMirrors(env: Env, l: State, a: seq<Entry>, e: State, b: seq<Entry>, retired: set<NodeId>, step: Step)
    requires Mirrors(l, e, l.rowStates, retired) && !step.Indexing? && (step.Observing? ==> !IsRowCheck(step.c))
    requires Walks(env, l, retired, a, [step]) && Walks(env, e, retired, b, [step])
    ensures Mirrors(EndState(l, a), EndState(e, b), EndState(l, a).rowStates, EndRetired(l, retired, a))
    ensures Spoken(a) == Spoken(b) && EndRetired(e, retired, b) == EndRetired(l, retired, a)
  {
    assert [] + [step] == [step];
    WalksOneStep(env, l, retired, a, [], step);
    WalksOneStep(env, e, retired, b, [], step);
    NoStepsNoRun(env, l, retired, a[..|a| - 1]);
    NoStepsNoRun(env, e, retired, b[..|b| - 1]);
    StepMirrors(env, l, EndState(l, a), e, EndState(e, b), l.rowStates, retired, step, a[|a| - 1].em, b[|b| - 1].em);
    assert EndState(l, a).rowStates == IndexAfterStep(l, l.rowStates, step);
  }

  predicate SaySame(turns: seq<Turn>) {
    turns != [] ==>
      SaySame(turns[..|turns| - 1]) && Spoken(turns[|turns| - 1].lazyRun) == Spoken(turns[|turns| - 1].eagerRun)
  }

  lemma TurnMirrors(l: State, e: State, retired: set<NodeId>, t: Turn)
    requires Mirrors(l, e, l.rowStates, retired) && TurnTaken(l, e, retired, t)
    ensures var l', e' := EndState(l, t.lazyRun), EndState(e, t.eagerRun);
            Mirrors(l', e', l'.rowStates, EndRetired(l, retired, t.lazyRun))
    ensures Spoken(t.lazyRun) == Spoken(t.eagerRun)
  {
    match t.what
    case Single(step) => SingleMirrors(t.env, l, t.lazyRun, e, t.eagerRun, retired, step);
    case RowResult(rows) => ResultMirrors(t.env, l, t.lazyRun, e, t.eagerRun, retired, rows);
  }

  lemma {:induction false} TurnsMirror(s: State, retired: set<NodeId>, turns: seq<Turn>)
    requires Mirrors(s, s, s.rowStates, retired) && SideBySide(s, retired, turns)
    ensures Mirrors(LazyEnd(s, turns), EagerEnd(s, turns), LazyEnd(s, turns).rowStates, RetiredEnd(s, retired, turns))
    ensures SaySame(turns)
  {
    if turns != [] {
      var init := turns[..|turns| - 1];
      TurnsMirror(s, retired, init);
      TurnMirrors(LazyEnd(s, init), EagerEnd(s, init), RetiredEnd(s, retired, init), turns[|turns| - 1]);
    }
  }

  /** A restored row's check is in the index, so its recovery is not skipped. */
  lemma RestoredRowsAreIndexed(env: Env, s: State, s': State, alerts: seq<Alert>, c: Check)
    requires SeedsIndexes(s, s', alerts) && IsRowCheck(c) && FirstAbout(alerts, c).Some?
    ensures c in s'.rowStates
  {
    FirstAboutIsARow(alerts, c);
    var i :| 0 <= i < |alerts| && alerts[i].check == c;
    assert alerts[i].check in RowChecks(alerts);
  }

  lemma UnindexedRowsAreEmpty(env: Env, s: State, retired: set<NodeId>, fleet: seq<Alert>, dead: seq<Alert>,
                              mid: State, c: Check)
    requires Starts(env, s, retired, fleet, dead, mid) && IsRowCheck(c) && c !in s.rowStates
    ensures LaneOf(s, c) == EMPTY_LANE
  {
    if FirstAbout(fleet, c).Some? {
      RestoredRowsAreIndexed(env, EMPTY, mid, fleet, c);
    }
    if FirstAbout(dead, c).Some? {
      RestoredRowsAreIndexed(env, mid, s, dead, c);
    }
    assert LaneOf(EMPTY, c) == EMPTY_LANE;
  }

  lemma StartMirrorsItself(s: State, retired: set<NodeId>)
    requires IsStart(s, retired)
    ensures Mirrors(s, s, s.rowStates, retired)
  {
    var env, fleet, dead, mid :| Starts(env, s, retired, fleet, dead, mid);
    forall c: Check
      ensures Mirrored(c, LaneOf(s, c), LaneOf(s, c), c in s.rowStates, IsRetired(c, retired))
    {
      if IsRowCheck(c) && c !in s.rowStates {
        UnindexedRowsAreEmpty(env, s, retired, fleet, dead, mid, c);
      }
    }
  }

  lemma SameAlerts(lazy: State, eager: State, index: set<Check>, retired: set<NodeId>)
    requires Mirrors(lazy, eager, index, retired)
    ensures lazy.active == eager.active
  {
    forall c: Check
      ensures c in lazy.active <==> c in eager.active
      ensures c in lazy.active ==> lazy.active[c] == eager.active[c]
    {
      assert LaneOf(eager, c).alert == LaneOf(lazy, c).alert;
    }
  }

  /**
   * Skipping healthy rows is exact. For every sequence of results outside maintenance, in none of
   * which an unheld row breaches and then recovers, with any other steps between them: the engine
   * that asks its index once per result, observes only the rows that breach or are held, and grows
   * the index at the result's end, says the same at every turn as one that observes every row, and
   * holds the same open alerts.
   */
  lemma SkippingHealthyRowsIsExact(s: State, retired: set<NodeId>, turns: seq<Turn>)
    requires IsStart(s, retired) && SideBySide(s, retired, turns)
    ensures SaySame(turns)
    ensures LazyEnd(s, turns).active == EagerEnd(s, turns).active
  {
    StartMirrorsItself(s, retired);
    TurnsMirror(s, retired, turns);
    SameAlerts(LazyEnd(s, turns), EagerEnd(s, turns), LazyEnd(s, turns).rowStates, RetiredEnd(s, retired, turns));
  }
}
