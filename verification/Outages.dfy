/** What becomes of the alerts an outage rolled up, once the node is back. */
module Outages {
  import opened Base
  import opened Lanes
  import opened LaneProofs
  import opened Engine
  import opened EngineProofs
  import opened Runs
  import opened Lifelines

  /** A sample that shows a problem; `Unknown` and `Maintenance` do not. */
  predicate IsBad(o: Obs) {
    o.raw in {Warning, Critical, Unreachable}
  }

  /** The run of problem samples a sequence of observations ends with. */
  function BadRun(os: seq<Obs>): nat {
    if os == [] || !IsBad(os[|os| - 1]) then 0 else BadRun(os[..|os| - 1]) + 1
  }

  /** An alert the outage rolled up, its node just back: nothing has been counted yet. */
  predicate HeldBack(c: Check, l: Lane) {
    && c.Threshold? && LaneOk(c, l, false)
    && l.alert.Some? && l.alert.value.rootCause.Some? && l.release == Some(0)
  }

  /** No sample completes a dwell of problem samples since the return. */
  predicate NeverDue(os: seq<Obs>) {
    os != [] ==> NeverDue(os[..|os| - 1]) && BadRun(os) < os[|os| - 1].Dwell()
  }

  predicate NoPages(acts: seq<Action>) {
    forall i :: 0 <= i < |acts| ==> acts[i].alert.rootCause.Some?
  }

  // ------------------------------------------------------------------------------------------
  // The node comes back, or goes down again.

  /** A sweep that finds the node up starts the count in silence, however the node came back. */
  lemma ReturnStartsTheCount(c: Check, l: Lane, isDown: bool)
    requires c.Threshold? && LaneOk(c, l, isDown) && l.alert.Some? && l.alert.value.rootCause.Some?
    ensures HeldBack(c, Swept(c, l, None, c.Node())) && SweptAction(c, l, None, c.Node()).None?
  {
  }

  /**
   * The observation that brings a node back, from an outage or through a maintenance window, holds back
   * every threshold alert the outage rolled up, and says nothing about any of them.
   */
  lemma NodeReturns(env: Env, s: State, s': State, x: Check, o: Obs, em: Emission, retired: set<NodeId>, c: Check)
    requires x.Liveness? && Inv(s, retired) && ObserveStep(env, s, s', x, o, em) && SweepFollows(s, x, o)
    requires x.node !in s'.down && c.Threshold? && c.node == x.node
    requires c in s.active && s.active[c].rootCause.Some?
    ensures HeldBack(c, LaneOf(s', c)) && !NodeDown(s', c) && c !in em
  {
    assert LaneOk(c, LaneOf(s, c), NodeDown(s, c));
    assert SweptTo(env, s, s', s'.down, c, x.Node(), em);
    ReturnStartsTheCount(c, LaneOf(s, c), NodeDown(s, c));
  }

  /**
   * A node comes back when its liveness moves from `Unreachable` or `Maintenance` to `Ok` or `Unknown`.
   * Every threshold alert rolled up into it is then held back for a new dwell, in silence.
   */
  lemma ANodeThatComesBack(env: Env, s: State, s': State, n: NodeId, o: Obs, em: Emission, retired: set<NodeId>,
                           c: Check)
    requires Inv(s, retired) && ObsOk(Liveness(n), o) && n !in retired && ObserveStep(env, s, s', Liveness(n), o, em)
    requires n in s.live && s.live[n] in {Unreachable, Maintenance} && n in s'.live && s'.live[n] in {Ok, Unknown}
    requires c.Threshold? && c.node == n && c in s.active
    requires s.live[n] == Maintenance ==> s.active[c].rootCause.Some?
    ensures HeldBack(c, LaneOf(s', c)) && !NodeDown(s', c) && c !in em
  {
    FlipNeedsATransition(s, Liveness(n), o, retired);
    assert LaneOk(c, LaneOf(s, c), NodeDown(s, c)) && (n in s.down <==> WasDown(s, n));
    ObserveKeepsDown(env, s, s', Liveness(n), o, em);
    assert n in s'.down <==> WasDown(s', n);
    NodeReturns(env, s, s', Liveness(n), o, em, retired, c);
  }

  /** Going down again cancels the count in silence; the outage owns the alert once more. */
  lemma DownAgainCancelsTheCount(env: Env, s: State, s': State, x: Check, o: Obs, em: Emission, retired: set<NodeId>,
                                 c: Check)
    requires Inv(s, retired) && ObsOk(x, o) && x.Node().value !in retired && ObserveStep(env, s, s', x, o, em)
    requires c.Threshold? && c.node !in s.down && c.node in s'.down
    requires c in s.active && c in s.releasing
    ensures LaneOf(s', c) == LaneOf(s, c).(release := None) && c !in em
    ensures s'.active[c].rootCause == c.Node()
  {
    FlipNeedsATransition(s, x, o, retired);
    var l := LaneOf(s, c);
    assert LaneOk(c, l, NodeDown(s, c));
    assert SweptTo(env, s, s', s'.down, c, x.Node(), em);
    assert LaneOf(s', c).alert == Lookup(s'.active, c);
  }

  // ------------------------------------------------------------------------------------------
  // The alert's own observations decide.

  /** One observation of a held-back alert that completes nothing: the count moves, nobody is paged. */
  lemma HeldBackStep(c: Check, l: Lane, o: Obs)
    requires c.Threshold? && LaneOk(c, l, false) && ObsOk(c, o) && Committed(l, o).None?
    requires l.alert.Some? && l.alert.value.rootCause.Some? && l.release.Some?
    requires !EndsRelease(l, o)
    ensures var l' := Observed(c, l, o, None, None);
            && LaneOk(c, l', false)
            && l'.alert.Some? && l'.alert.value.rootCause == l.alert.value.rootCause
            && l'.release == Some(if IsBad(o) then l.release.value + 1 else 0)
    ensures NoPages(AsSeq(ObservedAction(c, l, o, None, None)))
  {
  }

  /**
   * Until `dwell` problem observations in a row since the return, a rolled-up alert stays rolled up
   * and is never paged, and the engine's count is the length of that run.
   */
  lemma {:induction false} StaysHeldBack(c: Check, l: Lane, os: seq<Obs>)
    requires HeldBack(c, l) && AllOk(c, os) && NeverCommits(c, l, os) && NeverDue(os)
    ensures var l' := LaneAfter(c, l, os);
            && LaneOk(c, l', false)
            && l'.alert.Some? && l'.alert.value.rootCause == l.alert.value.rootCause
            && l'.release == Some(BadRun(os))
    ensures NoPages(ActsOf(c, l, os))
  {
    if os != [] {
      var init, o := os[..|os| - 1], os[|os| - 1];
      StaysHeldBack(c, l, init);
      HeldBackStep(c, LaneAfter(c, l, init), o);
    }
  }

  lemma EndingObservation(c: Check, l: Lane, o: Obs)
    requires c.Threshold? && LaneOk(c, l, false) && ObsOk(c, o) && Committed(l, o).None?
    requires l.alert.Some? && l.alert.value.rootCause.Some? && EndsRelease(l, o)
    ensures var l' := Observed(c, l, o, None, None);
            && LaneOk(c, l', false) && Pages(l') && l'.release.None?
            && ObservedAction(c, l, o, None, None) == Some(Fire(l'.alert.value))
  {
  }

  lemma BadRunOneMore(os: seq<Obs>, o: Obs)
    ensures BadRun(os + [o]) == if IsBad(o) then BadRun(os) + 1 else 0
  {
    assert (os + [o])[..|os|] == os;
  }

  /** The observation that completes the dwell pages, once, with the marker off. */
  lemma CompletedDwellPages(c: Check, l: Lane, os: seq<Obs>, o: Obs)
    requires HeldBack(c, l) && AllOk(c, os) && NeverCommits(c, l, os) && NeverDue(os)
    requires ObsOk(c, o) && Committed(LaneAfter(c, l, os), o).None? && o.Dwell() <= BadRun(os + [o])
    ensures var l' := LaneAfter(c, l, os + [o]);
            && LaneOk(c, l', false) && Pages(l') && l'.release.None?
            && NoPages(ActsOf(c, l, os)) && ActsOf(c, l, os + [o]) == ActsOf(c, l, os) + [Fire(l'.alert.value)]
  {
    StaysHeldBack(c, l, os);
    OneMore(c, l, os, o);
    BadRunOneMore(os, o);
    EndingObservation(c, LaneAfter(c, l, os), o);
  }

  /** No observation of the stretch flips the published side. */
  predicate NeverFlips(c: Check, l: Lane, os: seq<Obs>) {
    os != [] ==>
      && NeverFlips(c, l, os[..|os| - 1])
      && !FlipsSide(LaneAfter(c, l, os[..|os| - 1]), os[|os| - 1])
  }

  /** With nothing left to release, only a side flip or a committed change speaks. */
  lemma {:induction false} StaysSilent(c: Check, l: Lane, os: seq<Obs>)
    requires c.Threshold? && LaneOk(c, l, false) && l.release.None? && AllOk(c, os)
    requires NeverCommits(c, l, os) && NeverFlips(c, l, os)
    ensures ActsOf(c, l, os) == [] && LaneAfter(c, l, os).release.None? && LaneOk(c, LaneAfter(c, l, os), false)
    ensures Pages(l) ==> Pages(LaneAfter(c, l, os))
  {
    if os != [] {
      var init, o := os[..|os| - 1], os[|os| - 1];
      StaysSilent(c, l, init);
      SilentObservation(c, LaneAfter(c, l, init), o);
    }
  }

  lemma SilentObservation(c: Check, l: Lane, o: Obs)
    requires c.Threshold? && LaneOk(c, l, false) && ObsOk(c, o) && Committed(l, o).None? && l.release.None?
    ensures ObservedAction(c, l, o, None, None).Some? <==> FlipsSide(l, o)
    ensures Observed(c, l, o, None, None).release.None? && LaneOk(c, Observed(c, l, o, None, None), false)
    ensures Pages(l) ==> Pages(Observed(c, l, o, None, None))
  {
    ObservedThreshold(c, l, o, false, None, None);
  }

  // ------------------------------------------------------------------------------------------
  // Over runs.

  /** A quiet stretch of a run that starts with the node back and the check's alert held back. */
  ghost predicate AfterReturn(s: State, retired: set<NodeId>, run: seq<Entry>, c: Check) {
    Inv(s, retired) && IsRun(s, retired, run) && Quiet(s, run, c) && !NodeDown(s, c) && HeldBack(c, LaneOf(s, c))
  }

  /**
   * From the moment the node is back, along every quiet stretch in which the check commits nothing and
   * no dwell of problem samples completes, nothing delivered about the check is a page and its alert
   * is still rolled up.
   */
  lemma NoPageBeforeTheDwell(s: State, retired: set<NodeId>, run: seq<Entry>, c: Check)
    requires AfterReturn(s, retired, run, c)
    requires NeverCommits(c, LaneOf(s, c), ObsAbout(run, c)) && NeverDue(ObsAbout(run, c))
    ensures NoPages(LogAbout(Log(run), c))
    ensures c in EndState(s, run).active && EndState(s, run).active[c].rootCause == c.Node()
    ensures Lookup(EndState(s, run).releasing, c) == Some(BadRun(ObsAbout(run, c)))
  {
    LaneFollowsItsObservations(s, retired, run, c);
    StaysHeldBack(c, LaneOf(s, c), ObsAbout(run, c));
    assert LaneOf(EndState(s, run), c).alert == Lookup(EndState(s, run).active, c);
  }

  /**
   * Exactly one page. If the run's observations of the check complete a dwell of problem samples, at
   * `o`, then everything delivered about the check up to there is no page, `o` pages, and what comes
   * after it, as long as nothing commits and the side does not flip, delivers nothing.
   */
  lemma PagesOnceTheDwellCompletes(s: State, retired: set<NodeId>, run: seq<Entry>, c: Check,
                                   before: seq<Obs>, o: Obs, after: seq<Obs>)
    requires AfterReturn(s, retired, run, c) && ObsAbout(run, c) == before + [o] + after
    requires var l := LaneOf(s, c);
             && NeverCommits(c, l, before) && NeverDue(before)
             && Committed(LaneAfter(c, l, before), o).None? && o.Dwell() <= BadRun(before + [o])
             && NeverCommits(c, LaneAfter(c, l, before + [o]), after)
             && NeverFlips(c, LaneAfter(c, l, before + [o]), after)
    ensures var log, quiet := LogAbout(Log(run), c), ActsOf(c, LaneOf(s, c), before);
            && |log| == |quiet| + 1 && log[..|quiet|] == quiet && NoPages(quiet)
            && log[|quiet|].Fire? && log[|quiet|].alert.rootCause.None?
    ensures Pages(LaneOf(EndState(s, run), c)) && c !in EndState(s, run).releasing
  {
    var l := LaneOf(s, c);
    LaneFollowsItsObservations(s, retired, run, c);
    PartsOk(c, before, o, after);
    CompletedDwellPages(c, l, before, o);
    StaysSilent(c, LaneAfter(c, l, before + [o]), after);
    TwoParts(c, l, before + [o], after);
    assert ActsOf(c, l, before + [o]) + [] == ActsOf(c, l, before + [o]);
    assert LaneOf(EndState(s, run), c).release == Lookup(EndState(s, run).releasing, c);
  }

  lemma PartsOk(c: Check, before: seq<Obs>, o: Obs, after: seq<Obs>)
    requires AllOk(c, before + [o] + after)
    ensures AllOk(c, before) && ObsOk(c, o) && AllOk(c, after)
  {
    var all := before + [o] + after;
    assert all[|before|] == o;
    assert forall i :: 0 <= i < |before| ==> all[i] == before[i];
    assert forall i :: 0 <= i < |after| ==> all[|before| + 1 + i] == after[i];
  }

  /** The check commits a change before any dwell of problem samples has completed. */
  ghost predicate CommitsFirst(s: State, retired: set<NodeId>, run: seq<Entry>, c: Check, before: seq<Obs>, o: Obs) {
    && AfterReturn(s, retired, run, c) && ObsAbout(run, c) == before + [o]
    && NeverCommits(c, LaneOf(s, c), before) && NeverDue(before)
    && Committed(LaneAfter(c, LaneOf(s, c), before), o).Some?
  }

  /** Recovering first closes the alert with one resolve that still carries the marker: nobody is paged. */
  lemma RecoveryResolvesStillRolledUp(s: State, retired: set<NodeId>, run: seq<Entry>, c: Check, before: seq<Obs>,
                                      o: Obs)
    requires CommitsFirst(s, retired, run, c, before, o) && !IsBad(o)
    ensures var log, quiet := LogAbout(Log(run), c), ActsOf(c, LaneOf(s, c), before);
            && |log| == |quiet| + 1 && log[..|quiet|] == quiet && NoPages(log)
            && log[|quiet|].Resolve? && log[|quiet|].alert.rootCause == c.Node()
    ensures c !in EndState(s, run).active && c !in EndState(s, run).releasing
  {
    LaneFollowsItsObservations(s, retired, run, c);
    RecoveryAfter(c, LaneOf(s, c), before, o);
    var end := EndState(s, run);
    assert LaneOf(end, c).alert == Lookup(end.active, c) && LaneOf(end, c).release == Lookup(end.releasing, c);
  }

  lemma RecoveryAfter(c: Check, l: Lane, before: seq<Obs>, o: Obs)
    requires HeldBack(c, l) && AllOk(c, before + [o]) && NeverCommits(c, l, before) && NeverDue(before)
    requires Committed(LaneAfter(c, l, before), o).Some? && !IsBad(o)
    ensures var log, quiet := ActsOf(c, l, before + [o]), ActsOf(c, l, before);
            && |log| == |quiet| + 1 && log[..|quiet|] == quiet && NoPages(log)
            && log[|quiet|].Resolve? && log[|quiet|].alert.rootCause == c.Node()
    ensures LaneAfter(c, l, before + [o]).alert.None? && LaneAfter(c, l, before + [o]).release.None?
  {
    assert before + [o] + [] == before + [o];
    PartsOk(c, before, o, []);
    StaysHeldBack(c, l, before);
    OneMore(c, l, before, o);
    RecoveringObservation(c, LaneAfter(c, l, before), o);
  }

  lemma RecoveringObservation(c: Check, l: Lane, o: Obs)
    requires c.Threshold? && LaneOk(c, l, false) && ObsOk(c, o) && Committed(l, o).Some? && !IsBad(o)
    requires l.alert.Some? && l.alert.value.rootCause.Some?
    ensures ObservedAction(c, l, o, None, None) == Some(Resolve(l.alert.value)) && l.alert.value.rootCause == c.Node()
    ensures Observed(c, l, o, None, None).alert.None? && Observed(c, l, o, None, None).release.None?
  {
    WeighedIsOk(c, l, o, false);
  }

  /** A committed change of severity ends the hold with a page of its own, and nothing was paged before it. */
  lemma SeverityChangeEndsTheHold(s: State, retired: set<NodeId>, run: seq<Entry>, c: Check, before: seq<Obs>, o: Obs)
    requires CommitsFirst(s, retired, run, c, before, o) && IsBad(o)
    ensures var log, quiet := LogAbout(Log(run), c), ActsOf(c, LaneOf(s, c), before);
            && |log| == |quiet| + 1 && log[..|quiet|] == quiet && NoPages(quiet)
            && log[|quiet|].Fire? && log[|quiet|].alert.rootCause.None? && log[|quiet|].alert.state == o.raw
    ensures Pages(LaneOf(EndState(s, run), c)) && c !in EndState(s, run).releasing
  {
    var l := LaneOf(s, c);
    LaneFollowsItsObservations(s, retired, run, c);
    assert before + [o] + [] == before + [o];
    PartsOk(c, before, o, []);
    StaysHeldBack(c, l, before);
    OneMore(c, l, before, o);
    CommittingObservation(c, LaneAfter(c, l, before), o);
    assert LaneOf(EndState(s, run), c).release == Lookup(EndState(s, run).releasing, c);
  }

  lemma CommittingObservation(c: Check, l: Lane, o: Obs)
    requires c.Threshold? && LaneOk(c, l, false) && ObsOk(c, o) && Committed(l, o).Some? && IsBad(o)
    ensures var l' := Observed(c, l, o, None, None);
            && Pages(l') && l'.release.None? && l'.alert.value.state == o.raw
            && ObservedAction(c, l, o, None, None) == Some(Fire(l'.alert.value))
  {
    WeighedIsOk(c, l, o, false);
  }
}
