/** Two more promises about a threshold check: its published side, and a rule back in force. */
module Sides {
  import opened Base
  import opened Hysteresis
  import opened Lanes
  import opened LaneProofs
  import opened Engine
  import opened EngineProofs
  import opened Restore
  import opened Runs
  import opened Lifelines
  import opened Outages

  // ------------------------------------------------------------------------------------------
  // The published side.

  /** The trailing samples at state `p` that breach on the other side than `d`. */
  function OtherRun(os: seq<Obs>, p: NodeState, d: Direction): nat {
    if os == [] then 0
    else
      var o := os[|os| - 1];
      if o.raw == p && o.eval.Some? && o.eval.value.direction != d then OtherRun(os[..|os| - 1], p, d) + 1 else 0
  }

  /** An open alert that describes a breach, with no side change pending. */
  predicate Published(c: Check, l: Lane) {
    && c.Threshold? && LaneOk(c, l, false)
    && l.alert.Some? && l.alert.value.breach.Some? && l.side.None?
  }

  function SideOf(l: Lane): Direction
    requires l.alert.Some? && l.alert.value.breach.Some?
  {
    l.alert.value.breach.value.direction
  }

  /** The engine's pending count is the trailing run on the side opposite the one now published. */
  lemma {:induction false} SideCountIsTheOtherRun(c: Check, l: Lane, os: seq<Obs>)
    requires Published(c, l) && AllOk(c, os) && NeverCommits(c, l, os)
    ensures var l' := LaneAfter(c, l, os);
            && LaneOk(c, l', false)
            && l'.alert.Some? && l'.alert.value.state == l.alert.value.state && l'.alert.value.breach.Some?
            && SideCount(l') == OtherRun(os, l.alert.value.state, SideOf(l'))
  {
    if os != [] {
      var init, o := os[..|os| - 1], os[|os| - 1];
      SideCountIsTheOtherRun(c, l, init);
      SideStep(c, LaneAfter(c, l, init), o);
      OtherRunStep(os, l.alert.value.state, SideOf(LaneAfter(c, l, init)));
    }
  }

  /** Whether one sample continues a run on the side opposite `d`. */
  predicate IsOther(o: Obs, p: NodeState, d: Direction) {
    o.raw == p && o.eval.Some? && o.eval.value.direction != d
  }

  lemma OtherRunStep(os: seq<Obs>, p: NodeState, d: Direction)
    requires os != []
    ensures OtherRun(os, p, d) == if IsOther(os[|os| - 1], p, d) then OtherRun(os[..|os| - 1], p, d) + 1 else 0
  {
  }

  /** One observation that commits nothing: the count grows, flips the side, or starts over. */
  lemma SideStep(c: Check, l: Lane, o: Obs)
    requires c.Threshold? && LaneOk(c, l, false) && ObsOk(c, o) && Committed(l, o).None?
    requires l.alert.Some? && l.alert.value.breach.Some?
    ensures var l' := Observed(c, l, o, None, None);
            && LaneOk(c, l', false)
            && l'.alert.Some? && l'.alert.value.state == l.alert.value.state && l'.alert.value.breach.Some?
            && (if !IsOther(o, l.alert.value.state, SideOf(l)) then SideCount(l') == 0 && SideOf(l') == SideOf(l)
                else if SideCount(l) + 1 < o.Dwell() then SideCount(l') == SideCount(l) + 1 && SideOf(l') == SideOf(l)
                else SideCount(l') == 0 && SideOf(l') == o.eval.value.direction
                     && ObservedAction(c, l, o, None, None) == Some(Fire(l'.alert.value)))
            && (EndsRelease(l, o) ==> l'.alert.value.rootCause.None?)
  {
    ObservedThreshold(c, l, o, false, None, None);
  }

  /** One more observation that commits nothing: the side flips exactly on a full run, in one fire. */
  lemma FlipsExactlyOnAFullRun(c: Check, l: Lane, os: seq<Obs>, o: Obs)
    requires Published(c, l) && AllOk(c, os) && NeverCommits(c, l, os)
    requires ObsOk(c, o) && Committed(LaneAfter(c, l, os), o).None?
    ensures var before, after := LaneAfter(c, l, os), LaneAfter(c, l, os + [o]);
            && before.alert.Some? && before.alert.value.breach.Some?
            && after.alert.Some? && after.alert.value.breach.Some?
            && (SideOf(after) != SideOf(before) <==>
                o.Dwell() <= OtherRun(os + [o], l.alert.value.state, SideOf(before)))
            && (SideOf(after) != SideOf(before) ==>
                ObservedAction(c, before, o, None, None) == Some(Fire(after.alert.value)))
            && (EndsRelease(before, o) ==> after.alert.value.rootCause.None?)
  {
    SideCountIsTheOtherRun(c, l, os);
    var before := LaneAfter(c, l, os);
    OneMore(c, l, os, o);
    SideStep(c, before, o);
    assert (os + [o])[..|os|] == os;
    OtherRunStep(os + [o], l.alert.value.state, SideOf(before));
  }

  /**
   * Over runs. Along a quiet stretch in which the check commits nothing, an observation of it flips the
   * published side exactly when the last `dwell` observations of the check were all at the alert's state
   * and on the other side. The flip is delivered as exactly one fire, naming the new side, and if the
   * same observation ends a release that one fire carries the marker off as well.
   */
  lemma SideFlipsExactlyOnAFullRun(s: State, retired: set<NodeId>, run: seq<Entry>, c: Check)
    requires Inv(s, retired) && IsRun(s, retired, run) && Quiet(s, run, c) && !NodeDown(s, c)
    requires Published(c, LaneOf(s, c)) && NeverCommits(c, LaneOf(s, c), ObsAbout(run, c))
    requires run != [] && run[|run| - 1].step.Observing? && run[|run| - 1].step.c == c
    ensures var e := run[|run| - 1];
            var before, after := LaneOf(EndState(s, run[..|run| - 1]), c), LaneOf(e.post, c);
            && before.alert.Some? && before.alert.value.breach.Some?
            && after.alert.Some? && after.alert.value.breach.Some?
            && (SideOf(after) != SideOf(before) <==>
                e.step.o.Dwell() <= OtherRun(ObsAbout(run, c), before.alert.value.state, SideOf(before)))
            && (SideOf(after) != SideOf(before) ==> LogAbout(e.acts, c) == [Fire(after.alert.value)])
            && (EndsRelease(before, e.step.o) ==> after.alert.value.rootCause.None?)
  {
    var init, o := run[..|run| - 1], run[|run| - 1].step.o;
    var l, os := LaneOf(s, c), ObsAbout(init, c);
    FollowsTwice(s, retired, run, c);
    assert ObsAbout(run, c) == os + [o];
    assert (os + [o])[..|os|] == os && (os + [o])[|os|] == o;
    SideCountIsTheOtherRun(c, l, os);
    FlipsExactlyOnAFullRun(c, l, os, o);
  }

  /**
   * That is where every committed change leaves a check: neither a side change nor a release is pending,
   * and an alert it opens describes the sample that opened it.
   */
  lemma ACommittedChangeStartsOver(env: Env, s: State, s': State, c: Check, o: Obs, em: Emission, retired: set<NodeId>)
    requires Inv(s, retired) && ObsOk(c, o) && c.Node().value !in retired && c.Threshold?
    requires ObserveStep(env, s, s', c, o, em) && Committed(LaneOf(s, c), o).Some?
    ensures c !in s'.sidePending && c !in s'.releasing
    ensures c.node !in s'.down && o.raw in {Warning, Critical} && o.eval.Some? ==>
              Published(c, LaneOf(s', c)) && SideOf(LaneOf(s', c)) == o.eval.value.direction
  {
    ObserveKeepsInv(env, s, s', c, o, em, retired);
    assert LaneOk(c, LaneOf(s', c), NodeDown(s', c));
    assert LaneOf(s', c).side == Lookup(s'.sidePending, c) && LaneOf(s', c).release == Lookup(s'.releasing, c);
  }

  /** A quiet run, its last entry apart: both parts followed. */
  lemma FollowsTwice(s: State, retired: set<NodeId>, run: seq<Entry>, c: Check)
    requires Inv(s, retired) && IsRun(s, retired, run) && Quiet(s, run, c) && !NodeDown(s, c) && c.Threshold?
    requires run != []
    ensures var e, l, os := run[|run| - 1], LaneOf(s, c), ObsAbout(run[..|run| - 1], c);
            && AllOk(c, os) && AllOk(c, ObsAbout(run, c))
            && LaneOf(EndState(s, run[..|run| - 1]), c) == LaneAfter(c, l, os)
            && LaneOf(e.post, c) == LaneAfter(c, l, ObsAbout(run, c))
            && LogAbout(e.acts, c) == EntryActs(c, LaneAfter(c, l, os), ObsIn(e.step, c))
  {
    LastEntry(s, retired, run);
    QuietInit(s, run, c);
    LaneFollowsItsObservations(s, retired, run[..|run| - 1], c);
    LaneFollowsItsObservations(s, retired, run, c);
    LastEntryFollows(s, retired, run, c);
  }

  // ------------------------------------------------------------------------------------------
  // A rule back in force after a sweep closed its check.

  /** What a check's tracker is fed: the raw states, each with the dwell in force. */
  function Samples(os: seq<Obs>): seq<Sample> {
    if os == [] then []
    else Samples(os[..|os| - 1]) + [Sample(os[|os| - 1].raw, os[|os| - 1].dwell)]
  }

  /** The observations end in a run of one problem state as long as the dwell then in force. */
  predicate FullRun(os: seq<Obs>) {
    && os != [] && os[|os| - 1].raw.Severity().Some?
    && os[|os| - 1].Dwell() <= Trailing(Samples(os))
  }

  predicate NeverFull(os: seq<Obs>) {
    !FullRun(os) && (os != [] ==> NeverFull(os[..|os| - 1]))
  }

  const AFRESH: Tracker := Seeded(Ok, 1)

  /** The tracker of a check made afresh, after some observations of it. */
  predicate FedAfresh(l: Lane, os: seq<Obs>) {
    if os == [] then l.tracker.None?
    else l.tracker.Some? && l.tracker.value.tracker == Feed(AFRESH, Samples(os))
  }

  lemma SamplesOneMore(os: seq<Obs>, o: Obs)
    ensures Samples(os + [o]) == Samples(os) + [Sample(o.raw, o.dwell)]
    ensures Feed(AFRESH, Samples(os + [o])) == Next(WithDwell(Feed(AFRESH, Samples(os)), o.dwell), o.raw)
  {
    assert (os + [o])[..|os|] == os;
    var h := Samples(os) + [Sample(o.raw, o.dwell)];
    assert h[..|h| - 1] == Samples(os);
  }

  lemma FedOneMore(l: Lane, os: seq<Obs>, o: Obs)
    requires FedAfresh(l, os)
    ensures Ready(l, o).tracker == WithDwell(Feed(AFRESH, Samples(os)), o.dwell)
    ensures Weighed(l, o).tracker == Feed(AFRESH, Samples(os + [o]))
  {
    SamplesOneMore(os, o);
  }

  /** Without an open alert, a sample commits a problem exactly when it completes a full run of it. */
  lemma CommitsOnAFullRun(c: Check, l: Lane, os: seq<Obs>, o: Obs)
    requires c.Threshold? && LaneOk(c, l, false) && FedAfresh(l, os) && l.alert.None? && o.raw.Severity().Some?
    ensures Committed(l, o).Some? <==> FullRun(os + [o])
  {
    FedOneMore(l, os, o);
    SamplesOneMore(os, o);
    CommitsExactlyOnAFullWindow(AFRESH, Samples(os), Sample(o.raw, o.dwell));
    assert (os + [o])[|os|] == o;
  }

  lemma UnopenedStep(c: Check, l: Lane, o: Obs)
    requires c.Threshold? && LaneOk(c, l, false) && ObsOk(c, o) && l.alert.None?
    requires o.raw.Severity().Some? ==> Committed(l, o).None?
    ensures LaneOk(c, Observed(c, l, o, None, None), false) && Observed(c, l, o, None, None).alert.None?
    ensures ObservedAction(c, l, o, None, None).None?
    ensures Observed(c, l, o, None, None).tracker == Some(Weighed(l, o))
  {
    ObservedThreshold(c, l, o, false, None, None);
  }

  /** Until a run is full nothing is said and no alert is open. */
  lemma {:induction false} FreshRun(c: Check, l: Lane, os: seq<Obs>)
    requires c.Threshold? && LaneOk(c, l, false) && l.tracker.None? && AllOk(c, os) && NeverFull(os)
    ensures var l' := LaneAfter(c, l, os); LaneOk(c, l', false) && l'.alert.None? && FedAfresh(l', os)
    ensures ActsOf(c, l, os) == []
  {
    if os != [] {
      var init, o := os[..|os| - 1], os[|os| - 1];
      assert os == init + [o];
      FreshRun(c, l, init);
      FreshStep(c, LaneAfter(c, l, init), init, o);
      OneMore(c, l, init, o);
    }
  }

  lemma FreshStep(c: Check, l: Lane, os: seq<Obs>, o: Obs)
    requires c.Threshold? && LaneOk(c, l, false) && l.alert.None? && FedAfresh(l, os) && ObsOk(c, o)
    requires !FullRun(os + [o])
    ensures var l' := Observed(c, l, o, None, None);
            LaneOk(c, l', false) && l'.alert.None? && FedAfresh(l', os + [o])
    ensures ObservedAction(c, l, o, None, None).None?
  {
    if o.raw.Severity().Some? {
      CommitsOnAFullRun(c, l, os, o);
    }
    UnopenedStep(c, l, o);
    FedOneMore(l, os, o);
  }

  /** The sample that makes a run full pages, and it is the first thing said. */
  lemma FreshDwell(c: Check, l: Lane, os: seq<Obs>, o: Obs)
    requires c.Threshold? && LaneOk(c, l, false) && l.tracker.None? && AllOk(c, os) && ObsOk(c, o)
    requires NeverFull(os) && FullRun(os + [o])
    ensures Pages(LaneAfter(c, l, os + [o])) && LaneAfter(c, l, os + [o]).alert.value.state == o.raw
    ensures ActsOf(c, l, os + [o]) == [Fire(LaneAfter(c, l, os + [o]).alert.value)]
  {
    FreshRun(c, l, os);
    OneMore(c, l, os, o);
    assert (os + [o])[|os|] == o;
    CommitsOnAFullRun(c, LaneAfter(c, l, os), os, o);
    CommittingObservation(c, LaneAfter(c, l, os), o);
  }

  /** A check a sweep closed starts afresh. */
  lemma ClosedIsFresh(s: State, s': State, orphans: set<Check>, em: Emission, c: Check)
    requires OrphanStep(s, s', orphans, em) && c in orphans && c in s.active
    ensures LaneOf(s', c).tracker.None?
  {
    assert LaneOf(s, c).alert.Some?;
    assert OrphanedTo(s, s', orphans, c, em);
  }

  /**
   * Over runs. After a sweep closed a check, whatever samples a rule back in force then judges and
   * whatever dwell it has at each: nothing is delivered about the check and it has no alert until its
   * samples end in a run of one problem state as long as the dwell in force. The sample that completes
   * the first such run is delivered as exactly one fire, a page in that state.
   */
  lemma RuleBackInForceFiresOnTheDwellthSample(s: State, s': State, orphans: set<Check>, em: Emission,
                                               retired: set<NodeId>, run: seq<Entry>, c: Check)
    requires Inv(s, retired) && Legal(Orphaning(orphans), retired) && OrphanStep(s, s', orphans, em)
    requires c in orphans && c in s.active && !NodeDown(s, c) && IsRun(s', retired, run) && Quiet(s', run, c)
    ensures NeverFull(ObsAbout(run, c)) ==> LogAbout(Log(run), c) == [] && c !in EndState(s', run).active
    ensures var os, end := ObsAbout(run, c), EndState(s', run);
            FullRun(os) && NeverFull(os[..|os| - 1]) ==>
              && Pages(LaneOf(end, c)) && end.active[c].state == os[|os| - 1].raw
              && LogAbout(Log(run), c) == [Fire(end.active[c])]
  {
    ClosedIsFresh(s, s', orphans, em, c);
    assert LedgerHolds(s, PagedAtStart(s));
    OrphanKeepsInv(s, s', orphans, em, retired, PagedAtStart(s));
    var l, os, end := LaneOf(s', c), ObsAbout(run, c), EndState(s', run);
    LaneFollowsItsObservations(s', retired, run, c);
    assert LaneOf(end, c).alert == Lookup(end.active, c);
    assert LaneOk(c, l, NodeDown(s', c));
    FreshSamples(c, l, os);
  }

  lemma FreshSamples(c: Check, l: Lane, os: seq<Obs>)
    requires c.Threshold? && LaneOk(c, l, false) && l.tracker.None? && AllOk(c, os)
    ensures NeverFull(os) ==> ActsOf(c, l, os) == [] && LaneAfter(c, l, os).alert.None?
    ensures FullRun(os) && NeverFull(os[..|os| - 1]) ==>
      && Pages(LaneAfter(c, l, os)) && LaneAfter(c, l, os).alert.value.state == os[|os| - 1].raw
      && ActsOf(c, l, os) == [Fire(LaneAfter(c, l, os).alert.value)]
  {
    if NeverFull(os) {
      FreshRun(c, l, os);
    } else if FullRun(os) && NeverFull(os[..|os| - 1]) {
      var init, o := os[..|os| - 1], os[|os| - 1];
      assert os == init + [o];
      FreshDwell(c, l, init, o);
    }
  }

  /** A check that recovered before the sweep acted keeps its dwell window, and nothing is said. */
  lemma RecoveredCheckKeepsItsWindow(s: State, s': State, orphans: set<Check>, em: Emission, retired: set<NodeId>,
                                     c: Check)
    requires Inv(s, retired) && OrphanStep(s, s', orphans, em)
    requires c.Threshold? && (c in s.states ==> s.states[c].tracker.committed.Severity().None?)
    ensures Lookup(s'.states, c) == Lookup(s.states, c) && c !in em
  {
    assert LaneOk(c, LaneOf(s, c), NodeDown(s, c));
    assert LaneOf(s', c).tracker == Lookup(s'.states, c);
  }
}
