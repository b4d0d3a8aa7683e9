/**
 * Where the engine stays silent although something is wrong: a liveness rule deleted and created
 * again during one outage, and a marker alert that an outage rolled up. Exactly when, in every run.
 */
module Silences {
  import opened Base
  import opened Lanes
  import opened LaneProofs
  import opened Engine
  import opened EngineProofs
  import opened Restore
  import opened Runs
  import opened Lifelines

  // ------------------------------------------------------------------------------------------
  // A liveness check without a rule.

  /** Whether a check's committed outage has been seen without a rule in force since it committed. */
  function Strands(pre: State, step: Step, c: Check, was: bool): bool {
    if step.Observing? && step.c == c then
      !step.o.alerting || (was && Committed(LaneOf(pre, c), step.o).None?)
    else was
  }

  function Stranded(s: State, run: seq<Entry>, c: Check): bool {
    if run == [] then false
    else
      var init := run[..|run| - 1];
      Strands(EndState(s, init), run[|run| - 1].step, c, Stranded(s, init, c))
  }

  /** A liveness alert is open exactly while the outage is committed and a rule has been in force. */
  predicate OpenWhileRuled(l: Lane, stranded: bool) {
    l.alert.Some? <==> l.tracker.Some? && l.tracker.value.tracker.committed == Unreachable && !stranded
  }

  lemma ObservedWhileRuled(c: Check, l: Lane, o: Obs, isDown: bool, rc: Option<NodeId>, wait: Option<int>, was: bool)
    requires c.Liveness? && LaneOk(c, l, isDown) && ObsOk(c, o) && OpenWhileRuled(l, was)
    ensures OpenWhileRuled(Observed(c, l, o, rc, wait), !o.alerting || (was && Committed(l, o).None?))
  {
    WeighedIsOk(c, l, o, isDown);
  }

  lemma OthersWhileRuled(c: Check, l: Lane, isDown: bool, rc: Option<NodeId>, changed: Option<NodeId>, was: bool)
    requires c.Liveness? && LaneOk(c, l, isDown) && OpenWhileRuled(l, was)
    ensures OpenWhileRuled(Swept(c, l, rc, changed), was) && OpenWhileRuled(LetGo(l), was)
    ensures OpenWhileRuled(Orphaned(l), was)
  {
  }

  lemma LaneWhileRuled(env: Env, s: State, down: set<NodeId>, step: Step, c: Check, l': Lane, act: Option<Action>,
                       retired: set<NodeId>, was: bool)
    requires LaneTakes(env, s, down, step, c, l', act) && Legal(step, retired) && c.Liveness?
    requires LaneOk(c, LaneOf(s, c), NodeDown(s, c)) && OpenWhileRuled(LaneOf(s, c), was)
    ensures OpenWhileRuled(l', Strands(s, step, c, was))
  {
    var l, rc := LaneOf(s, c), RcNow(env, c, down);
    if step.Observing? && step.c == c {
      ObservedWhileRuled(c, l, step.o, NodeDown(s, c), rc, WaitOn(env, s, c, step.o), was);
    } else {
      OthersWhileRuled(c, l, NodeDown(s, c), rc, if step.Observing? then step.c.Node() else None, was);
    }
  }

  lemma StepWhileRuled(env: Env, s: State, s': State, step: Step, em: Emission, retired: set<NodeId>, c: Check,
                       was: bool)
    requires Inv(s, retired) && Legal(step, retired) && Takes(env, s, s', step, em) && c.Liveness?
    requires OpenWhileRuled(LaneOf(s, c), was)
    ensures OpenWhileRuled(LaneOf(s', c), Strands(s, step, c, was))
  {
    assert LaneOk(c, LaneOf(s, c), NodeDown(s, c));
    LaneOfStep(env, s, s', step, em, c);
    LaneWhileRuled(env, s, s'.down, step, c, LaneOf(s', c), Lookup(em, c), retired, was);
  }

  lemma StartIsRuled(s: State, retired: set<NodeId>, c: Check)
    requires IsStart(s, retired) && c.Liveness?
    ensures OpenWhileRuled(LaneOf(s, c), false)
  {
    var env, fleet, dead, mid :| Starts(env, s, retired, fleet, dead, mid);
    RowsAreOk(fleet, c);
    RowsAreOk(dead, c);
    assert LaneOf(EMPTY, c) == EMPTY_LANE;
  }

  /**
   * For liveness, committed state and open alert agree exactly while a rule has been in force at every
   * observation since the outage committed. Threshold checks have no such exception.
   */
  lemma {:induction false} LivenessOpenExactlyWhileRuled(s: State, retired: set<NodeId>, run: seq<Entry>, c: Check)
    requires IsStart(s, retired) && IsRun(s, retired, run) && c.Liveness?
    ensures OpenWhileRuled(LaneOf(EndState(s, run), c), Stranded(s, run, c))
  {
    if run == [] {
      StartIsRuled(s, retired, c);
    } else {
      var init, last := run[..|run| - 1], run[|run| - 1];
      LastEntry(s, retired, run);
      LivenessOpenExactlyWhileRuled(s, retired, init, c);
      EveryReachableStateIsSound(s, retired, init);
      StepWhileRuled(last.env, EndState(s, init), last.post, last.step, last.em, EndRetired(s, retired, init), c,
                     Stranded(s, init, c));
    }
  }

  /** An outage is committed, no alert is open about it, and nothing waits to open one. */
  predicate Mute(l: Lane) {
    OpenWhileRuled(l, true) && l.tracker.Some? && l.tracker.value.tracker.committed == Unreachable
  }

  /** Deleting the rule during an outage closes its alert at the next failing sample, and leaves it mute. */
  lemma DeletedRuleStrands(c: Check, l: Lane, o: Obs, isDown: bool, rc: Option<NodeId>, wait: Option<int>)
    requires c.Liveness? && LaneOk(c, l, isDown) && l.alert.Some?
    requires ObsOk(c, o) && o.raw == Unreachable && !o.alerting
    ensures Mute(Observed(c, l, o, rc, wait))
    ensures ObservedAction(c, l, o, rc, wait) ==
            if l.alert.value.heldUntil.None? then Some(Resolve(l.alert.value)) else None
  {
  }

  lemma MuteObservation(c: Check, l: Lane, o: Obs, isDown: bool, rc: Option<NodeId>, wait: Option<int>)
    requires c.Liveness? && LaneOk(c, l, isDown) && Mute(l) && ObsOk(c, o) && o.raw == Unreachable
    ensures Mute(Observed(c, l, o, rc, wait)) && ObservedAction(c, l, o, rc, wait).None?
  {
  }

  lemma MuteOtherwise(c: Check, l: Lane, isDown: bool, rc: Option<NodeId>, changed: Option<NodeId>)
    requires c.Liveness? && LaneOk(c, l, isDown) && Mute(l)
    ensures Swept(c, l, rc, changed) == l && SweptAction(c, l, rc, changed).None?
    ensures LetGo(l) == l && LetGoAction(l).None? && Orphaned(l) == l && ClosedAction(l).None?
  {
  }

  lemma MuteLane(env: Env, s: State, down: set<NodeId>, step: Step, c: Check, l': Lane, act: Option<Action>,
                 retired: set<NodeId>)
    requires LaneTakes(env, s, down, step, c, l', act) && Legal(step, retired) && c.Liveness?
    requires LaneOk(c, LaneOf(s, c), NodeDown(s, c)) && Mute(LaneOf(s, c))
    requires step.Observing? && step.c == c ==> step.o.raw == Unreachable
    ensures Mute(l') && act.None?
  {
    var l, rc := LaneOf(s, c), RcNow(env, c, down);
    if step.Observing? && step.c == c {
      MuteObservation(c, l, step.o, NodeDown(s, c), rc, WaitOn(env, s, c, step.o));
    } else {
      MuteOtherwise(c, l, NodeDown(s, c), rc, if step.Observing? then step.c.Node() else None);
    }
  }

  lemma MuteStep(env: Env, s: State, s': State, step: Step, em: Emission, retired: set<NodeId>, c: Check)
    requires Inv(s, retired) && Legal(step, retired) && Takes(env, s, s', step, em) && c.Liveness? && Mute(LaneOf(s, c))
    requires step.Observing? && step.c == c ==> step.o.raw == Unreachable
    ensures Mute(LaneOf(s', c)) && Lookup(em, c).None?
  {
    assert LaneOk(c, LaneOf(s, c), NodeDown(s, c));
    LaneOfStep(env, s, s', step, em, c);
    MuteLane(env, s, s'.down, step, c, LaneOf(s', c), Lookup(em, c), retired);
  }

  /** Every observation of the check finds its node unreachable. */
  predicate StaysDown(run: seq<Entry>, c: Check) {
    run != [] ==>
      && StaysDown(run[..|run| - 1], c)
      && (run[|run| - 1].step.Observing? && run[|run| - 1].step.c == c ==> run[|run| - 1].step.o.raw == Unreachable)
  }

  /**
   * So a rule created again while the node is still down says nothing: however long the outage lasts,
   * whatever rules come and go and whatever else happens, nothing is delivered about the check and no
   * alert opens.
   */
  lemma {:induction false} RecreatedRuleStaysSilent(s: State, retired: set<NodeId>, run: seq<Entry>, c: Check)
    requires Inv(s, retired) && IsRun(s, retired, run) && c.Liveness? && Mute(LaneOf(s, c)) && StaysDown(run, c)
    ensures LogAbout(Log(run), c) == [] && Mute(LaneOf(EndState(s, run), c))
  {
    if run != [] {
      var init, last := run[..|run| - 1], run[|run| - 1];
      LastEntry(s, retired, run);
      RecreatedRuleStaysSilent(s, retired, init, c);
      RunStaysSound(s, retired, init);
      MuteStep(last.env, EndState(s, init), last.post, last.step, last.em, EndRetired(s, retired, init), c);
      ListedAbout(last.acts, last.em, c);
      LogAboutConcat(Log(init), last.acts, c);
    }
  }

  // ------------------------------------------------------------------------------------------
  // A marker alert an outage rolled up.

  /** The steps that end a marker alert's silence: a raise at another severity, a close, a deletion. */
  predicate Speaks(s: State, step: Step, c: Check) {
    match step
    case Raising(a) => a.check == c && RaiseIsNews(LaneOf(s, c), a)
    case Closing(x) => x == c
    case Forgetting(kept) => AboutDeleted(c, kept)
    case _ => false
  }

  /** An open marker alert that is part of an outage. */
  predicate RolledUp(s: State, c: Check) {
    c in s.active && s.active[c].rootCause.Some?
  }

  lemma SweptMarker(c: Check, l: Lane, rc: Option<NodeId>, changed: Option<NodeId>)
    requires c.Marker? && l.alert.Some? && l.alert.value.rootCause.Some?
    ensures var l' := Swept(c, l, rc, changed); l'.alert.Some? && l'.alert.value.rootCause.Some?
    ensures SweptAction(c, l, rc, changed).None?
  {
  }

  lemma MarkerLane(env: Env, s: State, down: set<NodeId>, step: Step, c: Check, l': Lane, act: Option<Action>,
                   retired: set<NodeId>)
    requires LaneTakes(env, s, down, step, c, l', act) && Legal(step, retired) && c.Marker?
    requires LaneOk(c, LaneOf(s, c), NodeDown(s, c)) && RolledUp(s, c)
    ensures !Speaks(s, step, c) ==> l'.alert.Some? && l'.alert.value.rootCause.Some? && act.None?
    ensures Speaks(s, step, c) ==> act.Some?
  {
    SweptMarker(c, LaneOf(s, c), RcNow(env, c, down), if step.Observing? then step.c.Node() else None);
  }

  /**
   * No observation releases a replaced device's or a stale backup's alert: once an outage has rolled it
   * up, a step leaves it rolled up and says nothing about it, the node's return included, unless and only
   * unless it raises it at another severity, closes it, or deletes its node.
   */
  lemma MarkerStaysRolledUp(env: Env, s: State, s': State, step: Step, em: Emission, retired: set<NodeId>, c: Check)
    requires Inv(s, retired) && Legal(step, retired) && Takes(env, s, s', step, em)
    requires c.Marker? && RolledUp(s, c)
    ensures !Speaks(s, step, c) ==> RolledUp(s', c) && c !in em
    ensures Speaks(s, step, c) ==> c in em
  {
    assert LaneOk(c, LaneOf(s, c), NodeDown(s, c));
    LaneOfStep(env, s, s', step, em, c);
    MarkerLane(env, s, s'.down, step, c, LaneOf(s', c), Lookup(em, c), retired);
    assert LaneOf(s', c).alert == Lookup(s'.active, c);
  }

  /** No step of a run speaks for the marker. */
  predicate NeverSpeaks(s: State, run: seq<Entry>, c: Check) {
    run != [] ==>
      var init := run[..|run| - 1];
      NeverSpeaks(s, init, c) && !Speaks(EndState(s, init), run[|run| - 1].step, c)
  }

  /** Over runs: nothing at all is delivered about it exactly as long as no step speaks for it. */
  lemma {:induction false} MarkerIsSilentUntilSpokenFor(s: State, retired: set<NodeId>, run: seq<Entry>, c: Check)
    requires Inv(s, retired) && IsRun(s, retired, run) && c.Marker? && RolledUp(s, c)
    ensures LogAbout(Log(run), c) == [] <==> NeverSpeaks(s, run, c)
    ensures NeverSpeaks(s, run, c) ==> RolledUp(EndState(s, run), c)
  {
    if run != [] {
      var init, last := run[..|run| - 1], run[|run| - 1];
      LastEntry(s, retired, run);
      MarkerIsSilentUntilSpokenFor(s, retired, init, c);
      LogAboutConcat(Log(init), last.acts, c);
      if NeverSpeaks(s, init, c) {
        RunStaysSound(s, retired, init);
        MarkerStaysRolledUp(last.env, EndState(s, init), last.post, last.step, last.em, EndRetired(s, retired, init),
                            c);
        ListedAbout(last.acts, last.em, c);
      }
    }
  }
}
