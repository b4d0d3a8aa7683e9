/** Roll-ups: the incremental re-sweep against recomputing every attribution. */
module Attribution {
  import opened Base
  import opened Grouping
  import opened Lanes
  import opened LaneProofs
  import opened Engine
  import opened EngineProofs
  import opened Restore
  import opened Runs

  /** Every open liveness alert carries what the grouping answers for the nodes down now. */
  ghost predicate RollUpsCurrent(g: LinkGraph, s: State) {
    forall n: NodeId :: Liveness(n) in s.active ==> s.active[Liveness(n)].rootCause == RootCause(g, n, s.down)
  }

  /** A visited or skipped liveness alert ends up with the grouping's answer either way. */
  lemma SweepAttributes(c: Check, l: Lane, isDown: bool, rc: Option<NodeId>, changed: Option<NodeId>)
    requires c.Liveness? && LaneOk(c, l, isDown) && c.Node() != changed
    ensures Swept(c, l, rc, changed).alert.Some? ==> Swept(c, l, rc, changed).alert.value.rootCause == rc
    ensures Swept(c, l, rc, changed).alert.Some? <==> l.alert.Some?
  {
  }

  /**
   * After every regroup, every open liveness alert's root cause is the grouping's answer for the
   * current down set, although only filtered candidates were visited.
   */
  lemma RegroupIsFullRecomputation(env: Env, s: State, s': State, em: Emission, retired: set<NodeId>)
    requires Inv(s, retired) && RegroupStep(env, s, s', em)
    ensures RollUpsCurrent(env.graph, s')
  {
    forall n: NodeId | Liveness(n) in s'.active
      ensures s'.active[Liveness(n)].rootCause == RootCause(env.graph, n, s'.down)
    {
      var c := Liveness(n);
      assert LaneOk(c, LaneOf(s, c), NodeDown(s, c));
      assert SweptTo(env, s, s', s.down, c, None, em);
      SweepAttributes(c, LaneOf(s, c), NodeDown(s, c), RcNow(env, c, s.down), None);
      assert LaneOf(s', c).alert == Some(s'.active[c]);
    }
  }

  /** A second regroup finds nothing to do: it emits nothing and changes no lane. */
  lemma RegroupIsIdempotent(env: Env, s: State, s': State, em: Emission, retired: set<NodeId>)
    requires Inv(s, retired) && RegroupStep(env, s, s', em) && RollUpsCurrent(env.graph, s)
    ensures em == map[]
    ensures forall c: Check :: LaneOf(s', c) == LaneOf(s, c)
  {
    forall c: Check
      ensures c !in em && LaneOf(s', c) == LaneOf(s, c)
    {
      assert LaneOk(c, LaneOf(s, c), NodeDown(s, c));
      assert SweptTo(env, s, s', s.down, c, None, em);
      if c.Liveness? && c in s.active {
        assert s.active[c].rootCause == RootCause(env.graph, c.node, s.down);
      }
    }
  }

  /** The observed liveness alert itself: opened now with the grouping's answer, or left as it was. */
  lemma OwnAlertIsAttributed(c: Check, l: Lane, o: Obs, isDown: bool, rc: Option<NodeId>, wait: Option<int>)
    requires c.Liveness? && LaneOk(c, l, isDown) && ObsOk(c, o)
    ensures var l' := Observed(c, l, o, rc, wait);
            l'.alert.Some? ==>
            if o.alerting && Committed(l, o).Some? then l'.alert.value.rootCause == rc
            else l.alert.Some? && l'.alert.value.rootCause == l.alert.value.rootCause
    ensures !o.alerting ==> Observed(c, l, o, rc, wait).alert.None?
  {
    WeighedIsOk(c, l, o, isDown);
  }

  /**
   * After every re-sweep, every roll-up is the grouping's answer whatever it was before; and with no
   * sweep, roll-ups that were current stay so as long as the down set does not move.
   */
  lemma ObserveKeepsRollUpsCurrent(env: Env, s: State, s': State, c: Check, o: Obs, em: Emission, retired: set<NodeId>)
    requires Inv(s, retired) && ObsOk(c, o) && c.Node().value !in retired && ObserveStep(env, s, s', c, o, em)
    requires SweepFollows(s, c, o) || (RollUpsCurrent(env.graph, s) && s'.down == s.down)
    ensures RollUpsCurrent(env.graph, s')
  {
    forall n: NodeId | Liveness(n) in s'.active
      ensures s'.active[Liveness(n)].rootCause == RootCause(env.graph, n, s'.down)
    {
      var x := Liveness(n);
      assert LaneOk(x, LaneOf(s, x), NodeDown(s, x));
      assert LaneOf(s', x).alert == Some(s'.active[x]);
      assert !SweepFollows(s, c, o) && x in s.active ==> s.active[x].rootCause == RootCause(env.graph, n, s.down);
      if x == c {
        OwnAlertIsAttributed(c, LaneOf(s, c), o, NodeDown(s, c), RcNow(env, c, s'.down), WaitOn(env, s, c, o));
      } else if SweepFollows(s, c, o) {
        SweepAttributes(x, LaneOf(s, x), NodeDown(s, x), RcNow(env, x, s'.down), c.Node());
      }
    }
  }

  /** Every flip of the down set is swept after, except a down node entering maintenance. */
  lemma OnlyMaintenanceGoesUnswept(env: Env, s: State, s': State, c: Check, o: Obs, em: Emission, retired: set<NodeId>)
    requires Inv(s, retired) && ObsOk(c, o) && c.Node().value !in retired && ObserveStep(env, s, s', c, o, em)
    requires s'.down != s.down && !SweepFollows(s, c, o)
    ensures c.Liveness? && c.node in s.down && c.node in s'.live && s'.live[c.node] == Maintenance
  {
    FlipNeedsATransition(s, c, o, retired);
    assert c.node in s.down <==> WasDown(s, c.node);
  }

  /** Steps that neither observe nor delete leave every liveness alert's root cause alone. */
  lemma OtherStepsKeepRollUpsCurrent(env: Env, s: State, s': State, step: Step, em: Emission, retired: set<NodeId>)
    requires Inv(s, retired) && Legal(step, retired) && Takes(env, s, s', step, em) && RollUpsCurrent(env.graph, s)
    requires !step.Observing? && !step.Forgetting? && !step.Regrouping?
    ensures RollUpsCurrent(env.graph, s')
  {
    forall n: NodeId | Liveness(n) in s'.active
      ensures s'.active[Liveness(n)].rootCause == RootCause(env.graph, n, s'.down)
    {
      var x := Liveness(n);
      assert LaneOk(x, LaneOf(s, x), NodeDown(s, x));
      assert LaneOf(s', x).alert == Some(s'.active[x]);
      assert x in s.active ==> s.active[x].rootCause == RootCause(env.graph, n, s.down);
    }
  }

  /** A step that moves the down set with no sweep after it, or changes the grouping. */
  predicate Disturbs(g: LinkGraph, pre: State, e: Entry) {
    || e.env.graph != g
    || (e.step.Forgetting? && e.post.down != pre.down)
    || (e.step.Observing? && e.post.down != pre.down && !SweepFollows(pre, e.step.c, e.step.o))
  }

  ghost predicate NeverDisturbed(g: LinkGraph, s: State, run: seq<Entry>) {
    forall i :: 0 <= i < |run| ==> !Disturbs(g, EndState(s, run[..i]), run[i])
  }

  /**
   * From any sound state whose roll-ups are current they stay current along every run, until the
   * grouping changes or the down set moves through a maintenance entry or a deletion.
   */
  lemma {:induction false} RollUpsStayCurrent(g: LinkGraph, s: State, retired: set<NodeId>, run: seq<Entry>)
    requires Inv(s, retired) && RollUpsCurrent(g, s) && IsRun(s, retired, run) && NeverDisturbed(g, s, run)
    ensures RollUpsCurrent(g, EndState(s, run))
  {
    if run != [] {
      var init, last := run[..|run| - 1], run[|run| - 1];
      forall i | 0 <= i < |init|
        ensures !Disturbs(g, EndState(s, init[..i]), init[i])
      {
        assert init[..i] == run[..i] && init[i] == run[i];
      }
      LastEntry(s, retired, run);
      RollUpsStayCurrent(g, s, retired, init);
      RunStaysSound(s, retired, init);
      StepKeepsRollUpsCurrent(g, EndState(s, init), last, EndRetired(s, retired, init));
    }
  }

  /** An entry that judges every roll-up again: a regroup, or an observation with a re-sweep after it. */
  predicate Rejudges(pre: State, e: Entry) {
    e.step.Regrouping? || (e.step.Observing? && SweepFollows(pre, e.step.c, e.step.o))
  }

  /**
   * After any regroup or re-sweep of any run, whatever the roll-ups were before it, they are the
   * grouping's answer and stay so until the next disturbance.
   */
  lemma RollUpsCurrentAfterAnySweep(s: State, retired: set<NodeId>, before: seq<Entry>, e: Entry, after: seq<Entry>)
    requires Inv(s, retired) && IsRun(s, retired, before + [e])
    requires Rejudges(EndState(s, before), e)
    requires IsRun(e.post, EndRetired(s, retired, before + [e]), after) && NeverDisturbed(e.env.graph, e.post, after)
    ensures RollUpsCurrent(e.env.graph, EndState(e.post, after))
  {
    assert (before + [e])[..|before|] == before;
    LastEntry(s, retired, before + [e]);
    RunStaysSound(s, retired, before);
    RunStaysSound(s, retired, before + [e]);
    SweepMakesCurrent(EndState(s, before), e, EndRetired(s, retired, before));
    RollUpsStayCurrent(e.env.graph, e.post, EndRetired(s, retired, before + [e]), after);
  }

  lemma SweepMakesCurrent(s: State, e: Entry, retired: set<NodeId>)
    requires Inv(s, retired) && Legal(e.step, retired) && Takes(e.env, s, e.post, e.step, e.em) && Rejudges(s, e)
    ensures RollUpsCurrent(e.env.graph, e.post)
  {
    if e.step.Regrouping? {
      RegroupIsFullRecomputation(e.env, s, e.post, e.em, retired);
    } else {
      ObserveKeepsRollUpsCurrent(e.env, s, e.post, e.step.c, e.step.o, e.em, retired);
    }
  }

  lemma StepKeepsRollUpsCurrent(g: LinkGraph, s: State, e: Entry, retired: set<NodeId>)
    requires Inv(s, retired) && Legal(e.step, retired) && Takes(e.env, s, e.post, e.step, e.em)
    requires RollUpsCurrent(g, s) && !Disturbs(g, s, e)
    ensures RollUpsCurrent(g, e.post)
  {
    match e.step
    case Observing(c, o) => ObserveKeepsRollUpsCurrent(e.env, s, e.post, c, o, e.em, retired);
    case Regrouping => RegroupIsFullRecomputation(e.env, s, e.post, e.em, retired);
    case Forgetting(kept) => ForgetKeepsRollUpsCurrent(g, s, e.post, kept, e.em);
    case _ => OtherStepsKeepRollUpsCurrent(e.env, s, e.post, e.step, e.em, retired);
  }

  lemma ForgetKeepsRollUpsCurrent(g: LinkGraph, s: State, s': State, kept: set<NodeId>, em: Emission)
    requires ForgetStep(s, s', kept, em) && RollUpsCurrent(g, s) && s'.down == s.down
    ensures RollUpsCurrent(g, s')
  {
    forall n: NodeId | Liveness(n) in s'.active
      ensures s'.active[Liveness(n)].rootCause == RootCause(g, n, s'.down)
    {
      var x := Liveness(n);
      assert LaneOf(s', x).alert == Some(s'.active[x]);
      assert x in s.active ==> s.active[x].rootCause == RootCause(g, n, s.down);
    }
  }

  /** A node that is not down is rolled up into nobody. */
  lemma UpHasNoRootCause(g: LinkGraph, n: NodeId, down: set<NodeId>)
    requires n !in down
    ensures RootCause(g, n, down).None?
  {
  }

  lemma RestoredFleetIsCurrent(env: Env, mid: State, fleet: seq<Alert>, n: NodeId)
    requires RowsOk(fleet) && RestoreStep(env, EMPTY, mid, fleet) && Liveness(n) in mid.active
    ensures mid.active[Liveness(n)].rootCause == RootCause(env.graph, n, mid.down)
    ensures FirstAbout(fleet, Liveness(n)).Some?
  {
    assert LaneOf(EMPTY, Liveness(n)) == EMPTY_LANE;
    assert LaneOf(mid, Liveness(n)).alert == Some(mid.active[Liveness(n)]);
    RowsAreOk(fleet, Liveness(n));
  }

  /** A deleted node's row comes back unrolled, and its node is not down. */
  lemma RestoredDeadAreCurrent(env: Env, mid: State, s: State, dead: seq<Alert>, n: NodeId)
    requires RowsOk(dead) && RestoreDeletedStep(env, mid, s, dead) && Liveness(n) in s.active
    requires Liveness(n) !in mid.active && n !in mid.down
    ensures s.active[Liveness(n)].rootCause == RootCause(env.graph, n, s.down)
  {
    RowsAreOk(dead, Liveness(n));
    UpHasNoRootCause(env.graph, n, {});
    UpHasNoRootCause(env.graph, n, s.down);
    assert LaneOf(mid, Liveness(n)).alert.None?;
    assert LaneOf(s, Liveness(n)).alert == Some(s.active[Liveness(n)]);
  }

  /** Every engine starts with current roll-ups: the fleet's rows and the deleted nodes' alike. */
  lemma StartIsAttributed(env: Env, s: State, retired: set<NodeId>, fleet: seq<Alert>, dead: seq<Alert>, mid: State)
    requires Starts(env, s, retired, fleet, dead, mid)
    ensures RollUpsCurrent(env.graph, s)
  {
    forall n: NodeId | Liveness(n) in s.active
      ensures s.active[Liveness(n)].rootCause == RootCause(env.graph, n, s.down)
    {
      var c := Liveness(n);
      if c in mid.active {
        RestoredFleetIsCurrent(env, mid, fleet, n);
        assert LaneOf(s, c).alert == LaneOf(mid, c).alert;
        assert LaneOf(s, c).alert == Some(s.active[c]) && LaneOf(mid, c).alert == Some(mid.active[c]);
      } else {
        FirstAboutIsARow(dead, c);
        assert LaneOf(mid, c).alert.None? && LaneOf(s, c).alert == Some(s.active[c]);
        assert FirstAbout(dead, c).Some?;
        var i :| 0 <= i < |dead| && dead[i].check == c;
        assert n in NodesOf(dead);
        FleetNeverHeardOfTheDead(env, mid, fleet, n);
        RestoredDeadAreCurrent(env, mid, s, dead, n);
      }
    }
  }
}
