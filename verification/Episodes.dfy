/** Held notifications: what a hold is, how an episode of holding ends, and that nobody pages twice. */
module Episodes {
  import opened Base
  import opened Lanes
  import opened LaneProofs
  import opened Engine
  import opened EngineProofs
  import opened Restore
  import opened Runs
  import opened Lifelines

  // ------------------------------------------------------------------------------------------
  // A hold episode ends once, with one fire at most.

  /** How a held lane may move: it stays held in silence, is closed in silence, or fires once. */
  predicate HoldMoves(l: Lane, l': Lane, act: Option<Action>)
    requires l.hold.Some?
  {
    || (l'.hold == l.hold && l'.alert == l.alert && act.None?)
    || (l'.hold.None? && l'.alert.None? && act.None?)
    || (l'.hold.None? && l'.alert.Some? && l'.alert.value.heldUntil.None? && act == Some(Fire(l'.alert.value)))
  }

  lemma ObservedHold(c: Check, l: Lane, o: Obs, isDown: bool, rc: Option<NodeId>, wait: Option<int>)
    requires LaneOk(c, l, isDown) && ObsOk(c, o) && l.hold.Some?
    ensures HoldMoves(l, Observed(c, l, o, rc, wait), ObservedAction(c, l, o, rc, wait))
  {
    WeighedIsOk(c, l, o, isDown);
  }

  lemma OtherHoldMoves(c: Check, l: Lane, isDown: bool, rc: Option<NodeId>, changed: Option<NodeId>)
    requires LaneOk(c, l, isDown) && l.hold.Some?
    ensures HoldMoves(l, Swept(c, l, rc, changed), SweptAction(c, l, rc, changed))
    ensures HoldMoves(l, LetGo(l), LetGoAction(l))
    ensures HoldMoves(l, Orphaned(l), ClosedAction(l))
  {
  }

  /** An alert carrying a hold mark is an unrolled `Unreachable` liveness alert, held for that instant. */
  lemma HeldMeans(s: State, retired: set<NodeId>, c: Check)
    requires Inv(s, retired)
    ensures c in s.held <==> c in s.active && s.active[c].heldUntil.Some?
    ensures c in s.held ==>
      && c.Liveness? && s.active[c].state == Unreachable && s.active[c].rootCause.None?
      && s.active[c].heldUntil == Some(s.held[c])
  {
    assert LaneOk(c, LaneOf(s, c), NodeDown(s, c));
  }

  /**
   * Every step of every run treats a held notification in one of three ways: it leaves it held and
   * says nothing, it closes it and says nothing, or it ends the hold with exactly one fire. Letting
   * go is a step at any time for any check, so this covers polls overtaking a release decision.
   */
  lemma HoldEndsWithOneFireAtMost(env: Env, s: State, s': State, step: Step, em: Emission, retired: set<NodeId>,
                                  c: Check)
    requires Inv(s, retired) && Legal(step, retired) && Takes(env, s, s', step, em) && c in s.held
    ensures HoldMoves(LaneOf(s, c), LaneOf(s', c), Lookup(em, c))
  {
    assert LaneOk(c, LaneOf(s, c), NodeDown(s, c));
    LaneOfStep(env, s, s', step, em, c);
    LaneHoldMoves(env, s, s'.down, step, c, LaneOf(s', c), Lookup(em, c), retired);
  }

  lemma LaneHoldMoves(env: Env, s: State, down: set<NodeId>, step: Step, c: Check, l': Lane, act: Option<Action>,
                      retired: set<NodeId>)
    requires LaneTakes(env, s, down, step, c, l', act) && Legal(step, retired)
    requires LaneOk(c, LaneOf(s, c), NodeDown(s, c)) && LaneOf(s, c).hold.Some?
    ensures HoldMoves(LaneOf(s, c), l', act)
  {
    var l, rc := LaneOf(s, c), RcNow(env, c, down);
    if step.Observing? && step.c == c {
      ObservedHold(c, l, step.o, NodeDown(s, c), rc, WaitOn(env, s, c, step.o));
    } else {
      OtherHoldMoves(c, l, NodeDown(s, c), rc, if step.Observing? then step.c.Node() else None);
    }
  }

  /** The check is held at every point of a run. */
  predicate HeldThroughout(s: State, run: seq<Entry>, c: Check) {
    c in EndState(s, run).held && (run != [] ==> HeldThroughout(s, run[..|run| - 1], c))
  }

  lemma HoldMovesStates(s: State, s': State, em: Emission, c: Check)
    requires c in s.held && HoldMoves(LaneOf(s, c), LaneOf(s', c), Lookup(em, c))
    ensures c in s'.held ==>
            s'.held[c] == s.held[c] && Lookup(s'.active, c) == Lookup(s.active, c) && Lookup(em, c).None?
    ensures c !in s'.held && c in s'.active ==>
            Lookup(em, c) == Some(Fire(s'.active[c])) && s'.active[c].heldUntil.None?
    ensures c !in s'.held && c !in s'.active ==> Lookup(em, c).None?
  {
    assert LaneOf(s', c).hold == Lookup(s'.held, c) && LaneOf(s', c).alert == Lookup(s'.active, c);
    assert LaneOf(s, c).hold == Lookup(s.held, c) && LaneOf(s, c).alert == Lookup(s.active, c);
  }

  /** As long as a page is held, nothing is delivered about the check and its alert does not change. */
  lemma {:induction false} HeldInSilence(s: State, retired: set<NodeId>, run: seq<Entry>, c: Check)
    requires Inv(s, retired) && IsRun(s, retired, run) && HeldThroughout(s, run, c)
    ensures LogAbout(Log(run), c) == [] && c in s.held && EndState(s, run).held[c] == s.held[c]
    ensures Lookup(EndState(s, run).active, c) == Lookup(s.active, c)
  {
    if run != [] {
      var init, last := run[..|run| - 1], run[|run| - 1];
      LastEntry(s, retired, run);
      HeldInSilence(s, retired, init, c);
      RunStaysSound(s, retired, init);
      HoldEndsWithOneFireAtMost(last.env, EndState(s, init), last.post, last.step, last.em,
                                EndRetired(s, retired, init), c);
      HoldMovesStates(EndState(s, init), last.post, last.em, c);
      ListedAbout(last.acts, last.em, c);
      LogAboutConcat(Log(init), last.acts, c);
    }
  }

  /**
   * A whole hold episode, from any state in which the page is held to the entry that ends the hold:
   * everything delivered about the check is one fire, of the alert then open, or nothing at all, and
   * nothing exactly when the alert was closed.
   */
  lemma AnEpisodeFiresAtMostOnce(s: State, retired: set<NodeId>, run: seq<Entry>, c: Check)
    requires Inv(s, retired) && IsRun(s, retired, run)
    requires run != [] && HeldThroughout(s, run[..|run| - 1], c) && c !in EndState(s, run).held
    ensures var end := EndState(s, run);
            LogAbout(Log(run), c) == if c in end.active then [Fire(end.active[c])] else []
    ensures c in EndState(s, run).active ==> EndState(s, run).active[c].heldUntil.None?
  {
    var init, last := run[..|run| - 1], run[|run| - 1];
    LastEntry(s, retired, run);
    HeldInSilence(s, retired, init, c);
    RunStaysSound(s, retired, init);
    HoldEndsWithOneFireAtMost(last.env, EndState(s, init), last.post, last.step, last.em, EndRetired(s, retired, init),
                              c);
    HoldMovesStates(EndState(s, init), last.post, last.em, c);
    ListedAbout(last.acts, last.em, c);
    LogAboutConcat(Log(init), last.acts, c);
  }

  // ------------------------------------------------------------------------------------------
  // A liveness check never pages twice without a close between.

  /** Whether an action pages. */
  predicate IsPage(act: Option<Action>) {
    act.Some? && act.value.Fire? && act.value.alert.rootCause.None?
  }

  lemma ObservedPagesOnlyWhenUnpaged(c: Check, l: Lane, o: Obs, isDown: bool, rc: Option<NodeId>, wait: Option<int>)
    requires c.Liveness? && LaneOk(c, l, isDown) && ObsOk(c, o) && IsPage(ObservedAction(c, l, o, rc, wait))
    ensures !Pages(l)
  {
    WeighedIsOk(c, l, o, isDown);
  }

  lemma OthersPageOnlyWhenUnpaged(c: Check, l: Lane, isDown: bool, rc: Option<NodeId>, changed: Option<NodeId>)
    requires c.Liveness? && LaneOk(c, l, isDown)
    ensures IsPage(SweptAction(c, l, rc, changed)) ==> !Pages(l)
    ensures IsPage(LetGoAction(l)) ==> !Pages(l)
    ensures !IsPage(ClosedAction(l))
  {
  }

  lemma StepPagesOnlyWhenUnpaged(env: Env, s: State, s': State, step: Step, em: Emission, retired: set<NodeId>,
                                 c: Check)
    requires Inv(s, retired) && Legal(step, retired) && Takes(env, s, s', step, em)
    requires c.Liveness? && IsPage(Lookup(em, c))
    ensures !Pages(LaneOf(s, c))
  {
    assert LaneOk(c, LaneOf(s, c), NodeDown(s, c));
    LaneOfStep(env, s, s', step, em, c);
    LanePagesOnlyWhenUnpaged(env, s, s'.down, step, c, LaneOf(s', c), Lookup(em, c), retired);
  }

  lemma LanePagesOnlyWhenUnpaged(env: Env, s: State, down: set<NodeId>, step: Step, c: Check, l': Lane,
                                 act: Option<Action>, retired: set<NodeId>)
    requires LaneTakes(env, s, down, step, c, l', act) && Legal(step, retired)
    requires c.Liveness? && LaneOk(c, LaneOf(s, c), NodeDown(s, c)) && IsPage(act)
    ensures !Pages(LaneOf(s, c))
  {
    var l, rc := LaneOf(s, c), RcNow(env, c, down);
    if step.Observing? && step.c == c {
      ObservedPagesOnlyWhenUnpaged(c, l, step.o, NodeDown(s, c), rc, WaitOn(env, s, c, step.o));
    } else {
      OthersPageOnlyWhenUnpaged(c, l, NodeDown(s, c), rc, if step.Observing? then step.c.Node() else None);
    }
  }

  /** The last step of a run pages a liveness check only when the ledger does not hold it. */
  lemma LastStepPagesOnce(s: State, retired: set<NodeId>, run: seq<Entry>, c: Check, j: nat)
    requires IsStart(s, retired) && IsRun(s, retired, run) && c.Liveness? && run != []
    requires var acts := run[|run| - 1].acts; j < |acts| && acts[j].alert.check == c && IsPage(Some(acts[j]))
    ensures DistinctChecks(run[|run| - 1].acts)
    ensures c !in PagedBy(PagedAtStart(s), Log(run[..|run| - 1]))
  {
    var init, last := run[..|run| - 1], run[|run| - 1];
    LastEntry(s, retired, run);
    EveryReachableStateIsSound(s, retired, init);
    assert Lookup(last.em, c) == Some(last.acts[j]);
    StepPagesOnlyWhenUnpaged(last.env, EndState(s, init), last.post, last.step, last.em, EndRetired(s, retired, init),
                             c);
    assert LedgerOk(c, LaneOf(EndState(s, init), c), c in PagedBy(PagedAtStart(s), Log(init)));
  }

  /** Which entry of a run delivered the `i`-th action of its log. */
  lemma {:induction false} LogPosition(run: seq<Entry>, i: nat) returns (k: nat, j: nat)
    requires i < |Log(run)|
    ensures k < |run| && j < |run[k].acts| && Log(run)[i] == run[k].acts[j]
    ensures Log(run)[..i] == Log(run[..k]) + run[k].acts[..j]
  {
    var init := run[..|run| - 1];
    if i < |Log(init)| {
      k, j := LogPosition(init, i);
      assert init[..k] == run[..k];
    } else {
      k, j := |init|, i - |Log(init)|;
    }
  }

  lemma EntryPagesOnce(s: State, retired: set<NodeId>, run: seq<Entry>, k: nat, c: Check, j: nat)
    requires IsStart(s, retired) && IsRun(s, retired, run) && c.Liveness? && k < |run|
    requires j < |run[k].acts| && run[k].acts[j].alert.check == c && IsPage(Some(run[k].acts[j]))
    ensures DistinctChecks(run[k].acts) && c !in PagedBy(PagedAtStart(s), Log(run[..k]))
  {
    PrefixIsRun(s, retired, run, k + 1);
    assert run[..k + 1][..k] == run[..k];
    LastStepPagesOnce(s, retired, run[..k + 1], c, j);
  }

  /**
   * No liveness incident is paged twice: wherever a run's log holds an unrolled fire of a liveness
   * check, the ledger of what went before does not hold that check.
   */
  lemma LivenessNeverPagesTwice(s: State, retired: set<NodeId>, run: seq<Entry>, c: Check, i: nat)
    requires IsStart(s, retired) && IsRun(s, retired, run) && c.Liveness?
    requires i < |Log(run)| && Log(run)[i].alert.check == c && IsPage(Some(Log(run)[i]))
    ensures c !in PagedBy(PagedAtStart(s), Log(run)[..i])
  {
    var k, j := LogPosition(run, i);
    EntryPagesOnce(s, retired, run, k, c, j);
    PagedByConcat(PagedAtStart(s), Log(run[..k]), run[k].acts[..j]);
    EarlierActionsAreAboutOthers(PagedBy(PagedAtStart(s), Log(run[..k])), run[k].acts, j, c);
  }

  lemma EarlierActionsAreAboutOthers(paged: set<Check>, acts: seq<Action>, j: nat, c: Check)
    requires DistinctChecks(acts) && j < |acts| && acts[j].alert.check == c
    ensures c in PagedBy(paged, acts[..j]) <==> c in paged
  {
    var prefix := acts[..j];
    forall k | 0 <= k < |prefix|
      ensures prefix[k].alert.check != c
    {
      assert prefix[k] == acts[k];
    }
    NoActionAbout(prefix, c);
    PagedByPointwise(paged, prefix, c);
  }
}
