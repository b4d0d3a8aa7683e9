/** Two more runs from an empty engine: a deleted speaker, and an event that outlives an outage. */
module HeardRuns {
  import opened Base
  import opened Grouping
  import opened Lanes
  import opened Engine
  import opened Restore
  import opened Runs
  import opened SilentRuns
  import opened Heard
  import opened Events

  // ------------------------------------------------------------------------------------------
  // Two nodes linked to each other fail; the one that speaks for both is deleted.

  const PAIR: LinkGraph := LinkGraph(map[1 := {2}, 2 := {1}], map[], {}, map[], map[], map[], map[], Links)
  const PAIRED: Env := Env(PAIR, false, (n: NodeId) => None)
  const BOTH: set<NodeId> := {1, 2}

  lemma PairRegion(n: NodeId)
    requires n in BOTH
    ensures Region(PAIR, n, Links, BOTH) == BOTH
  {
    var m := 3 - n;
    assert PAIR.Walk(n, Links) == {m};
    assert IsPath(PAIR, Links, BOTH, [n]) && IsPath(PAIR, Links, BOTH, [n, m]);
    assert [n][0] == n && [n, m][1] == m;
    assert Connected(PAIR, Links, BOTH, n, n) && Connected(PAIR, Links, BOTH, n, m);
  }

  lemma PairSpeaker()
    ensures Speaker(PAIR, BOTH, Links, BOTH) == 1
  {
    assert PAIR.LinksAt(1, Links) == {2} && PAIR.LinksAt(2, Links) == {1};
    assert Borders(PAIR, BOTH, Links, BOTH) == {};
    assert IsBest(PAIR, BOTH, 1);
  }

  /** Alone a failed node of the pair pages; together the first speaks for both. */
  lemma PairGroups()
    ensures RootCause(PAIR, 1, {1}) == None && RootCause(PAIR, 2, {2}) == None
    ensures RootCause(PAIR, 1, BOTH) == None && RootCause(PAIR, 2, BOTH) == Some(1)
  {
    assert PAIR.LinksAt(1, Links) == {2} && PAIR.LinksAt(2, Links) == {1};
    PairRegion(1);
    PairRegion(2);
    PairSpeaker();
  }

  /** The alert a first failed poll opens. */
  function Failed(n: NodeId, rc: Option<NodeId>): Alert {
    OUTAGE.(check := Liveness(n), rootCause := rc)
  }

  /** A state that has never heard of a node, after the node's first failed poll. */
  function AfterFailed(s: State, n: NodeId, rc: Option<NodeId>): State {
    s.(states := s.states[Liveness(n) := Weighed(EMPTY_LANE, FAILED)],
       active := s.active[Liveness(n) := Failed(n, rc)], live := s.live[n := Unreachable], down := s.down + {n})
  }

  /** Nothing a sweep after the node's failure would do to the other checks. */
  ghost predicate OthersStand(env: Env, s: State, n: NodeId) {
    forall x: Check :: x != Liveness(n) ==> !SweepVisits(x, LaneOf(s, x), RcNow(env, x, s.down + {n}), Some(n))
  }

  lemma FailureOpens(n: NodeId, rc: Option<NodeId>)
    ensures Observed(Liveness(n), EMPTY_LANE, FAILED, rc, None) ==
            Lane(Some(Weighed(EMPTY_LANE, FAILED)), Some(Failed(n, rc)), None, None, None)
    ensures ObservedAction(Liveness(n), EMPTY_LANE, FAILED, rc, None) == Some(Fire(Failed(n, rc)))
  {
    FirstFailure();
  }

  function FailureEntry(env: Env, s: State, n: NodeId, rc: Option<NodeId>): Entry {
    Entry(env, Observing(Liveness(n), FAILED), map[Liveness(n) := Fire(Failed(n, rc))], [Fire(Failed(n, rc))],
          AfterFailed(s, n, rc))
  }

  lemma FailureFollows(env: Env, s: State, n: NodeId, rc: Option<NodeId>)
    requires !env.wait && n !in s.live && LaneOf(s, Liveness(n)) == EMPTY_LANE
    requires rc == RootCause(env.graph, n, s.down + {n}) && OthersStand(env, s, n)
    ensures Follows(s, {}, FailureEntry(env, s, n, rc))
  {
    FailureStep(env, s, n, rc);
    OneListed(Fire(Failed(n, rc)));
  }

  lemma FailureStep(env: Env, s: State, n: NodeId, rc: Option<NodeId>)
    requires !env.wait && n !in s.live && LaneOf(s, Liveness(n)) == EMPTY_LANE
    requires rc == RootCause(env.graph, n, s.down + {n}) && OthersStand(env, s, n)
    ensures var e := FailureEntry(env, s, n, rc); ObserveStep(env, s, e.post, Liveness(n), FAILED, e.em)
  {
    var c, e := Liveness(n), FailureEntry(env, s, n, rc);
    FailureOpens(n, rc);
    FailureCommits(s, n);
    forall x: Check | x != c
      ensures SweptTo(env, s, e.post, e.post.down, x, c.Node(), e.em)
    {
      OtherStands(env, s, n, rc, x);
    }
  }

  lemma FailureCommits(s: State, n: NodeId)
    requires n !in s.live && LaneOf(s, Liveness(n)) == EMPTY_LANE
    ensures var cs := Weighed(EMPTY_LANE, FAILED);
            && NextLive(s, Liveness(n), cs) == s.live[n := Unreachable]
            && NextDown(s, Liveness(n), cs) == s.down + {n}
            && SweepFollows(s, Liveness(n), FAILED)
  {
    FirstFailure();
  }

  lemma OtherStands(env: Env, s: State, n: NodeId, rc: Option<NodeId>, x: Check)
    requires x != Liveness(n) && OthersStand(env, s, n)
    ensures var e := FailureEntry(env, s, n, rc); SweptTo(env, s, e.post, e.post.down, x, Some(n), e.em)
  {
    var e := FailureEntry(env, s, n, rc);
    assert LaneOf(e.post, x) == LaneOf(s, x);
  }

  const FIRST_FAILS: Entry := FailureEntry(PAIRED, EMPTY, 1, None)
  const SECOND_FAILS: Entry := FailureEntry(PAIRED, FIRST_FAILS.post, 2, Some(1))
  const BOTH_DOWN: State := SECOND_FAILS.post

  /** A state without a node whose liveness alert is all it was known for. */
  function AfterDeleted(s: State, n: NodeId): State {
    s.(states := s.states - {Liveness(n)}, active := s.active - {Liveness(n)}, live := s.live - {n},
       down := s.down - {n})
  }

  function DeletionEntry(env: Env, s: State, n: NodeId, a: Alert): Entry {
    Entry(env, Forgetting(s.live.Keys - {n}), map[Liveness(n) := Resolve(a)], [Resolve(a)], AfterDeleted(s, n))
  }

  lemma DeletionFollows(env: Env, s: State, n: NodeId, a: Alert)
    requires n in s.live && s.rowStates == {} && a.check == Liveness(n) && a.heldUntil.None?
    requires LaneOf(s, Liveness(n)).alert == Some(a)
    requires forall x: Check :: AboutDeleted(x, s.live.Keys - {n}) && x != Liveness(n) ==> LaneOf(s, x).alert.None?
    ensures Follows(s, {}, DeletionEntry(env, s, n, a))
  {
    var e, kept := DeletionEntry(env, s, n, a), s.live.Keys - {n};
    var s' := e.post;
    OneListed(Resolve(a));
    forall x: Check
      ensures if AboutDeleted(x, kept) then
                LaneOf(s', x) == Orphaned(LaneOf(s, x)) && Emits(e.em, x, ClosedAction(LaneOf(s, x)))
              else LaneOf(s', x) == LaneOf(s, x) && Emits(e.em, x, None)
    {
      DeletedLane(s, n, a, x);
    }
    assert s.live.Keys - kept == {n};
    assert s'.live == map m | m in s.live && m in kept :: s.live[m];
  }

  lemma DeletedLane(s: State, n: NodeId, a: Alert, x: Check)
    requires LaneOf(s, Liveness(n)).alert == Some(a) && a.heldUntil.None?
    ensures x == Liveness(n) ==> LaneOf(AfterDeleted(s, n), x) == Orphaned(LaneOf(s, x)) &&
                                 ClosedAction(LaneOf(s, x)) == Some(Resolve(a))
    ensures x != Liveness(n) ==> LaneOf(AfterDeleted(s, n), x) == LaneOf(s, x)
  {
  }

  const FIRST_DELETED: Entry := DeletionEntry(PAIRED, BOTH_DOWN, 1, Failed(1, None))
  const SPEAKER_GONE: State := FIRST_DELETED.post

  lemma FirstFails()
    ensures Follows(EMPTY, {}, FIRST_FAILS)
  {
    PairGroups();
    assert {} + {1} == {1};
    assert forall x: Check :: LaneOf(EMPTY, x) == EMPTY_LANE;
    FailureFollows(PAIRED, EMPTY, 1, None);
  }

  lemma SecondFails()
    ensures Follows(FIRST_FAILS.post, {}, SECOND_FAILS)
  {
    var s := FIRST_FAILS.post;
    PairGroups();
    assert s.down + {2} == BOTH;
    forall x: Check | x != Liveness(2)
      ensures !SweepVisits(x, LaneOf(s, x), RcNow(PAIRED, x, s.down + {2}), Some(2))
    {
      assert x != Liveness(1) ==> LaneOf(s, x).alert.None?;
    }
    FailureFollows(PAIRED, s, 2, Some(1));
  }

  lemma FirstIsDeleted()
    ensures Follows(BOTH_DOWN, {}, FIRST_DELETED)
    ensures FIRST_DELETED.step == Forgetting({2}) && SPEAKER_GONE.down == {2}
    ensures Liveness(2) in BOTH_DOWN.active && Liveness(2) in SPEAKER_GONE.active
    ensures BOTH_DOWN.active[Liveness(2)] == SPEAKER_GONE.active[Liveness(2)] == Failed(2, Some(1))
  {
    assert BOTH_DOWN.live.Keys - {1} == {2};
    forall x: Check | AboutDeleted(x, {2}) && x != Liveness(1)
      ensures LaneOf(BOTH_DOWN, x).alert.None?
    {
    }
    DeletionFollows(PAIRED, BOTH_DOWN, 1, Failed(1, None));
  }

  lemma ThreeFollow(a: Entry, b: Entry, c: Entry)
    requires Follows(EMPTY, {}, a) && Follows(a.post, {}, b) && Follows(b.post, {}, c)
    requires !a.step.Forgetting? && !b.step.Forgetting?
    ensures IsRun(EMPTY, {}, Three([a], [b], [c])) && EndState(EMPTY, Three([a], [b], [c])) == c.post
    ensures IsRun(EMPTY, {}, [] + [a] + [b]) && EndState(EMPTY, [] + [a] + [b]) == b.post
    ensures EndRetired(EMPTY, {}, [] + [a] + [b]) == {}
    ensures Log(Three([a], [b], [c])) == Log([] + [a] + [b]) + c.acts
  {
    RunOneMore(EMPTY, {}, [], a);
    RunOneMore(EMPTY, {}, [] + [a], b);
    RunOneMore(EMPTY, {}, [] + [a] + [b], c);
  }

  /**
   * The kept node is down and would page on its own, yet its alert is still rolled up into the deleted
   * one, and nobody has been or will be paged about it until something judges roll-ups again.
   */
  lemma ADeletedSpeakerSilencesItsRegion()
    ensures IsStart(EMPTY, {}) && IsRun(EMPTY, {}, Three([FIRST_FAILS], [SECOND_FAILS], [FIRST_DELETED]))
    ensures EndState(EMPTY, Three([FIRST_FAILS], [SECOND_FAILS], [FIRST_DELETED])) == SPEAKER_GONE
    ensures RootCause(PAIR, 2, SPEAKER_GONE.down).None? && SPEAKER_GONE.active[Liveness(2)].rootCause == Some(1)
    ensures var log := Log(Three([FIRST_FAILS], [SECOND_FAILS], [FIRST_DELETED]));
            !IsHeard(SPEAKER_GONE, PagedBy(PagedAtStart(EMPTY), log), 2)
  {
    EmptyIsAStart();
    PairGroups();
    FirstFails();
    SecondFails();
    FirstIsDeleted();
    ThreeFollow(FIRST_FAILS, SECOND_FAILS, FIRST_DELETED);
    var before := [] + [FIRST_FAILS] + [SECOND_FAILS];
    var paged := PagedBy(PagedAtStart(EMPTY), Log(before));
    EveryReachableStateIsSound(EMPTY, {}, before);
    DeletingASpeakerSaysNothing(BOTH_DOWN, SPEAKER_GONE, {2}, FIRST_DELETED.em, {}, paged, 2);
    ListingMovesTheLedger(paged, FIRST_DELETED.acts, FIRST_DELETED.em);
    PagedByConcat(PagedAtStart(EMPTY), Log(before), FIRST_DELETED.acts);
  }

  // ------------------------------------------------------------------------------------------
  // An event alert outlives its node's outage.

  const EVENT: Check := Event(1, "rule")
  const EVENT_RAISED: Alert := RAISED.(check := EVENT)
  const EVENT_ROLLED: Alert := EVENT_RAISED.(rootCause := Some(1))

  const EVENT_OPEN: State := EMPTY.(active := map[EVENT := EVENT_RAISED])
  const EVENT_DOWN: State := AfterFailure(map[EVENT := EVENT_ROLLED])
  const EVENT_BACK: State :=
    EVENT_DOWN.(states := map[LIVE := Weighed(LaneOf(EVENT_DOWN, LIVE), BACK)], active := map[EVENT := EVENT_RAISED],
                live := map[1 := Ok], down := {})

  const EVENT_RAISE: Entry := Entry(ALONE, Raising(EVENT_RAISED), map[EVENT := Fire(EVENT_RAISED)],
                                    [Fire(EVENT_RAISED)], EVENT_OPEN)
  const EVENT_ROLL_UP: Entry :=
    Entry(ALONE, Observing(LIVE, FAILED), map[LIVE := Fire(OUTAGE), EVENT := Suppress(EVENT_ROLLED)],
          [Fire(OUTAGE), Suppress(EVENT_ROLLED)], EVENT_DOWN)
  const EVENT_RETURN: Entry :=
    Entry(ALONE, Observing(LIVE, BACK), map[LIVE := Resolve(OUTAGE)], [Resolve(OUTAGE)], EVENT_BACK)

  lemma EventIsRaised()
    ensures Follows(EMPTY, {}, EVENT_RAISE)
  {
    assert LaneOf(EMPTY, EVENT) == EMPTY_LANE;
    OneListed(Fire(EVENT_RAISED));
  }

  lemma EventIsRolledUp()
    ensures Follows(EVENT_OPEN, {}, EVENT_ROLL_UP)
  {
    EventRollUpStep();
    TwoListed(Fire(OUTAGE), Suppress(EVENT_ROLLED));
  }

  lemma EventRollUpStep()
    ensures ObserveStep(ALONE, EVENT_OPEN, EVENT_DOWN, LIVE, FAILED, EVENT_ROLL_UP.em)
  {
    FirstFailure();
    assert LaneOf(EVENT_OPEN, LIVE) == EMPTY_LANE;
  }

  lemma EventReturns()
    ensures Follows(EVENT_DOWN, {}, EVENT_RETURN)
  {
    EventReturnStep();
    OneListed(Resolve(OUTAGE));
  }

  lemma EventReturnStep()
    ensures ObserveStep(ALONE, EVENT_DOWN, EVENT_BACK, LIVE, BACK, EVENT_RETURN.em)
  {
    FirstFailure();
    assert LaneOf(EVENT_DOWN, LIVE) == Lane(Some(Weighed(EMPTY_LANE, FAILED)), Some(OUTAGE), None, None, None);
  }

  lemma EventWasRolledUp()
    ensures RolledSince(EMPTY, Three([EVENT_RAISE], [EVENT_ROLL_UP], [EVENT_RETURN]), EVENT)
  {
    var two := [] + [EVENT_RAISE] + [EVENT_ROLL_UP];
    var all := two + [EVENT_RETURN];
    assert two[..1] == [] + [EVENT_RAISE] && two[1] == EVENT_ROLL_UP;
    assert RolledSince(EMPTY, two, EVENT);
    assert all[..2] == two && all[2] == EVENT_RETURN;
  }

  /** The alert is open and unrolled, its node is up, and nobody is paged about it any more. */
  lemma AReturnedEventStaysUnpaged()
    ensures var run := Three([EVENT_RAISE], [EVENT_ROLL_UP], [EVENT_RETURN]);
            && IsStart(EMPTY, {}) && IsRun(EMPTY, {}, run) && EndState(EMPTY, run) == EVENT_BACK
            && EVENT !in PagedBy(PagedAtStart(EMPTY), Log(run))
    ensures EVENT_BACK.active[EVENT].rootCause.None? && 1 !in EVENT_BACK.down
  {
    EmptyIsAStart();
    EventIsRaised();
    EventIsRolledUp();
    EventReturns();
    ThreeFollow(EVENT_RAISE, EVENT_ROLL_UP, EVENT_RETURN);
    EventWasRolledUp();
    EventPagedExactlyWhen(EMPTY, {}, Three([EVENT_RAISE], [EVENT_ROLL_UP], [EVENT_RETURN]), EVENT);
  }
}
