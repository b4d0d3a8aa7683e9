/** Held pages in runs whose only releases are passes of the release loop. */
module Passes {
  import opened Base
  import opened Hysteresis
  import opened Grouping
  import opened GroupingMeaning
  import opened Lanes
  import opened Engine
  import opened EngineProofs
  import opened Restore
  import opened Runs
  import opened Releases
  import opened Lifelines
  import opened Episodes
  import opened Waits

  /** A held page goes on waiting: its node's results are paused, or there is time and a neighbour on its way down. */
  ghost predicate MayWait(env: Env, s: State, n: NodeId, now: int, paused: NodeId -> bool, until: int) {
    paused(n) ||
    (env.wait && env.graph.LevelOf(n) != Off && now < until && exists m :: OnItsWayDown(env, s, n, m))
  }

  /**
   * What one pass does to a held page: it stays held, untouched and unsaid, exactly when it may still
   * wait; otherwise it is let go with one fire, of the alert that was open, and is held no longer.
   */
  lemma APassKeepsExactlyTheWaiting(env: Env, s: State, s': State, retired: set<NodeId>, now: int,
                                    paused: NodeId -> bool, em: Emission, n: NodeId)
    requires Inv(s, retired) && ReleaseStep(env, s, s', now, paused, em) && Liveness(n) in s.held
    ensures var c := Liveness(n);
            && c in s.active && c in s'.active
            && if MayWait(env, s, n, now, paused, s.held[c]) then
                 c in s'.held && s'.held[c] == s.held[c] && s'.active[c] == s.active[c] && c !in em
               else
                 && c !in s'.held && s'.active[c] == s.active[c].(heldUntil := None)
                 && c in em && em[c] == Fire(s'.active[c])
  {
    var c := Liveness(n);
    HeldMeans(s, retired, c);
    forall m: NodeId
      ensures m in FailingNeighbours(env, s.states, s.down, n) <==> OnItsWayDown(env, s, n, m)
    {
      WaitsForThoseOnTheWay(env, s, retired, n, m);
    }
    assert FailingNeighbours(env, s.states, s.down, n) == {} <==> forall m :: !OnItsWayDown(env, s, n, m);
    assert c in Due(env, s, now, paused) <==> !MayWait(env, s, n, now, paused, s.held[c]);
    assert c in Due(env, s, now, paused) ==> LetGoTo(s, s', c, em);
    assert LaneOf(s', c).hold == Lookup(s'.held, c) && LaneOf(s', c).alert == Lookup(s'.active, c);
    assert LaneOf(s, c).hold == Lookup(s.held, c) && LaneOf(s, c).alert == Lookup(s.active, c);
  }

  // ------------------------------------------------------------------------------------------
  // Runs in which letting go happens in passes.

  datatype Move =
    | Stepping(entry: Entry)
    | Passing(env: Env, now: int, paused: NodeId -> bool, em: Emission, acts: seq<Action>, post: State)
  {
    function End(): State {
      if Stepping? then entry.post else post
    }

    function Delivered(): seq<Action> {
      if Stepping? then entry.acts else acts
    }

    ghost predicate Fits(s: State, retired: set<NodeId>) {
      if Stepping? then !entry.step.LettingGo? && Follows(s, retired, entry)
      else ReleaseStep(env, s, post, now, paused, em) && Lists(acts, em)
    }
  }

  function StateAfter(s: State, moves: seq<Move>): State {
    if moves == [] then s else moves[|moves| - 1].End()
  }

  function RetiredIn(s: State, retired: set<NodeId>, moves: seq<Move>): set<NodeId> {
    if moves == [] then retired
    else
      var init, last := moves[..|moves| - 1], moves[|moves| - 1];
      var before := RetiredIn(s, retired, init);
      if last.Stepping? then RetiredAfter(StateAfter(s, init), last.entry.step, before) else before
  }

  ghost predicate InPasses(s: State, retired: set<NodeId>, moves: seq<Move>) {
    moves != [] ==>
      var init := moves[..|moves| - 1];
      InPasses(s, retired, init) && moves[|moves| - 1].Fits(StateAfter(s, init), RetiredIn(s, retired, init))
  }

  function Said(moves: seq<Move>): seq<Action> {
    if moves == [] then [] else Said(moves[..|moves| - 1]) + moves[|moves| - 1].Delivered()
  }

  function SeenIn(mv: Move, c: Check): seq<Obs> {
    if mv.Stepping? then ObsIn(mv.entry.step, c) else []
  }

  /** The observations of a check, in order. */
  function Seen(moves: seq<Move>, c: Check): seq<Obs> {
    if moves == [] then [] else Seen(moves[..|moves| - 1], c) + SeenIn(moves[|moves| - 1], c)
  }

  lemma MoveKeepsInv(s: State, retired: set<NodeId>, mv: Move)
    requires Inv(s, retired) && mv.Fits(s, retired)
    ensures Inv(mv.End(), if mv.Stepping? then RetiredAfter(s, mv.entry.step, retired) else retired)
  {
    if mv.Stepping? {
      var paged := PagedAtStart(s);
      assert LedgerHolds(s, paged);
      StepKeepsInv(mv.entry.env, s, mv.entry.post, mv.entry.step, mv.entry.em, retired, paged);
    } else {
      var run := ReleasePassIsARun(mv.env, s, mv.post, Due(mv.env, s, mv.now, mv.paused), mv.acts, mv.em, retired);
      RunStaysSound(s, retired, run);
    }
  }

  lemma {:induction false} MovesStaySound(s: State, retired: set<NodeId>, moves: seq<Move>)
    requires Inv(s, retired) && InPasses(s, retired, moves)
    ensures Inv(StateAfter(s, moves), RetiredIn(s, retired, moves))
  {
    if moves != [] {
      var init := moves[..|moves| - 1];
      MovesStaySound(s, retired, init);
      MoveKeepsInv(StateAfter(s, init), RetiredIn(s, retired, init), moves[|moves| - 1]);
    }
  }

  /**
   * A move that gives the page about `n` no reason to end: a pass at which it may wait, or a step that
   * does not observe `n`'s own liveness, finds nobody to speak for it, and does not delete it.
   */
  ghost predicate LeavesWaiting(s: State, mv: Move, n: NodeId, until: int) {
    match mv
    case Passing(env, now, paused, _, _, _) => MayWait(env, s, n, now, paused, until)
    case Stepping(e) =>
      match e.step
      case Observing(c, _) => c != Liveness(n) && (c.Liveness? ==> RootCause(e.env.graph, n, e.post.down).None?)
      case Regrouping => RootCause(e.env.graph, n, e.post.down).None?
      case Forgetting(kept) => n in kept
      case _ => true
  }

  lemma AStepLeavesItWaiting(s: State, retired: set<NodeId>, e: Entry, n: NodeId)
    requires Inv(s, retired) && Follows(s, retired, e) && !e.step.LettingGo? && Liveness(n) in s.held
    requires LeavesWaiting(s, Stepping(e), n, s.held[Liveness(n)])
    ensures LaneOf(e.post, Liveness(n)) == LaneOf(s, Liveness(n)) && Liveness(n) !in e.em
  {
    var c := Liveness(n);
    HeldMeans(s, retired, c);
    LaneOfStep(e.env, s, e.post, e.step, e.em, c);
    LaneLeftWaiting(e.env, s, e.post.down, e.step, n, LaneOf(e.post, c), Lookup(e.em, c), retired);
  }

  lemma LaneLeftWaiting(env: Env, s: State, down: set<NodeId>, step: Step, n: NodeId, l': Lane, act: Option<Action>,
                        retired: set<NodeId>)
    requires LaneTakes(env, s, down, step, Liveness(n), l', act) && Legal(step, retired)
    requires var l := LaneOf(s, Liveness(n)); l.alert.Some? && l.alert.value.rootCause.None?
    requires match step
             case Observing(c, _) => c != Liveness(n) && (c.Liveness? ==> RootCause(env.graph, n, down).None?)
             case Regrouping => RootCause(env.graph, n, down).None?
             case Forgetting(kept) => n in kept
             case LettingGo(_) => false
             case _ => true
    ensures l' == LaneOf(s, Liveness(n)) && act.None?
  {
  }

  /** A move that gives no reason leaves the page held, and nothing is said about it. */
  lemma AMoveLeavesItWaiting(s: State, retired: set<NodeId>, mv: Move, n: NodeId)
    requires Inv(s, retired) && mv.Fits(s, retired) && Liveness(n) in s.held
    requires LeavesWaiting(s, mv, n, s.held[Liveness(n)])
    ensures var c, end := Liveness(n), mv.End();
            && c in end.held && end.held[c] == s.held[c] && Lookup(end.active, c) == Lookup(s.active, c)
            && LogAbout(mv.Delivered(), c) == []
  {
    var c := Liveness(n);
    if mv.Stepping? {
      AStepLeavesItWaiting(s, retired, mv.entry, n);
      ListedAbout(mv.entry.acts, mv.entry.em, c);
      assert LaneOf(mv.entry.post, c).hold == Lookup(mv.entry.post.held, c);
      assert LaneOf(mv.entry.post, c).alert == Lookup(mv.entry.post.active, c);
      assert LaneOf(s, c).hold == Lookup(s.held, c) && LaneOf(s, c).alert == Lookup(s.active, c);
    } else {
      APassKeepsExactlyTheWaiting(mv.env, s, mv.post, retired, mv.now, mv.paused, mv.em, n);
      ListedAbout(mv.acts, mv.em, c);
    }
  }

  /** No move of a run gives the page a reason to end. */
  ghost predicate NothingEndsIt(s: State, moves: seq<Move>, n: NodeId, until: int) {
    moves != [] ==>
      var init := moves[..|moves| - 1];
      NothingEndsIt(s, init, n, until) && LeavesWaiting(StateAfter(s, init), moves[|moves| - 1], n, until)
  }

  /** As long as no move gives it a reason to end, a held page stays held for the same instant, in silence. */
  lemma {:induction false} HeldWhileItMayWait(s: State, retired: set<NodeId>, moves: seq<Move>, n: NodeId)
    requires Inv(s, retired) && InPasses(s, retired, moves) && Liveness(n) in s.held
    requires NothingEndsIt(s, moves, n, s.held[Liveness(n)])
    ensures var c, end := Liveness(n), StateAfter(s, moves);
            && c in end.held && end.held[c] == s.held[c] && Lookup(end.active, c) == Lookup(s.active, c)
            && LogAbout(Said(moves), c) == []
  {
    if moves != [] {
      var init, last := moves[..|moves| - 1], moves[|moves| - 1];
      HeldWhileItMayWait(s, retired, init, n);
      MovesStaySound(s, retired, init);
      AMoveLeavesItWaiting(StateAfter(s, init), RetiredIn(s, retired, init), last, n);
      LogAboutConcat(Said(init), last.Delivered(), Liveness(n));
    }
  }

  /** A pass at which the page about `n` need not wait any longer. */
  ghost predicate EndsTheWait(s: State, mv: Move, n: NodeId, until: int) {
    && mv.Passing? && !mv.paused(n)
    && (|| until <= mv.now || !mv.env.wait || mv.env.graph.LevelOf(n) == Off
        || forall m :: !OnItsWayDown(mv.env, s, n, m))
  }

  lemma ThePassDelivers(s: State, retired: set<NodeId>, mv: Move, n: NodeId)
    requires Inv(s, retired) && mv.Fits(s, retired) && Liveness(n) in s.held
    requires EndsTheWait(s, mv, n, s.held[Liveness(n)])
    ensures var c, end := Liveness(n), mv.End();
            && c in s.active && c !in end.held && c in end.active && end.active[c] == s.active[c].(heldUntil := None)
            && LogAbout(mv.Delivered(), c) == [Fire(end.active[c])]
  {
    APassKeepsExactlyTheWaiting(mv.env, s, mv.post, retired, mv.now, mv.paused, mv.em, n);
    ListedAbout(mv.acts, mv.em, Liveness(n));
  }

  /**
   * The first pass at which the page about `n` need not wait any longer delivers it: over the whole run
   * exactly one action about it is said, the fire of the alert that was held. The first unpaused pass at
   * or after the recorded instant is such a pass, whatever the neighbours do.
   */
  lemma TheFirstPassInTimeDelivers(s: State, retired: set<NodeId>, moves: seq<Move>, n: NodeId)
    requires Inv(s, retired) && InPasses(s, retired, moves) && Liveness(n) in s.held && moves != []
    requires var init, until := moves[..|moves| - 1], s.held[Liveness(n)];
             NothingEndsIt(s, init, n, until) && EndsTheWait(StateAfter(s, init), moves[|moves| - 1], n, until)
    ensures var c, end := Liveness(n), StateAfter(s, moves);
            && c in s.active && c !in end.held && c in end.active && end.active[c] == s.active[c].(heldUntil := None)
            && LogAbout(Said(moves), c) == [Fire(end.active[c])]
  {
    var init, last := moves[..|moves| - 1], moves[|moves| - 1];
    HeldWhileItMayWait(s, retired, init, n);
    MovesStaySound(s, retired, init);
    ThePassDelivers(StateAfter(s, init), RetiredIn(s, retired, init), last, n);
    LogAboutConcat(Said(init), last.Delivered(), Liveness(n));
  }

  // ------------------------------------------------------------------------------------------
  // The wait for one neighbour.

  lemma AMoveMovesIt(s: State, retired: set<NodeId>, mv: Move, m: NodeId)
    requires Inv(s, retired) && mv.Fits(s, retired) && Liveness(m) in s.states
    requires s.states[Liveness(m)].tracker.committed != Unreachable
    ensures var os := SeenIn(mv, Liveness(m));
            Lookup(mv.End().states, Liveness(m)) ==
            Some(if os == [] then s.states[Liveness(m)] else Weighed(LaneOf(s, Liveness(m)), os[0]))
  {
    var c := Liveness(m);
    if mv.Stepping? {
      OnlyItsObservationsMoveIt(mv.entry.env, s, mv.entry.post, mv.entry.step, mv.entry.em, retired, c);
    } else {
      var gone := Due(mv.env, s, mv.now, mv.paused);
      assert if c in gone then LetGoTo(s, mv.post, c, mv.em) else LaneOf(mv.post, c) == LaneOf(s, c);
      LetGoMovesTwo(LaneOf(s, c));
      assert LaneOf(mv.post, c).tracker == LaneOf(s, c).tracker;
    }
  }

  /** A neighbour that only ever fails stays on its way until its dwell is complete, passes or not. */
  lemma {:induction false} MovesStayOnTheWay(s: State, retired: set<NodeId>, moves: seq<Move>, m: NodeId, t: Tracker)
    requires Inv(s, retired) && InPasses(s, retired, moves) && Failing(t)
    requires OnTheWay(Lookup(s.states, Liveness(m)), t, 0)
    requires KeepsFailing(Seen(moves, Liveness(m)), t.dwell)
    requires t.candidate.value.count + |Seen(moves, Liveness(m))| < t.dwell
    ensures OnTheWay(Lookup(StateAfter(s, moves).states, Liveness(m)), t, |Seen(moves, Liveness(m))|)
  {
    if moves != [] {
      var init, last := moves[..|moves| - 1], moves[|moves| - 1];
      var before := Seen(init, Liveness(m));
      PartsFail(before, SeenIn(last, Liveness(m)), t.dwell);
      MovesStayOnTheWay(s, retired, init, m, t);
      MovesStaySound(s, retired, init);
      AMoveOnTheWay(StateAfter(s, init), RetiredIn(s, retired, init), last, m, t, |before|);
    }
  }

  lemma AMoveOnTheWay(s: State, retired: set<NodeId>, mv: Move, m: NodeId, t: Tracker, k: nat)
    requires Inv(s, retired) && mv.Fits(s, retired) && Failing(t) && OnTheWay(Lookup(s.states, Liveness(m)), t, k)
    requires KeepsFailing(SeenIn(mv, Liveness(m)), t.dwell)
    requires t.candidate.value.count + k + |SeenIn(mv, Liveness(m))| < t.dwell
    ensures OnTheWay(Lookup(mv.End().states, Liveness(m)), t, k + |SeenIn(mv, Liveness(m))|)
  {
    AMoveMovesIt(s, retired, mv, m);
    if SeenIn(mv, Liveness(m)) != [] {
      OneMoreFailure(LaneOf(s, Liveness(m)), SeenIn(mv, Liveness(m))[0], t, k);
    }
  }

  /** The same as a move that leaves the page waiting, with `m` the neighbour it waits for. */
  ghost predicate WaitsFor(s: State, mv: Move, n: NodeId, m: NodeId, until: int) {
    if mv.Stepping? then LeavesWaiting(s, mv, n, until)
    else
      mv.paused(n) || (mv.env.wait && mv.env.graph.LevelOf(n) != Off && mv.now < until
                       && IsJudgedBy(mv.env.graph, n, m))
  }

  ghost predicate AlwaysWaitsFor(s: State, moves: seq<Move>, n: NodeId, m: NodeId, until: int) {
    moves != [] ==>
      var init := moves[..|moves| - 1];
      AlwaysWaitsFor(s, init, n, m, until) && WaitsFor(StateAfter(s, init), moves[|moves| - 1], n, m, until)
  }

  lemma StillOnItsWay(env: Env, s: State, retired: set<NodeId>, n: NodeId, m: NodeId, t: Tracker, k: nat)
    requires Inv(s, retired) && Failing(t) && OnTheWay(Lookup(s.states, Liveness(m)), t, k)
    requires IsJudgedBy(env.graph, n, m)
    ensures OnItsWayDown(env, s, n, m)
  {
    assert m in s.down <==> WasDown(s, m);
  }

  lemma {:induction false} TheWaitGoesOn(s: State, retired: set<NodeId>, moves: seq<Move>, n: NodeId, m: NodeId,
                                         t: Tracker, until: int)
    requires Inv(s, retired) && InPasses(s, retired, moves) && Failing(t)
    requires OnTheWay(Lookup(s.states, Liveness(m)), t, 0)
    requires KeepsFailing(Seen(moves, Liveness(m)), t.dwell)
    requires t.candidate.value.count + |Seen(moves, Liveness(m))| < t.dwell
    requires AlwaysWaitsFor(s, moves, n, m, until)
    ensures NothingEndsIt(s, moves, n, until)
  {
    if moves != [] {
      var init, last := moves[..|moves| - 1], moves[|moves| - 1];
      var before := Seen(init, Liveness(m));
      PartsFail(before, SeenIn(last, Liveness(m)), t.dwell);
      TheWaitGoesOn(s, retired, init, n, m, t, until);
      if last.Passing? && !last.paused(n) {
        MovesStayOnTheWay(s, retired, init, m, t);
        MovesStaySound(s, retired, init);
        StillOnItsWay(last.env, StateAfter(s, init), RetiredIn(s, retired, init), n, m, t, |before|);
      }
    }
  }

  /**
   * A page held for a neighbour `m` stays held, and nothing is said about it, in every run in which `m`
   * keeps failing without completing its dwell, no pass comes at or after the recorded instant, and
   * nothing else ends it, however many passes there are.
   */
  lemma HeldWhileTheNeighbourFails(env: Env, s: State, retired: set<NodeId>, moves: seq<Move>, n: NodeId, m: NodeId)
    requires Inv(s, retired) && InPasses(s, retired, moves) && Liveness(n) in s.held && OnItsWayDown(env, s, n, m)
    requires var t, os := s.states[Liveness(m)].tracker, Seen(moves, Liveness(m));
             KeepsFailing(os, t.dwell) && t.candidate.value.count + |os| < t.dwell
    requires AlwaysWaitsFor(s, moves, n, m, s.held[Liveness(n)])
    ensures var c, end := Liveness(n), StateAfter(s, moves);
            && c in end.held && end.held[c] == s.held[c] && Lookup(end.active, c) == Lookup(s.active, c)
            && LogAbout(Said(moves), c) == []
  {
    FailingIsUncommitted(s, retired, m);
    TheWaitGoesOn(s, retired, moves, n, m, s.states[Liveness(m)].tracker, s.held[Liveness(n)]);
    HeldWhileItMayWait(s, retired, moves, n);
  }
}
