/**
 * One threshold check over time: along a quiet stretch of a run its lane follows its own observations,
 * whatever the rest of the engine does.
 */
module Lifelines {
  import opened Base
  import opened Lanes
  import opened LaneProofs
  import opened Engine
  import opened EngineProofs
  import opened Runs

  // ------------------------------------------------------------------------------------------
  // A lane under a sequence of observations, its node not down.

  function LaneAfter(c: Check, l: Lane, os: seq<Obs>): Lane {
    if os == [] then l
    else Observed(c, LaneAfter(c, l, os[..|os| - 1]), os[|os| - 1], None, None)
  }

  function AsSeq(act: Option<Action>): seq<Action> {
    if act.Some? then [act.value] else []
  }

  /** Everything those observations emit about the check, in order. */
  function ActsOf(c: Check, l: Lane, os: seq<Obs>): seq<Action> {
    if os == [] then []
    else
      var init := os[..|os| - 1];
      ActsOf(c, l, init) + AsSeq(ObservedAction(c, LaneAfter(c, l, init), os[|os| - 1], None, None))
  }

  predicate AllOk(c: Check, os: seq<Obs>) {
    forall i :: 0 <= i < |os| ==> ObsOk(c, os[i])
  }

  lemma {:induction false} LaneAfterIsOk(c: Check, l: Lane, os: seq<Obs>)
    requires c.Threshold? && LaneOk(c, l, false) && AllOk(c, os)
    ensures LaneOk(c, LaneAfter(c, l, os), false)
  {
    if os != [] {
      LaneAfterIsOk(c, l, os[..|os| - 1]);
      ObservedThreshold(c, LaneAfter(c, l, os[..|os| - 1]), os[|os| - 1], false, None, None);
    }
  }

  // ------------------------------------------------------------------------------------------
  // Nothing else reaches the lane.

  /** The steps that reach a threshold check other than its own observation. */
  predicate Touches(s: State, step: Step, c: Check) {
    match step
    case Observing(x, o) =>
      x.Liveness? && x.Node() == c.Node() && (Flips(s, x, Weighed(LaneOf(s, x), o)) || SweepFollows(s, x, o))
    case Orphaning(orphans) => c in orphans
    case Forgetting(kept) => AboutDeleted(c, kept)
    case _ => false
  }

  /**
   * What ends a quiet stretch: an observation that moves the committed liveness of the check's own node, a
   * sweep that closes the check, or the deletion of its node. Nothing else touches it.
   */
  lemma OnlyItsNodeAndItsSweepsTouchIt(env: Env, s: State, s': State, step: Step, em: Emission, retired: set<NodeId>,
                                       c: Check)
    requires Inv(s, retired) && Legal(step, retired) && Takes(env, s, s', step, em) && c.Threshold?
    requires Touches(s, step, c)
    ensures || (step.Observing? && step.c == Liveness(c.node) && Lookup(s'.live, c.node) != Lookup(s.live, c.node))
            || (step.Orphaning? && c in step.orphans)
            || (step.Forgetting? && c.node !in step.kept)
  {
    if step.Observing? {
      FlipNeedsATransition(s, step.c, step.o, retired);
      assert LaneOk(step.c, LaneOf(s, step.c), NodeDown(s, step.c));
    }
  }

  /** A stretch of a run in which the node's liveness does not move and no sweep closes the check. */
  predicate Quiet(s: State, run: seq<Entry>, c: Check) {
    forall i :: 0 <= i < |run| ==> !Touches(EndState(s, run[..i]), run[i].step, c)
  }

  function ObsIn(step: Step, c: Check): seq<Obs> {
    if step.Observing? && step.c == c then [step.o] else []
  }

  function ObsAbout(run: seq<Entry>, c: Check): seq<Obs> {
    if run == [] then [] else ObsAbout(run[..|run| - 1], c) + ObsIn(run[|run| - 1].step, c)
  }

  function LogAbout(log: seq<Action>, c: Check): seq<Action> {
    if log == [] then []
    else LogAbout(log[..|log| - 1], c) + (if log[|log| - 1].alert.check == c then [log[|log| - 1]] else [])
  }

  lemma {:induction false} LogAboutConcat(a: seq<Action>, b: seq<Action>, c: Check)
    ensures LogAbout(a + b, c) == LogAbout(a, c) + LogAbout(b, c)
  {
    if b == [] {
      assert a + b == a;
    } else {
      LogAboutConcat(a, b[..|b| - 1], c);
      assert (a + b)[..|a + b| - 1] == a + b[..|b| - 1];
    }
  }

  lemma {:induction false} LogAboutDistinct(acts: seq<Action>, c: Check)
    requires DistinctChecks(acts)
    ensures LogAbout(acts, c) == AsSeq(ActionAbout(acts, c))
  {
    if acts != [] {
      var init := acts[..|acts| - 1];
      LogAboutDistinct(init, c);
      if acts[|acts| - 1].alert.check == c {
        forall i | 0 <= i < |init|
          ensures init[i].alert.check != c
        {
          assert init[i] == acts[i];
        }
        NoActionAbout(init, c);
      }
    }
  }

  /** What a listing says about one check. */
  lemma ListedAbout(acts: seq<Action>, em: Emission, c: Check)
    requires Lists(acts, em)
    ensures LogAbout(acts, c) == AsSeq(Lookup(em, c))
  {
    LogAboutDistinct(acts, c);
    ListingAnswers(acts, em, c);
  }

  /** One more entry adds what it emitted about a check to what was said about it. */
  lemma LogAboutGrows(init: seq<Entry>, e: Entry, c: Check)
    requires Lists(e.acts, e.em)
    ensures LogAbout(Log(init) + e.acts, c) == LogAbout(Log(init), c) + AsSeq(Lookup(e.em, c))
  {
    ListedAbout(e.acts, e.em, c);
    LogAboutConcat(Log(init), e.acts, c);
  }

  /** A step that leaves the node's liveness alone does not take the node down. */
  lemma QuietKeepsUp(env: Env, s: State, s': State, step: Step, em: Emission, c: Check)
    requires Takes(env, s, s', step, em) && c.Threshold? && !NodeDown(s, c) && !Touches(s, step, c)
    ensures !NodeDown(s', c)
  {
  }

  /** Only its own observations move the lane of a check whose node is up. */
  lemma QuietLane(env: Env, s: State, down: set<NodeId>, step: Step, c: Check, l': Lane, act: Option<Action>,
                  retired: set<NodeId>)
    requires LaneTakes(env, s, down, step, c, l', act) && Legal(step, retired) && c.Threshold?
    requires LaneOk(c, LaneOf(s, c), false)
    requires c.node !in down && !Touches(s, step, c)
    ensures l' == LaneAfter(c, LaneOf(s, c), ObsIn(step, c)) && AsSeq(act) == EntryActs(c, LaneOf(s, c), ObsIn(step, c))
  {
    if step.Observing? && step.c == c {
      assert ObsIn(step, c)[..0] == [];
    }
  }

  lemma QuietStep(s: State, e: Entry, retired: set<NodeId>, c: Check)
    requires Inv(s, retired) && Legal(e.step, retired) && Takes(e.env, s, e.post, e.step, e.em)
    requires c.Threshold? && !NodeDown(s, c) && !Touches(s, e.step, c)
    ensures !NodeDown(e.post, c)
    ensures LaneOf(e.post, c) == LaneAfter(c, LaneOf(s, c), ObsIn(e.step, c))
    ensures AsSeq(Lookup(e.em, c)) == EntryActs(c, LaneOf(s, c), ObsIn(e.step, c))
  {
    assert LaneOk(c, LaneOf(s, c), NodeDown(s, c));
    QuietKeepsUp(e.env, s, e.post, e.step, e.em, c);
    LaneOfStep(e.env, s, e.post, e.step, e.em, c);
    QuietLane(e.env, s, e.post.down, e.step, c, LaneOf(e.post, c), Lookup(e.em, c), retired);
  }

  /** What an entry delivers about a check: nothing unless it observes it. */
  function EntryActs(c: Check, l: Lane, o: seq<Obs>): seq<Action> {
    if o == [] then [] else AsSeq(ObservedAction(c, l, o[0], None, None))
  }

  lemma OneMoreEntry(c: Check, l: Lane, os: seq<Obs>, o: seq<Obs>)
    requires |o| <= 1
    ensures LaneAfter(c, l, os + o) == LaneAfter(c, LaneAfter(c, l, os), o)
    ensures ActsOf(c, l, os + o) == ActsOf(c, l, os) + EntryActs(c, LaneAfter(c, l, os), o)
  {
    if o == [] {
      assert os + o == os;
    } else {
      assert o == [o[0]];
      assert (os + o)[..|os|] == os;
    }
  }

  /** One entry, seen from one check: its lane and what is delivered about it follow the observation. */
  predicate EntryFollows(pre: State, e: Entry, c: Check) {
    var o := ObsIn(e.step, c);
    && AllOk(c, o)
    && !NodeDown(e.post, c)
    && LaneOf(e.post, c) == LaneAfter(c, LaneOf(pre, c), o)
    && LogAbout(e.acts, c) == EntryActs(c, LaneOf(pre, c), o)
  }

  predicate RunFollows(s: State, run: seq<Entry>, c: Check) {
    run != [] ==> RunFollows(s, run[..|run| - 1], c) && EntryFollows(EndState(s, run[..|run| - 1]), run[|run| - 1], c)
  }

  /** The last entry of a quiet run, seen from one check. */
  lemma LastEntryFollows(s: State, retired: set<NodeId>, run: seq<Entry>, c: Check)
    requires Inv(s, retired) && run != [] && IsRun(s, retired, run) && c.Threshold?
    requires var pre := EndState(s, run[..|run| - 1]); !NodeDown(pre, c) && !Touches(pre, run[|run| - 1].step, c)
    ensures EntryFollows(EndState(s, run[..|run| - 1]), run[|run| - 1], c)
  {
    var init, last := run[..|run| - 1], run[|run| - 1];
    LastEntry(s, retired, run);
    RunStaysSound(s, retired, init);
    QuietStep(EndState(s, init), last, EndRetired(s, retired, init), c);
    ListedAbout(last.acts, last.em, c);
  }

  lemma QuietInit(s: State, run: seq<Entry>, c: Check)
    requires run != [] && Quiet(s, run, c)
    ensures Quiet(s, run[..|run| - 1], c)
    ensures !Touches(EndState(s, run[..|run| - 1]), run[|run| - 1].step, c)
  {
    var init := run[..|run| - 1];
    forall i | 0 <= i < |init|
      ensures !Touches(EndState(s, init[..i]), init[i].step, c)
    {
      assert init[..i] == run[..i] && init[i] == run[i];
    }
  }

  lemma {:induction false} QuietRunFollows(s: State, retired: set<NodeId>, run: seq<Entry>, c: Check)
    requires Inv(s, retired) && IsRun(s, retired, run) && Quiet(s, run, c)
    requires c.Threshold? && !NodeDown(s, c)
    ensures RunFollows(s, run, c) && !NodeDown(EndState(s, run), c)
  {
    if run != [] {
      QuietInit(s, run, c);
      LastEntry(s, retired, run);
      QuietRunFollows(s, retired, run[..|run| - 1], c);
      LastEntryFollows(s, retired, run, c);
    }
  }

  lemma {:induction false} FollowingFolds(s: State, run: seq<Entry>, c: Check)
    requires RunFollows(s, run, c)
    ensures AllOk(c, ObsAbout(run, c))
    ensures LaneOf(EndState(s, run), c) == LaneAfter(c, LaneOf(s, c), ObsAbout(run, c))
    ensures LogAbout(Log(run), c) == ActsOf(c, LaneOf(s, c), ObsAbout(run, c))
  {
    if run != [] {
      var init, last := run[..|run| - 1], run[|run| - 1];
      FollowingFolds(s, init, c);
      LogAboutConcat(Log(init), last.acts, c);
      OneMoreEntry(c, LaneOf(s, c), ObsAbout(init, c), ObsIn(last.step, c));
    }
  }

  /**
   * Along every quiet stretch of every run, whatever the other checks, the regroups, the releases and
   * the configuration changes in between: the check's lane and everything delivered about it are
   * what its own observations alone make of it.
   */
  lemma LaneFollowsItsObservations(s: State, retired: set<NodeId>, run: seq<Entry>, c: Check)
    requires Inv(s, retired) && IsRun(s, retired, run) && Quiet(s, run, c)
    requires c.Threshold? && !NodeDown(s, c)
    ensures !NodeDown(EndState(s, run), c)
    ensures AllOk(c, ObsAbout(run, c))
    ensures LaneOf(EndState(s, run), c) == LaneAfter(c, LaneOf(s, c), ObsAbout(run, c))
    ensures LogAbout(Log(run), c) == ActsOf(c, LaneOf(s, c), ObsAbout(run, c))
  {
    QuietRunFollows(s, retired, run, c);
    FollowingFolds(s, run, c);
  }

  // ------------------------------------------------------------------------------------------
  // Stretches of observations.

  predicate NeverCommits(c: Check, l: Lane, os: seq<Obs>) {
    os != [] ==>
      && NeverCommits(c, l, os[..|os| - 1])
      && Committed(LaneAfter(c, l, os[..|os| - 1]), os[|os| - 1]).None?
  }

  lemma OneMore(c: Check, l: Lane, os: seq<Obs>, o: Obs)
    ensures LaneAfter(c, l, os + [o]) == Observed(c, LaneAfter(c, l, os), o, None, None)
    ensures ActsOf(c, l, os + [o]) ==
            ActsOf(c, l, os) + AsSeq(ObservedAction(c, LaneAfter(c, l, os), o, None, None))
  {
    assert (os + [o])[..|os|] == os;
  }

  /** A stretch of observations taken in two parts. */
  lemma {:induction false} TwoParts(c: Check, l: Lane, a: seq<Obs>, b: seq<Obs>)
    ensures LaneAfter(c, l, a + b) == LaneAfter(c, LaneAfter(c, l, a), b)
    ensures ActsOf(c, l, a + b) == ActsOf(c, l, a) + ActsOf(c, LaneAfter(c, l, a), b)
  {
    if b == [] {
      assert a + b == a;
    } else {
      var init, o := b[..|b| - 1], b[|b| - 1];
      TwoParts(c, l, a, init);
      LastOfTwoParts(c, l, a, init, o);
      LastApart(a, b);
    }
  }

  lemma LastApart<T>(a: seq<T>, b: seq<T>)
    requires b != []
    ensures b[..|b| - 1] + [b[|b| - 1]] == b && a + b[..|b| - 1] + [b[|b| - 1]] == a + b
  {
  }

  lemma LastOfTwoParts(c: Check, l: Lane, a: seq<Obs>, init: seq<Obs>, o: Obs)
    requires LaneAfter(c, l, a + init) == LaneAfter(c, LaneAfter(c, l, a), init)
    requires ActsOf(c, l, a + init) == ActsOf(c, l, a) + ActsOf(c, LaneAfter(c, l, a), init)
    ensures LaneAfter(c, l, a + init + [o]) == LaneAfter(c, LaneAfter(c, l, a), init + [o])
    ensures ActsOf(c, l, a + init + [o]) == ActsOf(c, l, a) + ActsOf(c, LaneAfter(c, l, a), init + [o])
  {
    var mid := LaneAfter(c, l, a);
    OneMore(c, l, a + init, o);
    OneMore(c, mid, init, o);
    Regrouped(ActsOf(c, l, a), ActsOf(c, mid, init), AsSeq(ObservedAction(c, LaneAfter(c, mid, init), o, None, None)));
  }

  lemma Regrouped<T>(a: seq<T>, b: seq<T>, c: seq<T>)
    ensures (a + b) + c == a + (b + c)
  {
  }
}
