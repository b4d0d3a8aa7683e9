/** Whole runs of the engine: every interleaving of its steps, with the configuration free to change. */
module Runs {
  import opened Base
  import opened Lanes
  import opened LaneProofs
  import opened Engine
  import opened EngineProofs
  import opened Restore

  /**
   * The steps of the engine. Letting a held notification go is a step of its own, for any check at
   * any time: the decision to do so may be based on a snapshot that other steps have overtaken.
   * Indexing says which rows hold a state, Retiring which node-wide checks are left over.
   */
  datatype Step =
    | Observing(c: Check, o: Obs)
    | Regrouping
    | LettingGo(held: Check)
    | Orphaning(orphans: set<Check>)
    | Forgetting(kept: set<NodeId>)
    | Raising(raised: Alert)
    | Closing(closed: Check)
    | Indexing(rows: set<Check>)
    | Retiring(leftovers: set<Check>)

  /** What is asked of the surroundings: sensible observations, and no deleted node coming back. */
  predicate Legal(step: Step, retired: set<NodeId>) {
    match step
    case Observing(c, o) => ObsOk(c, o) && c.Node().value !in retired
    case Orphaning(orphans) => forall c :: c in orphans ==> c.Threshold?
    case Raising(a) => RaiseOk(a)
    case Closing(c) => c.Event? || c.Marker? || c.Fleet?
    case _ => true
  }

  ghost predicate Takes(env: Env, s: State, s': State, step: Step, em: Emission) {
    match step
    case Observing(c, o) => c.Node().Some? && ObserveStep(env, s, s', c, o, em)
    case Regrouping => RegroupStep(env, s, s', em)
    case LettingGo(c) => LetGoStep(s, s', c, em)
    case Orphaning(orphans) => OrphanStep(s, s', orphans, em)
    case Forgetting(kept) => ForgetStep(s, s', kept, em)
    case Raising(a) => RaiseStep(s, s', a, em)
    case Closing(c) => CloseStep(s, s', c, em)
    case Indexing(rows) => s' == s.(rowStates := rows) && em == map[]
    case Retiring(leftovers) => s' == s.(legacy := leftovers) && em == map[]
  }

  /** What a step does to one check's lane, and what it emits about the check; `down` is the set after it. */
  ghost predicate LaneTakes(env: Env, s: State, down: set<NodeId>, step: Step, c: Check, l': Lane, act: Option<Action>)
  {
    var l, rc := LaneOf(s, c), RcNow(env, c, down);
    match step
    case Observing(x, o) =>
      if x == c then
        l' == Observed(c, l, o, rc, WaitOn(env, s, c, o)) && act == ObservedAction(c, l, o, rc, WaitOn(env, s, c, o))
      else if SweepFollows(s, x, o) then l' == Swept(c, l, rc, x.Node()) && act == SweptAction(c, l, rc, x.Node())
      else l' == l && act.None?
    case Regrouping => l' == Swept(c, l, rc, None) && act == SweptAction(c, l, rc, None)
    case LettingGo(x) => if x == c then l' == LetGo(l) && act == LetGoAction(l) else l' == l && act.None?
    case Orphaning(orphans) =>
      if c in orphans then l' == Orphaned(l) && act == ClosedAction(l) else l' == l && act.None?
    case Forgetting(kept) =>
      if AboutDeleted(c, kept) then l' == Orphaned(l) && act == ClosedAction(l) else l' == l && act.None?
    case Raising(a) => if a.check == c then l' == Raised(l, a) && act == RaisedAction(l, a) else l' == l && act.None?
    case Closing(x) => if x == c then l' == Closed(l) && act == ClosedAction(l) else l' == l && act.None?
    case Indexing(_) => l' == l && act.None?
    case Retiring(_) => l' == l && act.None?
  }

  /** A step, seen from one check. */
  lemma LaneOfStep(env: Env, s: State, s': State, step: Step, em: Emission, c: Check)
    requires Takes(env, s, s', step, em)
    ensures LaneTakes(env, s, s'.down, step, c, LaneOf(s', c), Lookup(em, c))
  {
    match step
    case Observing(x, o) => LaneOfObservation(env, s, s', x, o, em, c);
    case Regrouping => assert SweptTo(env, s, s', s.down, c, None, em);
    case Orphaning(orphans) => assert OrphanedTo(s, s', orphans, c, em);
    case Forgetting(kept) => LaneOfForgetting(env, s, s', kept, em, c);
    case LettingGo(x) => LaneOfLettingGo(env, s, s', x, em, c);
    case Raising(a) => LaneOfRaising(env, s, s', a, em, c);
    case Closing(x) => LaneOfClosing(env, s, s', x, em, c);
    case Indexing(_) =>
    case Retiring(_) =>
  }

  lemma LaneOfObservation(env: Env, s: State, s': State, x: Check, o: Obs, em: Emission, c: Check)
    requires x.Node().Some? && ObserveStep(env, s, s', x, o, em)
    ensures LaneTakes(env, s, s'.down, Observing(x, o), c, LaneOf(s', c), Lookup(em, c))
  {
    if x != c && SweepFollows(s, x, o) {
      assert SweptTo(env, s, s', s'.down, c, x.Node(), em);
    }
  }

  lemma LaneOfForgetting(env: Env, s: State, s': State, kept: set<NodeId>, em: Emission, c: Check)
    requires ForgetStep(s, s', kept, em)
    ensures LaneTakes(env, s, s'.down, Forgetting(kept), c, LaneOf(s', c), Lookup(em, c))
  {
  }

  lemma LaneOfLettingGo(env: Env, s: State, s': State, x: Check, em: Emission, c: Check)
    requires LetGoStep(s, s', x, em)
    ensures LaneTakes(env, s, s'.down, LettingGo(x), c, LaneOf(s', c), Lookup(em, c))
  {
  }

  lemma LaneOfRaising(env: Env, s: State, s': State, a: Alert, em: Emission, c: Check)
    requires RaiseStep(s, s', a, em)
    ensures LaneTakes(env, s, s'.down, Raising(a), c, LaneOf(s', c), Lookup(em, c))
  {
  }

  lemma LaneOfClosing(env: Env, s: State, s': State, x: Check, em: Emission, c: Check)
    requires CloseStep(s, s', x, em)
    ensures LaneTakes(env, s, s'.down, Closing(x), c, LaneOf(s', c), Lookup(em, c))
  {
  }

  function RetiredAfter(s: State, step: Step, retired: set<NodeId>): set<NodeId> {
    if step.Forgetting? then retired + RetiredBy(s, step.kept) else retired
  }

  /** One step of a run: the configuration in force, what was emitted, and the listing delivered. */
  datatype Entry = Entry(env: Env, step: Step, em: Emission, acts: seq<Action>, post: State)

  function EndState(s: State, run: seq<Entry>): State {
    if run == [] then s else run[|run| - 1].post
  }

  function EndRetired(s: State, retired: set<NodeId>, run: seq<Entry>): set<NodeId> {
    if run == [] then retired
    else
      var init := run[..|run| - 1];
      RetiredAfter(EndState(s, init), run[|run| - 1].step, EndRetired(s, retired, init))
  }

  /** An entry is a legal step from a state, and its listing is what the step emitted. */
  ghost predicate Follows(s: State, retired: set<NodeId>, e: Entry) {
    Legal(e.step, retired) && Takes(e.env, s, e.post, e.step, e.em) && Lists(e.acts, e.em)
  }

  /** Entry `n` of a run follows where the entries before it led. */
  ghost predicate FitsAt(s: State, retired: set<NodeId>, run: seq<Entry>, n: nat)
    requires n < |run|
  {
    Follows(EndState(s, run[..n]), EndRetired(s, retired, run[..n]), run[n])
  }

  ghost predicate IsRun(s: State, retired: set<NodeId>, run: seq<Entry>) {
    forall n :: 0 <= n < |run| ==> FitsAt(s, retired, run, n)
  }

  /** A run is a shorter run and one more entry. */
  lemma LastEntry(s: State, retired: set<NodeId>, run: seq<Entry>)
    requires IsRun(s, retired, run) && run != []
    ensures var init, last := run[..|run| - 1], run[|run| - 1];
            && IsRun(s, retired, init)
            && Legal(last.step, EndRetired(s, retired, init))
            && Takes(last.env, EndState(s, init), last.post, last.step, last.em)
            && Lists(last.acts, last.em)
  {
    PrefixIsRun(s, retired, run, |run| - 1);
    assert FitsAt(s, retired, run, |run| - 1);
  }

  lemma PrefixIsRun(s: State, retired: set<NodeId>, run: seq<Entry>, k: nat)
    requires IsRun(s, retired, run) && k <= |run|
    ensures IsRun(s, retired, run[..k])
  {
    forall n | 0 <= n < k
      ensures FitsAt(s, retired, run[..k], n)
    {
      assert FitsAt(s, retired, run, n);
      assert run[..k][..n] == run[..n];
    }
  }

  /** Everything a run delivered, in order. */
  function Log(run: seq<Entry>): seq<Action> {
    if run == [] then [] else Log(run[..|run| - 1]) + run[|run| - 1].acts
  }

  /** One more entry at the end of a run. */
  lemma RunOneMore(s: State, retired: set<NodeId>, run: seq<Entry>, e: Entry)
    requires IsRun(s, retired, run) && Legal(e.step, EndRetired(s, retired, run))
    requires Takes(e.env, EndState(s, run), e.post, e.step, e.em) && Lists(e.acts, e.em)
    ensures IsRun(s, retired, run + [e]) && EndState(s, run + [e]) == e.post && Log(run + [e]) == Log(run) + e.acts
    ensures !e.step.Forgetting? ==> EndRetired(s, retired, run + [e]) == EndRetired(s, retired, run)
  {
    assert (run + [e])[..|run|] == run;
    forall n | 0 <= n < |run + [e]|
      ensures FitsAt(s, retired, run + [e], n)
    {
      if n < |run| {
        FitsStill(s, retired, run, e, n);
      }
    }
  }

  lemma FitsStill(s: State, retired: set<NodeId>, run: seq<Entry>, e: Entry, n: nat)
    requires n < |run| && FitsAt(s, retired, run, n)
    ensures FitsAt(s, retired, run + [e], n)
  {
    assert (run + [e])[..n] == run[..n];
  }

  /** The paging ledger: a check enters on an unrolled fire and leaves on a resolve or a suppress. */
  function PagedBy(paged: set<Check>, log: seq<Action>): set<Check> {
    if log == [] then paged
    else
      var before, act := PagedBy(paged, log[..|log| - 1]), log[|log| - 1];
      match act
      case Fire(a) => if a.rootCause.None? then before + {a.check} else before
      case Resolve(a) => before - {a.check}
      case Suppress(a) => before - {a.check}
  }

  // ------------------------------------------------------------------------------------------
  // A delivered listing moves the ledger as the emission does, in whatever order it is listed.

  /** The last action about a check in a log. */
  function ActionAbout(acts: seq<Action>, c: Check): Option<Action> {
    if acts == [] then None
    else if acts[|acts| - 1].alert.check == c then Some(acts[|acts| - 1])
    else ActionAbout(acts[..|acts| - 1], c)
  }

  predicate DistinctChecks(acts: seq<Action>) {
    forall i, j :: 0 <= i < j < |acts| ==> acts[i].alert.check != acts[j].alert.check
  }

  lemma {:induction false} NoActionAbout(acts: seq<Action>, c: Check)
    requires forall i :: 0 <= i < |acts| ==> acts[i].alert.check != c
    ensures ActionAbout(acts, c) == None
  {
    if acts != [] {
      NoActionAbout(acts[..|acts| - 1], c);
    }
  }

  lemma {:induction false} PagedByPointwise(paged: set<Check>, acts: seq<Action>, c: Check)
    requires DistinctChecks(acts)
    ensures c in PagedBy(paged, acts) <==> PagedAfter(c in paged, ActionAbout(acts, c))
  {
    if acts != [] {
      var init, last := acts[..|acts| - 1], acts[|acts| - 1];
      PagedByPointwise(paged, init, c);
      if last.alert.check == c {
        forall i | 0 <= i < |init|
          ensures init[i].alert.check != c
        {
          assert init[i] == acts[i];
        }
        NoActionAbout(init, c);
      }
    }
  }

  lemma {:induction false} ActionAboutFinds(acts: seq<Action>, i: nat)
    requires DistinctChecks(acts) && i < |acts|
    ensures ActionAbout(acts, acts[i].alert.check) == Some(acts[i])
  {
    if i < |acts| - 1 {
      ActionAboutFinds(acts[..|acts| - 1], i);
    }
  }

  lemma ListingAnswers(acts: seq<Action>, em: Emission, c: Check)
    requires Lists(acts, em)
    ensures ActionAbout(acts, c) == Lookup(em, c)
  {
    if c in em {
      var j :| 0 <= j < |acts| && acts[j] == em[c];
      ActionAboutFinds(acts, j);
    } else {
      NoActionAbout(acts, c);
    }
  }

  lemma ListingMovesTheLedger(paged: set<Check>, acts: seq<Action>, em: Emission)
    requires Lists(acts, em)
    ensures PagedBy(paged, acts) == PagedNext(paged, em)
  {
    forall c: Check
      ensures c in PagedBy(paged, acts) <==> c in PagedNext(paged, em)
    {
      PagedByPointwise(paged, acts, c);
      ListingAnswers(acts, em, c);
      PagedPointwise(paged, em, c);
    }
  }

  lemma {:induction false} PagedByConcat(paged: set<Check>, a: seq<Action>, b: seq<Action>)
    ensures PagedBy(paged, a + b) == PagedBy(PagedBy(paged, a), b)
  {
    if b == [] {
      assert a + b == a;
    } else {
      var init := b[..|b| - 1];
      PagedByConcat(paged, a, init);
      assert (a + b)[..|a + b| - 1] == a + init;
    }
  }

  // ------------------------------------------------------------------------------------------
  // Safety over whole runs.

  lemma StepKeepsInv(env: Env, s: State, s': State, step: Step, em: Emission, retired: set<NodeId>, paged: set<Check>)
    requires Inv(s, retired) && LedgerHolds(s, paged) && Legal(step, retired) && Takes(env, s, s', step, em)
    ensures Inv(s', RetiredAfter(s, step, retired)) && LedgerHolds(s', PagedNext(paged, em))
  {
    match step
    case Observing(c, o) =>
      ObserveKeepsInv(env, s, s', c, o, em, retired);
      ObserveKeepsLedger(env, s, s', c, o, em, retired, paged);
    case Regrouping => RegroupKeepsInv(env, s, s', em, retired, paged);
    case LettingGo(c) => LetGoKeepsInv(s, s', c, em, retired, paged);
    case Orphaning(orphans) => OrphanKeepsInv(s, s', orphans, em, retired, paged);
    case Forgetting(kept) => ForgetKeepsInv(s, s', kept, em, retired, paged);
    case Raising(a) => RaiseKeepsInv(s, s', a, em, retired, paged);
    case Closing(c) => CloseKeepsInv(s, s', c, em, retired, paged);
    case Indexing(_) => IndexKeepsInv(s, s', em, retired, paged);
    case Retiring(_) => IndexKeepsInv(s, s', em, retired, paged);
  }

  lemma IndexKeepsInv(s: State, s': State, em: Emission, retired: set<NodeId>, paged: set<Check>)
    requires Inv(s, retired) && LedgerHolds(s, paged) && em == map[]
    requires s' == s.(rowStates := s'.rowStates, legacy := s'.legacy)
    ensures Inv(s', retired) && LedgerHolds(s', PagedNext(paged, em))
  {
    assert PagedNext(paged, em) == paged;
    assert forall c: Check :: LaneOf(s', c) == LaneOf(s, c) && NodeDown(s', c) == NodeDown(s, c);
    assert forall n: NodeId :: WasDown(s', n) <==> WasDown(s, n);
  }

  lemma {:induction false} RunKeepsInv(s: State, retired: set<NodeId>, paged: set<Check>, run: seq<Entry>)
    requires Inv(s, retired) && LedgerHolds(s, paged) && IsRun(s, retired, run)
    ensures Inv(EndState(s, run), EndRetired(s, retired, run))
    ensures LedgerHolds(EndState(s, run), PagedBy(paged, Log(run)))
  {
    if run != [] {
      var init, last := run[..|run| - 1], run[|run| - 1];
      LastEntry(s, retired, run);
      RunKeepsInv(s, retired, paged, init);
      var before := PagedBy(paged, Log(init));
      StepKeepsInv(last.env, EndState(s, init), last.post, last.step, last.em, EndRetired(s, retired, init), before);
      ListingMovesTheLedger(before, last.acts, last.em);
      PagedByConcat(paged, Log(init), last.acts);
    }
  }

  /** From any state in which the invariant holds, every run keeps it. */
  lemma RunStaysSound(s: State, retired: set<NodeId>, run: seq<Entry>)
    requires Inv(s, retired) && IsRun(s, retired, run)
    ensures Inv(EndState(s, run), EndRetired(s, retired, run))
  {
    assert LedgerHolds(s, PagedAtStart(s));
    RunKeepsInv(s, retired, PagedAtStart(s), run);
  }

  /**
   * In every state any run can reach, the engine's maps agree: open alert with committed state, hold
   * mark with hold entry, roll-up with down set, down set with committed liveness.
   */
  lemma EveryReachableStateIsSound(s: State, retired: set<NodeId>, run: seq<Entry>)
    requires IsStart(s, retired) && IsRun(s, retired, run)
    ensures Inv(EndState(s, run), EndRetired(s, retired, run))
    ensures LedgerHolds(EndState(s, run), PagedBy(PagedAtStart(s), Log(run)))
  {
    StartIsSafe(s, retired);
    RunKeepsInv(s, retired, PagedAtStart(s), run);
  }

  /**
   * The paging ledger. After every run, a check that no event rule owns is paged exactly when its
   * alert is open, carries no root cause and is not held; so no incident is left dangling and no
   * open standalone alert goes unpaged.
   */
  lemma PagedExactlyWhenOpenUnrolledUnheld(s: State, retired: set<NodeId>, run: seq<Entry>, c: Check)
    requires IsStart(s, retired) && IsRun(s, retired, run) && !c.Event?
    ensures var end := EndState(s, run);
            c in PagedBy(PagedAtStart(s), Log(run)) <==>
            c in end.active && end.active[c].rootCause.None? && end.active[c].heldUntil.None?
  {
    EveryReachableStateIsSound(s, retired, run);
    assert LedgerOk(c, LaneOf(EndState(s, run), c), c in PagedBy(PagedAtStart(s), Log(run)));
  }

  /** An event alert outlives its node's outage without paging, so for events one half holds. */
  lemma PagedEventIsOpenAndUnrolled(s: State, retired: set<NodeId>, run: seq<Entry>, c: Check)
    requires IsStart(s, retired) && IsRun(s, retired, run) && c in PagedBy(PagedAtStart(s), Log(run))
    ensures c in EndState(s, run).active && EndState(s, run).active[c].rootCause.None?
  {
    EveryReachableStateIsSound(s, retired, run);
    assert LedgerOk(c, LaneOf(EndState(s, run), c), c in PagedBy(PagedAtStart(s), Log(run)));
  }

  /** A threshold check has an open alert in state `p` exactly when its tracker committed it. */
  lemma OpenExactlyWhenCommitted(s: State, retired: set<NodeId>, run: seq<Entry>, c: Check, p: NodeState)
    requires IsStart(s, retired) && IsRun(s, retired, run) && c.Threshold?
    ensures var end := EndState(s, run);
            (c in end.active && end.active[c].state == p) <==>
            (c in end.states && end.states[c].tracker.committed == p && p.Severity().Some?)
  {
    EveryReachableStateIsSound(s, retired, run);
    var end := EndState(s, run);
    assert LaneOk(c, LaneOf(end, c), NodeDown(end, c));
  }

  /** The incremental down set is exactly the nodes whose liveness tracker committed `Unreachable`. */
  lemma DownIsCommittedUnreachable(s: State, retired: set<NodeId>, run: seq<Entry>, n: NodeId)
    requires IsStart(s, retired) && IsRun(s, retired, run)
    requires n !in EndRetired(s, retired, run)
    ensures var end := EndState(s, run);
            n in end.down <==>
            Liveness(n) in end.states && end.states[Liveness(n)].tracker.committed == Unreachable
  {
    EveryReachableStateIsSound(s, retired, run);
    var end := EndState(s, run);
    assert LaneOk(Liveness(n), LaneOf(end, Liveness(n)), NodeDown(end, Liveness(n)));
    assert n in end.down <==> WasDown(end, n);
  }
}
