/**
 * Grouping delays a page and never loses one, said of the engine: from every down node the alerts
 * themselves lead to one that has been paged or is held. What deleting a node does to that.
 */
module Heard {
  import opened Base
  import opened Grouping
  import opened GroupingProofs
  import opened Lanes
  import opened Engine
  import opened EngineProofs
  import opened Restore
  import opened Runs
  import opened Attribution
  import opened Silences

  /** Somebody has been told about the node's outage, or will be when its hold ends. */
  predicate IsHeard(s: State, paged: set<Check>, n: NodeId) {
    Liveness(n) in paged || Liveness(n) in s.held
  }

  /** Open liveness alerts, each rolled up into the next one's node. */
  predicate AlertsLead(s: State, chain: seq<NodeId>) {
    && chain != []
    && (forall i :: 0 <= i < |chain| ==> Liveness(chain[i]) in s.active)
    && (forall i :: 0 < i < |chain| ==> s.active[Liveness(chain[i - 1])].rootCause == Some(chain[i]))
  }

  /** Every node of a roll-up chain that starts at a down node is down. */
  lemma {:induction false} ChainIsDown(g: LinkGraph, down: set<NodeId>, chain: seq<NodeId>, i: nat)
    requires IsRollUpChain(g, down, chain) && chain[0] in down && i < |chain|
    ensures chain[i] in down
  {
    if i > 0 {
      ChainIsDown(g, down, chain, i - 1);
      assert RootCause(g, chain[i - 1], down) == Some(chain[i]);
      RollUpClimbs(g, chain[i - 1], down);
    }
  }

  /** A down node whose rule has been in force since its outage committed has an open alert. */
  lemma DownIsOpen(s: State, retired: set<NodeId>, n: NodeId)
    requires Inv(s, retired) && n in s.down && OpenWhileRuled(LaneOf(s, Liveness(n)), false)
    ensures Liveness(n) in s.active
  {
    assert n in s.down <==> WasDown(s, n);
    assert LaneOf(s, Liveness(n)).tracker == Lookup(s.states, Liveness(n));
    assert LaneOf(s, Liveness(n)).alert == Lookup(s.active, Liveness(n));
  }

  /** An open liveness alert that carries no root cause has been paged or is held. */
  lemma UnrolledIsHeard(s: State, paged: set<Check>, retired: set<NodeId>, n: NodeId)
    requires Inv(s, retired) && LedgerHolds(s, paged)
    requires Liveness(n) in s.active && s.active[Liveness(n)].rootCause.None?
    ensures IsHeard(s, paged, n)
  {
    var c := Liveness(n);
    assert LaneOk(c, LaneOf(s, c), NodeDown(s, c)) && LedgerOk(c, LaneOf(s, c), c in paged);
  }

  /**
   * After every run that leaves roll-ups current, with no down node's rule taken away since its outage
   * committed: from every down node the open alerts lead, each naming the next, to one that has been
   * paged or is held.
   */
  lemma NoOutageGoesUnheard(g: LinkGraph, s: State, retired: set<NodeId>, run: seq<Entry>, n: NodeId)
    returns (chain: seq<NodeId>)
    requires IsStart(s, retired) && IsRun(s, retired, run) && RollUpsCurrent(g, EndState(s, run))
    requires n in EndState(s, run).down
    requires forall m :: m in EndState(s, run).down ==> !Stranded(s, run, Liveness(m))
    ensures AlertsLead(EndState(s, run), chain) && chain[0] == n
    ensures IsHeard(EndState(s, run), PagedBy(PagedAtStart(s), Log(run)), chain[|chain| - 1])
  {
    var end := EndState(s, run);
    EveryReachableStateIsSound(s, retired, run);
    forall m | m in end.down
      ensures Liveness(m) in end.active
    {
      LivenessOpenExactlyWhileRuled(s, retired, run, Liveness(m));
      DownIsOpen(end, EndRetired(s, retired, run), m);
    }
    chain := CurrentRollUpsLead(g, end, n);
    UnrolledIsHeard(end, PagedBy(PagedAtStart(s), Log(run)), EndRetired(s, retired, run), chain[|chain| - 1]);
  }

  /** Where roll-ups are current and every down node has an alert, the alerts lead to an unrolled one. */
  lemma CurrentRollUpsLead(g: LinkGraph, s: State, n: NodeId) returns (chain: seq<NodeId>)
    requires RollUpsCurrent(g, s) && n in s.down && forall m :: m in s.down ==> Liveness(m) in s.active
    ensures AlertsLead(s, chain) && chain[0] == n
    ensures s.active[Liveness(chain[|chain| - 1])].rootCause.None?
  {
    chain := EveryRollUpEndsAtAPager(g, n, s.down);
    forall i | 0 <= i < |chain|
      ensures Liveness(chain[i]) in s.active && s.active[Liveness(chain[i])].rootCause == RootCause(g, chain[i], s.down)
    {
      ChainIsDown(g, s.down, chain, i);
    }
  }

  // ------------------------------------------------------------------------------------------
  // Deleting a node.

  /** Every rolled-up liveness alert names a node whose own alert is open. */
  ghost predicate NamesAreOpen(s: State) {
    forall n: NodeId :: Liveness(n) in s.active && s.active[Liveness(n)].rootCause.Some? ==>
      Liveness(s.active[Liveness(n)].rootCause.value) in s.active
  }

  /** The node's alert is rolled up into one that the deletion takes away. */
  predicate LosesItsSpeaker(s: State, kept: set<NodeId>, n: NodeId) {
    && n in kept && Liveness(n) in s.active && s.active[Liveness(n)].rootCause.Some?
    && s.active[Liveness(n)].rootCause.value !in kept
  }

  lemma ForgottenAlerts(s: State, s': State, kept: set<NodeId>, em: Emission, n: NodeId)
    requires ForgetStep(s, s', kept, em)
    ensures n in kept ==> Lookup(s'.active, Liveness(n)) == Lookup(s.active, Liveness(n)) && Liveness(n) !in em
    ensures n !in kept ==> Liveness(n) !in s'.active
  {
    assert LaneOf(s', Liveness(n)).alert == Lookup(s'.active, Liveness(n));
    assert LaneOf(s, Liveness(n)).alert == Lookup(s.active, Liveness(n));
  }

  /**
   * A deletion does not judge roll-ups again: a kept node rolled up into a deleted one stays open, rolled
   * up and unpaged, nothing is said about it, and the node it names has no alert and is not down.
   */
  lemma DeletingASpeakerSaysNothing(s: State, s': State, kept: set<NodeId>, em: Emission, retired: set<NodeId>,
                                    paged: set<Check>, n: NodeId)
    requires Inv(s, retired) && LedgerHolds(s, paged) && ForgetStep(s, s', kept, em) && LosesItsSpeaker(s, kept, n)
    ensures Lookup(s'.active, Liveness(n)) == Some(s.active[Liveness(n)]) && Liveness(n) !in em
    ensures Liveness(n) !in PagedNext(paged, em) && Liveness(n) !in s'.held
    ensures var m := s.active[Liveness(n)].rootCause.value; Liveness(m) !in s'.active && m !in s'.down
  {
    var c, m := Liveness(n), s.active[Liveness(n)].rootCause.value;
    ForgottenAlerts(s, s', kept, em, n);
    ForgottenAlerts(s, s', kept, em, m);
    ForgetKeepsInv(s, s', kept, em, retired, paged);
    assert LaneOk(c, LaneOf(s', c), NodeDown(s', c)) && LedgerOk(c, LaneOf(s', c), c in PagedNext(paged, em));
    assert LaneOf(s', c).alert == Lookup(s'.active, c);
    assert m in s.down ==> WasDown(s, m);
  }

  /** Exactly when a deletion keeps the chains whole: no kept node is rolled up into a deleted one. */
  lemma DeletionKeepsChainsExactlyWhen(s: State, s': State, kept: set<NodeId>, em: Emission)
    requires ForgetStep(s, s', kept, em) && NamesAreOpen(s)
    ensures NamesAreOpen(s') <==> forall n: NodeId :: !LosesItsSpeaker(s, kept, n)
  {
    forall n: NodeId
      ensures LosesItsSpeaker(s, kept, n) ==> !NamesAreOpen(s')
      ensures Liveness(n) in s'.active && s'.active[Liveness(n)].rootCause.Some? && !LosesItsSpeaker(s, kept, n) ==>
              Liveness(s'.active[Liveness(n)].rootCause.value) in s'.active
    {
      ForgottenAlerts(s, s', kept, em, n);
      if Liveness(n) in s.active && s.active[Liveness(n)].rootCause.Some? {
        var m := s.active[Liveness(n)].rootCause.value;
        ForgottenAlerts(s, s', kept, em, m);
      }
    }
  }

  // ------------------------------------------------------------------------------------------
  // A deletion the grouping has heard of first.

  /** The grouping no longer knows these nodes: no link and no site leads to one of them. */
  ghost predicate Detached(g: LinkGraph, gone: set<NodeId>) {
    forall n, at: Level :: g.Walk(n, at) !! gone
  }

  lemma LinksAreWalked(g: LinkGraph, n: NodeId, at: Level)
    ensures g.LinksAt(n, at) <= g.Walk(n, at)
  {
  }

  lemma SameTouch(g: LinkGraph, n: NodeId, at: Level, down: set<NodeId>, gone: set<NodeId>)
    requires Detached(g, gone)
    ensures g.TouchesALiveNode(n, at, down) <==> g.TouchesALiveNode(n, at, down - gone)
  {
    LinksAreWalked(g, n, at);
    assert g.Walk(n, at) !! gone;
  }

  lemma SameRegion(g: LinkGraph, n: NodeId, at: Level, down: set<NodeId>, gone: set<NodeId>)
    requires Detached(g, gone) && n !in gone
    ensures Region(g, n, at, down) == Region(g, n, at, down - gone)
  {
    forall m | m in down
      ensures Connected(g, at, down, n, m) <==> m !in gone && Connected(g, at, down - gone, n, m)
    {
      if Connected(g, at, down, n, m) {
        var p :| IsPath(g, at, down, p) && p[0] == n && p[|p| - 1] == m;
        forall i | 0 <= i < |p|
          ensures p[i] !in gone
        {
          assert i > 0 ==> p[i] in g.Walk(p[i - 1], at) && g.Walk(p[i - 1], at) !! gone;
        }
        assert IsPath(g, at, down - gone, p);
      }
      if Connected(g, at, down - gone, n, m) {
        var p :| IsPath(g, at, down - gone, p) && p[0] == n && p[|p| - 1] == m;
        assert IsPath(g, at, down, p);
      }
    }
  }

  lemma BestIsOne(g: LinkGraph, pool: set<NodeId>, a: NodeId, b: NodeId)
    requires IsBest(g, pool, a) && IsBest(g, pool, b)
    ensures a == b
  {
  }

  /** Taking detached nodes out of the down set changes nobody else's answer. */
  lemma SameRootCause(g: LinkGraph, n: NodeId, down: set<NodeId>, gone: set<NodeId>)
    requires Detached(g, gone) && n !in gone
    ensures RootCause(g, n, down) == RootCause(g, n, down - gone)
  {
    var at := g.LevelOf(n);
    SameTouch(g, n, at, down, gone);
    if !g.StandsAlone(n, down) {
      SameRegion(g, n, at, down, gone);
      var region := Region(g, n, at, down);
      OwnRegion(g, n, at, down);
      forall m | m in region
        ensures g.TouchesALiveNode(m, at, down) <==> g.TouchesALiveNode(m, at, down - gone)
      {
        SameTouch(g, m, at, down, gone);
      }
      assert Borders(g, region, at, down) == Borders(g, region, at, down - gone);
      BestIsOne(g, Pool(g, region, at, down), Speaker(g, region, at, down), Speaker(g, region, at, down - gone));
    }
  }

  /**
   * A regroup under a grouping that no longer knows the deleted nodes, and then the deletion: roll-ups
   * are current before and after it, and no kept node loses its speaker.
   */
  lemma RegroupedDeletionLosesNothing(g: LinkGraph, s: State, s': State, kept: set<NodeId>, em: Emission,
                                      retired: set<NodeId>)
    requires Inv(s, retired) && RollUpsCurrent(g, s) && ForgetStep(s, s', kept, em)
    requires Detached(g, s.live.Keys - kept)
    ensures RollUpsCurrent(g, s')
    ensures forall n: NodeId :: !LosesItsSpeaker(s, kept, n)
  {
    var gone := s.live.Keys - kept;
    forall n: NodeId
      ensures Liveness(n) in s'.active ==> s'.active[Liveness(n)].rootCause == RootCause(g, n, s'.down)
      ensures !LosesItsSpeaker(s, kept, n)
    {
      ForgottenAlerts(s, s', kept, em, n);
      if n in kept && Liveness(n) in s.active {
        SameRootCause(g, n, s.down, gone);
        if RootCause(g, n, s.down).Some? {
          RollUpClimbs(g, n, s'.down);
          var m := RootCause(g, n, s.down).value;
          assert m in s.down && (m in s.down <==> WasDown(s, m));
        }
      }
    }
  }
}
