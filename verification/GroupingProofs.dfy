/** What grouping guarantees for every graph, every mix of levels and every set of down nodes. */
module GroupingProofs {
  import opened Base
  import opened Grouping

  // ------------------------------------------------------------------------------------------
  // Regions are equivalence classes, so a region grown from any of its nodes is the same region.

  lemma WalkIsSymmetric(g: LinkGraph, a: NodeId, b: NodeId, at: Level)
    requires g.Valid() && b in g.Walk(a, at)
    ensures a in g.Walk(b, at)
  {
  }

  function Reversed(p: seq<NodeId>): seq<NodeId> {
    seq(|p|, i requires 0 <= i < |p| => p[|p| - 1 - i])
  }

  lemma ConnectedIsSymmetric(g: LinkGraph, at: Level, down: set<NodeId>, a: NodeId, b: NodeId)
    requires g.Valid() && Connected(g, at, down, a, b)
    ensures Connected(g, at, down, b, a)
  {
    var p :| IsPath(g, at, down, p) && p[0] == a && p[|p| - 1] == b;
    var r := Reversed(p);
    forall i | 0 < i < |r|
      ensures r[i] in g.Walk(r[i - 1], at)
    {
      WalkIsSymmetric(g, r[i], r[i - 1], at);
    }
    assert IsPath(g, at, down, r);
  }

  lemma ConnectedIsTransitive(g: LinkGraph, at: Level, down: set<NodeId>, a: NodeId, b: NodeId, c: NodeId)
    requires Connected(g, at, down, a, b) && Connected(g, at, down, b, c)
    ensures Connected(g, at, down, a, c)
  {
    var p :| IsPath(g, at, down, p) && p[0] == a && p[|p| - 1] == b;
    var q :| IsPath(g, at, down, q) && q[0] == b && q[|q| - 1] == c;
    var r := p + q[1..];
    forall i | 0 < i < |r|
      ensures r[i] in g.Walk(r[i - 1], at)
    {
      if i > |p| {
        assert r[i] == q[i - |p| + 1] && r[i - 1] == q[i - |p|];
      } else if i == |p| {
        assert r[i] == q[1] && r[i - 1] == q[0];
      }
    }
    assert IsPath(g, at, down, r);
  }

  lemma RegionIsSharedByItsNodes(g: LinkGraph, a: NodeId, b: NodeId, at: Level, down: set<NodeId>)
    requires g.Valid() && b in Region(g, a, at, down)
    ensures Region(g, b, at, down) == Region(g, a, at, down)
  {
    ConnectedIsSymmetric(g, at, down, a, b);
    forall n | n in down
      ensures Connected(g, at, down, a, n) <==> Connected(g, at, down, b, n)
    {
      if Connected(g, at, down, a, n) {
        ConnectedIsTransitive(g, at, down, b, a, n);
      }
      if Connected(g, at, down, b, n) {
        ConnectedIsTransitive(g, at, down, a, b, n);
      }
    }
  }

  /** A set of down nodes that holds `start` and is closed under the walk holds its whole region. */
  lemma ClosedSetHoldsTheRegion(g: LinkGraph, start: NodeId, at: Level, down: set<NodeId>, seen: set<NodeId>)
    requires start in seen
    requires forall n, m :: n in seen && m in g.Walk(n, at) && m in down ==> m in seen
    ensures Region(g, start, at, down) <= seen
  {
    forall n | n in Region(g, start, at, down)
      ensures n in seen
    {
      var p :| IsPath(g, at, down, p) && p[0] == start && p[|p| - 1] == n;
      PathStaysInside(g, at, down, seen, p, |p| - 1);
    }
  }

  lemma {:induction false} PathStaysInside(g: LinkGraph, at: Level, down: set<NodeId>, seen: set<NodeId>,
                                           p: seq<NodeId>, i: nat)
    requires IsPath(g, at, down, p) && i < |p| && p[0] in seen
    requires forall n, m :: n in seen && m in g.Walk(n, at) && m in down ==> m in seen
    ensures p[i] in seen
  {
    if i > 0 {
      PathStaysInside(g, at, down, seen, p, i - 1);
    }
  }

  /** One more step from inside a region stays inside it. */
  lemma RegionIsClosed(g: LinkGraph, start: NodeId, at: Level, down: set<NodeId>, n: NodeId, m: NodeId)
    requires n in Region(g, start, at, down) && m in g.Walk(n, at) && m in down
    ensures m in Region(g, start, at, down)
  {
    var p :| IsPath(g, at, down, p) && p[0] == start && p[|p| - 1] == n;
    assert IsPath(g, at, down, p + [m]);
  }

  // ------------------------------------------------------------------------------------------
  // Nothing is lost: every roll-up ends at a node that pages.

  /** A border at one level is judged by the same links, or by none, at every other level. */
  lemma BorderPagesAtItsOwnLevel(g: LinkGraph, s: NodeId, at: Level, down: set<NodeId>)
    requires g.TouchesALiveNode(s, at, down)
    ensures RootCause(g, s, down).None?
  {
    var m :| m in g.LinksAt(s, at) && m !in down;
    if g.LinksAt(s, g.LevelOf(s)) != {} {
      assert m in g.LinksAt(s, g.LevelOf(s));
    }
  }

  /** A node is rolled up into a down node of its region that pages itself or speaks before it. */
  lemma RollUpClimbs(g: LinkGraph, n: NodeId, down: set<NodeId>)
    requires RootCause(g, n, down).Some?
    ensures var s := RootCause(g, n, down).value;
            && s in down && s != n && s in Region(g, n, g.LevelOf(n), down)
            && (RootCause(g, s, down).None? || Before(g, s, n))
  {
    var at, s := g.LevelOf(n), RootCause(g, n, down).value;
    var region := Region(g, n, at, down);
    OwnRegion(g, n, at, down);
    if Borders(g, region, at, down) != {} {
      BorderPagesAtItsOwnLevel(g, s, at, down);
    }
  }

  /** The chain of roll-ups from a node, each naming the next. */
  ghost predicate IsRollUpChain(g: LinkGraph, down: set<NodeId>, chain: seq<NodeId>) {
    && chain != []
    && forall i :: 0 < i < |chain| ==> RootCause(g, chain[i - 1], down) == Some(chain[i])
  }

  /**
   * Grouping delays a page and never loses one: whatever the graph and whatever mix of levels the
   * operator chose, following roll-ups from any down node ends at a down node that pages on its own.
   */
  lemma {:induction false} EveryRollUpEndsAtAPager(g: LinkGraph, n: NodeId, down: set<NodeId>)
    returns (chain: seq<NodeId>)
    requires n in down
    ensures IsRollUpChain(g, down, chain) && chain[0] == n
    ensures chain[|chain| - 1] in down && RootCause(g, chain[|chain| - 1], down).None?
    decreases g.RankOf(n).Key(), n
  {
    if RootCause(g, n, down).None? {
      chain := [n];
    } else {
      RollUpClimbs(g, n, down);
      var s := RootCause(g, n, down).value;
      if RootCause(g, s, down).None? {
        chain := [n, s];
      } else {
        var rest := EveryRollUpEndsAtAPager(g, s, down);
        chain := [n] + rest;
      }
    }
  }

  /** So an outage is never silent: of the nodes down, at least one pages. */
  lemma AnOutageIsNeverSilent(g: LinkGraph, down: set<NodeId>)
    requires down != {}
    ensures exists n :: n in down && RootCause(g, n, down).None?
  {
    var n :| n in down;
    var chain := EveryRollUpEndsAtAPager(g, n, down);
  }

  // ------------------------------------------------------------------------------------------
  // When one hop is enough: the node a notification is rolled up into pages itself.

  /** Levels in the order of how much they group. */
  function Strength(at: Level): nat {
    match at
    case Off => 0
    case Certain => 1
    case Links => 2
    case Site => 3
  }

  /** A stronger level walks further. */
  lemma WeakerRegionIsInside(g: LinkGraph, n: NodeId, weak: Level, strong: Level, down: set<NodeId>)
    requires Strength(weak) <= Strength(strong)
    ensures Region(g, n, weak, down) <= Region(g, n, strong, down)
  {
    forall m | m in Region(g, n, weak, down)
      ensures m in Region(g, n, strong, down)
    {
      var p :| IsPath(g, weak, down, p) && p[0] == n && p[|p| - 1] == m;
      assert IsPath(g, strong, down, p);
    }
  }

  /** A node that touches nobody alive at a level touches nobody alive at a weaker one. */
  lemma WeakerTouchesLess(g: LinkGraph, n: NodeId, weak: Level, strong: Level, down: set<NodeId>)
    requires Strength(weak) <= Strength(strong) && g.TouchesALiveNode(n, weak, down)
    ensures g.TouchesALiveNode(n, strong, down)
  {
    var m :| m in g.LinksAt(n, weak) && m !in down;
    assert m in g.LinksAt(n, strong);
  }

  /** A down node that does not stand alone is rolled up unless it is the best of a borderless region. */
  lemma RolledUpUnlessBest(g: LinkGraph, s: NodeId, down: set<NodeId>)
    requires !g.StandsAlone(s, down)
    ensures var region := Region(g, s, g.LevelOf(s), down);
            RootCause(g, s, down).Some? <==>
            Borders(g, region, g.LevelOf(s), down) != {} || exists m :: m in region && Before(g, m, s)
  {
    var at := g.LevelOf(s);
    var region := Region(g, s, at, down);
    OwnRegion(g, s, at, down);
    var best := Speaker(g, region, at, down);
    if Borders(g, region, at, down) == {} && best != s {
      assert Before(g, best, s);
    }
  }

  /** One hop is enough out of a bordered region, or into a speaker that groups no more strongly. */
  lemma OneHopIsEnough(g: LinkGraph, n: NodeId, down: set<NodeId>)
    requires g.Valid() && RootCause(g, n, down).Some?
    requires var s, at := RootCause(g, n, down).value, g.LevelOf(n);
             Borders(g, Region(g, n, at, down), at, down) != {} || Strength(g.LevelOf(s)) <= Strength(at)
    ensures RootCause(g, RootCause(g, n, down).value, down).None?
  {
    var at, s := g.LevelOf(n), RootCause(g, n, down).value;
    var region := Region(g, n, at, down);
    OwnRegion(g, n, at, down);
    if Borders(g, region, at, down) != {} {
      BorderPagesAtItsOwnLevel(g, s, at, down);
    } else if !g.StandsAlone(s, down) {
      RegionIsSharedByItsNodes(g, n, s, at, down);
      WeakerRegionIsInside(g, s, g.LevelOf(s), at, down);
      BordersGrow(g, s, g.LevelOf(s), at, down);
      RolledUpUnlessBest(g, s, down);
    }
  }

  /** Grouping more strongly keeps every border a border. */
  lemma BordersGrow(g: LinkGraph, s: NodeId, weak: Level, strong: Level, down: set<NodeId>)
    requires Strength(weak) <= Strength(strong)
    ensures Borders(g, Region(g, s, weak, down), weak, down) <= Borders(g, Region(g, s, strong, down), strong, down)
  {
    WeakerRegionIsInside(g, s, weak, strong, down);
    forall m | m in Borders(g, Region(g, s, weak, down), weak, down)
      ensures m in Borders(g, Region(g, s, strong, down), strong, down)
    {
      WeakerTouchesLess(g, m, weak, strong, down);
    }
  }

  /**
   * Exactly when a node is rolled up into one that is itself rolled up: its region has no border, and
   * the speaker groups more strongly, may itself sit inside, touches nobody alive, and finds in its
   * own wider region a border or somebody who speaks before it.
   */
  lemma ChainsExactlyWhen(g: LinkGraph, n: NodeId, down: set<NodeId>)
    requires g.Valid() && RootCause(g, n, down).Some?
    ensures var s, at := RootCause(g, n, down).value, g.LevelOf(n);
            var own := g.LevelOf(s);
            var wider := Region(g, s, own, down);
            RootCause(g, s, down).Some? <==>
            && Borders(g, Region(g, n, at, down), at, down) == {} && Strength(at) < Strength(own)
            && g.MayBeInside(s, own) && !g.TouchesALiveNode(s, own, down)
            && (Borders(g, wider, own, down) != {} || exists m :: m in wider && Before(g, m, s))
  {
    var s, at := RootCause(g, n, down).value, g.LevelOf(n);
    RollUpClimbs(g, n, down);
    if Borders(g, Region(g, n, at, down), at, down) != {} || Strength(g.LevelOf(s)) <= Strength(at) {
      OneHopIsEnough(g, n, down);
    } else if !g.StandsAlone(s, down) {
      RolledUpUnlessBest(g, s, down);
    }
  }

  // ------------------------------------------------------------------------------------------
  // With mixed levels one hop may not be enough: a concrete graph.

  const MIXED: LinkGraph := LinkGraph(
    map[2 := {1}, 1 := {2}], map[], {}, map[0 := 7, 1 := 7], map[7 := {0, 1}], map[],
    map[2 := Links, 1 := Site, 0 := Off], Off)

  const ALL_DOWN: set<NodeId> := {0, 1, 2}

  lemma MixedRegionOf2()
    ensures Region(MIXED, 2, Links, ALL_DOWN) == {1, 2}
  {
    assert MIXED.Walk(1, Links) == {2} && MIXED.Walk(2, Links) == {1};
    assert IsPath(MIXED, Links, ALL_DOWN, [2]) && [2][0] == 2;
    assert IsPath(MIXED, Links, ALL_DOWN, [2, 1]);
    assert Connected(MIXED, Links, ALL_DOWN, 2, 2) && Connected(MIXED, Links, ALL_DOWN, 2, 1);
    ClosedSetHoldsTheRegion(MIXED, 2, Links, ALL_DOWN, {1, 2});
  }

  lemma MixedRegionOf1()
    ensures Region(MIXED, 1, Site, ALL_DOWN) == ALL_DOWN
  {
    assert MIXED.Walk(1, Site) == {0, 1, 2};
    assert IsPath(MIXED, Site, ALL_DOWN, [1, 0]);
    assert IsPath(MIXED, Site, ALL_DOWN, [1, 1]);
    assert IsPath(MIXED, Site, ALL_DOWN, [1, 2]);
    forall n | n in ALL_DOWN
      ensures Connected(MIXED, Site, ALL_DOWN, 1, n)
    {
      assert IsPath(MIXED, Site, ALL_DOWN, [1, n]);
    }
  }

  lemma MixedSpeaker(region: set<NodeId>, at: Level, s: NodeId)
    requires region != {} && region <= ALL_DOWN && s in region
    requires forall n :: n in region ==> s <= n
    ensures Speaker(MIXED, region, at, ALL_DOWN) == s
  {
    forall n | n in ALL_DOWN
      ensures MIXED.LinksAt(n, at) <= ALL_DOWN
    {
    }
    assert Borders(MIXED, region, at, ALL_DOWN) == {};
    assert IsBest(MIXED, region, s);
  }

  /** A graph whose levels differ can roll a node up into one that is itself rolled up. */
  lemma MixedLevelsChainTwice()
    ensures MIXED.Valid()
    ensures RootCause(MIXED, 2, {0, 1, 2}) == Some(1)
    ensures RootCause(MIXED, 1, {0, 1, 2}) == Some(0)
    ensures RootCause(MIXED, 0, {0, 1, 2}) == None
  {
    MixedRegionOf2();
    MixedSpeaker({1, 2}, Links, 1);
    MixedRegionOf1();
    MixedSpeaker(ALL_DOWN, Site, 0);
    assert MIXED.LinksAt(2, Links) == {1} && MIXED.LinksAt(1, Site) == {2};
    MixedIsValid();
  }

  lemma MixedIsValid()
    ensures MIXED.Valid()
  {
    assert forall a, b :: b in At(MIXED.physical, a) ==> (a == 1 && b == 2) || (a == 2 && b == 1);
    assert forall a :: At(MIXED.logical, a) == {};
  }
}
