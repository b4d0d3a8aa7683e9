/** What a roll-up says about the network, in terms of its links, its sites and the kinds of its nodes. */
module GroupingMeaning {
  import opened Base
  import opened Grouping

  // ------------------------------------------------------------------------------------------
  // Which nodes may be spoken for.

  /**
   * Nothing a down node is linked to is alive. Its physical links decide where it has any; at the
   * surest level it needs one and must not be doubted, at the next its logical links will do, and at
   * the strongest a node without links may still belong to a site.
   */
  predicate Surrounded(g: LinkGraph, n: NodeId, down: set<NodeId>) {
    var physical, logical := At(g.physical, n), At(g.logical, n);
    var level := if n in g.level then g.level[n] else g.defaultLevel;
    && n in down
    && match level
       case Off => false
       case Certain => physical != {} && physical <= down && n !in g.unsure
       case Links => if physical != {} then physical <= down else logical != {} && logical <= down
       case Site => if physical != {} then physical <= down else logical <= down && (logical != {} || n in g.site)
  }

  lemma OnlyTheSurroundedAreSpokenFor(g: LinkGraph, n: NodeId, down: set<NodeId>)
    ensures g.StandsAlone(n, down) <==> !Surrounded(g, n, down)
  {
    var level := g.LevelOf(n);
    assert !g.TouchesALiveNode(n, level, down) <==> g.LinksAt(n, level) <= down;
  }

  /** A node is judged by its physical links where it has any, else by its logical ones unless only sure links count. */
  predicate IsJudgedBy(g: LinkGraph, n: NodeId, m: NodeId) {
    match if n in g.level then g.level[n] else g.defaultLevel
    case Off => false
    case Certain => m in At(g.physical, n)
    case _ => if At(g.physical, n) != {} then m in At(g.physical, n) else m in At(g.logical, n)
  }

  lemma TheNeighboursItIsJudgedBy(g: LinkGraph, n: NodeId, m: NodeId)
    ensures m in g.JudgingNeighbours(n) <==> IsJudgedBy(g, n, m)
  {
  }

  // ------------------------------------------------------------------------------------------
  // Which nodes make up a region.

  /** Two nodes are joined by a physical link, by a logical one from `Links` on, or by a site at `Site`. */
  predicate Joined(g: LinkGraph, at: Level, a: NodeId, b: NodeId) {
    || b in At(g.physical, a)
    || (at in {Links, Site} && b in At(g.logical, a))
    || (at == Site && a in g.site && b in g.site && g.site[a] == g.site[b])
  }

  /** A chain of down nodes, each joined to the next. */
  ghost predicate IsChain(g: LinkGraph, at: Level, down: set<NodeId>, p: seq<NodeId>) {
    && p != []
    && (forall i :: 0 <= i < |p| ==> p[i] in down)
    && (forall i :: 0 < i < |p| ==> Joined(g, at, p[i - 1], p[i]))
  }

  lemma WalkingIsJoining(g: LinkGraph, at: Level, a: NodeId, b: NodeId)
    requires g.Valid()
    ensures b in g.Walk(a, at) <==> Joined(g, at, a, b)
  {
  }

  lemma ChainsArePaths(g: LinkGraph, at: Level, down: set<NodeId>, p: seq<NodeId>)
    requires g.Valid()
    ensures IsPath(g, at, down, p) <==> IsChain(g, at, down, p)
  {
    forall i | 0 < i < |p|
      ensures p[i] in g.Walk(p[i - 1], at) <==> Joined(g, at, p[i - 1], p[i])
    {
      WalkingIsJoining(g, at, p[i - 1], p[i]);
    }
  }

  /** A region is exactly what chains of down nodes reach. */
  lemma ARegionIsWhatChainsReach(g: LinkGraph, at: Level, down: set<NodeId>, a: NodeId, b: NodeId)
    requires g.Valid()
    ensures b in Region(g, a, at, down) <==>
            exists p :: IsChain(g, at, down, p) && p[0] == a && p[|p| - 1] == b
  {
    if b in Region(g, a, at, down) {
      var p :| IsPath(g, at, down, p) && p[0] == a && p[|p| - 1] == b;
      ChainsArePaths(g, at, down, p);
    }
    if p :| IsChain(g, at, down, p) && p[0] == a && p[|p| - 1] == b {
      ChainsArePaths(g, at, down, p);
      assert p[|p| - 1] in down;
    }
  }

  // ------------------------------------------------------------------------------------------
  // Which of them speaks.

  /** What kind of node it is; a node nobody has classified is like any other. */
  predicate IsA(g: LinkGraph, n: NodeId, kind: Rank) {
    if n in g.rank then g.rank[n] == kind else kind == Other
  }

  predicate SomeIsA(g: LinkGraph, pool: set<NodeId>, kind: Rank) {
    exists n :: n in pool && IsA(g, n, kind)
  }

  /** The lowest id of a kind. */
  predicate IsFirst(g: LinkGraph, pool: set<NodeId>, kind: Rank, s: NodeId) {
    s in pool && IsA(g, s, kind) && forall n :: n in pool && IsA(g, n, kind) ==> s <= n
  }

  /**
   * An edge router speaks before a layer 3 switch, that before a layer 2 switch, that before an access
   * point, and anything else only where there is none of these; among equals the lowest id does.
   */
  predicate SpeaksFirst(g: LinkGraph, pool: set<NodeId>, s: NodeId) {
    if SomeIsA(g, pool, Edge) then IsFirst(g, pool, Edge, s)
    else if SomeIsA(g, pool, L3Switch) then IsFirst(g, pool, L3Switch, s)
    else if SomeIsA(g, pool, L2Switch) then IsFirst(g, pool, L2Switch, s)
    else if SomeIsA(g, pool, AccessPoint) then IsFirst(g, pool, AccessPoint, s)
    else IsFirst(g, pool, Other, s)
  }

  lemma TheBestSpeaksFirst(g: LinkGraph, pool: set<NodeId>, s: NodeId)
    requires s in pool
    ensures IsBest(g, pool, s) <==> SpeaksFirst(g, pool, s)
  {
    forall n: NodeId
      ensures IsA(g, n, g.RankOf(n))
    {
    }
  }

  /** A node of a region touches something alive, through the links the level judges by. */
  predicate OnTheEdge(g: LinkGraph, at: Level, down: set<NodeId>, n: NodeId) {
    match at
    case Off => false
    case Certain => !(At(g.physical, n) <= down)
    case _ => if At(g.physical, n) != {} then !(At(g.physical, n) <= down) else !(At(g.logical, n) <= down)
  }

  /** Where some node of a region is on the edge, only those compete to speak; else all do. */
  function Competing(g: LinkGraph, at: Level, down: set<NodeId>, region: set<NodeId>): set<NodeId> {
    if forall m :: m in region ==> !OnTheEdge(g, at, down, m) then region
    else set n | n in region && OnTheEdge(g, at, down, n)
  }

  lemma ThePoolCompetes(g: LinkGraph, at: Level, down: set<NodeId>, region: set<NodeId>)
    ensures Pool(g, region, at, down) == Competing(g, at, down, region)
  {
    forall n: NodeId
      ensures g.TouchesALiveNode(n, at, down) <==> OnTheEdge(g, at, down, n)
    {
      assert !g.TouchesALiveNode(n, at, down) <==> g.LinksAt(n, at) <= down;
    }
    var edge := set n | n in region && OnTheEdge(g, at, down, n);
    assert Borders(g, region, at, down) == edge;
    assert forall n :: n in edge <==> n in region && OnTheEdge(g, at, down, n);
  }

  /**
   * Who speaks for whom, read off the network: a node is spoken for exactly when it is down and
   * surrounded and somebody else in its region speaks first; and whoever is named does.
   */
  lemma WhoSpeaksForWhom(g: LinkGraph, n: NodeId, down: set<NodeId>, s: NodeId)
    ensures var at := g.LevelOf(n);
            var region := Region(g, n, at, down);
            RootCause(g, n, down) == Some(s) <==>
            && Surrounded(g, n, down) && s != n
            && SpeaksFirst(g, Competing(g, at, down, region), s)
  {
    var at := g.LevelOf(n);
    var region := Region(g, n, at, down);
    OnlyTheSurroundedAreSpokenFor(g, n, down);
    ThePoolCompetes(g, at, down, region);
    if Surrounded(g, n, down) {
      OwnRegion(g, n, at, down);
      TheBestSpeaksFirst(g, Pool(g, region, at, down), Speaker(g, region, at, down));
      OnlyOneSpeaksFirst(g, Pool(g, region, at, down), s, Speaker(g, region, at, down));
    }
  }

  lemma OnlyOneSpeaksFirst(g: LinkGraph, pool: set<NodeId>, a: NodeId, b: NodeId)
    requires SpeaksFirst(g, pool, b)
    ensures SpeaksFirst(g, pool, a) <==> a == b
  {
  }

  // ------------------------------------------------------------------------------------------
  // A server behind the router of its site: the router speaks, although its id is the higher one.

  const OFFICE: LinkGraph := LinkGraph(
    map[1 := {2}, 2 := {1}], map[], {}, map[], map[], map[1 := Other, 2 := Edge], map[], Links)

  lemma TheRouterSpeaksForTheServer()
    ensures RootCause(OFFICE, 1, {1, 2}) == Some(2)
    ensures RootCause(OFFICE, 2, {1, 2}) == None
  {
    var down: set<NodeId> := {1, 2};
    OfficeRegion(1, 2);
    OfficeRegion(2, 1);
    assert forall n :: n in down ==> At(OFFICE.physical, n) <= down;
    assert Competing(OFFICE, Links, down, down) == down;
    assert IsA(OFFICE, 2, Edge) && SpeaksFirst(OFFICE, down, 2);
    WhoSpeaksForWhom(OFFICE, 1, down, 2);
    if RootCause(OFFICE, 2, down).Some? {
      WhoSpeaksForWhom(OFFICE, 2, down, RootCause(OFFICE, 2, down).value);
      OnlyOneSpeaksFirst(OFFICE, down, RootCause(OFFICE, 2, down).value, 2);
    }
  }

  lemma OfficeRegion(a: NodeId, b: NodeId)
    requires {a, b} == {1, 2}
    ensures Region(OFFICE, a, Links, {1, 2}) == {1, 2}
  {
    var down: set<NodeId> := {1, 2};
    assert IsPath(OFFICE, Links, down, [a]) && IsPath(OFFICE, Links, down, [a, b]);
    assert [a, b][|[a, b]| - 1] == b && [a][|[a]| - 1] == a;
    assert Connected(OFFICE, Links, down, a, a) && Connected(OFFICE, Links, down, a, b);
  }
}
