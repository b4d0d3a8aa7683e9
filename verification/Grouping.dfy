/**
 * Who speaks for whom while several nodes are down.
 *
 * Links, and sites at the strongest level, join down nodes into regions. A region is heard through one
 * of its nodes: the best of those that still touch something alive, or the best of all where none does.
 * Nodes that touch nothing alive and do not speak are rolled up into the one that does.
 */
module Grouping {
  import opened Base

  type GroupId = nat

  /** Grouping levels, from the weakest to the strongest. */
  datatype Level = Off | Certain | Links | Site

  /** Who speaks for a region first. */
  datatype Rank = Edge | L3Switch | L2Switch | AccessPoint | Other {
    function Key(): nat {
      match this
      case Edge => 0
      case L3Switch => 1
      case L2Switch => 2
      case AccessPoint => 3
      case Other => 4
    }
  }

  type LinkMap = map<NodeId, set<NodeId>>

  function At(links: LinkMap, n: NodeId): set<NodeId> {
    if n in links then links[n] else {}
  }

  /** An undirected link is stored from both ends, and no node is linked to itself. */
  ghost predicate Undirected(links: LinkMap) {
    forall a, b :: b in At(links, a) ==> a in At(links, b) && a != b
  }

  /** `links` with the undirected link `a`-`b` added. */
  function WithLink(links: LinkMap, a: NodeId, b: NodeId): LinkMap {
    links[a := At(links, a) + {b}][b := At(links, b) + {a}]
  }

  lemma WithLinkIsUndirected(links: LinkMap, a: NodeId, b: NodeId)
    requires Undirected(links) && a != b
    ensures Undirected(WithLink(links, a, b))
  {
    var more := WithLink(links, a, b);
    forall x, y | y in At(more, x)
      ensures x in At(more, y) && x != y
    {
      assert y in At(links, x) || (x == a && y == b) || (x == b && y == a);
      assert y in At(links, x) ==> x in At(links, y);
      assert At(links, y) <= At(more, y) && b in At(more, a) && a in At(more, b);
    }
  }

  datatype LinkGraph = LinkGraph(
    physical: LinkMap,
    logical: LinkMap,
    unsure: set<NodeId>,
    site: map<NodeId, GroupId>,
    members: map<GroupId, set<NodeId>>,
    rank: map<NodeId, Rank>,
    level: map<NodeId, Level>,
    defaultLevel: Level)
  {
    /** Links are undirected, and `members` is the other side of `site`. */
    ghost predicate Valid() {
      && Undirected(physical)
      && Undirected(logical)
      && (forall n :: n in site ==> site[n] in members && n in members[site[n]])
      && (forall s, n :: s in members && n in members[s] ==> n in site && site[n] == s)
    }

    function AddLink(a: NodeId, b: NodeId, viaPhysical: bool): (g: LinkGraph)
      ensures Valid() ==> g.Valid()
      ensures a != b ==> b in At(if viaPhysical then g.physical else g.logical, a)
    {
      if a == b then this
      else if viaPhysical then
        assert Undirected(physical) ==> Undirected(WithLink(physical, a, b)) by {
          if Undirected(physical) { WithLinkIsUndirected(physical, a, b); }
        }
        this.(physical := WithLink(physical, a, b))
      else
        assert Undirected(logical) ==> Undirected(WithLink(logical, a, b)) by {
          if Undirected(logical) { WithLinkIsUndirected(logical, a, b); }
        }
        this.(logical := WithLink(logical, a, b))
    }

    /** File a node under a Site folder, taking it out of the one it was in. */
    function SetSite(n: NodeId, s: GroupId): (g: LinkGraph)
      ensures Valid() ==> g.Valid()
      ensures n in g.site && g.site[n] == s
    {
      var left := if n in site && site[n] in members then members[site[n] := members[site[n]] - {n}] else members;
      var there := if s in left then left[s] else {};
      this.(site := site[n := s], members := left[s := there + {n}])
    }

    function LevelOf(n: NodeId): Level {
      if n in level then level[n] else defaultLevel
    }

    function RankOf(n: NodeId): Rank {
      if n in rank then rank[n] else Other
    }

    /** The links a node is judged by at a level: physical where it has any, else the logical ones. */
    function LinksAt(n: NodeId, at: Level): set<NodeId> {
      match at
      case Off => {}
      case Certain => At(physical, n)
      case _ => if At(physical, n) != {} then At(physical, n) else At(logical, n)
    }

    /** The neighbours whose being alive makes a node a border, at its own level. */
    function JudgingNeighbours(n: NodeId): set<NodeId> {
      LinksAt(n, LevelOf(n))
    }

    /** Whether a down node may sit inside a region at all: the level needs evidence about it. */
    predicate MayBeInside(n: NodeId, at: Level) {
      match at
      case Off => false
      case Certain => LinksAt(n, at) != {} && n !in unsure
      case Links => LinksAt(n, at) != {}
      case Site => LinksAt(n, at) != {} || n in site
    }

    predicate TouchesALiveNode(n: NodeId, at: Level, down: set<NodeId>) {
      exists m :: m in LinksAt(n, at) && m !in down
    }

    /** Whether a region walk looks no further for this node: it pages on its own account. */
    predicate StandsAlone(n: NodeId, down: set<NodeId>) {
      n !in down || !MayBeInside(n, LevelOf(n)) || TouchesALiveNode(n, LevelOf(n), down)
    }

    function SameSite(n: NodeId): set<NodeId> {
      if n in site && site[n] in members then members[site[n]] else {}
    }

    /** Every node a region walk at a level steps to: all accepted links, not the preferred side. */
    function Walk(n: NodeId, at: Level): set<NodeId> {
      At(physical, n)
      + (if at == Links || at == Site then At(logical, n) else {})
      + (if at == Site then SameSite(n) else {})
    }
  }

  // ------------------------------------------------------------------------------------------
  // The specification: regions as connected components, and who speaks for one.

  ghost predicate IsPath(g: LinkGraph, at: Level, down: set<NodeId>, p: seq<NodeId>) {
    && p != []
    && (forall i :: 0 <= i < |p| ==> p[i] in down)
    && (forall i :: 0 < i < |p| ==> p[i] in g.Walk(p[i - 1], at))
  }

  ghost predicate Connected(g: LinkGraph, at: Level, down: set<NodeId>, a: NodeId, b: NodeId) {
    exists p :: IsPath(g, at, down, p) && p[0] == a && p[|p| - 1] == b
  }

  /** The down nodes connected to `start` through down nodes. */
  ghost function Region(g: LinkGraph, start: NodeId, at: Level, down: set<NodeId>): set<NodeId> {
    set n | n in down && Connected(g, at, down, start, n)
  }

  /** Speaks before: the better rank, then the lower id. */
  predicate Before(g: LinkGraph, a: NodeId, b: NodeId) {
    g.RankOf(a).Key() < g.RankOf(b).Key() || (g.RankOf(a).Key() == g.RankOf(b).Key() && a < b)
  }

  ghost predicate IsBest(g: LinkGraph, pool: set<NodeId>, s: NodeId) {
    s in pool && forall n :: n in pool && n != s ==> Before(g, s, n)
  }

  lemma {:induction false} BestExists(g: LinkGraph, pool: set<NodeId>)
    requires pool != {}
    ensures exists s :: IsBest(g, pool, s)
  {
    var n :| n in pool;
    var rest := pool - {n};
    assert forall m :: m in pool ==> m == n || m in rest;
    if rest == {} {
      assert IsBest(g, pool, n);
    } else {
      BestExists(g, rest);
      var s :| IsBest(g, rest, s);
      assert IsBest(g, pool, if Before(g, s, n) then s else n);
    }
  }

  /** The border nodes of a region at the level it was grown at. */
  function Borders(g: LinkGraph, region: set<NodeId>, at: Level, down: set<NodeId>): set<NodeId> {
    set n | n in region && g.TouchesALiveNode(n, at, down)
  }

  /** Who competes to speak: the border nodes when there are any, else the whole region. */
  function Pool(g: LinkGraph, region: set<NodeId>, at: Level, down: set<NodeId>): set<NodeId> {
    if Borders(g, region, at, down) != {} then Borders(g, region, at, down) else region
  }

  ghost function Speaker(g: LinkGraph, region: set<NodeId>, at: Level, down: set<NodeId>): (s: NodeId)
    requires region != {}
    ensures IsBest(g, Pool(g, region, at, down), s)
  {
    BestExists(g, Pool(g, region, at, down));
    var s :| IsBest(g, Pool(g, region, at, down), s);
    s
  }

  /** Who speaks for a down node: somebody else, or `None` if it speaks for itself. */
  ghost function RootCause(g: LinkGraph, n: NodeId, down: set<NodeId>): Option<NodeId> {
    if g.StandsAlone(n, down) then None
    else
      OwnRegion(g, n, g.LevelOf(n), down);
      var s := Speaker(g, Region(g, n, g.LevelOf(n), down), g.LevelOf(n), down);
      if s == n then None else Some(s)
  }

  lemma OwnRegion(g: LinkGraph, n: NodeId, at: Level, down: set<NodeId>)
    requires n in down
    ensures n in Region(g, n, at, down)
  {
    assert IsPath(g, at, down, [n]);
  }
}
