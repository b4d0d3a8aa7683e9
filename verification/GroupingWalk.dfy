/** The grouping algorithms: the breadth-first region walk and the memoized attribution. */
module GroupingWalk {
  import opened Base
  import opened Grouping
  import opened GroupingProofs
  import opened GroupingMeaning

  /** Every step the walk owes `n` leads into `seen`; site members may be owed through the site. */
  ghost predicate Explored(g: LinkGraph, n: NodeId, at: Level, down: set<NodeId>, seen: set<NodeId>,
                           sitesWalked: set<GroupId>)
  {
    && (forall m :: m in At(g.physical, n) && m in down ==> m in seen)
    && (at == Links || at == Site ==> forall m :: m in At(g.logical, n) && m in down ==> m in seen)
    && (at == Site && n in g.site ==> g.site[n] in sitesWalked)
  }

  ghost predicate SitesSeen(g: LinkGraph, down: set<NodeId>, seen: set<NodeId>, sitesWalked: set<GroupId>) {
    forall s, m :: s in sitesWalked && s in g.members && m in g.members[s] && m in down ==> m in seen
  }

  /** What an exploration of everything seen amounts to: the seen set is closed under the walk. */
  lemma ExploredIsClosed(g: LinkGraph, at: Level, down: set<NodeId>, seen: set<NodeId>, sitesWalked: set<GroupId>,
                         n: NodeId, m: NodeId)
    requires Explored(g, n, at, down, seen, sitesWalked) && SitesSeen(g, down, seen, sitesWalked)
    requires m in g.Walk(n, at) && m in down
    ensures m in seen
  {
  }

  /** Everything seen and no longer queued is explored. */
  ghost predicate Frontier(g: LinkGraph, at: Level, down: set<NodeId>, seen: set<NodeId>, queue: seq<NodeId>,
                           sitesWalked: set<GroupId>)
  {
    && (forall n :: n in seen && n !in queue ==> Explored(g, n, at, down, seen, sitesWalked))
    && SitesSeen(g, down, seen, sitesWalked)
  }

  /** Whether expanding `n` lists its site's members: only the first member of a site does. */
  predicate ListsSite(g: LinkGraph, n: NodeId, at: Level, sitesWalked: set<GroupId>) {
    at == Site && n in g.site && g.site[n] !in sitesWalked
  }

  function StepsFrom(g: LinkGraph, n: NodeId, at: Level, sitesWalked: set<GroupId>): (steps: set<NodeId>)
    ensures steps <= g.Walk(n, at)
  {
    At(g.physical, n)
    + (if at == Links || at == Site then At(g.logical, n) else {})
    + (if ListsSite(g, n, at, sitesWalked) then g.SameSite(n) else {})
  }

  function SitesAfter(g: LinkGraph, n: NodeId, at: Level, sitesWalked: set<GroupId>): set<GroupId> {
    if ListsSite(g, n, at, sitesWalked) then sitesWalked + {g.site[n]} else sitesWalked
  }

  lemma ExpandKeepsSites(g: LinkGraph, n: NodeId, at: Level, down: set<NodeId>, seen: set<NodeId>,
                         sitesWalked: set<GroupId>, seen': set<NodeId>)
    requires SitesSeen(g, down, seen, sitesWalked)
    requires seen' == seen + StepsFrom(g, n, at, sitesWalked) * down
    ensures SitesSeen(g, down, seen', SitesAfter(g, n, at, sitesWalked))
    ensures Explored(g, n, at, down, seen', SitesAfter(g, n, at, sitesWalked))
  {
  }

  lemma ExpandKeepsFrontier(g: LinkGraph, at: Level, down: set<NodeId>, seen: set<NodeId>, queue: seq<NodeId>,
                            sitesWalked: set<GroupId>, seen': set<NodeId>, queue': seq<NodeId>)
    requires queue != [] && Frontier(g, at, down, seen, queue, sitesWalked)
    requires seen' == seen + StepsFrom(g, queue[0], at, sitesWalked) * down
    requires forall m :: m in queue' <==> m in queue[1..] || m in seen' - seen
    ensures Frontier(g, at, down, seen', queue', SitesAfter(g, queue[0], at, sitesWalked))
  {
    ExpandKeepsSites(g, queue[0], at, down, seen, sitesWalked, seen');
    forall n | n in seen' && n !in queue'
      ensures Explored(g, n, at, down, seen', SitesAfter(g, queue[0], at, sitesWalked))
    {
      if n != queue[0] {
        assert n !in queue;
        assert Explored(g, n, at, down, seen, sitesWalked);
      }
    }
  }

  ghost predicate Growing(g: LinkGraph, start: NodeId, at: Level, down: set<NodeId>, seen: set<NodeId>,
                          queue: seq<NodeId>, sitesWalked: set<GroupId>)
  {
    && start in seen && seen <= down && seen <= Region(g, start, at, down)
    && (forall n :: n in queue ==> n in seen)
    && Frontier(g, at, down, seen, queue, sitesWalked)
  }

  /** Take one node off the queue and visit every step from it. */
  method Expand(g: LinkGraph, ghost start: NodeId, at: Level, down: set<NodeId>,
                seen0: set<NodeId>, queue0: seq<NodeId>, sitesWalked0: set<GroupId>)
    returns (seen: set<NodeId>, queue: seq<NodeId>, sitesWalked: set<GroupId>)
    requires |queue0| > 0 && Growing(g, start, at, down, seen0, queue0, sitesWalked0)
    ensures Growing(g, start, at, down, seen, queue, sitesWalked)
    ensures |down - seen| < |down - seen0| || (seen == seen0 && |queue| < |queue0|)
  {
    var n := queue0[0];
    var toVisit := StepsFrom(g, n, at, sitesWalked0);
    seen, queue := Visit(g, start, at, down, n, toVisit, seen0, queue0[1..]);
    ExpandKeepsFrontier(g, at, down, seen0, queue0, sitesWalked0, seen, queue);
    sitesWalked := SitesAfter(g, n, at, sitesWalked0);
    if seen != seen0 {
      Progress(down, seen0, seen);
    }
  }

  /**
   * The region walk. A queue of nodes still to expand; whichever member of a site is expanded first
   * lists the whole site, and the others do not, so the result is a region only because a site once
   * listed is listed for all its members.
   */
  method GrowRegion(g: LinkGraph, start: NodeId, at: Level, down: set<NodeId>) returns (seen: set<NodeId>)
    requires start in down
    ensures seen == Region(g, start, at, down)
  {
    seen := {start};
    var queue := [start];
    var sitesWalked: set<GroupId> := {};
    OwnRegion(g, start, at, down);
    while |queue| > 0
      invariant Growing(g, start, at, down, seen, queue, sitesWalked)
      decreases |down - seen|, |queue|
    {
      seen, queue, sitesWalked := Expand(g, start, at, down, seen, queue, sitesWalked);
    }
    FrontierDone(g, start, at, down, seen, sitesWalked);
  }

  lemma FrontierDone(g: LinkGraph, start: NodeId, at: Level, down: set<NodeId>, seen: set<NodeId>,
                     sitesWalked: set<GroupId>)
    requires start in seen && Frontier(g, at, down, seen, [], sitesWalked)
    ensures Region(g, start, at, down) <= seen
  {
    forall n, m | n in seen && m in g.Walk(n, at) && m in down
      ensures m in seen
    {
      ExploredIsClosed(g, at, down, seen, sitesWalked, n, m);
    }
    ClosedSetHoldsTheRegion(g, start, at, down, seen);
  }

  lemma Progress(down: set<NodeId>, before: set<NodeId>, seen: set<NodeId>)
    requires before < seen <= down
    ensures |down - seen| < |down - before|
  {
    Smaller(down - seen, down - before);
  }

  lemma Smaller(a: set<NodeId>, b: set<NodeId>)
    requires a < b
    ensures |a| < |b|
  {
    var x :| x in b && x !in a;
    assert a <= b - {x};
    SubsetSize(a, b - {x});
  }

  lemma {:induction false} SubsetSize(a: set<NodeId>, b: set<NodeId>)
    requires a <= b
    ensures |a| <= |b|
  {
    if a != {} {
      var x :| x in a;
      SubsetSize(a - {x}, b - {x});
    }
  }

  /** Put every down node of `toVisit` not seen before at the back of the queue. */
  method Visit(g: LinkGraph, ghost start: NodeId, at: Level, down: set<NodeId>, ghost from: NodeId,
               toVisit: set<NodeId>, seen0: set<NodeId>, queue0: seq<NodeId>)
    returns (seen: set<NodeId>, queue: seq<NodeId>)
    requires seen0 <= Region(g, start, at, down) && from in seen0
    requires toVisit <= g.Walk(from, at)
    requires seen0 <= down
    ensures seen0 <= seen <= Region(g, start, at, down) && seen <= down
    ensures seen == seen0 + (toVisit * down)
    ensures queue0 <= queue && (seen == seen0 ==> queue == queue0)
    ensures forall m :: m in queue <==> m in queue0 || m in seen - seen0
  {
    seen, queue := seen0, queue0;
    var left := toVisit;
    while left != {}
      invariant left <= toVisit
      invariant seen0 <= seen <= Region(g, start, at, down)
      invariant seen == seen0 + ((toVisit - left) * down)
      invariant queue0 <= queue && (seen == seen0 ==> queue == queue0)
      invariant forall m :: m in queue <==> m in queue0 || m in seen - seen0
      decreases left
    {
      var m :| m in left;
      left := left - {m};
      if m in down && m !in seen {
        RegionIsClosed(g, start, at, down, from, m);
        seen := seen + {m};
        queue := queue + [m];
      }
    }
  }

  method FindBest(g: LinkGraph, pool: set<NodeId>) returns (s: NodeId)
    requires pool != {}
    ensures IsBest(g, pool, s)
  {
    s :| s in pool;
    var left := pool - {s};
    while left != {}
      invariant left <= pool && s in pool && s !in left
      invariant forall n :: n in pool && n !in left && n != s ==> Before(g, s, n)
      decreases left
    {
      var n :| n in left;
      left := left - {n};
      if Before(g, n, s) {
        s := n;
      }
    }
  }

  method FindSpeaker(g: LinkGraph, region: set<NodeId>, at: Level, down: set<NodeId>) returns (s: NodeId)
    requires region != {}
    ensures s == Speaker(g, region, at, down) && SpeaksFirst(g, Competing(g, at, down, region), s)
  {
    var borders := set n | n in region && g.TouchesALiveNode(n, at, down);
    assert borders == Borders(g, region, at, down);
    s := FindBest(g, if borders == {} then region else borders);
    ThePoolCompetes(g, at, down, region);
    TheBestSpeaksFirst(g, Pool(g, region, at, down), s);
  }

  method FindRootCause(g: LinkGraph, n: NodeId, down: set<NodeId>) returns (r: Option<NodeId>)
    ensures r == RootCause(g, n, down)
  {
    if n !in down {
      return None;
    }
    var at := g.LevelOf(n);
    if !g.MayBeInside(n, at) || g.TouchesALiveNode(n, at, down) {
      return None;
    }
    var region := GrowRegion(g, n, at, down);
    OwnRegion(g, n, at, down);
    var s := FindSpeaker(g, region, at, down);
    r := if s != n then Some(s) else None;
  }

  /** What the memo may hold: for a level and a node, the speaker of that node's region. */
  ghost predicate MemoOk(g: LinkGraph, down: set<NodeId>, memo: map<(Level, NodeId), NodeId>) {
    forall k :: k in memo ==>
      && k.1 in down && k.1 in Region(g, k.1, k.0, down)
      && memo[k] == Speaker(g, Region(g, k.1, k.0, down), k.0, down)
  }

  /**
   * The roll-up of every down node at once, each region computed once per level. The memo is shared
   * between nodes, and answers for each of them exactly what asking alone would.
   */
  method Attribute(g: LinkGraph, down: set<NodeId>) returns (out: map<NodeId, NodeId>)
    requires g.Valid()
    ensures forall n: NodeId :: RootCause(g, n, down) == if n in out then Some(out[n]) else None
  {
    var memo: map<(Level, NodeId), NodeId> := map[];
    out := map[];
    var left := down;
    while left != {}
      invariant left <= down
      invariant MemoOk(g, down, memo)
      invariant forall n: NodeId :: n !in left ==> RootCause(g, n, down) == if n in out then Some(out[n]) else None
      invariant forall n :: n in left ==> n !in out
      decreases left
    {
      var n :| n in left;
      left := left - {n};
      var at := g.LevelOf(n);
      if !g.MayBeInside(n, at) || g.TouchesALiveNode(n, at, down) {
        continue;
      }
      var s: NodeId;
      if (at, n) in memo {
        s := memo[(at, n)];
      } else {
        s, memo := ComputeSpeaker(g, n, at, down, memo);
      }
      if s != n {
        out := out[n := s];
      }
    }
  }

  /** Grow one region and note its speaker for all its nodes. */
  method ComputeSpeaker(g: LinkGraph, n: NodeId, at: Level, down: set<NodeId>, memo0: map<(Level, NodeId), NodeId>)
    returns (s: NodeId, memo: map<(Level, NodeId), NodeId>)
    requires g.Valid() && n in down && MemoOk(g, down, memo0)
    ensures n in Region(g, n, at, down)
    ensures s == Speaker(g, Region(g, n, at, down), at, down)
    ensures MemoOk(g, down, memo)
  {
    var region := GrowRegion(g, n, at, down);
    OwnRegion(g, n, at, down);
    s := FindSpeaker(g, region, at, down);
    memo := memo0;
    var left := region;
    while left != {}
      invariant left <= region
      invariant MemoOk(g, down, memo)
      decreases left
    {
      var m :| m in left;
      left := left - {m};
      RegionIsSharedByItsNodes(g, n, m, at, down);
      memo := memo[(at, m) := s];
    }
  }
}
