/** What the screens show for a node: one roll-up, read three ways. */
module Display {
  import opened Base
  import opened Lanes
  import opened Reported

  /** Worse states rank higher. */
  function SeverityRank(s: NodeState): nat {
    match s
    case Critical => 5
    case Unreachable => 4
    case Warning => 3
    case Unknown => 2
    case Maintenance => 1
    case Ok => 0
  }

  lemma RanksDiffer(a: NodeState, b: NodeState)
    requires SeverityRank(a) == SeverityRank(b)
    ensures a == b
  {
  }

  /** What the readers read: committed liveness, open alerts, the report ledger, and the clock. */
  datatype Screen = Screen(
    live: map<NodeId, NodeState>,
    active: map<Check, Alert>,
    reports: map<NodeId, Report>,
    interval: NodeId -> Option<nat>,
    now: int)
  {
    predicate Unconfirmed(n: NodeId) {
      n in reports && IsStale(reports[n], interval, now)
    }

    /** Without a fresh report to back it, `Ok` is shown as `Unknown`. */
    function Confirmed(n: NodeId, s: NodeState): NodeState {
      if s == Ok && Unconfirmed(n) then Unknown else s
    }

    predicate About(c: Check, n: NodeId) {
      c in active && active[c].check.Node() == Some(n)
    }

    /** Everything that has a say in what a node shows. */
    ghost predicate Contributes(n: NodeId, s: NodeState) {
      (n in live && s == Confirmed(n, live[n])) || exists c :: About(c, n) && active[c].state == s
    }

    /** The answer every reader owes: the worst contribution, or nothing if there is none. */
    ghost predicate Shows(n: NodeId, shown: Option<NodeState>) {
      if shown.Some? then
        && Contributes(n, shown.value)
        && forall s :: Contributes(n, s) ==> SeverityRank(s) <= SeverityRank(shown.value)
      else
        forall s :: !Contributes(n, s)
    }
  }

  /** There is one answer, so any two readers give the same one. */
  lemma OneAnswer(v: Screen, n: NodeId, a: Option<NodeState>, b: Option<NodeState>)
    requires v.Shows(n, a) && v.Shows(n, b)
    ensures a == b
  {
    if a.Some? && b.Some? {
      assert v.Contributes(n, a.value) && v.Contributes(n, b.value);
      RanksDiffer(a.value, b.value);
    }
  }

  /** Something says the node is in this state: an open alert, or its committed liveness, `Ok` only if confirmed. */
  ghost predicate Says(v: Screen, n: NodeId, s: NodeState) {
    || (exists c :: c in v.active && v.active[c].check.Node() == Some(n) && v.active[c].state == s)
    || (n in v.live && v.live[n] == s && (s == Ok ==> !v.Unconfirmed(n)))
    || (s == Unknown && n in v.live && v.live[n] == Ok && v.Unconfirmed(n))
  }

  /**
   * What a node shows, in the order the screens rank states: `Critical` if anything says so, else
   * `Unreachable`, else `Warning`, else `Unknown`, else `Maintenance`, else `Ok`.
   */
  lemma TheWorstIsShown(v: Screen, n: NodeId, shown: NodeState)
    ensures v.Shows(n, Some(shown)) <==>
            if Says(v, n, Critical) then shown == Critical
            else if Says(v, n, Unreachable) then shown == Unreachable
            else if Says(v, n, Warning) then shown == Warning
            else if Says(v, n, Unknown) then shown == Unknown
            else if Says(v, n, Maintenance) then shown == Maintenance
            else shown == Ok && Says(v, n, Ok)
  {
    forall s: NodeState
      ensures v.Contributes(n, s) <==> Says(v, n, s)
    {
      if v.Contributes(n, s) && !(n in v.live && s == v.Confirmed(n, v.live[n])) {
        var c :| v.About(c, n) && v.active[c].state == s;
        assert c in v.active;
      }
      if c :| c in v.active && v.active[c].check.Node() == Some(n) && v.active[c].state == s {
        assert v.About(c, n);
      }
    }
  }

  // ------------------------------------------------------------------------------------------
  // Rolling alerts up, in whatever order they are visited.

  function Get(m: map<NodeId, NodeState>, n: NodeId): Option<NodeState> {
    if n in m then Some(m[n]) else None
  }

  /** One more contribution. */
  function Worst(shown: Option<NodeState>, s: NodeState): Option<NodeState> {
    if shown.Some? && SeverityRank(shown.value) >= SeverityRank(s) then shown else Some(s)
  }

  /** What a node shows when only its committed state and the alerts in `seen` have been looked at. */
  ghost predicate ShowsSoFar(v: Screen, n: NodeId, seen: set<Check>, shown: Option<NodeState>) {
    Only(v, seen).Shows(n, shown)
  }

  function Only(v: Screen, seen: set<Check>): Screen {
    v.(active := map c | c in v.active && c in seen :: v.active[c])
  }

  lemma NothingSeen(v: Screen, n: NodeId)
    ensures ShowsSoFar(v, n, {}, if n in v.live then Some(v.Confirmed(n, v.live[n])) else None)
  {
    var w := Only(v, {});
    assert forall s :: w.Contributes(n, s) <==> n in v.live && s == v.Confirmed(n, v.live[n]);
  }

  lemma OneMoreSeen(v: Screen, n: NodeId, seen: set<Check>, c: Check, shown: Option<NodeState>)
    requires ShowsSoFar(v, n, seen, shown) && c in v.active && c !in seen
    ensures ShowsSoFar(v, n, seen + {c}, if v.About(c, n) then Worst(shown, v.active[c].state) else shown)
  {
    var w, w' := Only(v, seen), Only(v, seen + {c});
    forall s
      ensures w'.Contributes(n, s) <==> w.Contributes(n, s) || (v.About(c, n) && v.active[c].state == s)
    {
      if x :| w'.About(x, n) && w'.active[x].state == s {
        assert x != c ==> w.About(x, n);
      }
      if x :| w.About(x, n) && w.active[x].state == s {
        assert w'.About(x, n);
      }
      if v.About(c, n) {
        assert w'.About(c, n);
      }
    }
  }

  lemma AllSeen(v: Screen, n: NodeId, shown: Option<NodeState>)
    requires ShowsSoFar(v, n, v.active.Keys, shown)
    ensures v.Shows(n, shown)
  {
    assert Only(v, v.active.Keys).active == v.active;
  }

  // ------------------------------------------------------------------------------------------
  // The three readers.

  /** Grey the states nobody confirms, walking whichever side is smaller. */
  method UnconfirmedOkIsUnknown(v: Screen, states: map<NodeId, NodeState>) returns (out: map<NodeId, NodeState>)
    ensures out == map n | n in states :: v.Confirmed(n, states[n])
  {
    out := states;
    if v.reports == map[] {
      return;
    }
    if |states| <= |v.reports| {
      var left := states.Keys;
      while left != {}
        invariant out.Keys == states.Keys && left <= states.Keys
        invariant forall n :: n in states ==> out[n] == if n in left then states[n] else v.Confirmed(n, states[n])
        decreases left
      {
        var n :| n in left;
        if out[n] == Ok && v.Unconfirmed(n) {
          out := out[n := Unknown];
        }
        left := left - {n};
      }
    } else {
      var left := v.reports.Keys;
      while left != {}
        invariant out.Keys == states.Keys && left <= v.reports.Keys
        invariant forall n :: n in states ==> out[n] == if n in left then states[n] else v.Confirmed(n, states[n])
        decreases left
      {
        var n :| n in left;
        if n in out && out[n] == Ok && v.Unconfirmed(n) {
          out := out[n := Unknown];
        }
        left := left - {n};
      }
    }
  }

  /** The whole fleet. */
  method NodeStates(v: Screen) returns (out: map<NodeId, NodeState>)
    ensures forall n: NodeId :: v.Shows(n, Get(out, n))
  {
    out := UnconfirmedOkIsUnknown(v, v.live);
    forall n: NodeId
      ensures ShowsSoFar(v, n, {}, Get(out, n))
    {
      NothingSeen(v, n);
    }
    var left := v.active.Keys;
    ghost var seen: set<Check> := {};
    while left != {}
      invariant seen + left == v.active.Keys && seen !! left
      invariant forall n: NodeId :: ShowsSoFar(v, n, seen, Get(out, n))
      decreases left
    {
      var c :| c in left;
      var alert := v.active[c];
      ghost var before := out;
      if alert.check.Node().Some? {
        var node := alert.check.Node().value;
        if node !in out || SeverityRank(alert.state) > SeverityRank(out[node]) {
          out := out[node := alert.state];
        }
      }
      forall n: NodeId
        ensures ShowsSoFar(v, n, seen + {c}, Get(out, n))
      {
        assert ShowsSoFar(v, n, seen, Get(before, n));
        OneMoreSeen(v, n, seen, c, Get(before, n));
      }
      left, seen := left - {c}, seen + {c};
    }
    assert seen == v.active.Keys;
    forall n: NodeId
      ensures v.Shows(n, Get(out, n))
    {
      assert ShowsSoFar(v, n, seen, Get(out, n));
      AllSeen(v, n, Get(out, n));
    }
  }

  /** One more alert on a page: it worsens what its own node shows, and no other. */
  lemma PageOneMoreSeen(v: Screen, wanted: set<NodeId>, seen: set<Check>, c: Check, before: map<NodeId, NodeState>,
                        out: map<NodeId, NodeState>)
    requires c in v.active && c !in seen
    requires forall n :: n in wanted ==> ShowsSoFar(v, n, seen, Get(before, n))
    requires forall n :: n in wanted ==>
      Get(out, n) == if v.About(c, n) then Worst(Get(before, n), v.active[c].state) else Get(before, n)
    ensures forall n :: n in wanted ==> ShowsSoFar(v, n, seen + {c}, Get(out, n))
  {
    forall n | n in wanted
      ensures ShowsSoFar(v, n, seen + {c}, Get(out, n))
    {
      assert ShowsSoFar(v, n, seen, Get(before, n));
      OneMoreSeen(v, n, seen, c, Get(before, n));
    }
  }

  /** A page of nodes, without copying the fleet. */
  method NodeStatesFor(v: Screen, nodes: seq<NodeId>) returns (out: map<NodeId, NodeState>)
    ensures forall n: NodeId :: n in nodes ==> v.Shows(n, Get(out, n))
    ensures forall n: NodeId :: n in out ==> n in nodes
  {
    var wanted := set n | n in nodes;
    var page := map n | n in wanted && n in v.live :: v.live[n];
    out := UnconfirmedOkIsUnknown(v, page);
    forall n | n in wanted
      ensures ShowsSoFar(v, n, {}, Get(out, n))
    {
      NothingSeen(v, n);
    }
    var left := v.active.Keys;
    ghost var seen: set<Check> := {};
    while left != {}
      invariant seen + left == v.active.Keys && seen !! left
      invariant out.Keys <= wanted
      invariant forall n :: n in wanted ==> ShowsSoFar(v, n, seen, Get(out, n))
      decreases left
    {
      var c :| c in left;
      var alert := v.active[c];
      ghost var before := out;
      if alert.check.Node().Some? && alert.check.Node().value in wanted {
        var node := alert.check.Node().value;
        if node !in out || SeverityRank(alert.state) > SeverityRank(out[node]) {
          out := out[node := alert.state];
        }
      }
      PageOneMoreSeen(v, wanted, seen, c, before, out);
      left, seen := left - {c}, seen + {c};
    }
    assert seen == v.active.Keys;
    forall n | n in wanted
      ensures v.Shows(n, Get(out, n))
    {
      assert ShowsSoFar(v, n, seen, Get(out, n));
      AllSeen(v, n, Get(out, n));
    }
  }

  /** One node. */
  method NodeStateAt(v: Screen, node: NodeId) returns (shown: Option<NodeState>)
    ensures v.Shows(node, shown)
  {
    shown := Get(v.live, node);
    if shown == Some(Ok) && v.Unconfirmed(node) {
      shown := Some(Unknown);
    }
    NothingSeen(v, node);
    var left := v.active.Keys;
    ghost var seen: set<Check> := {};
    while left != {}
      invariant seen + left == v.active.Keys && seen !! left
      invariant ShowsSoFar(v, node, seen, shown)
      decreases left
    {
      var c :| c in left;
      OneMoreSeen(v, node, seen, c, shown);
      if v.About(c, node) {
        shown := Worst(shown, v.active[c].state);
      }
      left, seen := left - {c}, seen + {c};
    }
    assert seen == v.active.Keys;
    AllSeen(v, node, shown);
  }

  // ------------------------------------------------------------------------------------------
  // The fleet's tallies.

  function NodesIn(states: map<NodeId, NodeState>, among: set<NodeId>, s: NodeState): set<NodeId> {
    set n | n in among && n in states && states[n] == s
  }

  function CountOf(counts: map<NodeState, nat>, s: NodeState): nat {
    if s in counts then counts[s] else 0
  }

  function Total(counts: map<NodeState, nat>): nat {
    CountOf(counts, Ok) + CountOf(counts, Warning) + CountOf(counts, Critical) +
    CountOf(counts, Unknown) + CountOf(counts, Unreachable) + CountOf(counts, Maintenance)
  }

  lemma OneMoreNode(states: map<NodeId, NodeState>, among: set<NodeId>, n: NodeId, s: NodeState)
    requires n in states && n !in among
    ensures |NodesIn(states, among + {n}, s)| == |NodesIn(states, among, s)| + if states[n] == s then 1 else 0
  {
    assert NodesIn(states, among + {n}, s) == NodesIn(states, among, s) + if states[n] == s then {n} else {};
  }

  function Bumped(counts: map<NodeState, nat>, s: NodeState): map<NodeState, nat> {
    counts[s := CountOf(counts, s) + 1]
  }

  lemma TotalOneMore(counts: map<NodeState, nat>, s: NodeState)
    ensures Total(Bumped(counts, s)) == Total(counts) + 1
  {
  }

  /** The tally of some of the nodes. */
  ghost predicate Tallies(counts: map<NodeState, nat>, states: map<NodeId, NodeState>, among: set<NodeId>) {
    (forall s :: TalliedAt(counts, states, among, s)) && Total(counts) == |among|
  }

  predicate TalliedAt(counts: map<NodeState, nat>, states: map<NodeId, NodeState>, among: set<NodeId>, s: NodeState) {
    CountOf(counts, s) == |NodesIn(states, among, s)|
  }

  lemma TalliesOneMore(counts: map<NodeState, nat>, states: map<NodeId, NodeState>, among: set<NodeId>, n: NodeId)
    requires Tallies(counts, states, among) && n in states && n !in among
    ensures Tallies(Bumped(counts, states[n]), states, among + {n})
  {
    forall s
      ensures TalliedAt(Bumped(counts, states[n]), states, among + {n}, s)
    {
      assert TalliedAt(counts, states, among, s);
      OneMoreNode(states, among, n, s);
    }
    TotalOneMore(counts, states[n]);
  }

  /** How many nodes show each state: every node is counted once, under the state it shows. */
  method NodeStateCounts(states: map<NodeId, NodeState>) returns (counts: map<NodeState, nat>)
    ensures forall s :: CountOf(counts, s) == |NodesIn(states, states.Keys, s)|
    ensures Total(counts) == |states|
  {
    counts := map[];
    var left := states.Keys;
    NothingTallied(states);
    while left != {}
      invariant left <= states.Keys && Tallies(counts, states, states.Keys - left)
      decreases left
    {
      var n :| n in left;
      TalliesOneMore(counts, states, states.Keys - left, n);
      assert states.Keys - left + {n} == states.Keys - (left - {n});
      counts := Bumped(counts, states[n]);
      left := left - {n};
    }
    TalliedAll(counts, states);
  }

  lemma NothingTallied(states: map<NodeId, NodeState>)
    ensures Tallies(map[], states, states.Keys - states.Keys)
  {
    assert states.Keys - states.Keys == {};
    assert forall s :: NodesIn(states, {}, s) == {};
  }

  lemma TalliedAll(counts: map<NodeState, nat>, states: map<NodeId, NodeState>)
    requires Tallies(counts, states, states.Keys - {})
    ensures forall s :: CountOf(counts, s) == |NodesIn(states, states.Keys, s)|
    ensures Total(counts) == |states|
  {
    assert states.Keys - {} == states.Keys && |states.Keys| == |states|;
    forall s
      ensures CountOf(counts, s) == |NodesIn(states, states.Keys, s)|
    {
      assert TalliedAt(counts, states, states.Keys - {}, s);
    }
  }

  /**
   * The single-node, the paged and the fleet-wide reader agree about every node, whatever order each
   * visited the alerts in and whichever side of the ledger it walked.
   */
  lemma ReadersAgree(v: Screen, fleet: map<NodeId, NodeState>, nodes: seq<NodeId>, page: map<NodeId, NodeState>,
                     node: NodeId, one: Option<NodeState>)
    requires forall n: NodeId :: v.Shows(n, Get(fleet, n))
    requires forall n: NodeId :: n in nodes ==> v.Shows(n, Get(page, n))
    requires v.Shows(node, one)
    ensures one == Get(fleet, node)
    ensures node in nodes ==> one == Get(page, node)
  {
    OneAnswer(v, node, Get(fleet, node), one);
    if node in nodes {
      OneAnswer(v, node, Get(page, node), one);
    }
  }
}
