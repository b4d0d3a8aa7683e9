/** The sweeps that close an alert whose rule is gone: which one closes what, and that it is one. */
module Closers {
  import opened Base
  import opened Lanes
  import opened Engine

  /**
   * What the configuration says about rules: the nodes it knows, whether a rule resolves for a
   * metric on a node, port and row name, and which metrics are computed rather than collected.
   */
  datatype Rules = Rules(
    inventory: set<NodeId>,
    resolves: (NodeId, Option<nat>, Option<string>, string) -> bool,
    derivedPort: set<string>,
    derivedNode: set<string>)

  function PortOf(c: Check): Option<nat>
    requires c.Threshold?
  {
    if c.dim.Port? then Some(c.dim.ifindex) else None
  }

  /** No rule resolves any more for what this alert is about. */
  predicate RuleGone(r: Rules, a: Alert) {
    a.check.Threshold? && !r.resolves(a.check.node, PortOf(a.check), a.rowName, a.check.metric)
  }

  /** The computed per-port metrics. */
  predicate PortOrphan(r: Rules, a: Alert) {
    && a.check.Threshold? && a.check.dim.Port? && a.check.metric in r.derivedPort
    && !r.resolves(a.check.node, PortOf(a.check), None, a.check.metric)
  }

  /** The computed node-wide metrics, asked under the row name the alert fired with. */
  predicate NodeDerivedOrphan(r: Rules, a: Alert) {
    && a.check.Threshold? && !a.check.dim.Port? && a.check.metric in r.derivedNode
    && !r.resolves(a.check.node, None, a.rowName, a.check.metric)
  }

  /** Everything collected, whatever its dimension; an engine with no nodes sweeps nothing. */
  predicate CollectedOrphan(r: Rules, a: Alert) {
    && r.inventory != {}
    && a.check.Threshold? && a.check.metric !in r.derivedNode && a.check.metric !in r.derivedPort
    && RuleGone(r, a)
  }

  function PortOrphans(r: Rules, active: map<Check, Alert>): set<Check> {
    set c | c in active && PortOrphan(r, active[c])
  }

  function NodeDerivedOrphans(r: Rules, active: map<Check, Alert>): set<Check> {
    set c | c in active && NodeDerivedOrphan(r, active[c])
  }

  function CollectedOrphans(r: Rules, active: map<Check, Alert>): set<Check> {
    set c | c in active && CollectedOrphan(r, active[c])
  }

  /**
   * Whether some sweep owns an alert: no rule resolves for its port, or for the row name it fired with,
   * and its metric is one computed in its own dimension, or a collected one while an inventory is known.
   */
  predicate Claimed(r: Rules, a: Alert) {
    var c := a.check;
    && c.Threshold?
    && match c.dim
       case Port(i) =>
         && !r.resolves(c.node, Some(i), None, c.metric)
         && (c.metric in r.derivedPort || (c.metric !in r.derivedNode && r.inventory != {}))
       case _ =>
         && !r.resolves(c.node, None, a.rowName, c.metric)
         && (c.metric in r.derivedNode || (c.metric !in r.derivedPort && r.inventory != {}))
  }

  /** No alert is claimed by two sweeps, and an alert is claimed by one exactly when it is owned. */
  lemma ExactlyOneCloser(r: Rules, a: Alert)
    requires a.check.Threshold? && (a.check.dim.Port? ==> a.rowName.None?)
    ensures !(PortOrphan(r, a) && NodeDerivedOrphan(r, a))
    ensures !(PortOrphan(r, a) && CollectedOrphan(r, a)) && !(NodeDerivedOrphan(r, a) && CollectedOrphan(r, a))
    ensures PortOrphan(r, a) || NodeDerivedOrphan(r, a) || CollectedOrphan(r, a) <==> Claimed(r, a)
  {
  }

  function ClosedIf(claimed: bool, l: Lane): Lane {
    if claimed then Orphaned(l) else l
  }

  function ClosureIf(claimed: bool, l: Lane): Option<Action> {
    if claimed then ClosedAction(l) else None
  }

  lemma SweepOneCheck(s: State, s': State, orphans: set<Check>, em: Emission, c: Check)
    requires OrphanStep(s, s', orphans, em)
    ensures LaneOf(s', c) == ClosedIf(c in orphans, LaneOf(s, c))
    ensures Lookup(em, c) == ClosureIf(c in orphans, LaneOf(s, c))
  {
  }

  /** Three sweeps of which at most one claims an alert close it once, or leave it alone. */
  lemma AtMostOneCloses(l: Lane, l1: Lane, l2: Lane, l3: Lane, first: bool, second: bool, third: bool)
    requires l.alert.Some? && l.alert.value.heldUntil.None?
    requires !(first && second) && !(first && third) && !(second && third)
    requires l1 == ClosedIf(first, l)
    requires l2 == ClosedIf(l1.alert.Some? && second, l1)
    requires l3 == ClosedIf(l2.alert.Some? && third, l2)
    ensures if first || second || third then
              && l3.alert.None? && l3.tracker.None?
              && multiset{ClosureIf(first, l), ClosureIf(l1.alert.Some? && second, l1),
                          ClosureIf(l2.alert.Some? && third, l2)} ==
                 multiset{Some(Resolve(l.alert.value)), None, None}
            else
              && l3 == l && ClosureIf(l1.alert.Some? && second, l1).None?
              && ClosureIf(l2.alert.Some? && third, l2).None?
  {
  }

  /**
   * The three sweeps in a row. Every owned alert is closed, with exactly one resolve and its dwell
   * window dropped; every other alert keeps its whole lane and nothing is said about it.
   */
  lemma EveryOrphanIsClosedOnce(r: Rules, s: State, s1: State, s2: State, s3: State, port: Emission, node: Emission,
                                rest: Emission, c: Check)
    requires OrphanStep(s, s1, PortOrphans(r, s.active), port)
    requires OrphanStep(s1, s2, NodeDerivedOrphans(r, s1.active), node)
    requires OrphanStep(s2, s3, CollectedOrphans(r, s2.active), rest)
    requires c in s.active && s.active[c].check == c && c.Threshold? && s.active[c].heldUntil.None?
    requires c.dim.Port? ==> s.active[c].rowName.None?
    ensures if Claimed(r, s.active[c]) then
              && c !in s3.active && c !in s3.states
              && multiset{Lookup(port, c), Lookup(node, c), Lookup(rest, c)} ==
                multiset{Some(Resolve(s.active[c])), None, None}
            else
              LaneOf(s3, c) == LaneOf(s, c) && c !in port && c !in node && c !in rest
  {
    var a, l, l1, l2 := s.active[c], LaneOf(s, c), LaneOf(s1, c), LaneOf(s2, c);
    ExactlyOneCloser(r, a);
    SweepOneCheck(s, s1, PortOrphans(r, s.active), port, c);
    assert c in PortOrphans(r, s.active) <==> PortOrphan(r, a);
    SweepOneCheck(s1, s2, NodeDerivedOrphans(r, s1.active), node, c);
    assert l1.alert == Lookup(s1.active, c);
    assert c in NodeDerivedOrphans(r, s1.active) <==> l1.alert.Some? && NodeDerivedOrphan(r, a);
    SweepOneCheck(s2, s3, CollectedOrphans(r, s2.active), rest, c);
    assert l2.alert == Lookup(s2.active, c);
    assert c in CollectedOrphans(r, s2.active) <==> l2.alert.Some? && CollectedOrphan(r, a);
    AtMostOneCloses(l, l1, l2, LaneOf(s3, c), PortOrphan(r, a), NodeDerivedOrphan(r, a), CollectedOrphan(r, a));
    assert LaneOf(s3, c).alert == Lookup(s3.active, c) && LaneOf(s3, c).tracker == Lookup(s3.states, c);
  }
}
