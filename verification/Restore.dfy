/** Starting an engine from the alert rows a stopped one left open. */
module Restore {
  import opened Base
  import opened CheckStates
  import opened Lanes
  import opened Engine
  import opened EngineProofs

  /** The first row about a check: a later duplicate never overwrites it. */
  function FirstAbout(alerts: seq<Alert>, c: Check): Option<Alert> {
    if alerts == [] then None
    else if alerts[0].check == c then Some(alerts[0])
    else FirstAbout(alerts[1..], c)
  }

  function SeedOf(a: Alert): CheckState {
    RestoredCheckState(a.state, DEFAULT_LIVENESS_DWELL, FlapWindow(None))
  }

  /** A row read back from history: never held, unrolled, and in a state its check can alert on. */
  predicate RowOk(a: Alert) {
    && a.heldUntil.None? && a.rootCause.None?
    && (a.check.Liveness? ==> a.state == Unreachable)
    && (a.check.Threshold? ==> a.state.Severity() == Some(a.severity))
  }

  predicate RowsOk(alerts: seq<Alert>) {
    forall i :: 0 <= i < |alerts| ==> RowOk(alerts[i])
  }

  lemma {:induction false} FirstAboutIsARow(alerts: seq<Alert>, c: Check)
    ensures FirstAbout(alerts, c).Some? <==> exists i :: 0 <= i < |alerts| && alerts[i].check == c
    ensures FirstAbout(alerts, c).Some? ==>
            FirstAbout(alerts, c).value in alerts && FirstAbout(alerts, c).value.check == c
  {
    if alerts != [] {
      FirstAboutIsARow(alerts[1..], c);
      if alerts[0].check == c {
        assert exists i :: 0 <= i < |alerts| && alerts[i].check == c;
      } else if exists i :: 0 <= i < |alerts| && alerts[i].check == c {
        var i :| 0 <= i < |alerts| && alerts[i].check == c;
        assert alerts[1..][i - 1].check == c;
      }
    }
  }

  lemma {:induction false} FirstAboutOneMore(alerts: seq<Alert>, i: nat, c: Check)
    requires i < |alerts|
    ensures FirstAbout(alerts[..i + 1], c) ==
            if FirstAbout(alerts[..i], c).Some? then FirstAbout(alerts[..i], c)
            else if alerts[i].check == c then Some(alerts[i]) else None
  {
    if i > 0 {
      FirstAboutOneMore(alerts[1..], i - 1, c);
      assert alerts[..i + 1][1..] == alerts[1..][..i] && alerts[..i][1..] == alerts[1..][..i - 1];
    }
  }

  /** A value already there wins over the row. */
  function Or<T>(present: Option<T>, seed: Option<T>): Option<T> {
    if present.Some? then present else seed
  }

  function StateOf(row: Option<Alert>): Option<NodeState> {
    if row.Some? then Some(row.value.state) else None
  }

  /** Attribution is not stored, so it is derived again from who is down. */
  ghost function Attributed(env: Env, a: Alert, down: set<NodeId>): Alert {
    if a.check.Liveness? || RcNow(env, a.check, down).Some? then a.(rootCause := RcNow(env, a.check, down)) else a
  }

  ghost function SeededLane(env: Env, l: Lane, row: Option<Alert>, down: set<NodeId>): Lane {
    if row.None? then l
    else l.(tracker := Or(l.tracker, Some(SeedOf(row.value))),
            alert := Or(l.alert, Some(Attributed(env, row.value, down))))
  }

  predicate IsRowCheck(c: Check) {
    c.Threshold? && c.dim.Row?
  }

  predicate IsNodeWide(c: Check) {
    c.Threshold? && c.dim.Whole?
  }

  function RowChecks(alerts: seq<Alert>): set<Check> {
    set i | 0 <= i < |alerts| && IsRowCheck(alerts[i].check) :: alerts[i].check
  }

  function NodeWides(alerts: seq<Alert>): set<Check> {
    set i | 0 <= i < |alerts| && IsNodeWide(alerts[i].check) :: alerts[i].check
  }

  /** Seeding the row index and the node-wide leftovers; shared by both restores. */
  ghost predicate SeedsIndexes(s: State, s': State, alerts: seq<Alert>) {
    s'.rowStates == s.rowStates + RowChecks(alerts) && s'.legacy == s.legacy + NodeWides(alerts)
  }

  /** Seeding the fleet's own alerts. What the engine has already observed always wins. */
  ghost predicate RestoreStep(env: Env, s: State, s': State, alerts: seq<Alert>) {
    && (forall n: NodeId :: Lookup(s'.live, n) ==
          Or(Lookup(s.live, n), StateOf(FirstAbout(alerts, Liveness(n)))))
    && (forall n: NodeId :: n in s'.down <==> n in s.down || (n !in s.live && WasDown(s', n)))
    && SeedsIndexes(s, s', alerts)
    && (forall c: Check :: LaneOf(s', c) == SeededLane(env, LaneOf(s, c), FirstAbout(alerts, c), s'.down))
  }

  /** Rows about deleted nodes: they open alerts and leave liveness alone. */
  ghost predicate RestoreDeletedStep(env: Env, s: State, s': State, alerts: seq<Alert>) {
    && s'.live == s.live && s'.down == s.down
    && SeedsIndexes(s, s', alerts)
    && (forall c: Check :: LaneOf(s', c) == SeededLane(env, LaneOf(s, c), FirstAbout(alerts, c), {}))
  }

  lemma SeededLaneIsOk(env: Env, c: Check, row: Option<Alert>, down: set<NodeId>, isDown: bool)
    requires row.Some? ==> row.value.check == c && RowOk(row.value)
    requires isDown == (c.Node().Some? && c.Node().value in down)
    ensures LaneOk(c, SeededLane(env, EMPTY_LANE, row, down), isDown)
  {
  }

  lemma RowsAreOk(alerts: seq<Alert>, c: Check)
    requires RowsOk(alerts)
    ensures FirstAbout(alerts, c).Some? ==> FirstAbout(alerts, c).value.check == c && RowOk(FirstAbout(alerts, c).value)
  {
    FirstAboutIsARow(alerts, c);
  }

  /**
   * Restoring on an empty engine establishes the invariant, duplicate rows included: the down set is
   * exact, every open alert agrees with its tracker, and every roll-up is the grouping's answer.
   */
  lemma RestoreEstablishesInv(env: Env, s': State, alerts: seq<Alert>)
    requires RowsOk(alerts) && RestoreStep(env, EMPTY, s', alerts)
    ensures Inv(s', {})
  {
    forall c: Check
      ensures LaneOk(c, LaneOf(s', c), NodeDown(s', c))
    {
      RowsAreOk(alerts, c);
      assert LaneOf(EMPTY, c) == EMPTY_LANE;
      SeededLaneIsOk(env, c, FirstAbout(alerts, c), s'.down, NodeDown(s', c));
    }
    forall n: NodeId
      ensures n in s'.live ==> Liveness(n) in s'.states && s'.states[Liveness(n)].tracker.Observed() == Some(s'.live[n])
      ensures Liveness(n) in s'.states ==> n in s'.live
    {
      assert Lookup(s'.live, n) == Or(Lookup(EMPTY.live, n), StateOf(FirstAbout(alerts, Liveness(n))));
      assert LaneOf(EMPTY, Liveness(n)) == EMPTY_LANE;
      assert LaneOf(s', Liveness(n)).tracker == Lookup(s'.states, Liveness(n));
    }
  }

  /** The nodes some rows are about. */
  function NodesOf(alerts: seq<Alert>): set<NodeId> {
    set i | 0 <= i < |alerts| && alerts[i].check.Node().Some? :: alerts[i].check.Node().value
  }

  /** Nothing is known about a node: none of its checks has a lane, and it is not in `live`. */
  ghost predicate Unheard(s: State, n: NodeId) {
    n !in s.live && forall c: Check :: c.Node() == Some(n) ==> LaneOf(s, c) == EMPTY_LANE
  }

  lemma RestoreDeletedLane(env: Env, s: State, s': State, alerts: seq<Alert>, c: Check)
    requires DownIsExact(s) && LaneOk(c, LaneOf(s, c), NodeDown(s, c)) && RowsOk(alerts)
    requires s'.down == s.down && LaneOf(s', c) == SeededLane(env, LaneOf(s, c), FirstAbout(alerts, c), {})
    requires forall i :: 0 <= i < |alerts| ==> alerts[i].check.Node().Some?
    requires forall n :: n in NodesOf(alerts) ==> Unheard(s, n)
    ensures LaneOk(c, LaneOf(s', c), NodeDown(s', c))
    ensures c.Node().Some? && c.Node().value !in NodesOf(alerts) ==> LaneOf(s', c) == LaneOf(s, c)
  {
    FirstAboutIsARow(alerts, c);
    if FirstAbout(alerts, c).Some? {
      var n := c.Node().value;
      assert n in NodesOf(alerts);
      assert Unheard(s, n) && (n in s.down <==> WasDown(s, n));
      RowsAreOk(alerts, c);
      SeededLaneIsOk(env, c, FirstAbout(alerts, c), {}, false);
    }
  }

  /** The deleted nodes' alerts come back without touching anything the fleet relies on. */
  lemma RestoreDeletedKeepsInv(env: Env, s: State, s': State, alerts: seq<Alert>)
    requires Inv(s, {}) && RowsOk(alerts) && RestoreDeletedStep(env, s, s', alerts)
    requires forall i :: 0 <= i < |alerts| ==> alerts[i].check.Node().Some?
    requires forall n :: n in NodesOf(alerts) ==> Unheard(s, n)
    ensures Inv(s', NodesOf(alerts))
  {
    forall c: Check
      ensures LaneOk(c, LaneOf(s', c), NodeDown(s', c))
      ensures c.Node().Some? && c.Node().value !in NodesOf(alerts) ==> LaneOf(s', c) == LaneOf(s, c)
    {
      assert LaneOk(c, LaneOf(s, c), NodeDown(s, c));
      RestoreDeletedLane(env, s, s', alerts, c);
    }
    RestoreDeletedLiveness(s, s', NodesOf(alerts));
  }

  lemma RestoreDeletedLiveness(s: State, s': State, dead: set<NodeId>)
    requires LiveIsObserved(s, {}) && DownIsExact(s) && s'.live == s.live && s'.down == s.down
    requires forall n :: n in dead ==> Unheard(s, n)
    requires forall c: Check :: c.Node().Some? && c.Node().value !in dead ==> LaneOf(s', c) == LaneOf(s, c)
    ensures LiveIsObserved(s', dead) && DownIsExact(s')
  {
    forall n: NodeId
      ensures n in dead ==> n !in s'.live
      ensures n !in dead ==> Lookup(s'.states, Liveness(n)) == Lookup(s.states, Liveness(n))
      ensures WasDown(s', n) <==> WasDown(s, n)
    {
      if n in dead {
        assert Unheard(s, n);
      } else {
        assert LaneOf(s', Liveness(n)) == LaneOf(s, Liveness(n));
      }
    }
  }

  // ------------------------------------------------------------------------------------------
  // Where a run starts.

  /** A restart counts the restored alerts that stand on their own as paged: restoring is not firing. */
  function PagedAtStart(s: State): set<Check> {
    set c | c in s.active && s.active[c].rootCause.None? && s.active[c].heldUntil.None?
  }

  ghost predicate Starts(env: Env, s: State, retired: set<NodeId>, fleet: seq<Alert>, dead: seq<Alert>, mid: State) {
    && RowsOk(fleet) && RowsOk(dead)
    && RestoreStep(env, EMPTY, mid, fleet)
    && RestoreDeletedStep(env, mid, s, dead)
    && (forall i :: 0 <= i < |dead| ==> dead[i].check.Node().Some?)
    && NodesOf(fleet) !! NodesOf(dead)
    && retired == NodesOf(dead)
  }

  /** An engine as it starts: whatever the previous process left open, duplicate rows included. */
  ghost predicate IsStart(s: State, retired: set<NodeId>) {
    exists env, fleet, dead, mid :: Starts(env, s, retired, fleet, dead, mid)
  }

  lemma FleetNeverHeardOfTheDead(env: Env, mid: State, fleet: seq<Alert>, n: NodeId)
    requires RestoreStep(env, EMPTY, mid, fleet) && n !in NodesOf(fleet)
    ensures Unheard(mid, n)
  {
    forall c: Check | c.Node() == Some(n)
      ensures LaneOf(mid, c) == EMPTY_LANE && FirstAbout(fleet, c).None?
    {
      FirstAboutIsARow(fleet, c);
      assert LaneOf(EMPTY, c) == EMPTY_LANE;
    }
    assert Lookup(mid.live, n) == Or(Lookup(EMPTY.live, n), StateOf(FirstAbout(fleet, Liveness(n))));
  }

  lemma StartIsSafe(s: State, retired: set<NodeId>)
    requires IsStart(s, retired)
    ensures Inv(s, retired) && LedgerHolds(s, PagedAtStart(s))
  {
    var env, fleet, dead, mid :| Starts(env, s, retired, fleet, dead, mid);
    RestoreEstablishesInv(env, mid, fleet);
    forall n | n in NodesOf(dead)
      ensures Unheard(mid, n)
    {
      FleetNeverHeardOfTheDead(env, mid, fleet, n);
    }
    RestoreDeletedKeepsInv(env, mid, s, dead);
  }
}
