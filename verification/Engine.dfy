/** The alert engine as a state machine: its coupled maps, its steps, and what a step emits. */
module Engine {
  import opened Base
  import opened Hysteresis
  import opened CheckStates
  import opened Grouping
  import opened Lanes

  /** Stands in for a neighbour's poll interval when the configuration has none. */
  const HELD_FALLBACK_INTERVAL_MS: nat := 300_000
  /** Room a hold leaves for samples that are late. */
  const HELD_SLACK_MS: nat := 30_000

  /** What the configuration in force at a step says. It may differ from step to step. */
  datatype Env = Env(graph: LinkGraph, wait: bool, interval: NodeId -> Option<nat>)

  datatype State = State(
    states: map<Check, CheckState>,
    active: map<Check, Alert>,
    live: map<NodeId, NodeState>,
    down: set<NodeId>,
    rowStates: set<Check>,
    legacy: set<Check>,
    sidePending: map<Check, nat>,
    releasing: map<Check, nat>,
    held: map<Check, int>)

  const EMPTY: State := State(map[], map[], map[], {}, {}, {}, map[], map[], map[])

  function Lookup<K, V>(m: map<K, V>, k: K): Option<V> {
    if k in m then Some(m[k]) else None
  }

  /** What the maps hold for one check. */
  function LaneOf(s: State, c: Check): Lane {
    Lane(Lookup(s.states, c), Lookup(s.active, c), Lookup(s.sidePending, c), Lookup(s.releasing, c), Lookup(s.held, c))
  }

  predicate NodeDown(s: State, c: Check) {
    c.Node().Some? && c.Node().value in s.down
  }

  // ------------------------------------------------------------------------------------------
  // Liveness and the down set.

  function NextLive(s: State, c: Check, cs: CheckState): map<NodeId, NodeState> {
    if c.Liveness? && cs.tracker.Observed().Some? then s.live[c.node := cs.tracker.committed] else s.live
  }

  predicate WasDown(s: State, n: NodeId) {
    n in s.live && s.live[n] == Unreachable
  }

  /** The node's down membership flipped with this observation. */
  predicate Flips(s: State, c: Check, cs: CheckState) {
    && c.Liveness? && cs.tracker.Observed().Some?
    && WasDown(s, c.node) != (cs.tracker.committed == Unreachable)
  }

  function NextDown(s: State, c: Check, cs: CheckState): set<NodeId> {
    if !Flips(s, c, cs) then s.down
    else if cs.tracker.committed == Unreachable then s.down + {c.node}
    else s.down - {c.node}
  }

  /** Entering maintenance re-attributes nothing; leaving it always does. */
  predicate Reattributes(s: State, c: Check, cs: CheckState) {
    && c.Liveness? && cs.tracker.Observed().Some?
    && cs.tracker.committed != Maintenance
    && (Flips(s, c, cs) || (c.node in s.live && s.live[c.node] == Maintenance))
  }

  /** Whether an observation is followed by a re-sweep: with a rule, only a transition leads there. */
  predicate SweepFollows(s: State, c: Check, o: Obs) {
    && Reattributes(s, c, Weighed(LaneOf(s, c), o))
    && (!o.alerting || Committed(LaneOf(s, c), o).Some?)
  }

  /** The root cause an alert on a check carries, given who is down. */
  ghost function RcNow(env: Env, c: Check, down: set<NodeId>): Option<NodeId> {
    match c
    case Liveness(n) => RootCause(env.graph, n, down)
    case Fleet(_) => None
    case _ => if c.node in down then Some(c.node) else None
  }

  // ------------------------------------------------------------------------------------------
  // Holding a notification for a failing neighbour.

  /** A neighbour failing liveness without having committed. */
  predicate IsFailing(states: map<Check, CheckState>, down: set<NodeId>, m: NodeId) {
    && m !in down && Liveness(m) in states
    && states[Liveness(m)].tracker.candidate.Some?
    && states[Liveness(m)].tracker.candidate.value.state == Unreachable
  }

  function FailingNeighbours(env: Env, states: map<Check, CheckState>, down: set<NodeId>, n: NodeId): set<NodeId> {
    set m | m in env.graph.JudgingNeighbours(n) && IsFailing(states, down, m)
  }

  function IntervalMs(env: Env, n: NodeId): nat {
    if env.interval(n).None? then HELD_FALLBACK_INTERVAL_MS else env.interval(n).value * 1000
  }

  /** The samples a run still needs, at least one. */
  function SamplesLeft(t: Tracker): nat
    requires t.candidate.Some?
  {
    Max(t.dwell - t.candidate.value.count, 1)
  }

  /** The milliseconds until the run of a failing neighbour can be complete. */
  function WaitFor(env: Env, states: map<Check, CheckState>, down: set<NodeId>, m: NodeId): nat
    requires IsFailing(states, down, m)
  {
    SamplesLeft(states[Liveness(m)].tracker) * IntervalMs(env, m)
  }

  ghost predicate IsLongestWait(env: Env, states: map<Check, CheckState>, down: set<NodeId>, failing: set<NodeId>,
                                w: nat)
    requires forall m :: m in failing ==> IsFailing(states, down, m)
  {
    && (exists m :: m in failing && w == WaitFor(env, states, down, m))
    && (forall m :: m in failing ==> WaitFor(env, states, down, m) <= w)
  }

  lemma {:induction false} LongestWaitExists(env: Env, states: map<Check, CheckState>, down: set<NodeId>,
                                             failing: set<NodeId>)
    requires forall m :: m in failing ==> IsFailing(states, down, m)
    requires failing != {}
    ensures exists w :: IsLongestWait(env, states, down, failing, w)
  {
    var m :| m in failing;
    var rest := failing - {m};
    assert forall x :: x in failing ==> x == m || x in rest;
    var w := WaitFor(env, states, down, m);
    if rest == {} {
      assert IsLongestWait(env, states, down, failing, w);
    } else {
      LongestWaitExists(env, states, down, rest);
      var v :| IsLongestWait(env, states, down, rest, v);
      var longest :| longest in rest && v == WaitFor(env, states, down, longest);
      assert longest in failing;
      assert IsLongestWait(env, states, down, failing, if v < w then w else v);
    }
  }

  /** The instant a hold beginning at `at` ends; `None` if no hold begins. */
  ghost function WaitUntil(env: Env, states: map<Check, CheckState>, down: set<NodeId>, n: NodeId, at: int): Option<int>
  {
    var failing := FailingNeighbours(env, states, down, n);
    if !env.wait || env.graph.LevelOf(n) == Off || failing == {} then None
    else
      LongestWaitExists(env, states, down, failing);
      var w :| IsLongestWait(env, states, down, failing, w);
      Some(at + w + HELD_SLACK_MS)
  }

  lemma LongestWaitIsUnique(env: Env, states: map<Check, CheckState>, down: set<NodeId>, n: NodeId, at: int, w: nat)
    requires FailingNeighbours(env, states, down, n) != {} && env.wait && env.graph.LevelOf(n) != Off
    requires IsLongestWait(env, states, down, FailingNeighbours(env, states, down, n), w)
    ensures WaitUntil(env, states, down, n, at) == Some(at + w + HELD_SLACK_MS)
  {
  }

  /** The wait reads nothing but the liveness trackers. */
  lemma WaitReadsLiveness(env: Env, a: map<Check, CheckState>, b: map<Check, CheckState>, down: set<NodeId>,
                          n: NodeId, at: int)
    requires forall m: NodeId :: Lookup(a, Liveness(m)) == Lookup(b, Liveness(m))
    ensures WaitUntil(env, a, down, n, at) == WaitUntil(env, b, down, n, at)
  {
    var failing := FailingNeighbours(env, a, down, n);
    forall m: NodeId
      ensures IsFailing(a, down, m) <==> IsFailing(b, down, m)
    {
      assert Lookup(a, Liveness(m)) == Lookup(b, Liveness(m));
    }
    assert failing == FailingNeighbours(env, b, down, n);
    if env.wait && env.graph.LevelOf(n) != Off && failing != {} {
      LongestWaitExists(env, a, down, failing);
      var w :| IsLongestWait(env, a, down, failing, w);
      assert forall m :: m in failing ==> WaitFor(env, a, down, m) == WaitFor(env, b, down, m);
      assert IsLongestWait(env, b, down, failing, w);
      LongestWaitIsUnique(env, a, down, n, at, w);
      LongestWaitIsUnique(env, b, down, n, at, w);
    }
  }

  /** The hold a liveness check would get if it committed `Unreachable` with this observation. */
  ghost function WaitOn(env: Env, s: State, c: Check, o: Obs): Option<int> {
    if !c.Liveness? then None
    else
      var cs := Weighed(LaneOf(s, c), o);
      WaitUntil(env, s.states[c := cs], NextDown(s, c, cs), c.node, o.at)
  }

  // ------------------------------------------------------------------------------------------
  // Steps. An emission says what a step emitted, at most one action per check.

  type Emission = map<Check, Action>

  predicate Emits(em: Emission, c: Check, act: Option<Action>) {
    Lookup(em, c) == act
  }

  /** A listing of an emission in some order, as a method returns it. */
  ghost predicate Lists(acts: seq<Action>, em: Emission) {
    && (forall i :: 0 <= i < |acts| ==> acts[i].alert.check in em && em[acts[i].alert.check] == acts[i])
    && (forall i, j :: 0 <= i < j < |acts| ==> acts[i].alert.check != acts[j].alert.check)
    && (forall c :: c in em ==> em[c].alert.check == c && em[c] in acts)
  }

  /** One observation of one check. */
  ghost predicate ObserveStep(env: Env, s: State, s': State, c: Check, o: Obs, em: Emission)
    requires c.Node().Some?
  {
    var l := LaneOf(s, c);
    var cs := Weighed(l, o);
    var down := NextDown(s, c, cs);
    var rc := RcNow(env, c, down);
    var wait := WaitOn(env, s, c, o);
    && s'.live == NextLive(s, c, cs)
    && s'.down == down
    && s'.rowStates == s.rowStates
    && s'.legacy == s.legacy
    && LaneOf(s', c) == Observed(c, l, o, rc, wait)
    && Emits(em, c, ObservedAction(c, l, o, rc, wait))
    && (forall x: Check :: x != c ==>
          if SweepFollows(s, c, o) then SweptTo(env, s, s', down, x, c.Node(), em)
          else LaneOf(s', x) == LaneOf(s, x) && Emits(em, x, None))
  }

  ghost predicate SweptTo(env: Env, s: State, s': State, down: set<NodeId>, x: Check, changed: Option<NodeId>,
                          em: Emission)
  {
    && LaneOf(s', x) == Swept(x, LaneOf(s, x), RcNow(env, x, down), changed)
    && Emits(em, x, SweptAction(x, LaneOf(s, x), RcNow(env, x, down), changed))
  }

  /** Nothing but lanes changed. */
  predicate SameBeside(s: State, s': State) {
    s'.live == s.live && s'.down == s.down && s'.rowStates == s.rowStates && s'.legacy == s.legacy
  }

  /** Judging every roll-up again against the grouping now installed. */
  ghost predicate RegroupStep(env: Env, s: State, s': State, em: Emission) {
    && SameBeside(s, s')
    && forall x: Check :: SweptTo(env, s, s', s.down, x, None, em)
  }

  /** Letting the notification held for one check go, whatever has happened to it meanwhile. */
  ghost predicate LetGoStep(s: State, s': State, c: Check, em: Emission) {
    && SameBeside(s, s')
    && (forall x: Check :: x != c ==> LaneOf(s', x) == LaneOf(s, x) && Emits(em, x, None))
    && LaneOf(s', c) == LetGo(LaneOf(s, c)) && Emits(em, c, LetGoAction(LaneOf(s, c)))
  }

  /** A held notification goes on waiting: its node's results are paused, or a neighbour is still failing in time. */
  predicate StillWaits(env: Env, s: State, c: Check, now: int, paused: NodeId -> bool) {
    && c in s.held && c in s.active
    && (c.Node().None? ||
        var n := c.Node().value;
        paused(n) || (env.wait && env.graph.LevelOf(n) != Off && now < s.held[c]
                      && FailingNeighbours(env, s.states, s.down, n) != {}))
  }

  ghost predicate LetGoTo(s: State, s': State, x: Check, em: Emission) {
    LaneOf(s', x) == LetGo(LaneOf(s, x)) && Emits(em, x, LetGoAction(LaneOf(s, x)))
  }

  /** The checks in `gone` have been let go, and nothing else has happened. */
  ghost predicate ReleasedSoFar(s: State, s': State, gone: set<Check>, em: Emission) {
    && SameBeside(s, s')
    && (forall x: Check :: if x in gone then LetGoTo(s, s', x, em) else LaneOf(s', x) == LaneOf(s, x) && x !in em)
  }

  /** The held notifications that need not wait any longer. */
  function Due(env: Env, s: State, now: int, paused: NodeId -> bool): set<Check> {
    set c | c in s.held && !StillWaits(env, s, c, now, paused)
  }

  /** One pass over the held notifications. */
  ghost predicate ReleaseStep(env: Env, s: State, s': State, now: int, paused: NodeId -> bool, em: Emission) {
    ReleasedSoFar(s, s', Due(env, s, now, paused), em)
  }

  ghost predicate OrphanedTo(s: State, s': State, orphans: set<Check>, x: Check, em: Emission) {
    if x in orphans then LaneOf(s', x) == Orphaned(LaneOf(s, x)) && Emits(em, x, ClosedAction(LaneOf(s, x)))
    else LaneOf(s', x) == LaneOf(s, x) && Emits(em, x, None)
  }

  ghost predicate OrphanLanes(s: State, s': State, orphans: set<Check>, em: Emission) {
    forall x: Check {:trigger LaneOf(s', x)} {:trigger LaneOf(s, x)} {:trigger OrphanedTo(s, s', orphans, x, em)} ::
      OrphanedTo(s, s', orphans, x, em)
  }

  /** Closing orphaned checks and dropping the dwell windows of those still open. */
  ghost predicate OrphanStep(s: State, s': State, orphans: set<Check>, em: Emission) {
    SameBeside(s, s') && OrphanLanes(s, s', orphans, em)
  }

  /** Whether a check is about a node outside `kept`. */
  predicate AboutDeleted(c: Check, kept: set<NodeId>) {
    c.Node().Some? && c.Node().value !in kept
  }

  /** Nodes outside the inventory are forgotten. */
  ghost predicate ForgetStep(s: State, s': State, kept: set<NodeId>, em: Emission) {
    && s'.live == (map n | n in s.live && n in kept :: s.live[n])
    && s'.down == s.down - (s.live.Keys - kept)
    && s'.rowStates == (set c | c in s.rowStates && !(c.Node().Some? && c.Node().value in s.live.Keys - kept))
    && s'.legacy == s.legacy
    && forall x: Check ::
        if AboutDeleted(x, kept) then
          LaneOf(s', x) == Orphaned(LaneOf(s, x)) && Emits(em, x, ClosedAction(LaneOf(s, x)))
        else LaneOf(s', x) == LaneOf(s, x) && Emits(em, x, None)
  }

  /** Raising an edge-triggered alert. */
  ghost predicate RaiseStep(s: State, s': State, a: Alert, em: Emission) {
    && SameBeside(s, s')
    && (forall x: Check :: x != a.check ==> LaneOf(s', x) == LaneOf(s, x) && Emits(em, x, None))
    && LaneOf(s', a.check) == Raised(LaneOf(s, a.check), a)
    && Emits(em, a.check, RaisedAction(LaneOf(s, a.check), a))
  }

  /** Closing an edge-triggered alert. */
  ghost predicate CloseStep(s: State, s': State, c: Check, em: Emission) {
    && SameBeside(s, s')
    && (forall x: Check :: x != c ==> LaneOf(s', x) == LaneOf(s, x) && Emits(em, x, None))
    && LaneOf(s', c) == Closed(LaneOf(s, c)) && Emits(em, c, ClosedAction(LaneOf(s, c)))
  }
}
