/**
 * What the alert engine does to one check.
 *
 * The engine keeps five coupled maps keyed by check. A lane is what those maps hold for one check,
 * and each operation of the engine is given here by its effect on a lane and the action it emits
 * for that check. The engine's maps move lane by lane (see module Engine).
 */
module Lanes {
  import opened Base
  import opened Hysteresis
  import opened CheckStates

  /** What a metric is about: a whole node, one of its ports, or a row of one of its tables. */
  datatype Dim = Whole | Port(ifindex: nat) | Row(row: nat)

  datatype MarkerKind = DeviceReplaced | ConfigStale

  /**
   * A check's identity. The source hashes the subject and the name into an id; the constructors
   * stand for the hashes being distinct, and for the metric name an alert carries.
   */
  datatype Check =
    | Liveness(node: NodeId)
    | Threshold(node: NodeId, dim: Dim, metric: string)
    | Event(node: NodeId, rule: string)
    | Marker(node: NodeId, kind: MarkerKind)
    | Fleet(name: string)
  {
    /** The node an alert on this check is about; a poller pool or an organization has none. */
    function Node(): Option<NodeId> {
      if Fleet? then None else Some(node)
    }
  }

  datatype Direction = Above | Below

  datatype Breach = Breach(value: real, threshold: Option<real>, direction: Direction)

  /** One sample judged against a rule: its value, the side it crossed, and that side's bounds. */
  datatype Eval = Eval(value: real, direction: Direction, warning: Option<real>, critical: Option<real>)

  /** The breach an alert of a severity describes: the bound of that severity on the crossed side. */
  function BreachFor(sev: Severity, ev: Eval): Breach {
    var bound := match sev
      case SevCritical => ev.critical
      case SevWarning => ev.warning
      case SevInfo => if ev.warning.Some? then ev.warning else ev.critical;
    Breach(ev.value, bound, ev.direction)
  }

  datatype Alert = Alert(
    check: Check,
    severity: Severity,
    state: NodeState,
    at: int,
    rootCause: Option<NodeId>,
    flapping: bool,
    breach: Option<Breach>,
    rowName: Option<string>,
    heldUntil: Option<int>)

  /** A `Fire` that carries a root cause is recorded but not delivered. */
  datatype Action = Fire(alert: Alert) | Resolve(alert: Alert) | Suppress(alert: Alert)

  datatype Lane = Lane(
    tracker: Option<CheckState>,
    alert: Option<Alert>,
    side: Option<nat>,
    release: Option<nat>,
    hold: Option<int>)

  const EMPTY_LANE: Lane := Lane(None, None, None, None, None)

  /**
   * One observation of a check: the raw state, and what the rule in force says. `dwell` counts
   * observations of this check, `alerting` is false only for liveness with no rule, and `loaded`
   * says whether a configuration has been installed at all.
   */
  datatype Obs = Obs(
    raw: NodeState, at: int, dwell: nat, window: int, alerting: bool, loaded: bool,
    eval: Option<Eval>, rowName: Option<string>)
  {
    function Dwell(): nat {
      Max(dwell, 1)
    }
  }

  // ------------------------------------------------------------------------------------------
  // Weighing a sample.

  /** The check's state with the dwell and flap window in force now; a first sample seeds `Ok`. */
  function Ready(l: Lane, o: Obs): CheckState {
    var cs := if l.tracker.Some? then l.tracker.value else NewCheckState(Ok, o.Dwell(), o.window);
    Repointed(cs, o.Dwell(), o.window)
  }

  function Weighed(l: Lane, o: Obs): CheckState {
    Advance(Ready(l, o), o.raw, o.at)
  }

  function Committed(l: Lane, o: Obs): Option<Transition> {
    TransitionOf(Ready(l, o), o.raw, o.at)
  }

  // ------------------------------------------------------------------------------------------
  // No transition: the published side, and the release after an outage.

  /** The sample breaches the other side of the band, at the open alert's own state. */
  predicate OtherSide(l: Lane, o: Obs) {
    && o.eval.Some? && l.alert.Some? && l.alert.value.breach.Some?
    && l.alert.value.state == o.raw
    && l.alert.value.breach.value.direction != o.eval.value.direction
  }

  function SideCount(l: Lane): nat {
    if l.side.Some? then l.side.value else 0
  }

  predicate FlipsSide(l: Lane, o: Obs) {
    OtherSide(l, o) && o.Dwell() <= SideCount(l) + 1
  }

  function Flipped(a: Alert, o: Obs): Alert
    requires o.eval.Some?
  {
    a.(breach := Some(BreachFor(a.severity, o.eval.value)), at := o.at)
  }

  function RefreshSide(l: Lane, o: Obs): Lane {
    if !OtherSide(l, o) then l.(side := None)
    else if FlipsSide(l, o) then l.(side := None, alert := Some(Flipped(l.alert.value, o)))
    else l.(side := Some(SideCount(l) + 1))
  }

  /** Since its node returned, the check of this alert has failed for a whole dwell. */
  predicate EndsRelease(l: Lane, o: Obs) {
    l.release.Some? && o.raw.IsProblem() && o.Dwell() <= l.release.value + 1
  }

  /** Whether ending the release takes a roll-up marker off, and so fires. */
  predicate Releases(l: Lane, o: Obs) {
    EndsRelease(l, o) && l.alert.Some? && l.alert.value.rootCause.Some?
  }

  function AdvanceRelease(l: Lane, o: Obs): Lane {
    if l.release.None? then l
    else if !o.raw.IsProblem() then l.(release := Some(0))
    else if !EndsRelease(l, o) then l.(release := Some(l.release.value + 1))
    else if l.alert.None? then l.(release := None)
    else l.(release := None, alert := Some(l.alert.value.(rootCause := None)))
  }

  function Settled(l: Lane, o: Obs): Lane {
    AdvanceRelease(RefreshSide(l, o), o)
  }

  /** Never two fires: when the marker comes off together with a side change, one fire says both. */
  function SettledAction(l: Lane, o: Obs): Option<Action> {
    var flipped := RefreshSide(l, o);
    if Releases(flipped, o) then Some(Fire(AdvanceRelease(flipped, o).alert.value))
    else if FlipsSide(l, o) then Some(Fire(flipped.alert.value))
    else None
  }

  // ------------------------------------------------------------------------------------------
  // A transition: open, replace or close the alert.

  /** Closing an alert; a held one was never sent, so its hold goes with it. */
  function Closed(l: Lane): Lane {
    l.(alert := None, hold := if l.alert.Some? && l.alert.value.heldUntil.Some? then None else l.hold)
  }

  function ClosedAction(l: Lane): Option<Action> {
    if l.alert.Some? && l.alert.value.heldUntil.None? then Some(Resolve(l.alert.value)) else None
  }

  /** Only an unrolled `Unreachable` liveness alert can be held; `wait` is when its wait would end. */
  function HoldFor(c: Check, t: Transition, rc: Option<NodeId>, wait: Option<int>): Option<int> {
    if c.Liveness? && rc.None? && t.state == Unreachable then wait else None
  }

  function Opened(c: Check, sev: Severity, o: Obs, t: Transition, rc: Option<NodeId>, held: Option<int>): Alert {
    Alert(c, sev, t.state, o.at, rc, t.flapping,
          if o.eval.Some? then Some(BreachFor(sev, o.eval.value)) else None, o.rowName, held)
  }

  function Transited(c: Check, l: Lane, o: Obs, t: Transition, rc: Option<NodeId>, wait: Option<int>): Lane {
    var cleared := l.(release := None, side := None);
    var sev := t.state.Severity();
    if sev.None? then Closed(cleared)
    else
      var held := HoldFor(c, t, rc, wait);
      cleared.(alert := Some(Opened(c, sev.value, o, t, rc, held)), hold := if held.Some? then held else l.hold)
  }

  function TransitedAction(c: Check, l: Lane, o: Obs, t: Transition, rc: Option<NodeId>,
                           wait: Option<int>): Option<Action>
  {
    var sev := t.state.Severity();
    if sev.None? then ClosedAction(l)
    else if HoldFor(c, t, rc, wait).Some? then None
    else Some(Fire(Opened(c, sev.value, o, t, rc, None)))
  }

  /**
   * One observation of a check, as the lane sees it. `rc` is the root cause an alert opened now
   * would carry, `wait` when a notification held now would be let go.
   */
  function Observed(c: Check, l: Lane, o: Obs, rc: Option<NodeId>, wait: Option<int>): Lane {
    var weighed := l.(tracker := Some(Weighed(l, o)));
    if !o.alerting then if o.loaded then Closed(weighed) else weighed
    else if Committed(l, o).None? then Settled(weighed, o)
    else Transited(c, weighed, o, Committed(l, o).value, rc, wait)
  }

  function ObservedAction(c: Check, l: Lane, o: Obs, rc: Option<NodeId>, wait: Option<int>): Option<Action> {
    if !o.alerting then if o.loaded then ClosedAction(l) else None
    else if Committed(l, o).None? then SettledAction(l, o)
    else TransitedAction(c, l, o, Committed(l, o).value, rc, wait)
  }

  // ------------------------------------------------------------------------------------------
  // A re-sweep of roll-ups: `rc` is the root cause the grouping answers now.

  /** Whether a sweep visits this check's alert; `changed` is the node whose liveness moved. */
  predicate SweepVisits(c: Check, l: Lane, rc: Option<NodeId>, changed: Option<NodeId>) {
    && l.alert.Some? && c.Node().Some?
    && if c.Liveness? then c.Node() != changed && (rc.Some? || l.alert.value.rootCause.Some?)
       else c.Node() == changed
  }

  function Swept(c: Check, l: Lane, rc: Option<NodeId>, changed: Option<NodeId>): Lane {
    if !SweepVisits(c, l, rc, changed) then l
    else
      var a := l.alert.value;
      if c.Event? && rc.None? then l.(alert := Some(a.(rootCause := None)))
      else if c.Liveness? && a.heldUntil.Some? then
        if rc.Some? then l.(alert := Some(a.(rootCause := rc, heldUntil := None)), hold := None) else l
      else if !c.Liveness? && rc.None? && a.rootCause.Some? then l.(release := Some(0))
      else
        var freed := if !c.Liveness? && rc.Some? then l.(release := None) else l;
        freed.(alert := Some(a.(rootCause := rc)))
  }

  function SweptAction(c: Check, l: Lane, rc: Option<NodeId>, changed: Option<NodeId>): Option<Action> {
    if !SweepVisits(c, l, rc, changed) then None
    else
      var a := l.alert.value;
      var updated := a.(rootCause := rc);
      if c.Event? && rc.None? then None
      else if c.Liveness? && a.heldUntil.Some? then
        if rc.Some? then Some(Fire(updated.(heldUntil := None))) else None
      else if a.rootCause.None? && rc.Some? then Some(Suppress(updated))
      else if c.Liveness? && a.rootCause.Some? && rc.None? then Some(Fire(updated))
      else None
  }

  // ------------------------------------------------------------------------------------------
  // The remaining operations.

  /** An orphaned check: its alert is closed, and its dwell window goes with an alert still open. */
  function Orphaned(l: Lane): Lane {
    if l.alert.Some? then Closed(l).(tracker := None) else l
  }

  /** Letting a held notification go. */
  function LetGo(l: Lane): Lane {
    if l.alert.Some? && l.alert.value.heldUntil.Some? then
      l.(alert := Some(l.alert.value.(heldUntil := None)), hold := None)
    else l.(hold := None)
  }

  function LetGoAction(l: Lane): Option<Action> {
    if l.alert.Some? && l.alert.value.heldUntil.Some? then Some(Fire(l.alert.value.(heldUntil := None))) else None
  }

  /** An edge-triggered alert is raised unless one of the same severity is open already. */
  predicate RaiseIsNews(l: Lane, a: Alert) {
    l.alert.None? || l.alert.value.severity != a.severity
  }

  function Raised(l: Lane, a: Alert): Lane {
    if RaiseIsNews(l, a) then l.(alert := Some(a)) else l
  }

  function RaisedAction(l: Lane, a: Alert): Option<Action> {
    if RaiseIsNews(l, a) then Some(Fire(a)) else None
  }

  // ------------------------------------------------------------------------------------------
  // The lane invariant.

  predicate TrackerOk(c: Check, t: Tracker) {
    && t.Valid()
    && (!t.confirmed ==> t.committed == Ok)
    && (t.candidate.Some? ==> t.candidate.value.count < t.dwell)
    && (c.Liveness? ==> IsLivenessState(t.committed))
    && (c.Liveness? && t.candidate.Some? ==> IsLivenessState(t.candidate.value.state))
  }

  /**
   * What every reachable lane satisfies; `isDown` says whether the check's node is committed down.
   *
   * - a hold entry and a hold mark are the same thing, and only an unrolled liveness alert has one
   * - a threshold alert is open exactly when the tracker has committed a state with a severity
   * - a node's own alerts are rolled up into that node or not at all; its threshold alerts are
   *   while it is down
   * - an open threshold alert waits for release only while rolled up into a node that is back
   */
  predicate LaneOk(c: Check, l: Lane, isDown: bool) {
    && (l.tracker.Some? ==> TrackerOk(c, l.tracker.value.tracker))
    && (l.alert.Some? ==> l.alert.value.check == c)
    && l.hold == (if l.alert.Some? then l.alert.value.heldUntil else None)
    && (l.hold.Some? ==> c.Liveness? && l.alert.value.rootCause.None?)
    && (c.Liveness? ==> l.release.None?)
    && (c.Event? ==> l.release.None?)
    && (c.Liveness? && l.alert.Some? ==>
          && l.alert.value.state == Unreachable
          && l.tracker.Some? && l.tracker.value.tracker.committed == Unreachable)
    && (!c.Liveness? && l.alert.Some? && l.alert.value.rootCause.Some? ==> l.alert.value.rootCause == c.Node())
    && (c.Threshold? ==> ThresholdOk(l, isDown))
  }

  predicate ThresholdOk(l: Lane, isDown: bool) {
    && Agrees(l)
    && (isDown && l.alert.Some? ==> l.alert.value.rootCause.Some?)
    && (l.release.Some? && l.alert.Some? ==> l.alert.value.rootCause.Some? && !isDown)
  }

  /** The open alert and the committed state say the same thing. */
  predicate Agrees(l: Lane) {
    if l.tracker.Some? && l.tracker.value.tracker.committed.Severity().Some? then
      && l.alert.Some?
      && l.alert.value.state == l.tracker.value.tracker.committed
      && Some(l.alert.value.severity) == l.alert.value.state.Severity()
    else
      l.alert.None?
  }

  /** An alert open on its own account and not waiting: somebody has been told about it. */
  predicate Pages(l: Lane) {
    l.alert.Some? && l.alert.value.rootCause.None? && l.alert.value.heldUntil.None?
  }

  /** Whether a check counts as paged after an action about it. */
  function PagedAfter(paged: bool, act: Option<Action>): bool {
    match act
    case None => paged
    case Some(Fire(a)) => paged || a.rootCause.None?
    case Some(Resolve(_)) => false
    case Some(Suppress(_)) => false
  }

  /**
   * The paging ledger against the lane. An event alert that outlived its node's outage takes its
   * marker off without paging, so for events only one direction holds.
   */
  predicate LedgerOk(c: Check, l: Lane, paged: bool) {
    if c.Event? then paged ==> Pages(l) else paged <==> Pages(l)
  }
}
