/** The alert manager: the engine's maps updated in place, each method proved against its step. */
module Manager {
  import opened Base
  import opened CheckStates
  import opened Grouping
  import opened GroupingWalk
  import opened Lanes
  import opened Engine
  import opened LaneProofs
  import opened Closers
  import opened Reported
  import opened Restore
  import opened Runs
  import opened Trails
  import opened Rows
  import opened Results
  import opened ResultProofs

  /** Only one check's lane moved. */
  ghost predicate OnlyLane(s: State, s': State, c: Check) {
    SameBeside(s, s') && forall x: Check :: x != c ==> LaneOf(s', x) == LaneOf(s, x)
  }

  /** What feeding a check's tracker leaves behind. */
  ghost predicate WeighedTo(s: State, s': State, c: Check, o: Obs) {
    var cs := Weighed(LaneOf(s, c), o);
    s' == s.(states := s.states[c := cs], live := NextLive(s, c, cs), down := NextDown(s, c, cs))
  }

  ghost function WaitNow(env: Env, s: State, c: Check, at: int): Option<int> {
    if c.Liveness? then WaitUntil(env, s.states, s.down, c.node, at) else None
  }

  /** What one observation does to the check's own lane, once its tracker has been fed. */
  ghost predicate ActedOn(env: Env, s: State, s': State, c: Check, o: Obs, t: Option<Transition>, act: Option<Action>) {
    var l, rc, wait := LaneOf(s, c), RcNow(env, c, s.down), WaitNow(env, s, c, o.at);
    && OnlyLane(s, s', c)
    && LaneOf(s', c) == (
         if !o.alerting then if o.loaded then Closed(l) else l
         else if t.None? then Settled(l, o)
         else Transited(c, l, o, t.value, rc, wait))
    && act == (
         if !o.alerting then if o.loaded then ClosedAction(l) else None
         else if t.None? then SettledAction(l, o)
         else TransitedAction(c, l, o, t.value, rc, wait))
  }

  /** An emission with what was emitted about one more check. */
  function With(em: Emission, c: Check, act: Option<Action>): Emission {
    if act.Some? then em[c := act.value] else em
  }

  /** A sweep that has visited the checks in `done`. */
  ghost predicate SweptSoFar(env: Env, s: State, s': State, done: set<Check>, changed: Option<NodeId>, em: Emission) {
    && SameBeside(s, s')
    && (forall x: Check ::
          if x in done then SweptTo(env, s, s', s.down, x, changed, em)
          else LaneOf(s', x) == LaneOf(s, x) && x !in em)
  }

  /** The checks a sequence names. */
  function Members<T>(q: seq<T>): set<T> {
    set x | x in q
  }

  function SeedFor(row: Option<Alert>): Option<CheckState> {
    if row.Some? then Some(SeedOf(row.value)) else None
  }

  ghost function AttributedRow(env: Env, row: Option<Alert>, down: set<NodeId>): Option<Alert> {
    if row.Some? then Some(Attributed(env, row.value, down)) else None
  }

  /** Which rows looking at these has added to the index. */
  ghost predicate KeptSoFar(rows: seq<RowSample>, index: set<Check>, maintenance: bool, newlyHeld: set<Check>) {
    index + newlyHeld == index + ChecksOf(Kept(rows, index, maintenance))
  }

  lemma KeptOneMore(rows: seq<RowSample>, i: nat, index: set<Check>, maintenance: bool, held0: set<Check>,
                    newlyHeld: set<Check>)
    requires i < |rows| && KeptSoFar(rows[..i], index, maintenance, held0)
    requires newlyHeld == held0 + if rows[i].Breaching(maintenance) && rows[i].c !in index then {rows[i].c} else {}
    ensures KeptSoFar(rows[..i + 1], index, maintenance, newlyHeld)
  {
    OneMoreRow(rows, i, index, maintenance);
  }

  /** Every open alert is filed under its own check. */
  ghost predicate Keyed(active: map<Check, Alert>) {
    forall c :: c in active ==> active[c].check == c
  }

  class AlertManager {
    var env: Env
    var states: map<Check, CheckState>
    var active: map<Check, Alert>
    var live: map<NodeId, NodeState>
    var down: set<NodeId>
    var rowStates: set<Check>
    var legacy: set<Check>
    var sidePending: map<Check, nat>
    var releasing: map<Check, nat>
    var held: map<Check, int>
    const reports: ReportLedger

    ghost function View(): State
      reads this
    {
      State(states, active, live, down, rowStates, legacy, sidePending, releasing, held)
    }

    ghost predicate Valid()
      reads this
    {
      env.graph.Valid() && Keyed(active)
    }

    constructor (env: Env)
      requires env.graph.Valid()
      ensures Valid() && View() == EMPTY && this.env == env
      ensures fresh(reports) && reports.reports == map[]
    {
      this.env := env;
      reports := new ReportLedger();
      states, active, live, down := map[], map[], map[], {};
      rowStates, legacy, sidePending, releasing, held := {}, {}, map[], map[], map[];
    }

    method SetConfig(env: Env)
      requires Valid() && env.graph.Valid()
      modifies this`env
      ensures Valid() && this.env == env
    {
      this.env := env;
    }

    /** Forget that a check's notification is held. */
    method Unhold(c: Check)
      requires Keyed(active)
      modifies this`held
      ensures Keyed(active) && OnlyLane(old(View()), View(), c)
      ensures LaneOf(View(), c) == old(LaneOf(View(), c)).(hold := None)
    {
      held := held - {c};
    }

    /** Remove a check's alert. A held one was never sent, so closing it tells nobody anything. */
    method CloseActive(c: Check) returns (wasOpen: bool, act: Option<Action>)
      requires Keyed(active)
      modifies this`active, this`held
      ensures Keyed(active) && OnlyLane(old(View()), View(), c)
      ensures LaneOf(View(), c) == Closed(old(LaneOf(View(), c)))
      ensures wasOpen == old(c in active) && act == ClosedAction(old(LaneOf(View(), c)))
      ensures act.Some? ==> act.value.alert.check == c
    {
      if c !in active {
        return false, None;
      }
      var alert := active[c];
      active := active - {c};
      if alert.heldUntil.Some? {
        Unhold(c);
        return true, None;
      }
      return true, Some(Resolve(alert));
    }

    // ----------------------------------------------------------------------------------------
    // One observation.

    /** Re-fire an open alert whose samples have crossed to the other side for the dwell. */
    method RefreshBreachedSide(c: Check, o: Obs) returns (act: Option<Action>)
      requires Keyed(active)
      modifies this`active, this`sidePending
      ensures Keyed(active) && OnlyLane(old(View()), View(), c)
      ensures LaneOf(View(), c) == RefreshSide(old(LaneOf(View(), c)), o)
      ensures act == if FlipsSide(old(LaneOf(View(), c)), o) then Some(Fire(LaneOf(View(), c).alert.value)) else None
    {
      if o.eval.None? || c !in active || active[c].breach.None? {
        sidePending := sidePending - {c};
        return None;
      }
      var alert, ev := active[c], o.eval.value;
      if alert.state != o.raw || alert.breach.value.direction == ev.direction {
        sidePending := sidePending - {c};
        return None;
      }
      var seen := (if c in sidePending then sidePending[c] else 0) + 1;
      if seen < o.Dwell() {
        sidePending := sidePending[c := seen];
        return None;
      }
      sidePending := sidePending - {c};
      alert := alert.(breach := Some(BreachFor(alert.severity, ev)), at := o.at);
      active := active[c := alert];
      return Some(Fire(alert));
    }

    /** Count one observation of an alert held back after its node came back. */
    method CountRelease(c: Check, o: Obs) returns (act: Option<Action>)
      requires Keyed(active)
      modifies this`active, this`releasing
      ensures Keyed(active) && OnlyLane(old(View()), View(), c)
      ensures LaneOf(View(), c) == AdvanceRelease(old(LaneOf(View(), c)), o)
      ensures act == if Releases(old(LaneOf(View(), c)), o) then Some(Fire(LaneOf(View(), c).alert.value)) else None
    {
      if c !in releasing {
        return None;
      }
      if !o.raw.IsProblem() {
        releasing := releasing[c := 0];
        return None;
      }
      var seen := releasing[c] + 1;
      if seen < o.Dwell() {
        releasing := releasing[c := seen];
        return None;
      }
      releasing := releasing - {c};
      if c !in active {
        return None;
      }
      var alert := active[c];
      active := active[c := alert.(rootCause := None)];
      if alert.rootCause.None? {
        return None;
      }
      return Some(Fire(active[c]));
    }

    /** An observation that committed nothing: the side first, and a release replaces its fire. */
    method SettleCheck(c: Check, o: Obs) returns (act: Option<Action>)
      requires Keyed(active)
      modifies this`active, this`sidePending, this`releasing
      ensures Keyed(active) && OnlyLane(old(View()), View(), c)
      ensures LaneOf(View(), c) == Settled(old(LaneOf(View(), c)), o)
      ensures act == SettledAction(old(LaneOf(View(), c)), o)
    {
      act := RefreshBreachedSide(c, o);
      var released := CountRelease(c, o);
      if released.Some? {
        act := released;
      }
    }

    /** Feed the check's tracker, and keep `live` and the down set in step with it. */
    method Weigh(c: Check, o: Obs) returns (t: Option<Transition>, reattribute: bool)
      requires Keyed(active) && c.Node().Some?
      modifies this`states, this`live, this`down
      ensures Keyed(active)
      ensures WeighedTo(old(View()), View(), c, o)
      ensures var s := old(View()); reattribute == Reattributes(s, c, Weighed(LaneOf(s, c), o))
      ensures t == Committed(old(LaneOf(View(), c)), o)
    {
      var cs := if c in states then states[c] else NewCheckState(Ok, o.Dwell(), o.window);
      cs := Repointed(cs, o.Dwell(), o.window);
      t := TransitionOf(cs, o.raw, o.at);
      cs := Advance(cs, o.raw, o.at);
      states := states[c := cs];
      reattribute := false;
      if c.Liveness? && cs.tracker.Observed().Some? {
        reattribute := MoveLiveness(c.node, cs.tracker.committed);
      }
    }

    /** What a node has committed moves its liveness and its down membership; says whether to sweep. */
    method MoveLiveness(n: NodeId, committed: NodeState) returns (reattribute: bool)
      modifies this`live, this`down
      ensures live == old(live)[n := committed]
      ensures var flipped := old(WasDown(View(), n)) != (committed == Unreachable);
              && down == old(if !flipped then down else if committed == Unreachable then down + {n} else down - {n})
              && reattribute == (committed != Maintenance && (flipped || old(n in live && live[n] == Maintenance)))
    {
      var wasDown := n in live && live[n] == Unreachable;
      var wasInMaintenance := n in live && live[n] == Maintenance;
      live := live[n := committed];
      var flipped := wasDown != (committed == Unreachable);
      if flipped {
        if committed == Unreachable {
          down := down + {n};
        } else {
          down := down - {n};
        }
      }
      var entering := committed == Maintenance;
      reattribute := (flipped && !entering) || (wasInMaintenance && !entering);
    }

    /** The longest a failing neighbour still needs to commit, if one is failing. */
    method LongestFailingWait(n: NodeId) returns (ms: Option<nat>)
      ensures var failing := FailingNeighbours(env, states, down, n);
              if failing == {} then ms.None?
              else ms.Some? && IsLongestWait(env, states, down, failing, ms.value)
    {
      ms := None;
      var left := env.graph.JudgingNeighbours(n);
      ghost var seen: set<NodeId> := {};
      while left != {}
        invariant seen + left == env.graph.JudgingNeighbours(n)
        invariant var failing := set m | m in seen && IsFailing(states, down, m);
                  if failing == {} then ms.None?
                  else ms.Some? && IsLongestWait(env, states, down, failing, ms.value)
        decreases left
      {
        var m :| m in left;
        ghost var before := set x | x in seen && IsFailing(states, down, x);
        left := left - {m};
        seen := seen + {m};
        ghost var after := set x | x in seen && IsFailing(states, down, x);
        if IsFailing(states, down, m) {
          var w := WaitFor(env, states, down, m);
          assert after == before + {m};
          assert m in after;
          if ms.None? || ms.value < w {
            ms := Some(w);
          } else {
            ghost var longest :| longest in before && ms.value == WaitFor(env, states, down, longest);
            assert longest in after;
          }
        } else {
          assert after == before;
        }
      }
      assert seen == env.graph.JudgingNeighbours(n);
      assert FailingNeighbours(env, states, down, n) == set m | m in seen && IsFailing(states, down, m);
    }

    /** The hold a newly opened alert gets, if any. */
    method HoldUntil(c: Check, t: Transition, rc: Option<NodeId>, at: int) returns (until: Option<int>)
      ensures until == HoldFor(c, t, rc, WaitNow(env, View(), c, at))
    {
      if !c.Liveness? || rc.Some? || t.state != Unreachable {
        return None;
      }
      if !env.wait || env.graph.LevelOf(c.node) == Off {
        return None;
      }
      var ms := LongestFailingWait(c.node);
      if ms.None? {
        return None;
      }
      LongestWaitIsUnique(env, states, down, c.node, at, ms.value);
      return Some(at + ms.value + HELD_SLACK_MS);
    }

    /** The root cause an alert opened on a check now would carry. */
    method FindRc(c: Check) returns (rc: Option<NodeId>)
      requires c.Node().Some?
      ensures rc == RcNow(env, c, down)
    {
      if c.Liveness? {
        rc := FindRootCause(env.graph, c.node, down);
      } else {
        rc := if c.node in down then Some(c.node) else None;
      }
    }

    /** Open or replace a check's alert; one marked as held is shown but not sent. */
    method PutAlert(alert: Alert) returns (act: Option<Action>)
      requires Keyed(active)
      modifies this`active, this`held
      ensures Keyed(active) && OnlyLane(old(View()), View(), alert.check)
      ensures var l := old(LaneOf(View(), alert.check));
              LaneOf(View(), alert.check) ==
                l.(alert := Some(alert), hold := if alert.heldUntil.Some? then alert.heldUntil else l.hold)
      ensures act == if alert.heldUntil.Some? then None else Some(Fire(alert))
    {
      active := active[alert.check := alert];
      if alert.heldUntil.Some? {
        held := held[alert.check := alert.heldUntil.value];
        return None;
      }
      return Some(Fire(alert));
    }

    /** A committed transition opens, replaces or closes the check's alert. */
    method ApplyTransition(c: Check, o: Obs, t: Transition) returns (act: Option<Action>)
      requires Keyed(active) && c.Node().Some?
      modifies this`active, this`releasing, this`sidePending, this`held
      ensures Keyed(active) && OnlyLane(old(View()), View(), c)
      ensures var l := old(LaneOf(View(), c));
              var rc := old(RcNow(env, c, down));
              var wait := old(WaitNow(env, View(), c, o.at));
              LaneOf(View(), c) == Transited(c, l, o, t, rc, wait) && act == TransitedAction(c, l, o, t, rc, wait)
      ensures act.Some? ==> act.value.alert.check == c
    {
      releasing := releasing - {c};
      sidePending := sidePending - {c};
      var sev := t.state.Severity();
      if sev.None? {
        var _, closed := CloseActive(c);
        return closed;
      }
      var rc := FindRc(c);
      var until := HoldUntil(c, t, rc, o.at);
      act := PutAlert(Opened(c, sev.value, o, t, rc, until));
    }

    /** What one observation does to the check's own lane, once its tracker has been fed. */
    method ActOn(c: Check, o: Obs, t: Option<Transition>) returns (act: Option<Action>)
      requires Keyed(active) && c.Node().Some?
      modifies this`active, this`releasing, this`sidePending, this`held
      ensures Keyed(active) && ActedOn(env, old(View()), View(), c, o, t, act)
      ensures act.Some? ==> act.value.alert.check == c
    {
      act := None;
      if !o.alerting {
        if o.loaded {
          var _, closed := CloseActive(c);
          act := closed;
        }
      } else if t.None? {
        act := SettleCheck(c, o);
      } else {
        act := ApplyTransition(c, o, t.value);
      }
    }

    // ----------------------------------------------------------------------------------------
    // Roll-ups judged again.

    /** One open alert judged again against its new root cause. */
    method SweepOne(c: Check, rc: Option<NodeId>, changed: Option<NodeId>) returns (act: Option<Action>)
      requires Keyed(active) && SweepVisits(c, LaneOf(View(), c), rc, changed)
      modifies this`active, this`releasing, this`held
      ensures Keyed(active) && OnlyLane(old(View()), View(), c)
      ensures LaneOf(View(), c) == Swept(c, old(LaneOf(View(), c)), rc, changed)
      ensures act == SweptAction(c, old(LaneOf(View(), c)), rc, changed)
    {
      var alert := active[c];
      if c.Event? && rc.None? {
        active := active[c := alert.(rootCause := None)];
        return None;
      }
      if c.Liveness? && alert.heldUntil.Some? {
        if rc.None? {
          return None;
        }
        active := active[c := alert.(rootCause := rc, heldUntil := None)];
        Unhold(c);
        return Some(Fire(active[c]));
      }
      if !c.Liveness? {
        if rc.Some? {
          releasing := releasing - {c};
        } else if alert.rootCause.Some? {
          releasing := releasing[c := 0];
          return None;
        }
      }
      if rc == alert.rootCause {
        return None;
      }
      active := active[c := alert.(rootCause := rc)];
      if alert.rootCause.None? {
        return Some(Suppress(active[c]));
      }
      return if rc.None? then Some(Fire(active[c])) else None;
    }

    /**
     * Judge the roll-ups of every alert whose answer can have changed: with `changed`, that node's
     * own other alerts too.
     */
    method Reattribute(changed: Option<NodeId>) returns (acts: seq<Action>, ghost em: Emission)
      requires Valid()
      modifies this`active, this`releasing, this`held
      ensures Valid() && SameBeside(old(View()), View())
      ensures forall x: Check :: SweptTo(env, old(View()), View(), down, x, changed, em)
      ensures Lists(acts, em)
    {
      var rcs := Candidates(changed);
      acts, em := SweepAll(rcs, changed);
      forall x: Check
        ensures SweptTo(env, old(View()), View(), down, x, changed, em)
      {
        assert x in rcs.Keys <==> SweepVisits(x, old(LaneOf(View(), x)), RcNow(env, x, down), changed);
      }
    }

    /** The alerts a sweep visits, each with the root cause it has now. */
    method Candidates(changed: Option<NodeId>) returns (rcs: map<Check, Option<NodeId>>)
      requires Valid()
      ensures forall c: Check :: c in rcs <==> SweepVisits(c, LaneOf(View(), c), RcNow(env, c, down), changed)
      ensures forall c: Check :: c in rcs ==> rcs[c] == RcNow(env, c, down)
    {
      var attribution := Attribute(env.graph, down);
      var all := map c | c in active && c.Node().Some? ::
        if c.Liveness? then Lookup(attribution, c.node) else if c.node in down then Some(c.node) else None;
      assert forall c :: c in all ==> all[c] == RcNow(env, c, down);
      rcs := map c | c in all && SweepVisits(c, EMPTY_LANE.(alert := Some(active[c])), all[c], changed) :: all[c];
    }

    method SweepNext(c: Check, rc: Option<NodeId>, changed: Option<NodeId>, acts0: seq<Action>, ghost em0: Emission,
                     ghost s: State, ghost done: set<Check>)
      returns (acts: seq<Action>, ghost em: Emission)
      requires Keyed(active) && SweptSoFar(env, s, View(), done, changed, em0) && Lists(acts0, em0)
      requires c !in done && SweepVisits(c, LaneOf(s, c), rc, changed) && rc == RcNow(env, c, s.down)
      modifies this`active, this`releasing, this`held
      ensures Keyed(active) && SweptSoFar(env, s, View(), done + {c}, changed, em) && Lists(acts, em)
    {
      ghost var before := View();
      assert LaneOf(before, c) == LaneOf(s, c) && c !in em0;
      var act := SweepOne(c, rc, changed);
      acts, em := Push(acts0, em0, c, act);
      SweepsOneMore(env, s, before, View(), done, c, changed, em0, act);
    }

    method SweepAll(rcs: map<Check, Option<NodeId>>, changed: Option<NodeId>)
      returns (acts: seq<Action>, ghost em: Emission)
      requires Keyed(active)
      requires forall c: Check :: c in rcs ==>
        SweepVisits(c, LaneOf(View(), c), rcs[c], changed) && rcs[c] == RcNow(env, c, down)
      modifies this`active, this`releasing, this`held
      ensures Keyed(active) && SweptSoFar(env, old(View()), View(), rcs.Keys, changed, em) && Lists(acts, em)
    {
      var left := rcs.Keys;
      ghost var s, done := View(), {};
      acts, em := [], map[];
      while left != {}
        invariant Keyed(active) && done + left == rcs.Keys && done !! left
        invariant SweptSoFar(env, s, View(), done, changed, em) && Lists(acts, em)
        decreases left
      {
        var c :| c in left;
        acts, em := SweepNext(c, rcs[c], changed, acts, em, s, done);
        left, done := left - {c}, done + {c};
      }
      assert done == rcs.Keys;
    }

    /** One observation of one check. */
    method ProcessCheck(c: Check, o: Obs) returns (acts: seq<Action>, ghost em: Emission)
      requires Valid() && c.Node().Some?
      modifies this`states, this`live, this`down, this`active, this`releasing, this`sidePending, this`held
      ensures Valid() && ObserveStep(env, old(View()), View(), c, o, em) && Lists(acts, em)
    {
      var t, reattribute := Weigh(c, o);
      ghost var weighed := View();
      var act := ActOn(c, o, t);
      ghost var acted := View();
      acts, em := Push([], map[], c, act);
      if reattribute && (!o.alerting || t.Some?) {
        var swept, sweptEm := Reattribute(c.Node());
        ObservedThenSwept(env, old(View()), weighed, acted, View(), c, o, act, sweptEm, em + sweptEm);
        ListsTogether(acts, em, swept, sweptEm, c);
        acts, em := acts + swept, em + sweptEm;
      } else {
        ObservedAlone(env, old(View()), weighed, acted, c, o, act, em);
      }
    }

    /** Judge every open alert's roll-up again against the configuration now installed. */
    method Regroup() returns (acts: seq<Action>, ghost em: Emission)
      requires Valid()
      modifies this`active, this`releasing, this`held
      ensures Valid() && RegroupStep(env, old(View()), View(), em) && Lists(acts, em)
    {
      acts, em := Reattribute(None);
    }

    // ----------------------------------------------------------------------------------------
    // Held notifications.

    /** Let one held notification go, asking the alert again: only one still marked is sent. */
    method LetOneGo(c: Check) returns (act: Option<Action>)
      requires Keyed(active)
      modifies this`active, this`held
      ensures Keyed(active) && OnlyLane(old(View()), View(), c)
      ensures LaneOf(View(), c) == LetGo(old(LaneOf(View(), c))) && act == LetGoAction(old(LaneOf(View(), c)))
      ensures act.Some? ==> act.value.alert.check == c
    {
      if c !in active || active[c].heldUntil.None? {
        Unhold(c);
        return None;
      }
      active := active[c := active[c].(heldUntil := None)];
      Unhold(c);
      return Some(Fire(active[c]));
    }

    /** Whether a held notification goes on waiting, as asked of the maps now. */
    method AsksToWait(c: Check, until: int, now: int, paused: NodeId -> bool) returns (waits: bool)
      requires Lookup(held, c) == Some(until)
      ensures waits == StillWaits(env, View(), c, now, paused)
    {
      if c !in active || c.Node().None? {
        return c in active;
      }
      var n := c.Node().value;
      if paused(n) {
        return true;
      }
      if !env.wait || env.graph.LevelOf(n) == Off || until <= now {
        return false;
      }
      var ms := LongestFailingWait(n);
      return ms.Some?;
    }

    method ReleaseNext(c: Check, acts0: seq<Action>, ghost em0: Emission, ghost s: State, ghost gone: set<Check>)
      returns (acts: seq<Action>, ghost em: Emission)
      requires Keyed(active) && ReleasedSoFar(s, View(), gone, em0) && Lists(acts0, em0) && c !in gone
      modifies this`active, this`held
      ensures Keyed(active) && ReleasedSoFar(s, View(), gone + {c}, em) && Lists(acts, em)
    {
      ghost var before := View();
      assert LaneOf(before, c) == LaneOf(s, c) && c !in em0;
      var act := LetOneGo(c);
      acts, em := Push(acts0, em0, c, act);
      ReleasesOneMore(s, before, View(), gone, c, em0, act);
    }

    /** Send the held notifications whose wait is over. */
    method ReleaseHeld(now: int, paused: NodeId -> bool) returns (acts: seq<Action>, ghost em: Emission)
      requires Valid()
      modifies this`active, this`held
      ensures Valid() && ReleaseStep(env, old(View()), View(), now, paused, em) && Lists(acts, em)
    {
      var left := held.Keys;
      ghost var s, gone := View(), {};
      acts, em := [], map[];
      while left != {}
        invariant Keyed(active) && states == s.states && down == s.down && Asked(env, s, left, gone, now, paused)
        invariant ReleasedSoFar(s, View(), gone, em) && Lists(acts, em)
        decreases left
      {
        var c :| c in left;
        AskedOneMore(env, s, left, gone, c, now, paused);
        acts, em := ReleaseIfDue(c, now, paused, acts, em, s, gone);
        gone := if StillWaits(env, s, c, now, paused) then gone else gone + {c};
        left := left - {c};
      }
      AskedAll(env, s, gone, now, paused);
    }

    /** One more held notification: it goes on waiting, or is let go. */
    method ReleaseIfDue(c: Check, now: int, paused: NodeId -> bool, acts0: seq<Action>, ghost em0: Emission,
                        ghost s: State, ghost gone: set<Check>)
      returns (acts: seq<Action>, ghost em: Emission)
      requires Keyed(active) && ReleasedSoFar(s, View(), gone, em0) && Lists(acts0, em0)
      requires c in s.held && c !in gone && states == s.states && down == s.down
      modifies this`active, this`held
      ensures Keyed(active) && Lists(acts, em)
      ensures ReleasedSoFar(s, View(), if StillWaits(env, s, c, now, paused) then gone else gone + {c}, em)
    {
      SameQuestion(env, s, View(), gone, c, now, paused, em0);
      acts, em := acts0, em0;
      var waits := AsksToWait(c, held[c], now, paused);
      if !waits {
        acts, em := ReleaseNext(c, acts, em, s, gone);
      }
    }

    // ----------------------------------------------------------------------------------------
    // Closing from outside the poll path.

    /** Close one orphan; its dwell window goes only if its alert was still open. */
    method ResolveOrphan(c: Check) returns (act: Option<Action>)
      requires Keyed(active)
      modifies this`active, this`held, this`states
      ensures Keyed(active) && OnlyLane(old(View()), View(), c)
      ensures LaneOf(View(), c) == Orphaned(old(LaneOf(View(), c))) && act == ClosedAction(old(LaneOf(View(), c)))
      ensures act.Some? ==> act.value.alert.check == c
    {
      var wasOpen, closed := CloseActive(c);
      act := closed;
      if wasOpen {
        states := states - {c};
      }
    }

    /** Close every orphaned check, a check named twice included. */
    method ResolveOrphans(orphans: seq<Check>) returns (acts: seq<Action>, ghost em: Emission)
      requires Keyed(active)
      modifies this`active, this`held, this`states
      ensures Keyed(active) && OrphanStep(old(View()), View(), Members(orphans), em) && Lists(acts, em)
    {
      ghost var s := View();
      acts, em := [], map[];
      for i := 0 to |orphans|
        invariant Keyed(active) && OrphanStep(s, View(), Members(orphans[..i]), em) && Lists(acts, em)
      {
        var c := orphans[i];
        ghost var before, em0 := View(), em;
        var act := ResolveOrphan(c);
        AlreadyClosed(s, before, Members(orphans[..i]), c, em);
        if act.Some? {
          acts, em := Push(acts, em, c, act);
        }
        OrphansOneMore(s, before, View(), Members(orphans[..i]), c, em0, act);
        assert Members(orphans[..i + 1]) == Members(orphans[..i]) + {c};
      }
      assert orphans[..|orphans|] == orphans;
    }

    /** Close the computed per-port alerts whose rule is gone. */
    method ResolveOrphanedInterfaceAlerts(rules: Rules) returns (acts: seq<Action>, ghost em: Emission)
      requires Valid()
      modifies this`active, this`held, this`states
      ensures Valid() && Lists(acts, em)
      ensures OrphanStep(old(View()), View(), PortOrphans(rules, old(active)), em)
    {
      var orphans := Listing(PortOrphans(rules, active));
      acts, em := ResolveOrphans(orphans);
    }

    /** Close the computed node-wide alerts whose rule is gone. */
    method ResolveOrphanedNodeDerivedAlerts(rules: Rules) returns (acts: seq<Action>, ghost em: Emission)
      requires Valid()
      modifies this`active, this`held, this`states
      ensures Valid() && Lists(acts, em)
      ensures OrphanStep(old(View()), View(), NodeDerivedOrphans(rules, old(active)), em)
    {
      var orphans := Listing(NodeDerivedOrphans(rules, active));
      acts, em := ResolveOrphans(orphans);
    }

    /** Close the collected alerts whose rule is gone. */
    method ResolveOrphanedCollectedAlerts(rules: Rules) returns (acts: seq<Action>, ghost em: Emission)
      requires Valid()
      modifies this`active, this`held, this`states
      ensures Valid() && Lists(acts, em)
      ensures OrphanStep(old(View()), View(), CollectedOrphans(rules, old(active)), em)
    {
      var orphans := Listing(CollectedOrphans(rules, active));
      acts, em := ResolveOrphans(orphans);
    }

    /** Raise an edge-triggered alert, unless one of its severity is open already. */
    method RaiseEventAlert(a: Alert) returns (act: Option<Action>)
      requires Valid()
      modifies this`active
      ensures Valid() && RaiseStep(old(View()), View(), a, With(map[], a.check, act))
    {
      if a.check in active && active[a.check].severity == a.severity {
        return None;
      }
      active := active[a.check := a];
      return Some(Fire(a));
    }

    /** Close an edge-triggered alert. */
    method ResolveEventAlert(c: Check) returns (act: Option<Action>)
      requires Valid()
      modifies this`active, this`held
      ensures Valid() && CloseStep(old(View()), View(), c, With(map[], c, act))
    {
      var _, closed := CloseActive(c);
      return closed;
    }

    /** Deleted nodes leave the liveness map, the down set and the row index. */
    method DropNodes(gone: set<NodeId>)
      modifies this`live, this`down, this`rowStates
      ensures live == old(live) - gone && down == old(down) - gone
      ensures rowStates == set c | c in old(rowStates) && !(c.Node().Some? && c.Node().value in gone)
    {
      live := live - gone;
      down := down - gone;
      rowStates := set c | c in rowStates && !(c.Node().Some? && c.Node().value in gone);
    }

    /** Nodes outside the inventory lose their alerts and everything kept about them. */
    method ForgetDeletedNodes(inventory: set<NodeId>) returns (acts: seq<Action>, ghost em: Emission)
      requires Valid()
      modifies this`states, this`active, this`live, this`down, this`rowStates, this`held, reports
      ensures Valid() && Lists(acts, em)
      ensures if inventory == {} then View() == old(View()) && acts == []
              else ForgetStep(old(View()), View(), inventory, em)
      ensures reports.reports ==
              old(map n | n in reports.reports && (inventory == {} || n in inventory) :: reports.reports[n])
    {
      acts, em := [], map[];
      if inventory == {} {
        return;
      }
      var orphans := set c | c in active && AboutDeleted(c, inventory);
      reports.Retain(inventory);
      DropNodes(live.Keys - inventory);
      ghost var trimmed := View();
      var listed := Listing(orphans);
      acts, em := ResolveOrphans(listed);
      ForgottenAsOrphans(old(View()), trimmed, View(), inventory, orphans, em);
    }

    // ----------------------------------------------------------------------------------------
    // Table rows. Each method goes on from the run that led here, and says by which steps.

    /** A metric that alerts row by row gives up the node-wide alert an earlier version left it. */
    method RetireLegacy(c: Check, acts0: seq<Action>, ghost t0: Trail) returns (acts: seq<Action>, ghost t: Trail)
      requires Valid() && c.Threshold? && LeadsTo(env, t0, View(), acts0)
      modifies this`states, this`active, this`legacy, this`held
      ensures Valid() && LeadsTo(env, t, View(), acts) && Continues(t0, t, RetireSteps(c, old(legacy)))
      ensures legacy == old(legacy) - {c}
      ensures c in old(legacy) ==> c !in active
    {
      acts, t := acts0, t0;
      if c !in legacy {
        return;
      }
      t := Retire(legacy - {c}, acts, t);
      ghost var t1 := t;
      ghost var here := View();
      var closed, em := ResolveOrphans([c]);
      assert Members([c]) == {c};
      ghost var e := Entry(env, Orphaning({c}), em, closed, View());
      Extends(env, t1, here, acts, e);
      acts, t := acts + closed, t1.(run := t1.run + [e]);
      ContinuesOn(t0, t1, t, [Retiring(legacy)], [Orphaning({c})]);
      assert OrphanedTo(here, View(), {c}, c, em);
    }

    /** The node-wide checks left over are now these. */
    method Retire(leftovers: set<Check>, acts: seq<Action>, ghost t0: Trail) returns (ghost t: Trail)
      requires Valid() && LeadsTo(env, t0, View(), acts)
      modifies this`legacy
      ensures Valid() && LeadsTo(env, t, View(), acts) && Continues(t0, t, [Retiring(leftovers)])
      ensures legacy == leftovers
    {
      ghost var here := View();
      legacy := leftovers;
      ghost var e := Entry(env, Retiring(leftovers), map[], [], View());
      Extends(env, t0, here, acts, e);
      assert acts + [] == acts;
      t := t0.(run := t0.run + [e]);
    }

    /** The rows that hold a state are now these. */
    method Index(rows: set<Check>, acts: seq<Action>, ghost t0: Trail) returns (ghost t: Trail)
      requires Valid() && LeadsTo(env, t0, View(), acts)
      modifies this`rowStates
      ensures Valid() && LeadsTo(env, t, View(), acts) && Continues(t0, t, [Indexing(rows)])
      ensures rowStates == rows
    {
      ghost var here := View();
      rowStates := rows;
      ghost var e := Entry(env, Indexing(rows), map[], [], View());
      Extends(env, t0, here, acts, e);
      assert acts + [] == acts;
      t := t0.(run := t0.run + [e]);
    }

    /** One more observation. */
    method ObserveOne(c: Check, o: Obs, acts0: seq<Action>, ghost t0: Trail) returns (acts: seq<Action>, ghost t: Trail)
      requires Valid() && ObsOk(c, o) && c.node !in t0.retired && LeadsTo(env, t0, View(), acts0)
      modifies this`states, this`live, this`down, this`active, this`releasing, this`sidePending, this`held
      ensures Valid() && LeadsTo(env, t, View(), acts) && Continues(t0, t, [Observing(c, o)])
    {
      ghost var here := View();
      var more, em := ProcessCheck(c, o);
      ghost var e := Entry(env, Observing(c, o), em, more, View());
      Extends(env, t0, here, acts0, e);
      acts, t := acts0 + more, t0.(run := t0.run + [e]);
    }

    /** The leftovers of every metric in a result are retired before its rows are looked at. */
    method RetireLeftovers(rows: seq<RowSample>, acts0: seq<Action>, ghost t0: Trail)
      returns (acts: seq<Action>, ghost t: Trail)
      requires Valid() && RowsValid(rows) && LeadsTo(env, t0, View(), acts0)
      modifies this`states, this`active, this`legacy, this`held
      ensures Valid() && LeadsTo(env, t, View(), acts) && Continues(t0, t, Retirements(rows, old(legacy)))
      ensures legacy == old(legacy) - Leftovers(rows)
    {
      acts, t := acts0, t0;
      for i := 0 to |rows|
        invariant Valid() && LeadsTo(env, t, View(), acts) && Continues(t0, t, Retirements(rows[..i], old(legacy)))
        invariant legacy == old(legacy) - Leftovers(rows[..i])
      {
        acts, t := RetireNextLeftover(rows, i, acts, t0, t, old(legacy));
      }
      assert rows[..|rows|] == rows;
    }

    method RetireNextLeftover(rows: seq<RowSample>, i: nat, acts0: seq<Action>, ghost t0: Trail, ghost t1: Trail,
                              ghost leftovers: set<Check>)
      returns (acts: seq<Action>, ghost t: Trail)
      requires Valid() && RowsValid(rows) && i < |rows| && LeadsTo(env, t1, View(), acts0)
      requires Continues(t0, t1, Retirements(rows[..i], leftovers)) && legacy == leftovers - Leftovers(rows[..i])
      modifies this`states, this`active, this`legacy, this`held
      ensures Valid() && LeadsTo(env, t, View(), acts)
      ensures Continues(t0, t, Retirements(rows[..i + 1], leftovers)) && legacy == leftovers - Leftovers(rows[..i + 1])
    {
      OneMoreLeftover(rows, i, leftovers);
      ghost var retiring := RetireSteps(NodeWideOf(rows[i]), legacy);
      acts, t := RetireLegacy(NodeWideOf(rows[i]), acts0, t1);
      ContinuesOn(t0, t1, t, Retirements(rows[..i], leftovers), retiring);
    }

    /** One more row of a result: observed if it breaches or holds a state already, skipped otherwise. */
    method ObserveIfKept(rows: seq<RowSample>, i: nat, maintenance: bool, acts0: seq<Action>, held0: set<Check>,
                         ghost t0: Trail, ghost t1: Trail)
      returns (acts: seq<Action>, newlyHeld: set<Check>, ghost t: Trail)
      requires Valid() && RowsValid(rows) && i < |rows| && rows[i].c.node !in t0.retired
      requires LeadsTo(env, t1, View(), acts0) && KeptSoFar(rows[..i], rowStates, maintenance, held0)
      requires Continues(t0, t1, Observations(Kept(rows[..i], rowStates, maintenance), maintenance))
      modifies this`states, this`live, this`down, this`active, this`releasing, this`sidePending, this`held
      ensures Valid() && LeadsTo(env, t, View(), acts) && KeptSoFar(rows[..i + 1], rowStates, maintenance, newlyHeld)
      ensures Continues(t0, t, Observations(Kept(rows[..i + 1], rowStates, maintenance), maintenance))
    {
      var r := rows[i];
      acts, newlyHeld, t := acts0, held0, t1;
      OneMoreRow(rows, i, rowStates, maintenance);
      if r.Breaching(maintenance) || r.c in rowStates {
        acts, t := ObserveOne(r.c, r.Seen(maintenance), acts, t1);
        ContinuesOn(t0, t1, t, Observations(Kept(rows[..i], rowStates, maintenance), maintenance),
                    [Observing(r.c, r.Seen(maintenance))]);
        if r.c !in rowStates {
          newlyHeld := newlyHeld + {r.c};
        }
      }
      KeptOneMore(rows, i, rowStates, maintenance, held0, newlyHeld);
    }

    /** The rows that breach or hold a state already, observed in order; the others are skipped. */
    method ObserveKept(rows: seq<RowSample>, maintenance: bool, acts0: seq<Action>, ghost t0: Trail)
      returns (acts: seq<Action>, newlyHeld: set<Check>, ghost t: Trail)
      requires Valid() && RowsValid(rows) && forall i :: 0 <= i < |rows| ==> rows[i].c.node !in t0.retired
      requires LeadsTo(env, t0, View(), acts0)
      modifies this`states, this`live, this`down, this`active, this`releasing, this`sidePending, this`held
      ensures Valid() && LeadsTo(env, t, View(), acts) && KeptSoFar(rows, rowStates, maintenance, newlyHeld)
      ensures Continues(t0, t, Observations(Kept(rows, rowStates, maintenance), maintenance))
    {
      acts, newlyHeld, t := acts0, {}, t0;
      for i := 0 to |rows|
        invariant Valid() && LeadsTo(env, t, View(), acts) && KeptSoFar(rows[..i], rowStates, maintenance, newlyHeld)
        invariant Continues(t0, t, Observations(Kept(rows[..i], rowStates, maintenance), maintenance))
      {
        acts, newlyHeld, t := ObserveIfKept(rows, i, maintenance, acts, newlyHeld, t0, t);
      }
      assert rows[..|rows|] == rows;
    }

    /**
     * Observe one result's table rows: those that breach, and those that hold a state already. The
     * index is asked once, before any of them, and grown at the end.
     */
    method ObserveRows(rows: seq<RowSample>, maintenance: bool, acts0: seq<Action>, ghost t0: Trail)
      returns (acts: seq<Action>, ghost t: Trail)
      requires Valid() && RowsValid(rows) && forall i :: 0 <= i < |rows| ==> rows[i].c.node !in t0.retired
      requires LeadsTo(env, t0, View(), acts0)
      modifies this`states, this`live, this`down, this`active, this`releasing, this`sidePending, this`held
      modifies this`rowStates, this`legacy
      ensures Valid() && LeadsTo(env, t, View(), acts)
      ensures Continues(t0, t, RowSteps(rows, old(rowStates), old(legacy), maintenance))
      ensures rowStates == old(rowStates) + ChecksOf(Kept(rows, old(rowStates), maintenance))
      ensures legacy == old(legacy) - Leftovers(rows)
    {
      ghost var kept := Kept(rows, rowStates, maintenance);
      ghost var t1, t2;
      acts, t1 := RetireLeftovers(rows, acts0, t0);
      var added;
      acts, added, t2 := ObserveKept(rows, maintenance, acts, t1);
      t := Index(rowStates + added, acts, t2);
      ContinuesOn(t0, t1, t2, Retirements(rows, old(legacy)), Observations(kept, maintenance));
      ContinuesOn(t0, t2, t, Retirements(rows, old(legacy)) + Observations(kept, maintenance), [Indexing(rowStates)]);
    }

    // ----------------------------------------------------------------------------------------
    // One poll result.

    /** What a result says about liveness, if anything. */
    method ObserveLiveness(r: PollResult, acts0: seq<Action>, ghost t0: Trail)
      returns (acts: seq<Action>, ghost t: Trail)
      requires Valid() && r.Valid() && r.node !in t0.retired && LeadsTo(env, t0, View(), acts0)
      modifies this`states, this`live, this`down, this`active, this`releasing, this`sidePending, this`held
      ensures Valid() && LeadsTo(env, t, View(), acts) && Continues(t0, t, r.LivenessSteps())
    {
      acts, t := acts0, t0;
      if r.outcome.Some? {
        acts, t := ObserveOne(Liveness(r.node), r.LivenessSeen(), acts, t);
      }
    }

    /** One more sample: a port's is observed, a row's is gathered, a node-wide one is folded. */
    method ObserveSample(r: PollResult, i: nat, acts0: seq<Action>, rows0: seq<RowSample>, folded0: seq<nat>,
                         ghost t0: Trail, ghost t1: Trail)
      returns (acts: seq<Action>, rows: seq<RowSample>, folded: seq<nat>, ghost t: Trail)
      requires Valid() && r.node !in t0.retired && i < |r.samples| && LeadsTo(env, t1, View(), acts0)
      requires Continues(t0, t1, r.PortSteps(i)) && rows0 == r.RowsSeen(i) && r.IsFold(i, folded0)
      modifies this`states, this`live, this`down, this`active, this`releasing, this`sidePending, this`held
      ensures Valid() && LeadsTo(env, t, View(), acts)
      ensures Continues(t0, t, r.PortSteps(i + 1)) && rows == r.RowsSeen(i + 1) && r.IsFold(i + 1, folded)
    {
      acts, rows, folded, t := acts0, rows0, folded0, t1;
      var sample := r.samples[i];
      var rule := r.RuleOf(sample);
      if rule.None? {
        return;
      }
      if sample.Dimension().Row? {
        rows := rows + [r.AsRow(sample, rule.value)];
      } else if sample.isValue {
        if sample.Dimension().Port? {
          var seen := r.Judged(sample, rule.value);
          acts, t := ObserveOne(seen.c, seen.o, acts, t1);
          ContinuesOn(t0, t1, t, r.PortSteps(i), [seen]);
        } else {
          folded := FoldIn(r, i, folded);
        }
      }
    }

    /** The ports' samples are observed as they come; rows are gathered, node-wide samples folded. */
    method ObserveSamples(r: PollResult, acts0: seq<Action>, ghost t0: Trail)
      returns (acts: seq<Action>, rows: seq<RowSample>, folded: seq<nat>, ghost t: Trail)
      requires Valid() && r.node !in t0.retired && LeadsTo(env, t0, View(), acts0)
      modifies this`states, this`live, this`down, this`active, this`releasing, this`sidePending, this`held
      ensures Valid() && LeadsTo(env, t, View(), acts) && Continues(t0, t, r.PortSteps(|r.samples|))
      ensures rows == r.RowsSeen(|r.samples|) && r.IsFold(|r.samples|, folded)
    {
      acts, rows, folded, t := acts0, [], [], t0;
      for i := 0 to |r.samples|
        invariant Valid() && LeadsTo(env, t, View(), acts) && Continues(t0, t, r.PortSteps(i))
        invariant rows == r.RowsSeen(i) && r.IsFold(i, folded)
      {
        acts, rows, folded, t := ObserveSample(r, i, acts, rows, folded, t0, t);
      }
    }

    /** The worst sample of a node-wide metric is observed, and its check is no leftover any more. */
    method ObserveChosen(seen: Step, acts0: seq<Action>, ghost t0: Trail) returns (acts: seq<Action>, ghost t: Trail)
      requires Valid() && seen.Observing? && ObsOk(seen.c, seen.o) && seen.c.node !in t0.retired
      requires LeadsTo(env, t0, View(), acts0)
      modifies this`states, this`live, this`down, this`active, this`releasing, this`sidePending, this`held, this`legacy
      ensures Valid() && LeadsTo(env, t, View(), acts) && Continues(t0, t, [Retiring(old(legacy) - {seen.c}), seen])
      ensures legacy == old(legacy) - {seen.c}
    {
      ghost var t1 := Retire(legacy - {seen.c}, acts0, t0);
      acts, t := ObserveOne(seen.c, seen.o, acts0, t1);
      ContinuesOn(t0, t1, t, [Retiring(old(legacy) - {seen.c})], [seen]);
    }

    /** The worst sample of each node-wide metric is observed, once. */
    method ObserveFolded(r: PollResult, folded: seq<nat>, acts0: seq<Action>, ghost t0: Trail)
      returns (acts: seq<Action>, ghost t: Trail)
      requires Valid() && r.node !in t0.retired && r.Chosen(|r.samples|, folded) && LeadsTo(env, t0, View(), acts0)
      modifies this`states, this`live, this`down, this`active, this`releasing, this`sidePending, this`held, this`legacy
      ensures Valid() && LeadsTo(env, t, View(), acts) && Continues(t0, t, r.FoldSteps(folded, old(legacy)))
      ensures legacy == old(legacy) - r.FoldedChecks(folded)
    {
      acts, t := acts0, t0;
      for i := 0 to |folded|
        invariant Valid() && LeadsTo(env, t, View(), acts) && Continues(t0, t, r.FoldSteps(folded[..i], old(legacy)))
        invariant legacy == old(legacy) - r.FoldedChecks(folded[..i])
      {
        acts, t := ObserveNextFolded(r, folded, i, acts, t0, t, old(legacy));
      }
      assert folded[..|folded|] == folded;
    }

    method ObserveNextFolded(r: PollResult, folded: seq<nat>, i: nat, acts0: seq<Action>, ghost t0: Trail,
                             ghost t1: Trail, ghost leftovers: set<Check>)
      returns (acts: seq<Action>, ghost t: Trail)
      requires Valid() && r.node !in t0.retired && r.Chosen(|r.samples|, folded) && i < |folded|
      requires LeadsTo(env, t1, View(), acts0) && Continues(t0, t1, r.FoldSteps(folded[..i], leftovers))
      requires legacy == leftovers - r.FoldedChecks(folded[..i])
      modifies this`states, this`live, this`down, this`active, this`releasing, this`sidePending, this`held, this`legacy
      ensures Valid() && LeadsTo(env, t, View(), acts) && Continues(t0, t, r.FoldSteps(folded[..i + 1], leftovers))
      ensures legacy == leftovers - r.FoldedChecks(folded[..i + 1])
    {
      FoldedOneMore(r, folded, i, leftovers);
      var sample := r.samples[folded[i]];
      var seen := r.Judged(sample, r.RuleOf(sample).value);
      ghost var steps := [Retiring(legacy - {seen.c}), seen];
      acts, t := ObserveChosen(seen, acts0, t1);
      ContinuesOn(t0, t1, t, r.FoldSteps(folded[..i], leftovers), steps);
    }

    /**
     * Take in one poll result: its liveness, each port's sample, the worst sample of
     * each node-wide metric, and the table rows that breach or hold a state.
     */
    method Observe(r: PollResult, acts0: seq<Action>, ghost t0: Trail)
      returns (acts: seq<Action>, ghost t: Trail, ghost folded: seq<nat>)
      requires Valid() && r.Valid() && r.node !in t0.retired && LeadsTo(env, t0, View(), acts0)
      modifies this`states, this`live, this`down, this`active, this`releasing, this`sidePending, this`held
      modifies this`rowStates, this`legacy
      ensures Valid() && LeadsTo(env, t, View(), acts) && r.IsFold(|r.samples|, folded)
      ensures Continues(t0, t, ResultSteps(r, folded, old(rowStates), old(legacy)))
      ensures r.maintenance && StartedSound(t0) ==> OnlyResolvesAdded(acts0, acts)
    {
      ghost var before := View();
      ghost var t1, t2, t3;
      acts, t1 := ObserveLiveness(r, acts0, t0);
      var rows, chosen;
      acts, rows, chosen, t2 := ObserveSamples(r, acts, t1);
      folded := chosen;
      acts, t3 := ObserveFolded(r, chosen, acts, t2);
      RowsSeenAreValid(r, |r.samples|);
      acts, t := ObserveRows(rows, r.maintenance, acts, t3);
      ghost var a, b := r.LivenessSteps(), r.PortSteps(|r.samples|);
      ghost var f, w := r.FoldSteps(folded, old(legacy)),
                        RowSteps(rows, old(rowStates), old(legacy) - r.FoldedChecks(folded), r.maintenance);
      ContinuesFourTimes(t0, t1, t2, t3, t, a, b, f, w);
      if r.maintenance && StartedSound(t0) {
        MaintenanceOnlyResolves(env, r, folded, old(rowStates), old(legacy), t0, t, before, View(), acts0, acts);
      }
    }

    // ----------------------------------------------------------------------------------------
    // Starting up.

    /** Seed each row's tracker, the row index and the node-wide leftovers. */
    method SeedStates(alerts: seq<Alert>)
      modifies this`states, this`rowStates, this`legacy
      ensures forall c: Check :: Lookup(states, c) == Or(old(Lookup(states, c)), SeedFor(FirstAbout(alerts, c)))
      ensures SeedsIndexes(old(View()), View(), alerts)
    {
      for i := 0 to |alerts|
        invariant forall c: Check ::
          Lookup(states, c) == Or(old(Lookup(states, c)), SeedFor(FirstAbout(alerts[..i], c)))
        invariant SeedsIndexes(old(View()), View(), alerts[..i])
      {
        var a := alerts[i];
        if a.check !in states {
          states := states[a.check := SeedOf(a)];
        }
        if IsRowCheck(a.check) {
          rowStates := rowStates + {a.check};
        }
        if IsNodeWide(a.check) {
          legacy := legacy + {a.check};
        }
        forall c: Check
          ensures Lookup(states, c) == Or(old(Lookup(states, c)), SeedFor(FirstAbout(alerts[..i + 1], c)))
        {
          FirstAboutOneMore(alerts, i, c);
        }
        IndexesOneMore(alerts, i);
      }
      assert alerts[..|alerts|] == alerts;
    }

    /** Take the committed liveness of nodes not yet observed from the rows; report who is down. */
    method SeedLive(alerts: seq<Alert>) returns (newlyDown: set<NodeId>)
      modifies this`live
      ensures forall n: NodeId :: Lookup(live, n) == Or(old(Lookup(live, n)), StateOf(FirstAbout(alerts, Liveness(n))))
      ensures forall n: NodeId :: n in newlyDown <==> n !in old(live) && WasDown(View(), n)
    {
      newlyDown := {};
      for i := 0 to |alerts|
        invariant forall n: NodeId ::
          Lookup(live, n) == Or(old(Lookup(live, n)), StateOf(FirstAbout(alerts[..i], Liveness(n))))
        invariant forall n: NodeId :: n in newlyDown <==> n !in old(live) && WasDown(View(), n)
      {
        var a := alerts[i];
        ghost var before := live;
        if a.check.Liveness? && a.check.node !in live {
          live := live[a.check.node := a.state];
          if a.state == Unreachable {
            newlyDown := newlyDown + {a.check.node};
          }
        }
        forall n: NodeId
          ensures Lookup(live, n) == Or(old(Lookup(live, n)), StateOf(FirstAbout(alerts[..i + 1], Liveness(n))))
        {
          FirstAboutOneMore(alerts, i, Liveness(n));
          assert Lookup(before, n) == Or(old(Lookup(live, n)), StateOf(FirstAbout(alerts[..i], Liveness(n))));
        }
      }
      assert alerts[..|alerts|] == alerts;
    }

    /** The liveness map and the down set move together. */
    method SeedDown(alerts: seq<Alert>)
      modifies this`live, this`down
      ensures forall n: NodeId :: Lookup(live, n) == Or(old(Lookup(live, n)), StateOf(FirstAbout(alerts, Liveness(n))))
      ensures forall n: NodeId :: n in down <==> n in old(down) || (n !in old(live) && WasDown(View(), n))
    {
      var newlyDown := SeedLive(alerts);
      down := down + newlyDown;
    }

    /** Open the rows' alerts, each attributed to `downNow` where it belongs. */
    method SeedActive(alerts: seq<Alert>, downNow: set<NodeId>) returns (open: nat)
      requires Valid()
      modifies this`active
      ensures Valid() && open == |active|
      ensures forall c: Check ::
        Lookup(active, c) == Or(old(Lookup(active, c)), AttributedRow(env, FirstAbout(alerts, c), downNow))
    {
      var attribution := Attribute(env.graph, downNow);
      for i := 0 to |alerts|
        invariant Keyed(active)
        invariant forall c: Check ::
          Lookup(active, c) == Or(old(Lookup(active, c)), AttributedRow(env, FirstAbout(alerts[..i], c), downNow))
      {
        var a := alerts[i];
        if a.check.Liveness? {
          a := a.(rootCause := Lookup(attribution, a.check.node));
        } else if a.check.Node().Some? && a.check.Node().value in downNow {
          a := a.(rootCause := a.check.Node());
        }
        assert a == Attributed(env, alerts[i], downNow);
        if a.check !in active {
          active := active[a.check := a];
        }
        forall c: Check
          ensures Lookup(active, c) ==
                  Or(old(Lookup(active, c)), AttributedRow(env, FirstAbout(alerts[..i + 1], c), downNow))
        {
          FirstAboutOneMore(alerts, i, c);
        }
      }
      assert alerts[..|alerts|] == alerts;
      return |active|;
    }

    /**
     * Seed the engine with the alerts its fleet left open. What it has observed already wins. Answers
     * how many alerts are open afterwards, and zero without looking when there is nothing to seed.
     */
    method Restore(alerts: seq<Alert>) returns (open: nat)
      requires Valid()
      modifies this`states, this`active, this`live, this`down, this`rowStates, this`legacy
      ensures Valid() && RestoreStep(env, old(View()), View(), alerts)
      ensures open == if alerts == [] then 0 else |active|
    {
      if alerts == [] {
        return 0;
      }
      SeedStates(alerts);
      SeedDown(alerts);
      open := SeedActive(alerts, down);
      SeededEverywhere(env, old(View()), View(), alerts, down);
    }

    /** Bring back what was open about deleted nodes; the next sweep closes it. */
    method RestoreDeleted(alerts: seq<Alert>) returns (open: nat)
      requires Valid()
      modifies this`states, this`active, this`rowStates, this`legacy
      ensures Valid() && RestoreDeletedStep(env, old(View()), View(), alerts)
      ensures open == if alerts == [] then 0 else |active|
    {
      if alerts == [] {
        return 0;
      }
      SeedStates(alerts);
      open := SeedActive(alerts, {});
      SeededEverywhere(env, old(View()), View(), alerts, {});
    }
  }

  /** One more action to deliver, about a check not yet listed. */
  method Push(acts0: seq<Action>, ghost em0: Emission, c: Check, act: Option<Action>)
    returns (acts: seq<Action>, ghost em: Emission)
    requires Lists(acts0, em0) && c !in em0 && (act.Some? ==> act.value.alert.check == c)
    ensures Lists(acts, em)
    ensures em == With(em0, c, act)
    ensures acts == if act.Some? then acts0 + [act.value] else acts0
  {
    acts, em := acts0, em0;
    if act.Some? {
      acts, em := acts0 + [act.value], em0[c := act.value];
      assert acts[|acts0|] == act.value;
      forall x | x in em
        ensures em[x] in acts
      {
        if x != c {
          assert em0[x] in acts0;
        }
      }
    }
  }

  lemma ListsTogether(a: seq<Action>, m: Emission, b: seq<Action>, n: Emission, c: Check)
    requires Lists(a, m) && Lists(b, n) && m.Keys <= {c} && c !in n
    ensures Lists(a + b, m + n)
  {
  }

  lemma SweepsOneMore(env: Env, s: State, mid: State, s': State, done: set<Check>, c: Check, changed: Option<NodeId>,
                      em: Emission, act: Option<Action>)
    requires SweptSoFar(env, s, mid, done, changed, em) && OnlyLane(mid, s', c) && c !in done
    requires LaneOf(s', c) == Swept(c, LaneOf(mid, c), RcNow(env, c, s.down), changed)
    requires act == SweptAction(c, LaneOf(mid, c), RcNow(env, c, s.down), changed)
    ensures SweptSoFar(env, s, s', done + {c}, changed, With(em, c, act))
  {
    assert LaneOf(mid, c) == LaneOf(s, c) && c !in em;
    forall x: Check
      ensures if x in done + {c} then SweptTo(env, s, s', s.down, x, changed, With(em, c, act))
              else LaneOf(s', x) == LaneOf(s, x) && x !in With(em, c, act)
    {
      if x != c {
        assert LaneOf(s', x) == LaneOf(mid, x);
        SweptStill(env, s, mid, s', done, x, changed, em, c, act);
      }
    }
  }

  /** The next check's sweep leaves the others alone. */
  lemma SweptStill(env: Env, s: State, mid: State, s': State, done: set<Check>, x: Check, changed: Option<NodeId>,
                   em: Emission, c: Check, act: Option<Action>)
    requires if x in done then SweptTo(env, s, mid, s.down, x, changed, em)
             else LaneOf(mid, x) == LaneOf(s, x) && x !in em
    requires LaneOf(s', x) == LaneOf(mid, x) && x != c
    ensures if x in done then SweptTo(env, s, s', s.down, x, changed, With(em, c, act))
            else LaneOf(s', x) == LaneOf(s, x) && x !in With(em, c, act)
  {
  }

  lemma OwnLaneObserved(env: Env, s: State, mid: State, s': State, c: Check, o: Obs, act: Option<Action>)
    requires c.Node().Some? && WeighedTo(s, mid, c, o) && ActedOn(env, mid, s', c, o, Committed(LaneOf(s, c), o), act)
    ensures var l, down := LaneOf(s, c), NextDown(s, c, Weighed(LaneOf(s, c), o));
            var rc, wait := RcNow(env, c, down), WaitOn(env, s, c, o);
            LaneOf(s', c) == Observed(c, l, o, rc, wait) && act == ObservedAction(c, l, o, rc, wait)
  {
    assert LaneOf(mid, c) == LaneOf(s, c).(tracker := Some(Weighed(LaneOf(s, c), o)));
    TrackerAside(c, LaneOf(s, c), LaneOf(mid, c), o, Committed(LaneOf(s, c), o), RcNow(env, c, mid.down),
                 WaitNow(env, mid, c, o.at));
  }

  /** What a lane emits does not depend on its tracker. */
  lemma TrackerAside(c: Check, l: Lane, fed: Lane, o: Obs, t: Option<Transition>, rc: Option<NodeId>, wait: Option<int>)
    requires fed == l.(tracker := fed.tracker)
    ensures ClosedAction(fed) == ClosedAction(l) && SettledAction(fed, o) == SettledAction(l, o)
    ensures t.Some? ==> TransitedAction(c, fed, o, t.value, rc, wait) == TransitedAction(c, l, o, t.value, rc, wait)
  {
  }

  lemma OtherLanesKept(env: Env, s: State, mid: State, s': State, c: Check, o: Obs, x: Check)
    requires WeighedTo(s, mid, c, o) && OnlyLane(mid, s', c) && x != c
    ensures LaneOf(s', x) == LaneOf(s, x)
  {
    assert LaneOf(mid, x) == LaneOf(s, x);
  }

  lemma ObservedAlone(env: Env, s: State, mid: State, s': State, c: Check, o: Obs, act: Option<Action>, em: Emission)
    requires c.Node().Some? && WeighedTo(s, mid, c, o) && ActedOn(env, mid, s', c, o, Committed(LaneOf(s, c), o), act)
    requires !SweepFollows(s, c, o) && em == if act.Some? then map[c := act.value] else map[]
    ensures ObserveStep(env, s, s', c, o, em)
  {
    OwnLaneObserved(env, s, mid, s', c, o, act);
    forall x: Check | x != c
      ensures LaneOf(s', x) == LaneOf(s, x)
    {
      OtherLanesKept(env, s, mid, s', c, o, x);
    }
  }

  lemma ObservedThenSwept(env: Env, s: State, mid: State, acted: State, s': State, c: Check, o: Obs,
                          act: Option<Action>, sweptEm: Emission, em: Emission)
    requires c.Liveness? && WeighedTo(s, mid, c, o) && ActedOn(env, mid, acted, c, o, Committed(LaneOf(s, c), o), act)
    requires SweepFollows(s, c, o) && SameBeside(acted, s')
    requires forall x: Check :: SweptTo(env, acted, s', acted.down, x, c.Node(), sweptEm)
    requires em == (if act.Some? then map[c := act.value] else map[]) + sweptEm
    ensures ObserveStep(env, s, s', c, o, em) && c !in sweptEm
  {
    OwnLaneObserved(env, s, mid, acted, c, o, act);
    OwnLaneUnswept(env, acted, s', c, sweptEm);
    forall x: Check | x != c
      ensures SweptTo(env, s, s', acted.down, x, c.Node(), em)
    {
      OtherLanesKept(env, s, mid, acted, c, o, x);
      SweptBeside(env, s, acted, s', c, x, act, sweptEm, em);
    }
  }

  /** A sweep does not visit the node whose liveness moved. */
  lemma OwnLaneUnswept(env: Env, acted: State, s': State, c: Check, sweptEm: Emission)
    requires c.Liveness? && SweptTo(env, acted, s', acted.down, c, c.Node(), sweptEm)
    ensures LaneOf(s', c) == LaneOf(acted, c) && c !in sweptEm
  {
  }

  lemma SweptBeside(env: Env, s: State, acted: State, s': State, c: Check, x: Check, act: Option<Action>,
                    sweptEm: Emission, em: Emission)
    requires x != c && LaneOf(acted, x) == LaneOf(s, x)
    requires SweptTo(env, acted, s', acted.down, x, c.Node(), sweptEm)
    requires em == (if act.Some? then map[c := act.value] else map[]) + sweptEm
    ensures SweptTo(env, s, s', acted.down, x, c.Node(), em)
  {
  }

  lemma ReleasesOneMore(s: State, mid: State, s': State, gone: set<Check>, c: Check, em: Emission, act: Option<Action>)
    requires ReleasedSoFar(s, mid, gone, em) && OnlyLane(mid, s', c) && c !in gone
    requires LaneOf(s', c) == LetGo(LaneOf(mid, c)) && act == LetGoAction(LaneOf(mid, c))
    ensures ReleasedSoFar(s, s', gone + {c}, With(em, c, act))
  {
    assert LaneOf(mid, c) == LaneOf(s, c) && c !in em;
    forall x: Check
      ensures if x in gone + {c} then LetGoTo(s, s', x, With(em, c, act))
              else LaneOf(s', x) == LaneOf(s, x) && x !in With(em, c, act)
    {
      assert x in gone ==> LetGoTo(s, mid, x, em);
    }
  }

  /** Of the held notifications not in `left`, those in `gone` need not wait any longer. */
  ghost predicate Asked(env: Env, s: State, left: set<Check>, gone: set<Check>, now: int, paused: NodeId -> bool) {
    && left <= s.held.Keys && gone <= s.held.Keys - left
    && forall x :: x in s.held.Keys - left ==> (x in gone <==> !StillWaits(env, s, x, now, paused))
  }

  lemma AskedOneMore(env: Env, s: State, left: set<Check>, gone: set<Check>, c: Check, now: int, paused: NodeId -> bool)
    requires Asked(env, s, left, gone, now, paused) && c in left
    ensures Asked(env, s, left - {c}, if StillWaits(env, s, c, now, paused) then gone else gone + {c}, now, paused)
    ensures c in s.held && c !in gone
  {
  }

  lemma AskedAll(env: Env, s: State, gone: set<Check>, now: int, paused: NodeId -> bool)
    requires Asked(env, s, {}, gone, now, paused)
    ensures gone == Due(env, s, now, paused)
  {
  }

  /** Releasing some notifications changes nobody else's question. */
  lemma SameQuestion(env: Env, s: State, s': State, gone: set<Check>, c: Check, now: int, paused: NodeId -> bool,
                     em: Emission)
    requires ReleasedSoFar(s, s', gone, em) && c !in gone && s'.states == s.states && s'.down == s.down
    ensures Lookup(s'.held, c) == Lookup(s.held, c)
    ensures StillWaits(env, s', c, now, paused) == StillWaits(env, s, c, now, paused)
  {
    assert LaneOf(s', c) == LaneOf(s, c);
    assert Lookup(s'.active, c) == Lookup(s.active, c);
  }

  /** A set listed in some order. */
  method Listing<T>(all: set<T>) returns (q: seq<T>)
    ensures Members(q) == all
  {
    q := [];
    var left := all;
    while left != {}
      invariant Members(q) + left == all
      decreases left
    {
      var x :| x in left;
      assert Members(q + [x]) == Members(q) + {x};
      q, left := q + [x], left - {x};
    }
  }

  lemma AlreadyClosed(s: State, mid: State, done: set<Check>, c: Check, em: Emission)
    requires OrphanStep(s, mid, done, em)
    ensures c in em ==> ClosedAction(LaneOf(mid, c)).None?
  {
    assert Emits(em, c, None) || LaneOf(mid, c) == Orphaned(LaneOf(s, c));
  }

  lemma OrphansOneMore(s: State, mid: State, s': State, done: set<Check>, c: Check, em: Emission, act: Option<Action>)
    requires OrphanStep(s, mid, done, em) && OnlyLane(mid, s', c)
    requires LaneOf(s', c) == Orphaned(LaneOf(mid, c)) && act == ClosedAction(LaneOf(mid, c))
    ensures OrphanStep(s, s', done + {c}, With(em, c, act))
  {
    forall x: Check
      ensures OrphanedTo(s, s', done + {c}, x, With(em, c, act))
    {
      assert OrphanedTo(s, mid, done, x, em);
      if x == c {
        OrphanedNow(s, mid, s', done, c, em, act);
      } else {
        assert LaneOf(s', x) == LaneOf(mid, x);
        OrphanedStill(s, mid, s', done, x, em, c, act);
      }
    }
  }

  lemma OrphanedStill(s: State, mid: State, s': State, done: set<Check>, x: Check, em: Emission, c: Check,
                      act: Option<Action>)
    requires OrphanedTo(s, mid, done, x, em) && LaneOf(s', x) == LaneOf(mid, x) && x != c
    ensures OrphanedTo(s, s', done + {c}, x, With(em, c, act))
  {
  }

  lemma OrphanedNow(s: State, mid: State, s': State, done: set<Check>, c: Check, em: Emission, act: Option<Action>)
    requires OrphanedTo(s, mid, done, c, em)
    requires LaneOf(s', c) == Orphaned(LaneOf(mid, c)) && act == ClosedAction(LaneOf(mid, c))
    ensures OrphanedTo(s, s', done + {c}, c, With(em, c, act))
  {
    OrphanedTwice(LaneOf(s, c));
  }

  lemma OrphanedTwice(l: Lane)
    ensures Orphaned(Orphaned(l)) == Orphaned(l) && ClosedAction(Orphaned(l)).None?
  {
  }

  lemma ForgottenAsOrphans(s: State, trimmed: State, s': State, kept: set<NodeId>, orphans: set<Check>, em: Emission)
    requires OrphanStep(trimmed, s', orphans, em)
    requires trimmed == s.(live := s.live - (s.live.Keys - kept), down := s.down - (s.live.Keys - kept),
                           rowStates := trimmed.rowStates)
    requires trimmed.rowStates == set c | c in s.rowStates && !(c.Node().Some? && c.Node().value in s.live.Keys - kept)
    requires orphans == set c | c in s.active && AboutDeleted(c, kept)
    ensures ForgetStep(s, s', kept, em)
  {
    forall x: Check
      ensures if AboutDeleted(x, kept) then
                LaneOf(s', x) == Orphaned(LaneOf(s, x)) && Emits(em, x, ClosedAction(LaneOf(s, x)))
              else LaneOf(s', x) == LaneOf(s, x) && Emits(em, x, None)
    {
      assert LaneOf(trimmed, x) == LaneOf(s, x);
      assert x in orphans <==> AboutDeleted(x, kept) && LaneOf(s, x).alert.Some?;
    }
  }

  lemma IndexesOneMore(alerts: seq<Alert>, i: nat)
    requires i < |alerts|
    ensures RowChecks(alerts[..i + 1]) == RowChecks(alerts[..i])
            + if IsRowCheck(alerts[i].check) then {alerts[i].check} else {}
    ensures NodeWides(alerts[..i + 1]) == NodeWides(alerts[..i])
            + if IsNodeWide(alerts[i].check) then {alerts[i].check} else {}
  {
    var p, q := alerts[..i], alerts[..i + 1];
    assert q == p + [alerts[i]];
    forall c: Check
      ensures c in RowChecks(q) ==> c in RowChecks(p) || c == alerts[i].check
      ensures c in NodeWides(q) ==> c in NodeWides(p) || c == alerts[i].check
      ensures c in RowChecks(p) ==> c in RowChecks(q)
      ensures c in NodeWides(p) ==> c in NodeWides(q)
    {
      if c in RowChecks(q) || c in NodeWides(q) {
        var j :| 0 <= j < |q| && q[j].check == c;
        assert j < i ==> p[j] == q[j];
      }
      if c in RowChecks(p) || c in NodeWides(p) {
        var j :| 0 <= j < |p| && p[j].check == c;
        assert p[j] == q[j];
      }
    }
    assert q[i] == alerts[i];
  }

  lemma SeededEverywhere(env: Env, s: State, s': State, alerts: seq<Alert>, down: set<NodeId>)
    requires forall c: Check :: Lookup(s'.states, c) == Or(Lookup(s.states, c), SeedFor(FirstAbout(alerts, c)))
    requires forall c: Check ::
      Lookup(s'.active, c) == Or(Lookup(s.active, c), AttributedRow(env, FirstAbout(alerts, c), down))
    requires s'.sidePending == s.sidePending && s'.releasing == s.releasing && s'.held == s.held
    ensures forall c: Check :: LaneOf(s', c) == SeededLane(env, LaneOf(s, c), FirstAbout(alerts, c), down)
  {
  }
}
