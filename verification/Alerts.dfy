/** What an alert says: the severity of its state, and the sample it was opened or refreshed with. */
module Alerts {
  import opened Base
  import opened CheckStates
  import opened Lanes
  import opened LaneProofs
  import opened Engine
  import opened EngineProofs
  import opened Runs
  import opened Lifelines

  /** The severity of each state that warrants an alert. */
  predicate Tells(a: Alert) {
    match a.state
    case Warning => a.severity == SevWarning
    case Critical => a.severity == SevCritical
    case Unreachable => a.severity == SevCritical
    case _ => false
  }

  /** The checks the engine opens and closes by itself, from what it observes. */
  predicate IsWatched(c: Check) {
    c.Liveness? || c.Threshold?
  }

  ghost predicate AllTell(s: State) {
    forall c :: c in s.active && IsWatched(c) ==> Tells(s.active[c])
  }

  predicate LaneTells(l: Lane) {
    l.alert.Some? ==> Tells(l.alert.value)
  }

  lemma SettledTells(l: Lane, o: Obs)
    requires LaneTells(l)
    ensures LaneTells(Settled(l, o)) && (SettledAction(l, o).Some? ==> Tells(SettledAction(l, o).value.alert))
  {
  }

  lemma TransitedTells(c: Check, l: Lane, o: Obs, t: Transition, rc: Option<NodeId>, wait: Option<int>)
    requires LaneTells(l)
    ensures LaneTells(Transited(c, l, o, t, rc, wait))
    ensures var act := TransitedAction(c, l, o, t, rc, wait); act.Some? ==> Tells(act.value.alert)
  {
  }

  lemma ObservedTells(c: Check, l: Lane, o: Obs, rc: Option<NodeId>, wait: Option<int>)
    requires LaneTells(l)
    ensures LaneTells(Observed(c, l, o, rc, wait))
    ensures var act := ObservedAction(c, l, o, rc, wait); act.Some? ==> Tells(act.value.alert)
  {
    var weighed := l.(tracker := Some(Weighed(l, o)));
    SettledTells(l, o);
    SettledTells(weighed, o);
    if Committed(l, o).Some? {
      TransitedTells(c, l, o, Committed(l, o).value, rc, wait);
      TransitedTells(c, weighed, o, Committed(l, o).value, rc, wait);
    }
  }

  /** But for its roll-up marker and its hold mark, the alert is the same. */
  predicate SameButMarks(a: Alert, b: Alert) {
    b == a.(rootCause := b.rootCause, heldUntil := b.heldUntil)
  }

  lemma SweptKeepsTheRest(c: Check, l: Lane, rc: Option<NodeId>, changed: Option<NodeId>)
    ensures var l' := Swept(c, l, rc, changed);
            l'.alert.Some? ==> l.alert.Some? && SameButMarks(l.alert.value, l'.alert.value)
    ensures var act := SweptAction(c, l, rc, changed);
            act.Some? ==> l.alert.Some? && SameButMarks(l.alert.value, act.value.alert)
  {
  }

  /** Only a check's own observations open its alert or change more than its marks. */
  lemma OthersKeepTheRest(env: Env, s: State, down: set<NodeId>, step: Step, c: Check, l': Lane, act: Option<Action>,
                          retired: set<NodeId>)
    requires LaneTakes(env, s, down, step, c, l', act) && Legal(step, retired)
    requires IsWatched(c) && !(step.Observing? && step.c == c)
    ensures var a := LaneOf(s, c).alert;
            && (l'.alert.Some? ==> a.Some? && SameButMarks(a.value, l'.alert.value))
            && (act.Some? ==> a.Some? && SameButMarks(a.value, act.value.alert))
  {
    SweptKeepsTheRest(c, LaneOf(s, c), RcNow(env, c, down), if step.Observing? then step.c.Node() else None);
  }

  lemma OthersTell(env: Env, s: State, down: set<NodeId>, step: Step, c: Check, l': Lane, act: Option<Action>,
                   retired: set<NodeId>)
    requires LaneTakes(env, s, down, step, c, l', act) && Legal(step, retired)
    requires IsWatched(c) && LaneTells(LaneOf(s, c)) && !(step.Observing? && step.c == c)
    ensures LaneTells(l') && (act.Some? ==> Tells(act.value.alert))
  {
    OthersKeepTheRest(env, s, down, step, c, l', act, retired);
  }

  lemma StepTells(s: State, retired: set<NodeId>, e: Entry, c: Check)
    requires Inv(s, retired) && Follows(s, retired, e) && IsWatched(c) && LaneTells(LaneOf(s, c))
    ensures LaneTells(LaneOf(e.post, c)) && (c in e.em ==> Tells(e.em[c].alert))
  {
    LaneOfStep(e.env, s, e.post, e.step, e.em, c);
    if e.step.Observing? && e.step.c == c {
      ObservedTells(c, LaneOf(s, c), e.step.o, RcNow(e.env, c, e.post.down), WaitOn(e.env, s, c, e.step.o));
    } else {
      OthersTell(e.env, s, e.post.down, e.step, c, LaneOf(e.post, c), Lookup(e.em, c), retired);
    }
  }

  /**
   * After every run each open liveness or threshold alert carries the severity of its state, `Warning`
   * as a warning, `Critical` and `Unreachable` as critical, and so does everything delivered about such
   * a check; all it takes is that the alerts open at the start did, as none is at an empty one.
   */
  lemma {:induction false} SeverityTellsTheState(s: State, retired: set<NodeId>, run: seq<Entry>)
    requires Inv(s, retired) && IsRun(s, retired, run) && AllTell(s)
    ensures AllTell(EndState(s, run))
    ensures forall i :: 0 <= i < |Log(run)| && IsWatched(Log(run)[i].alert.check) ==> Tells(Log(run)[i].alert)
  {
    if run != [] {
      var init, last := run[..|run| - 1], run[|run| - 1];
      LastEntry(s, retired, run);
      SeverityTellsTheState(s, retired, init);
      RunStaysSound(s, retired, init);
      EntryTells(EndState(s, init), EndRetired(s, retired, init), last);
    }
  }

  lemma EntryTells(s: State, retired: set<NodeId>, e: Entry)
    requires Inv(s, retired) && Follows(s, retired, e) && AllTell(s)
    ensures AllTell(e.post)
    ensures forall i :: 0 <= i < |e.acts| && IsWatched(e.acts[i].alert.check) ==> Tells(e.acts[i].alert)
  {
    forall c | IsWatched(c)
      ensures LaneTells(LaneOf(e.post, c)) && (c in e.em ==> Tells(e.em[c].alert))
    {
      assert LaneOf(s, c).alert == Lookup(s.active, c);
      StepTells(s, retired, e, c);
    }
    assert forall c :: c in e.post.active ==> LaneOf(e.post, c).alert == Some(e.post.active[c]);
  }

  /** An alert opened with a transition is flagged as flapping when the transition is. */
  lemma AnOpenedAlertIsFlagged(env: Env, s: State, s': State, c: Check, o: Obs, em: Emission)
    requires ObsOk(c, o) && o.alerting && ObserveStep(env, s, s', c, o, em)
    requires Committed(LaneOf(s, c), o).Some? && o.raw in {Warning, Critical, Unreachable}
    ensures c in s'.active && s'.active[c].flapping == Committed(LaneOf(s, c), o).value.flapping
  {
    assert LaneOf(s', c).alert == Lookup(s'.active, c);
  }

  // ------------------------------------------------------------------------------------------
  // Which sample an alert describes.

  /** The bound of a severity on the side a sample was judged on. */
  function BoundOf(sev: Severity, ev: Eval): Option<real> {
    if sev == SevCritical then ev.critical else ev.warning
  }

  /** The alert describes this observation: its time, its state, its value, the side and that side's bound. */
  predicate Describes(a: Alert, o: Obs) {
    && a.at == o.at && a.state == o.raw
    && match o.eval
       case None => a.breach.None?
       case Some(ev) => a.breach == Some(Breach(ev.value, BoundOf(a.severity, ev), ev.direction))
  }

  /** It describes one of the observations, and goes by the row name of one of them at its state. */
  ghost predicate SaysWhatWasSeen(a: Alert, os: seq<Obs>) {
    && (exists o :: o in os && Describes(a, o))
    && (exists o :: o in os && a.state == o.raw && a.rowName == o.rowName)
  }

  ghost predicate LaneSays(l: Lane, os: seq<Obs>) {
    l.alert.Some? ==> Tells(l.alert.value) && SaysWhatWasSeen(l.alert.value, os)
  }

  lemma SaysStill(a: Alert, b: Alert, os: seq<Obs>, more: seq<Obs>)
    requires SaysWhatWasSeen(a, os) && b == a.(rootCause := b.rootCause, heldUntil := b.heldUntil)
    ensures SaysWhatWasSeen(b, os + more)
  {
    var o :| o in os && Describes(a, o);
    assert o in os + more && Describes(b, o);
    var p :| p in os && a.state == p.raw && a.rowName == p.rowName;
    assert p in os + more && b.rowName == p.rowName;
  }

  /** An action about a check that says what was seen. */
  ghost predicate ActSays(act: Option<Action>, os: seq<Obs>) {
    act.Some? ==> SaysWhatWasSeen(act.value.alert, os)
  }

  lemma OthersSay(env: Env, s: State, down: set<NodeId>, step: Step, c: Check, l': Lane, act: Option<Action>,
                  retired: set<NodeId>, os: seq<Obs>)
    requires LaneTakes(env, s, down, step, c, l', act) && Legal(step, retired)
    requires IsWatched(c) && LaneSays(LaneOf(s, c), os) && !(step.Observing? && step.c == c)
    ensures LaneSays(l', os) && ActSays(act, os)
  {
    OthersTell(env, s, down, step, c, l', act, retired);
    OthersKeepTheRest(env, s, down, step, c, l', act, retired);
    assert os + [] == os;
    if l'.alert.Some? {
      SaysStill(LaneOf(s, c).alert.value, l'.alert.value, os, []);
    }
    if act.Some? {
      SaysStill(LaneOf(s, c).alert.value, act.value.alert, os, []);
    }
  }

  /** An observation leaves an alert as it was but for its marks, or describes itself. */
  predicate OldOrNew(l: Lane, a: Alert, o: Obs) {
    || (l.alert.Some? && SameButMarks(l.alert.value, a))
    || (Describes(a, o) && (a.rowName == o.rowName ||
                            (l.alert.Some? && a.rowName == l.alert.value.rowName && a.state == l.alert.value.state)))
  }

  lemma SettledOldOrNew(l: Lane, o: Obs)
    requires LaneTells(l)
    ensures Settled(l, o).alert.Some? ==> OldOrNew(l, Settled(l, o).alert.value, o)
    ensures SettledAction(l, o).Some? ==> OldOrNew(l, SettledAction(l, o).value.alert, o)
  {
  }

  lemma TransitedOldOrNew(c: Check, l: Lane, o: Obs, t: Transition, rc: Option<NodeId>, wait: Option<int>)
    requires t.state == o.raw
    ensures var l' := Transited(c, l, o, t, rc, wait); l'.alert.Some? ==> OldOrNew(l, l'.alert.value, o)
    ensures var act := TransitedAction(c, l, o, t, rc, wait); act.Some? ==> OldOrNew(l, act.value.alert, o)
  {
  }

  lemma ObservedOldOrNew(c: Check, l: Lane, o: Obs, rc: Option<NodeId>, wait: Option<int>)
    requires LaneTells(l)
    ensures var l' := Observed(c, l, o, rc, wait); l'.alert.Some? ==> OldOrNew(l, l'.alert.value, o)
    ensures var act := ObservedAction(c, l, o, rc, wait); act.Some? ==> OldOrNew(l, act.value.alert, o)
  {
    var weighed := l.(tracker := Some(Weighed(l, o)));
    SettledOldOrNew(l, o);
    SettledOldOrNew(weighed, o);
    if Committed(l, o).Some? {
      TransitedOldOrNew(c, l, o, Committed(l, o).value, rc, wait);
      TransitedOldOrNew(c, weighed, o, Committed(l, o).value, rc, wait);
    }
  }

  lemma OldOrNewSays(l: Lane, a: Alert, os: seq<Obs>, o: Obs)
    requires OldOrNew(l, a, o) && LaneSays(l, os)
    ensures SaysWhatWasSeen(a, os + [o])
  {
    if l.alert.Some? && SameButMarks(l.alert.value, a) {
      SaysStill(l.alert.value, a, os, [o]);
    } else {
      assert o in os + [o];
      if a.rowName != o.rowName {
        var p :| p in os && l.alert.value.state == p.raw && l.alert.value.rowName == p.rowName;
        assert p in os + [o];
      }
    }
  }

  lemma ObservedSays(env: Env, s: State, s': State, c: Check, o: Obs, act: Option<Action>, os: seq<Obs>)
    requires LaneSays(LaneOf(s, c), os)
    requires LaneTakes(env, s, s'.down, Observing(c, o), c, LaneOf(s', c), act) && LaneTells(LaneOf(s', c))
    ensures LaneSays(LaneOf(s', c), os + [o]) && ActSays(act, os + [o])
  {
    var l := LaneOf(s, c);
    ObservedOldOrNew(c, l, o, RcNow(env, c, s'.down), WaitOn(env, s, c, o));
    if LaneOf(s', c).alert.Some? {
      OldOrNewSays(l, LaneOf(s', c).alert.value, os, o);
    }
    if act.Some? {
      OldOrNewSays(l, act.value.alert, os, o);
    }
  }

  lemma EntrySays(s: State, retired: set<NodeId>, e: Entry, c: Check, os: seq<Obs>)
    requires Inv(s, retired) && Follows(s, retired, e) && IsWatched(c) && LaneSays(LaneOf(s, c), os)
    ensures LaneSays(LaneOf(e.post, c), os + ObsIn(e.step, c)) && ActSays(Lookup(e.em, c), os + ObsIn(e.step, c))
  {
    StepTells(s, retired, e, c);
    LaneOfStep(e.env, s, e.post, e.step, e.em, c);
    if e.step.Observing? && e.step.c == c {
      ObservedSays(e.env, s, e.post, c, e.step.o, Lookup(e.em, c), os);
    } else {
      OthersSay(e.env, s, e.post.down, e.step, c, LaneOf(e.post, c), Lookup(e.em, c), retired, os);
      assert os + [] == os;
    }
  }

  ghost predicate LogSays(log: seq<Action>, os: seq<Obs>) {
    forall i :: 0 <= i < |log| ==> SaysWhatWasSeen(log[i].alert, os)
  }

  lemma LogSaysMore(log: seq<Action>, act: Option<Action>, os: seq<Obs>, more: seq<Obs>)
    requires LogSays(log, os) && ActSays(act, os + more)
    ensures LogSays(log + AsSeq(act), os + more)
  {
    forall i | 0 <= i < |log|
      ensures SaysWhatWasSeen(log[i].alert, os + more)
    {
      SaysStill(log[i].alert, log[i].alert, os, more);
    }
  }

  /**
   * In every run from a state in which a check has no alert, the alert it has at the end describes one
   * of its own observations: time, state, value, side, and the bound of its severity on that side. Its
   * row name is that of an observation at its state. The same goes for everything delivered about it.
   */
  lemma {:induction false} AnAlertSaysWhatWasSeen(s: State, retired: set<NodeId>, run: seq<Entry>, c: Check)
    requires Inv(s, retired) && IsRun(s, retired, run) && IsWatched(c) && c !in s.active
    ensures LaneSays(LaneOf(EndState(s, run), c), ObsAbout(run, c))
    ensures LogSays(LogAbout(Log(run), c), ObsAbout(run, c))
  {
    if run != [] {
      var init, last := run[..|run| - 1], run[|run| - 1];
      var before := ObsAbout(init, c);
      LastEntry(s, retired, run);
      AnAlertSaysWhatWasSeen(s, retired, init, c);
      RunStaysSound(s, retired, init);
      EntrySays(EndState(s, init), EndRetired(s, retired, init), last, c, before);
      LogAboutGrows(init, last, c);
      LogSaysMore(LogAbout(Log(init), c), Lookup(last.em, c), before, ObsIn(last.step, c));
    }
  }
}
