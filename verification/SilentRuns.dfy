/** Two runs from an empty engine that end in the silences of module Silences. */
module SilentRuns {
  import opened Base
  import opened CheckStates
  import opened Grouping
  import opened Lanes
  import opened Engine
  import opened Restore
  import opened Runs
  import opened Lifelines
  import opened Silences

  const ALONE: Env := Env(LinkGraph(map[], map[], {}, map[], map[], map[], map[], Off), false, (n: NodeId) => None)
  const LIVE: Check := Liveness(1)
  const REPLACED: Check := Marker(1, DeviceReplaced)

  function Polled(raw: NodeState, at: int, ruled: bool): Obs {
    Obs(raw, at, 1, FLAP_WINDOW_FLOOR_MS, ruled, true, None, None)
  }

  /** An engine with nothing to restore starts empty. */
  lemma EmptyIsAStart()
    ensures IsStart(EMPTY, {})
  {
    assert Starts(ALONE, EMPTY, {}, [], [], EMPTY);
  }

  /** An entry that can follow a state in a run that retires nobody. */
  ghost predicate Fits(s: State, e: Entry) {
    Follows(s, {}, e) && !e.step.Forgetting?
  }

  lemma OneListed(a: Action)
    ensures Lists([a], map[a.alert.check := a])
  {
    assert [a][0] == a;
  }

  lemma TwoListed(a: Action, b: Action)
    requires a.alert.check != b.alert.check
    ensures Lists([a, b], map[a.alert.check := a, b.alert.check := b])
  {
    assert [a, b][0] == a && [a, b][1] == b;
  }

  /** A run from the empty engine to `s` that said `said` about a check. */
  ghost predicate Leads(run: seq<Entry>, s: State, x: Check, said: seq<Action>) {
    && IsRun(EMPTY, {}, run) && EndRetired(EMPTY, {}, run) == {} && EndState(EMPTY, run) == s
    && LogAbout(Log(run), x) == said
  }

  lemma LeadsOn(run: seq<Entry>, s: State, x: Check, said: seq<Action>, e: Entry)
    requires Leads(run, s, x, said) && Fits(s, e)
    ensures Leads(run + [e], e.post, x, said + AsSeq(Lookup(e.em, x)))
  {
    RunOneMore(EMPTY, {}, run, e);
    ListedAbout(e.acts, e.em, x);
    LogAboutConcat(Log(run), e.acts, x);
  }

  function Three<T>(a: seq<T>, b: seq<T>, c: seq<T>): seq<T> {
    [] + a + b + c
  }

  /** Three entries from the empty engine, and what they say about a check. */
  lemma ThreeSteps(a: Entry, b: Entry, c: Entry, x: Check)
    requires Fits(EMPTY, a) && Fits(a.post, b) && Fits(b.post, c)
    ensures Leads(Three([a], [b], [c]), c.post, x,
                  Three(AsSeq(Lookup(a.em, x)), AsSeq(Lookup(b.em, x)), AsSeq(Lookup(c.em, x))))
  {
    var first, second := AsSeq(Lookup(a.em, x)), AsSeq(Lookup(b.em, x));
    LeadsOn([], EMPTY, x, [], a);
    LeadsOn([] + [a], a.post, x, [] + first, b);
    LeadsOn([] + [a] + [b], b.post, x, [] + first + second, c);
  }

  // ------------------------------------------------------------------------------------------
  // The node's outage.

  const FAILED: Obs := Polled(Unreachable, 1, true)
  const OUTAGE: Alert := Alert(LIVE, SevCritical, Unreachable, 1, None, Committed(EMPTY_LANE, FAILED).value.flapping,
                               None, None, None)

  /** What the first failed poll leaves behind, given the marker alerts open before it. */
  function AfterFailure(markers: map<Check, Alert>): State {
    EMPTY.(states := map[LIVE := Weighed(EMPTY_LANE, FAILED)], active := markers[LIVE := OUTAGE],
           live := map[1 := Unreachable], down := {1})
  }

  lemma FirstFailure()
    ensures Committed(EMPTY_LANE, FAILED).Some? && Committed(EMPTY_LANE, FAILED).value.state == Unreachable
    ensures Observed(LIVE, EMPTY_LANE, FAILED, None, None) ==
            Lane(Some(Weighed(EMPTY_LANE, FAILED)), Some(OUTAGE), None, None, None)
    ensures ObservedAction(LIVE, EMPTY_LANE, FAILED, None, None) == Some(Fire(OUTAGE))
  {
  }

  // ------------------------------------------------------------------------------------------
  // A device is replaced, its node fails, and comes back.

  const RAISED: Alert := Alert(REPLACED, SevWarning, Warning, 0, None, false, None, None, None)
  const ROLLED: Alert := RAISED.(rootCause := Some(1))
  const BACK: Obs := Polled(Ok, 2, true)

  const MARKED: State := EMPTY.(active := map[REPLACED := RAISED])
  const MARKED_DOWN: State := AfterFailure(map[REPLACED := ROLLED])
  const MARKED_BACK: State :=
    MARKED_DOWN.(states := map[LIVE := Weighed(LaneOf(MARKED_DOWN, LIVE), BACK)], active := map[REPLACED := ROLLED],
                 live := map[1 := Ok], down := {}, releasing := map[REPLACED := 0])

  const RAISE: Entry := Entry(ALONE, Raising(RAISED), map[REPLACED := Fire(RAISED)], [Fire(RAISED)], MARKED)
  const ROLL_UP: Entry :=
    Entry(ALONE, Observing(LIVE, FAILED), map[LIVE := Fire(OUTAGE), REPLACED := Suppress(ROLLED)],
          [Fire(OUTAGE), Suppress(ROLLED)], MARKED_DOWN)
  const RETURN: Entry :=
    Entry(ALONE, Observing(LIVE, BACK), map[LIVE := Resolve(OUTAGE)], [Resolve(OUTAGE)], MARKED_BACK)

  lemma MarkedFails()
    ensures Fits(MARKED, ROLL_UP)
  {
    MarkedFailsStep();
    TwoListed(Fire(OUTAGE), Suppress(ROLLED));
  }

  lemma MarkedFailsStep()
    ensures ObserveStep(ALONE, MARKED, MARKED_DOWN, LIVE, FAILED, ROLL_UP.em)
  {
    FirstFailure();
    assert LaneOf(MARKED, LIVE) == EMPTY_LANE;
  }

  lemma MarkedReturns()
    ensures Fits(MARKED_DOWN, RETURN)
  {
    MarkedReturnsStep();
    OneListed(Resolve(OUTAGE));
  }

  lemma MarkedReturnsStep()
    ensures ObserveStep(ALONE, MARKED_DOWN, MARKED_BACK, LIVE, BACK, RETURN.em)
  {
    FirstFailure();
    assert LaneOf(MARKED_DOWN, LIVE) == Lane(Some(Weighed(EMPTY_LANE, FAILED)), Some(OUTAGE), None, None, None);
  }

  lemma MarkerIsRaised()
    ensures Fits(EMPTY, RAISE)
  {
    assert LaneOf(EMPTY, REPLACED) == EMPTY_LANE;
    OneListed(Fire(RAISED));
  }

  lemma MarkerSaid()
    ensures Three(AsSeq(Lookup(RAISE.em, REPLACED)), AsSeq(Lookup(ROLL_UP.em, REPLACED)),
                  AsSeq(Lookup(RETURN.em, REPLACED)))
            == [Fire(RAISED), Suppress(ROLLED)]
    ensures RolledUp(MARKED_BACK, REPLACED) && 1 !in MARKED_BACK.down
  {
  }

  /** The outage suppresses the alert; the node is back, and nobody is told about it any more. */
  lemma AReplacedDeviceStaysSilent()
    ensures IsStart(EMPTY, {})
    ensures Leads(Three([RAISE], [ROLL_UP], [RETURN]), MARKED_BACK, REPLACED, [Fire(RAISED), Suppress(ROLLED)])
    ensures RolledUp(MARKED_BACK, REPLACED) && 1 !in MARKED_BACK.down
  {
    EmptyIsAStart();
    MarkerIsRaised();
    MarkedFails();
    MarkedReturns();
    ThreeSteps(RAISE, ROLL_UP, RETURN, REPLACED);
    MarkerSaid();
  }

  // ------------------------------------------------------------------------------------------
  // The node fails, its liveness rule is deleted, and created again.

  const UNRULED: Obs := Polled(Unreachable, 2, false)
  const RULED_AGAIN: Obs := Polled(Unreachable, 3, true)

  const DOWN: State := AfterFailure(map[])
  const STRANDED: State := DOWN.(states := map[LIVE := Weighed(LaneOf(DOWN, LIVE), UNRULED)], active := map[])
  const MUTED: State := STRANDED.(states := map[LIVE := Weighed(LaneOf(STRANDED, LIVE), RULED_AGAIN)])

  const FAIL: Entry := Entry(ALONE, Observing(LIVE, FAILED), map[LIVE := Fire(OUTAGE)], [Fire(OUTAGE)], DOWN)
  const DELETE: Entry := Entry(ALONE, Observing(LIVE, UNRULED), map[LIVE := Resolve(OUTAGE)], [Resolve(OUTAGE)],
                               STRANDED)
  const RECREATE: Entry := Entry(ALONE, Observing(LIVE, RULED_AGAIN), map[], [], MUTED)

  lemma OutageBegins()
    ensures Fits(EMPTY, FAIL)
  {
    FirstFailure();
    assert LaneOf(EMPTY, LIVE) == EMPTY_LANE && FAIL.acts[0] == Fire(OUTAGE);
  }

  lemma RuleGoes()
    ensures Fits(DOWN, DELETE)
  {
    FirstFailure();
    assert LaneOf(DOWN, LIVE) == Lane(Some(Weighed(EMPTY_LANE, FAILED)), Some(OUTAGE), None, None, None);
    assert DELETE.acts[0] == Resolve(OUTAGE);
  }

  lemma RuleComesBack()
    ensures Fits(STRANDED, RECREATE) && Mute(LaneOf(MUTED, LIVE))
  {
    FirstFailure();
    assert LaneOf(DOWN, LIVE) == Lane(Some(Weighed(EMPTY_LANE, FAILED)), Some(OUTAGE), None, None, None);
    assert LaneOf(STRANDED, LIVE) == Lane(Some(Weighed(LaneOf(DOWN, LIVE), UNRULED)), None, None, None, None);
  }

  lemma RuleSaid()
    ensures Three(AsSeq(Lookup(FAIL.em, LIVE)), AsSeq(Lookup(DELETE.em, LIVE)), AsSeq(Lookup(RECREATE.em, LIVE)))
            == [Fire(OUTAGE), Resolve(OUTAGE)]
  {
  }

  /** The rule is back in force and the node is down, yet no alert is open and nothing was said. */
  lemma ARecreatedRuleSaysNothing()
    ensures IsStart(EMPTY, {})
    ensures Leads(Three([FAIL], [DELETE], [RECREATE]), MUTED, LIVE, [Fire(OUTAGE), Resolve(OUTAGE)])
    ensures Mute(LaneOf(MUTED, LIVE)) && 1 in MUTED.down
  {
    EmptyIsAStart();
    OutageBegins();
    RuleGoes();
    RuleComesBack();
    ThreeSteps(FAIL, DELETE, RECREATE, LIVE);
    RuleSaid();
  }
}
