/** One check's committed state: dwell hysteresis plus flapping detection. */
module CheckStates {
  import opened Base
  import opened Hysteresis
  import opened Flapping

  /** Transitions inside the flap window that make a check flapping. */
  const FLAP_THRESHOLD: nat := 5
  /** Polls one flap window spans, and its floor of ten minutes. */
  const FLAP_WINDOW_POLLS: nat := 20
  const FLAP_WINDOW_FLOOR_MS: nat := 600_000
  /** The liveness dwell where no rule says otherwise. */
  const DEFAULT_LIVENESS_DWELL: nat := 3

  datatype CheckState = CheckState(tracker: Tracker, flap: Flap)

  /** The state a check has newly committed, flagged when it flaps. */
  datatype Transition = Transition(state: NodeState, flapping: bool)

  function NewCheckState(initial: NodeState, dwell: nat, window: int): CheckState {
    CheckState(Seeded(initial, dwell), Fresh(window, FLAP_THRESHOLD))
  }

  function RestoredCheckState(state: NodeState, dwell: nat, window: int): CheckState {
    CheckState(Restored(state, dwell), Fresh(window, FLAP_THRESHOLD))
  }

  /** Re-point the dwell and the flap window at what the check's rule and interval say now. */
  function Repointed(cs: CheckState, dwell: nat, window: int): CheckState {
    CheckState(WithDwell(cs.tracker, dwell), WithWindow(cs.flap, window))
  }

  function Advance(cs: CheckState, raw: NodeState, at: int): CheckState {
    CheckState(Next(cs.tracker, raw), if Commits(cs.tracker, raw) then Recorded(cs.flap, at) else cs.flap)
  }

  /** The transition one sample commits, if any; the flap question is asked after recording it. */
  function TransitionOf(cs: CheckState, raw: NodeState, at: int): Option<Transition> {
    if Commits(cs.tracker, raw) then Some(Transition(raw, SeesFlapping(Recorded(cs.flap, at), at))) else None
  }

  /** One check's tracker and detector, fed in place. */
  class CheckMonitor {
    const tracker: DwellTracker
    const flap: FlapDetector

    ghost function View(): CheckState
      reads tracker, flap
    {
      CheckState(tracker.View(), flap.View())
    }

    ghost predicate Valid()
      reads tracker
    {
      tracker.Valid()
    }

    constructor New(initial: NodeState, dwell: nat, window: int)
      requires dwell <= U32_MAX
      ensures Valid() && fresh(tracker) && fresh(flap) && View() == NewCheckState(initial, dwell, window)
    {
      tracker := new DwellTracker.New(initial, dwell);
      flap := new FlapDetector(window, FLAP_THRESHOLD);
    }

    constructor FromHistory(state: NodeState, dwell: nat, window: int)
      requires dwell <= U32_MAX
      ensures Valid() && fresh(tracker) && fresh(flap) && View() == RestoredCheckState(state, dwell, window)
    {
      tracker := new DwellTracker.FromHistory(state, dwell);
      flap := new FlapDetector(window, FLAP_THRESHOLD);
    }

    /** Re-point the dwell and the flap window at what the check's rule and interval say now. */
    method Repoint(dwell: nat, window: int)
      requires Valid() && dwell <= U32_MAX
      modifies tracker, flap
      ensures Valid() && View() == Repointed(old(View()), dwell, window)
    {
      tracker.SetDwell(dwell);
      flap.SetWindow(window);
    }

    /** Feed one raw sample; a committed change is recorded before the flap question is asked. */
    method Observe(raw: NodeState, now: int) returns (t: Option<Transition>)
      requires Valid()
      modifies tracker, flap
      ensures Valid() && View() == Advance(old(View()), raw, now)
      ensures t == TransitionOf(old(View()), raw, now)
    {
      var committed := tracker.Observe(raw);
      if committed.None? {
        return None;
      }
      flap.Record(now);
      var flapping := flap.IsFlapping(now);
      return Some(Transition(committed.value, flapping));
    }
  }

  /** The flap window for samples arriving every `interval` seconds: ten minutes, or twenty polls. */
  function FlapWindow(interval: Option<nat>): nat {
    if interval.None? then FLAP_WINDOW_FLOOR_MS
    else Max(FLAP_WINDOW_FLOOR_MS, interval.value * FLAP_WINDOW_POLLS * 1000)
  }

  // ------------------------------------------------------------------------------------------
  // How small a window can still see flapping.

  datatype Reading = Reading(raw: NodeState, at: int, dwell: nat, window: int)

  function FeedAll(cs: CheckState, h: seq<Reading>): CheckState {
    if h == [] then cs
    else
      var last := h[|h| - 1];
      Advance(Repointed(FeedAll(cs, h[..|h| - 1]), last.dwell, last.window), last.raw, last.at)
  }

  /** Samples at least `tau` apart, each at dwell `d` or more. */
  predicate Paced(h: seq<Reading>, tau: nat, d: nat) {
    && (forall i :: 0 <= i < |h| ==> d <= h[i].dwell)
    && (forall i :: 0 < i < |h| ==> h[i - 1].at + tau <= h[i].at)
  }

  /** Samples in the run under way: none right after a commit or an agreeing sample. */
  function Pending(t: Tracker): nat {
    if t.candidate.Some? then t.candidate.value.count else 0
  }

  /** Recorded transitions `d * tau` apart, the last one at least the run under way before `at`. */
  predicate SpacedUpTo(q: seq<int>, pending: nat, at: int, tau: nat, d: nat) {
    Spaced(q, d * tau) && (q != [] ==> q[|q| - 1] + pending * tau <= at)
  }

  /** Two commits are a full dwell of samples apart, so recorded transitions are `d * tau` apart. */
  lemma {:induction false} TransitionsAreADwellApart(cs: CheckState, h: seq<Reading>, tau: nat, d: nat)
    requires cs.flap.transitions == [] && Starting(cs.tracker) && 1 <= d && Paced(h, tau, d) && h != []
    ensures var end := FeedAll(cs, h);
            SpacedUpTo(end.flap.transitions, Pending(end.tracker), h[|h| - 1].at, tau, d)
  {
    var init, last := h[..|h| - 1], h[|h| - 1];
    var before := Repointed(FeedAll(cs, init), last.dwell, last.window);
    if init == [] {
      OneReading(before, last, last.at - tau, tau, d);
    } else {
      TransitionsAreADwellApart(cs, init, tau, d);
      OneReading(before, last, init[|init| - 1].at, tau, d);
    }
  }

  lemma OneReading(before: CheckState, last: Reading, prev: int, tau: nat, d: nat)
    requires d <= before.tracker.dwell && prev + tau <= last.at
    requires SpacedUpTo(before.flap.transitions, Pending(before.tracker), prev, tau, d)
    ensures var end := Advance(before, last.raw, last.at);
            SpacedUpTo(end.flap.transitions, Pending(end.tracker), last.at, tau, d)
  {
    var q, n := before.flap.transitions, RunWith(before.tracker, last.raw);
    if q != [] {
      PendingStep(q[|q| - 1], Pending(before.tracker), n, prev, last.at, tau, d);
    }
    if Commits(before.tracker, last.raw) {
      RecordedIsSpaced(q, last.at, before.flap.window, tau, d);
    }
  }

  /** A transition recorded at least `d * tau` after the last one. */
  lemma RecordedIsSpaced(q: seq<int>, at: int, window: int, tau: nat, d: nat)
    requires Spaced(q, d * tau) && (q != [] ==> q[|q| - 1] + d * tau <= at)
    ensures SpacedUpTo(Pruned(q + [at], at - window), 0, at, tau, d)
  {
    SpacedPush(q, at, d * tau);
    PrunedKeepsSpacing(q + [at], at - window, d * tau);
    assert 0 * tau == 0;
  }

  lemma SpacedPush(q: seq<int>, at: int, gap: nat)
    requires Spaced(q, gap) && (q != [] ==> q[|q| - 1] + gap <= at)
    ensures Spaced(q + [at], gap)
  {
  }

  lemma PendingStep(last: int, pending: nat, n: nat, prev: int, at: int, tau: nat, d: nat)
    requires last + pending * tau <= prev && prev + tau <= at && n <= pending + 1
    ensures last + n * tau <= at && last + 0 * tau <= at
    ensures d <= n ==> last + d * tau <= at
  {
    Scaled(n, pending + 1, tau);
    Scaled(0, pending, tau);
    if d <= n {
      Scaled(d, n, tau);
    }
  }

  lemma Scaled(a: nat, b: nat, tau: nat)
    requires a <= b
    ensures a * tau <= b * tau
  {
  }

  /** A detector whose spaced entries end no later than `now` is flagged only by a wide window. */
  lemma FlaggedNeedsRoom(f: Flap, now: int, gap: nat)
    requires 1 <= f.threshold && SeesFlapping(f, now) && Spaced(f.transitions, gap)
    requires f.transitions != [] ==> f.transitions[|f.transitions| - 1] <= now
    ensures (f.threshold - 1) * gap <= f.window
  {
    RecentNeedsRoom(f.transitions, gap, now - f.window, f.threshold);
  }

  /**
   * With samples at least `tau` apart and a dwell of at least `d`, a transition can be flagged as
   * flapping only if the window is at least `(threshold - 1) * d * tau`: below that, flapping is
   * never seen at all, which is why the window follows the poll interval.
   */
  lemma FlappingNeedsAWideWindow(cs: CheckState, h: seq<Reading>, last: Reading, tau: nat, d: nat)
    requires cs.flap.transitions == [] && Starting(cs.tracker) && 1 <= cs.flap.threshold
    requires 1 <= d && Paced(h + [last], tau, d)
    requires var now := Repointed(FeedAll(cs, h), last.dwell, last.window);
             TransitionOf(now, last.raw, last.at).Some? && TransitionOf(now, last.raw, last.at).value.flapping
    ensures (cs.flap.threshold - 1) * (d * tau) <= Max(last.window, 0)
  {
    var now := Repointed(FeedAll(cs, h), last.dwell, last.window);
    ThresholdIsKept(cs, h);
    CommittedEndIsSpaced(cs, h, last, tau, d);
    FlaggedNeedsRoom(Recorded(now.flap, last.at), last.at, d * tau);
  }

  lemma CommittedEndIsSpaced(cs: CheckState, h: seq<Reading>, last: Reading, tau: nat, d: nat)
    requires cs.flap.transitions == [] && Starting(cs.tracker) && 1 <= d && Paced(h + [last], tau, d)
    requires Commits(Repointed(FeedAll(cs, h), last.dwell, last.window).tracker, last.raw)
    ensures var q := Recorded(Repointed(FeedAll(cs, h), last.dwell, last.window).flap, last.at).transitions;
            Spaced(q, d * tau) && (q != [] ==> q[|q| - 1] <= last.at)
  {
    var all := h + [last];
    assert all[..|all| - 1] == h;
    TransitionsAreADwellApart(cs, all, tau, d);
    assert FeedAll(cs, all).tracker.candidate.None?;
  }

  lemma {:induction false} ThresholdIsKept(cs: CheckState, h: seq<Reading>)
    ensures FeedAll(cs, h).flap.threshold == cs.flap.threshold
  {
    if h != [] {
      ThresholdIsKept(cs, h[..|h| - 1]);
    }
  }

  /**
   * The window the engine sizes to the poll interval is twenty polls wide, or ten minutes where that is
   * more. It has the room flapping needs for a rule with a dwell of up to five polls at every interval,
   * and from half a minute on for no longer dwell.
   */
  lemma EngineWindowHasRoom(interval: nat, d: nat)
    ensures FlapWindow(None) == 600_000 && FlapWindow(Some(interval)) >= 600_000
    ensures 20 * (interval * 1000) <= FlapWindow(Some(interval))
    ensures 30 <= interval ==> FlapWindow(Some(interval)) == 20 * (interval * 1000)
    ensures var needed := (FLAP_THRESHOLD - 1) * (d * (interval * 1000));
            && (d <= 5 ==> needed <= FlapWindow(Some(interval)))
            && (d > 5 && 30 <= interval ==> FlapWindow(Some(interval)) < needed)
  {
    if d <= 5 {
      Scaled(d, 5, interval * 1000);
    } else {
      Scaled(6, d, interval * 1000);
    }
  }

  // ------------------------------------------------------------------------------------------
  // Flagged exactly when five transitions lie in the window.

  /** The transitions some readings commit, each with the window then in force. */
  function Stamps(cs: CheckState, h: seq<Reading>): seq<Stamp> {
    if h == [] then []
    else
      var init, last := h[..|h| - 1], h[|h| - 1];
      var now := Repointed(FeedAll(cs, init), last.dwell, last.window);
      Stamps(cs, init) + if Commits(now.tracker, last.raw) then [Stamp(last.at, last.window)] else []
  }

  /** Time does not run backwards, and the window never grows. */
  predicate Settling(h: seq<Reading>) {
    forall i, j :: 0 <= i <= j < |h| ==> h[i].at <= h[j].at && Max(h[j].window, 0) <= Max(h[i].window, 0)
  }

  lemma {:induction false} QueueIsReplayed(cs: CheckState, h: seq<Reading>)
    ensures FeedAll(cs, h).flap.transitions == Replay(cs.flap, Stamps(cs, h)).transitions
  {
    if h != [] {
      var init, last := h[..|h| - 1], h[|h| - 1];
      QueueIsReplayed(cs, init);
      var now := Repointed(FeedAll(cs, init), last.dwell, last.window);
      var stamps := Stamps(cs, init);
      if Commits(now.tracker, last.raw) {
        var all := stamps + [Stamp(last.at, last.window)];
        assert all[..|all| - 1] == stamps;
      } else {
        assert stamps + [] == stamps;
      }
    }
  }

  /** A stamp was there before a reading: no later, and with no narrower a window. */
  predicate NotAfter(x: Stamp, r: Reading) {
    x.at <= r.at && Max(r.window, 0) <= Max(x.window, 0)
  }

  predicate LeadUpTo(stamps: seq<Stamp>, last: Reading) {
    Forward(stamps) && Narrowing(stamps) && (stamps != [] ==> NotAfter(stamps[|stamps| - 1], last))
  }

  lemma LeadUpToTheNext(stamps: seq<Stamp>, prev: Reading, next: Reading)
    requires LeadUpTo(stamps, prev) && prev.at <= next.at && Max(next.window, 0) <= Max(prev.window, 0)
    ensures LeadUpTo(stamps, next) && LeadUpTo(stamps + [Stamp(next.at, next.window)], next)
  {
    var more := stamps + [Stamp(next.at, next.window)];
    forall i, j | 0 <= i <= j < |more|
      ensures more[i].at <= more[j].at && Max(more[j].window, 0) <= Max(more[i].window, 0)
    {
      if i < |stamps| && j == |stamps| {
        assert stamps[i].at <= stamps[|stamps| - 1].at;
      }
    }
  }

  lemma {:induction false} StampsSettle(cs: CheckState, h: seq<Reading>)
    requires Settling(h)
    ensures h != [] ==> LeadUpTo(Stamps(cs, h), h[|h| - 1])
  {
    if |h| == 1 {
      assert h[..0] == [];
    } else if h != [] {
      var init, last := h[..|h| - 1], h[|h| - 1];
      StampsSettle(cs, init);
      assert h[|init| - 1].at <= last.at;
      LeadUpToTheNext(Stamps(cs, init), init[|init| - 1], last);
      assert Stamps(cs, init) + [] == Stamps(cs, init);
    }
  }

  /**
   * A check fed from new, with times that do not run backwards and a window that does not grow: a
   * transition it commits is flagged as flapping exactly when at least five of all the transitions it has
   * ever committed, this one included, lie in the window that ends with it.
   */
  lemma FlaggedExactlyWhenFiveAreRecent(initial: NodeState, dwell: nat, window: int, h: seq<Reading>, last: Reading)
    requires Settling(h + [last])
    ensures var cs := NewCheckState(initial, dwell, window);
            var t := TransitionOf(Repointed(FeedAll(cs, h), last.dwell, last.window), last.raw, last.at);
            t.Some? ==>
              (t.value.flapping <==> RecentEnough(Stamps(cs, h + [last]), last, 5))
  {
    var cs := NewCheckState(initial, dwell, window);
    var now := Repointed(FeedAll(cs, h), last.dwell, last.window);
    if Commits(now.tracker, last.raw) {
      var all := h + [last];
      assert all[..|all| - 1] == h;
      assert FeedAll(cs, all).flap == Recorded(now.flap, last.at);
      FedCheckSeesFlapping(cs, all);
    }
  }

  lemma FedCheckSeesFlapping(cs: CheckState, h: seq<Reading>)
    requires cs.flap.transitions == [] && h != [] && Settling(h)
    ensures SeesFlapping(FeedAll(cs, h).flap, h[|h| - 1].at) <==>
            RecentEnough(Stamps(cs, h), h[|h| - 1], cs.flap.threshold)
  {
    DetectorIsReplayed(cs, h);
    StampsSettle(cs, h);
    StampsAnswer(cs.flap, Stamps(cs, h), h[|h| - 1]);
  }

  /** At least `n` of the stamps lie in the window that ends with a reading. */
  predicate RecentEnough(stamps: seq<Stamp>, last: Reading, n: nat) {
    n <= Recent(Times(stamps), last.at - Max(last.window, 0))
  }

  lemma StampsAnswer(f: Flap, stamps: seq<Stamp>, last: Reading)
    requires f.transitions == [] && LeadUpTo(stamps, last)
    ensures SeesFlapping(WithWindow(Replay(f, stamps), last.window), last.at) <==>
            RecentEnough(stamps, last, f.threshold)
  {
    PrunedQueueAnswersAsTheFullHistory(f, stamps, last.at, last.window);
  }

  lemma DetectorIsReplayed(cs: CheckState, h: seq<Reading>)
    requires h != []
    ensures FeedAll(cs, h).flap == WithWindow(Replay(cs.flap, Stamps(cs, h)), h[|h| - 1].window)
  {
    QueueIsReplayed(cs, h);
    ThresholdIsKept(cs, h);
    Flapping.ThresholdIsKept(cs.flap, Stamps(cs, h));
    assert FeedAll(cs, h).flap.window == Max(h[|h| - 1].window, 0);
  }
}
