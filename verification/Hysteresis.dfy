/** Dwell-time hysteresis: a raw state commits once it has held for `dwell` consecutive samples. */
module Hysteresis {
  import opened Base

  /** Consecutive samples that agree with each other against the committed state: their value and number. */
  datatype Run = Run(state: NodeState, count: nat)

  /** The value of a tracker between two calls. */
  datatype Tracker = Tracker(committed: NodeState, confirmed: bool, candidate: Option<Run>, dwell: nat) {

    /** The committed state, unless it is still only the seed. */
    function Observed(): Option<NodeState> {
      if confirmed then Some(committed) else None
    }

    /** A pending run heads somewhere else than the committed state, and counts at least one sample. */
    predicate Valid() {
      && 1 <= dwell
      && (candidate.Some? ==> candidate.value.state != committed && 1 <= candidate.value.count)
    }
  }

  function Seeded(initial: NodeState, dwell: nat): Tracker {
    Tracker(initial, false, None, Max(dwell, 1))
  }

  function Restored(state: NodeState, dwell: nat): Tracker {
    Tracker(state, true, None, Max(dwell, 1))
  }

  function WithDwell(t: Tracker, dwell: nat): Tracker {
    t.(dwell := Max(dwell, 1))
  }

  /** How long the run of `raw` is once this sample has been added to it. */
  function RunWith(t: Tracker, raw: NodeState): nat {
    if t.candidate.Some? && t.candidate.value.state == raw then t.candidate.value.count + 1 else 1
  }

  /** Whether one more sample of `raw` commits a transition. */
  predicate Commits(t: Tracker, raw: NodeState) {
    raw != t.committed && t.dwell <= RunWith(t, raw)
  }

  /** The tracker after one sample. */
  function Next(t: Tracker, raw: NodeState): Tracker {
    if raw == t.committed || Commits(t, raw) then
      Tracker(raw, true, None, t.dwell)
    else
      t.(candidate := Some(Run(raw, RunWith(t, raw))))
  }

  /** The tracker the engine keeps for a check, updated in place. */
  class DwellTracker {
    var committed: NodeState
    var confirmed: bool
    var candidate: Option<Run>
    var dwell: nat

    ghost function View(): Tracker
      reads this
    {
      Tracker(committed, confirmed, candidate, dwell)
    }

    /** No count can overflow: a run is only ever kept while it is shorter than a 32-bit dwell. */
    ghost predicate Valid()
      reads this
    {
      View().Valid() && dwell <= U32_MAX && (candidate.Some? ==> candidate.value.count < U32_MAX)
    }

    constructor New(initial: NodeState, dwell: nat)
      requires dwell <= U32_MAX
      ensures Valid() && View() == Seeded(initial, dwell)
    {
      committed, confirmed, candidate := initial, false, None;
      this.dwell := Max(dwell, 1);
    }

    constructor FromHistory(state: NodeState, dwell: nat)
      requires dwell <= U32_MAX
      ensures Valid() && View() == Restored(state, dwell)
    {
      committed, confirmed, candidate := state, true, None;
      this.dwell := Max(dwell, 1);
    }

    method SetDwell(dwell: nat)
      requires Valid() && dwell <= U32_MAX
      modifies this
      ensures Valid() && View() == WithDwell(old(View()), dwell)
    {
      this.dwell := Max(dwell, 1);
    }

    /** Take one sample; the answer is the newly committed state, if it commits one. */
    method Observe(raw: NodeState) returns (transition: Option<NodeState>)
      requires Valid()
      modifies this
      ensures Valid()
      ensures View() == Next(old(View()), raw)
      ensures transition == if Commits(old(View()), raw) then Some(raw) else None
    {
      if raw == committed {
        confirmed := true;
        candidate := None;
        return None;
      }
      var count: nat;
      match candidate {
        case Some(Run(state, n)) =>
          if state == raw {
            count := n + 1;
            candidate := Some(Run(state, count));
          } else {
            candidate := Some(Run(raw, 1));
            count := 1;
          }
        case None =>
          candidate := Some(Run(raw, 1));
          count := 1;
      }
      assert count <= U32_MAX;
      if dwell <= count {
        committed, confirmed, candidate := raw, true, None;
        return Some(raw);
      }
      return None;
    }
  }

  // ------------------------------------------------------------------------------------------
  // The window specification. A sample history is the raw states with the dwell in force at each.

  datatype Sample = Sample(raw: NodeState, dwell: nat)

  /** The tracker after a whole history, the dwell re-pointed before every sample. */
  function Feed(t: Tracker, h: seq<Sample>): Tracker {
    if h == [] then t
    else
      var last := h[|h| - 1];
      Next(WithDwell(Feed(t, h[..|h| - 1]), last.dwell), last.raw)
  }

  /** The length of the run of equal raw states a history ends with. */
  function Trailing(h: seq<Sample>): nat {
    if h == [] then 0
    else if |h| == 1 || h[|h| - 2].raw != h[|h| - 1].raw then 1
    else Trailing(h[..|h| - 1]) + 1
  }

  /** `Trailing` means what it says: the last `Trailing(h)` samples agree, and no more than those. */
  lemma {:induction false} TrailingIsTheLongestSuffix(h: seq<Sample>)
    requires h != []
    ensures 1 <= Trailing(h) <= |h|
    ensures forall i :: |h| - Trailing(h) <= i < |h| ==> h[i].raw == h[|h| - 1].raw
    ensures Trailing(h) < |h| ==> h[|h| - Trailing(h) - 1].raw != h[|h| - 1].raw
  {
    var init := h[..|h| - 1];
    if |h| > 1 && init[|init| - 1].raw == h[|h| - 1].raw {
      TrailingIsTheLongestSuffix(init);
    }
  }

  /** A tracker that holds no run, as both constructors leave it. */
  predicate Starting(t: Tracker) {
    t.candidate.None? && 1 <= t.dwell
  }

  /** What the candidate stands for after any history: the trailing run, when it disagrees. */
  lemma {:induction false} CandidateIsTheTrailingRun(t: Tracker, h: seq<Sample>)
    requires Starting(t) && h != []
    ensures Feed(t, h).Valid()
    ensures var end := Feed(t, h);
            if h[|h| - 1].raw == end.committed then end.candidate.None?
            else end.candidate == Some(Run(h[|h| - 1].raw, Trailing(h)))
    ensures var end := Feed(t, h);
            end.candidate.Some? ==> end.candidate.value.count < end.dwell
  {
    var init, last := h[..|h| - 1], h[|h| - 1];
    if init == [] {
    } else {
      CandidateIsTheTrailingRun(t, init);
    }
  }

  /**
   * The dwell tracker refines the window specification: at every step of every history, whatever
   * dwell is in force there, a transition commits exactly when the sample differs from the
   * committed state and the trailing run of equal samples is at least the current dwell.
   */
  lemma {:induction false} CommitsExactlyOnAFullWindow(t: Tracker, h: seq<Sample>, next: Sample)
    requires Starting(t)
    ensures Commits(WithDwell(Feed(t, h), next.dwell), next.raw)
            <==> next.raw != Feed(t, h).committed && Max(next.dwell, 1) <= Trailing(h + [next])
  {
    var all := h + [next];
    assert all[..|all| - 1] == h;
    if h != [] {
      CandidateIsTheTrailingRun(t, h);
    }
  }

  /** Whether the `d` samples ending just before position `i` all agree. */
  predicate FullWindow(h: seq<Sample>, d: nat, i: nat) {
    1 <= d <= i <= |h| && forall j :: i - d <= j < i ==> h[j].raw == h[i - 1].raw
  }

  predicate FixedDwell(h: seq<Sample>, d: nat) {
    forall i :: 0 <= i < |h| ==> h[i].dwell == d
  }

  predicate NoFullWindowAfter(h: seq<Sample>, d: nat, i: nat) {
    forall k: nat :: i < k <= |h| ==> !FullWindow(h, d, k)
  }

  /**
   * With a fixed dwell `d` the committed state is the value of the most recent `d` equal
   * consecutive samples, and the seed when there never were `d` of them (`i == 0`).
   */
  lemma {:induction false} CommittedIsTheLastFullWindow(t: Tracker, h: seq<Sample>, d: nat, i: nat)
    requires Starting(t) && 1 <= d && FixedDwell(h, d)
    requires (i == 0 || FullWindow(h, d, i)) && NoFullWindowAfter(h, d, i)
    ensures Feed(t, h).committed == if i == 0 then t.committed else h[i - 1].raw
  {
    if h != [] {
      var init, last := h[..|h| - 1], h[|h| - 1];
      CommitsExactlyOnAFullWindow(t, init, last);
      assert init + [last] == h;
      LastWindow(h, d);
      if i < |h| {
        assert forall k: nat :: k < |h| ==> (FullWindow(h, d, k) <==> FullWindow(init, d, k));
        CommittedIsTheLastFullWindow(t, init, d, i);
      }
    }
  }

  /** The window that ends the history is full exactly when the trailing run is that long. */
  lemma LastWindow(h: seq<Sample>, d: nat)
    requires h != [] && 1 <= d
    ensures FullWindow(h, d, |h|) <==> d <= Trailing(h)
  {
    TrailingIsTheLongestSuffix(h);
    if d <= Trailing(h) {
      assert |h| - Trailing(h) <= |h| - d;
    } else if d <= |h| {
      assert |h| - d <= |h| - Trailing(h) - 1;
    }
  }

  /** Whether sample `k` agrees with the state then held, or fills a window. */
  predicate Confirms(t: Tracker, h: seq<Sample>, k: nat)
    requires k < |h|
  {
    h[k].raw == Feed(t, h[..k]).committed || Max(h[k].dwell, 1) <= Trailing(h[..k + 1])
  }

  predicate EverConfirms(t: Tracker, h: seq<Sample>) {
    exists k: nat :: k < |h| && Confirms(t, h, k)
  }

  lemma EverConfirmsStep(t: Tracker, h: seq<Sample>)
    requires h != []
    ensures var init := h[..|h| - 1];
            EverConfirms(t, h) <==> EverConfirms(t, init) || Confirms(t, h, |init|)
  {
    var init := h[..|h| - 1];
    forall k: nat | k < |init|
      ensures Confirms(t, init, k) <==> Confirms(t, h, k)
    {
      assert init[..k] == h[..k] && init[..k + 1] == h[..k + 1];
    }
  }

  /**
   * A seed stays unobserved exactly as long as no sample has agreed with the state then held and no
   * window has filled; a tracker read back from history is observed throughout.
   */
  lemma {:induction false} ObservedSinceTheFirstAgreementOrCommit(t: Tracker, h: seq<Sample>)
    requires Starting(t)
    ensures Feed(t, h).Observed().Some? <==> t.confirmed || EverConfirms(t, h)
  {
    if h != [] {
      var init, last := h[..|h| - 1], h[|h| - 1];
      ObservedSinceTheFirstAgreementOrCommit(t, init);
      EverConfirmsStep(t, h);
      CommitsExactlyOnAFullWindow(t, init, last);
      assert init + [last] == h == h[..|h|];
    }
  }

  /** `n` further samples of one raw state, all at dwell `d`. */
  function Steady(raw: NodeState, d: nat, n: nat): seq<Sample> {
    seq(n, _ => Sample(raw, d))
  }

  /** A run under way commits on exactly the sample that completes its dwell, not before. */
  lemma {:induction false} RunCommitsWhenItsDwellIsComplete(t: Tracker, raw: NodeState, n: nat)
    requires t.Valid() && raw != t.committed
    requires t.candidate.Some? ==> t.candidate.value.count < t.dwell
    ensures var held := if t.candidate.Some? && t.candidate.value.state == raw then t.candidate.value.count else 0;
            var end := Feed(t, Steady(raw, t.dwell, n));
            && (held + n < t.dwell ==>
                  end.committed == t.committed && (n > 0 ==> end.candidate == Some(Run(raw, held + n))))
            && (t.dwell <= held + n ==> end.committed == raw && end.candidate.None?)
            && end.dwell == t.dwell
  {
    if n > 0 {
      RunCommitsWhenItsDwellIsComplete(t, raw, n - 1);
      assert Steady(raw, t.dwell, n)[..n - 1] == Steady(raw, t.dwell, n - 1);
    }
  }
}
