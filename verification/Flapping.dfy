/** Flapping detection: committed transitions counted in a sliding time window. */
module Flapping {
  import opened Base

  /** The value of a detector between two calls. Times are Unix milliseconds. */
  datatype Flap = Flap(window: int, threshold: nat, transitions: seq<int>)

  function Fresh(window: int, threshold: nat): Flap {
    Flap(Max(window, 0), threshold, [])
  }

  function WithWindow(f: Flap, window: int): Flap {
    f.(window := Max(window, 0))
  }

  /** What is left of a queue once everything before `cutoff` has been popped off its front. */
  function Pruned(q: seq<int>, cutoff: int): seq<int> {
    if q != [] && q[0] < cutoff then Pruned(q[1..], cutoff) else q
  }

  function Recorded(f: Flap, at: int): Flap {
    f.(transitions := Pruned(f.transitions + [at], at - f.window))
  }

  /** How many entries lie at or after `cutoff`. */
  function Recent(q: seq<int>, cutoff: int): nat {
    if q == [] then 0 else (if q[0] >= cutoff then 1 else 0) + Recent(q[1..], cutoff)
  }

  predicate SeesFlapping(f: Flap, now: int) {
    f.threshold <= Recent(f.transitions, now - f.window)
  }

  /** The detector the engine keeps, its queue pushed and popped in place. */
  class FlapDetector {
    var window: int
    var threshold: nat
    var transitions: seq<int>

    ghost function View(): Flap
      reads this
    {
      Flap(window, threshold, transitions)
    }

    constructor (window: int, threshold: nat)
      ensures View() == Fresh(window, threshold)
    {
      this.window, this.threshold, transitions := Max(window, 0), threshold, [];
    }

    method SetWindow(window: int)
      modifies this
      ensures View() == WithWindow(old(View()), window)
    {
      this.window := Max(window, 0);
    }

    method Record(at: int)
      modifies this
      ensures View() == Recorded(old(View()), at)
    {
      transitions := transitions + [at];
      var cutoff := at - window;
      ghost var pushed := transitions;
      while |transitions| > 0 && transitions[0] < cutoff
        invariant Pruned(transitions, cutoff) == Pruned(pushed, cutoff)
        invariant window == old(window) && threshold == old(threshold)
        decreases |transitions|
      {
        transitions := transitions[1..];
      }
    }

    method IsFlapping(now: int) returns (flapping: bool)
      ensures flapping == SeesFlapping(View(), now)
    {
      var cutoff := now - window;
      var recent, i := 0, 0;
      while i < |transitions|
        invariant i <= |transitions|
        invariant recent + Recent(transitions[i..], cutoff) == Recent(transitions, cutoff)
      {
        if transitions[i] >= cutoff {
          recent := recent + 1;
        }
        i := i + 1;
      }
      flapping := recent >= threshold;
    }
  }

  // ------------------------------------------------------------------------------------------
  // The pruned queue against the full history of transitions.

  /** One transition, and the window in force when it was recorded. */
  datatype Stamp = Stamp(at: int, window: int)

  function Replay(f: Flap, h: seq<Stamp>): Flap {
    if h == [] then f
    else Recorded(WithWindow(Replay(f, h[..|h| - 1]), h[|h| - 1].window), h[|h| - 1].at)
  }

  /** Every transition ever recorded, nothing pruned. */
  function Times(h: seq<Stamp>): seq<int> {
    seq(|h|, i requires 0 <= i < |h| => h[i].at)
  }

  /** Time does not run backwards. */
  predicate Forward(h: seq<Stamp>) {
    forall i, j :: 0 <= i <= j < |h| ==> h[i].at <= h[j].at
  }

  /** The window never grows. */
  predicate Narrowing(h: seq<Stamp>) {
    forall i, j :: 0 <= i <= j < |h| ==> Max(h[j].window, 0) <= Max(h[i].window, 0)
  }

  /** The oldest instant record `j` keeps. */
  function Cutoff(h: seq<Stamp>, j: nat): int
    requires j < |h|
  {
    h[j].at - Max(h[j].window, 0)
  }

  /** A later record found transition `i` too old. */
  ghost predicate Overtaken(h: seq<Stamp>, i: nat)
    requires i < |h|
  {
    exists j :: i < j < |h| && h[i].at < Cutoff(h, j)
  }

  /** Pruning drops the longest prefix of entries older than the cutoff. */
  lemma {:induction false} PrunedDropsAPrefix(q: seq<int>, cutoff: int) returns (m: nat)
    ensures m <= |q| && Pruned(q, cutoff) == q[m..]
    ensures forall i :: 0 <= i < m ==> q[i] < cutoff
    ensures m < |q| ==> q[m] >= cutoff
  {
    if q != [] && q[0] < cutoff {
      var k := PrunedDropsAPrefix(q[1..], cutoff);
      m := k + 1;
      assert forall i :: 0 < i < m ==> q[i] == q[1..][i - 1];
    } else {
      m := 0;
    }
  }

  lemma TimesPush(h: seq<Stamp>)
    requires h != []
    ensures Times(h) == Times(h[..|h| - 1]) + [h[|h| - 1].at]
  {
  }

  /** The queue has lost exactly the transitions a later record found too old, a prefix of the history. */
  lemma {:induction false} QueueIsASuffix(f: Flap, h: seq<Stamp>) returns (m: nat)
    requires f.transitions == [] && Forward(h)
    ensures m <= |h| && Replay(f, h).transitions == Times(h)[m..]
    ensures forall i :: 0 <= i < |h| ==> (i < m <==> Overtaken(h, i))
  {
    if h == [] {
      return 0;
    }
    var k := QueueIsASuffix(f, h[..|h| - 1]);
    m := RecordDropsMore(f, h, k);
    forall i | 0 <= i < |h|
      ensures i < m <==> Overtaken(h, i)
    {
      DroppedExactlyWhenOvertaken(h, k, m, i);
    }
  }

  /** One more record drops whatever is now the longest prefix older than its cutoff. */
  lemma RecordDropsMore(f: Flap, h: seq<Stamp>, k: nat) returns (m: nat)
    requires h != [] && k < |h| && Replay(f, h[..|h| - 1]).transitions == Times(h[..|h| - 1])[k..]
    ensures k <= m <= |h| && Replay(f, h).transitions == Times(h)[m..]
    ensures forall i :: k <= i < m ==> h[i].at < Cutoff(h, |h| - 1)
    ensures m < |h| ==> h[m].at >= Cutoff(h, |h| - 1)
  {
    var last := |h| - 1;
    RecordedQueue(f, h, k);
    var p := PrunedDropsAPrefix(Times(h)[k..], Cutoff(h, last));
    m := k + p;
    SuffixOfSuffix(Times(h), k, p);
    forall i | k <= i < |h|
      ensures Times(h)[k..][i - k] == h[i].at
    {
    }
  }

  lemma RecordedQueue(f: Flap, h: seq<Stamp>, k: nat)
    requires h != [] && k < |h| && Replay(f, h[..|h| - 1]).transitions == Times(h[..|h| - 1])[k..]
    ensures Replay(f, h).transitions == Pruned(Times(h)[k..], Cutoff(h, |h| - 1))
  {
    TimesFrom(h, k);
    ReplayOneMore(f, h);
  }

  lemma ReplayOneMore(f: Flap, h: seq<Stamp>)
    requires h != []
    ensures Replay(f, h).transitions ==
            Pruned(Replay(f, h[..|h| - 1]).transitions + [h[|h| - 1].at], Cutoff(h, |h| - 1))
  {
  }

  lemma TimesFrom(h: seq<Stamp>, k: nat)
    requires h != [] && k < |h|
    ensures Times(h)[k..] == Times(h[..|h| - 1])[k..] + [h[|h| - 1].at]
  {
    TimesPush(h);
    SuffixPush(Times(h[..|h| - 1]), h[|h| - 1].at, k);
  }

  lemma SuffixPush<T>(q: seq<T>, x: T, k: nat)
    requires k <= |q|
    ensures (q + [x])[k..] == q[k..] + [x]
  {
  }

  lemma SuffixOfSuffix<T>(q: seq<T>, k: nat, p: nat)
    requires k + p <= |q|
    ensures q[k..][p..] == q[k + p..]
  {
  }

  lemma DroppedExactlyWhenOvertaken(h: seq<Stamp>, k: nat, m: nat, i: nat)
    requires Forward(h) && i < |h| && k <= m <= |h|
    requires i < |h| - 1 ==> (i < k <==> Overtaken(h[..|h| - 1], i))
    requires k < |h| && forall j :: k <= j < m ==> h[j].at < Cutoff(h, |h| - 1)
    requires m < |h| ==> h[m].at >= Cutoff(h, |h| - 1)
    ensures i < m <==> Overtaken(h, i)
  {
    var last := |h| - 1;
    OvertakenOneMore(h, i);
    assert h[last].at >= Cutoff(h, last);
    if m <= i {
      assert h[m].at <= h[i].at;
    }
  }

  lemma OvertakenOneMore(h: seq<Stamp>, i: nat)
    requires i < |h|
    ensures var last := |h| - 1;
            Overtaken(h, i) <==> i < last && (Overtaken(h[..last], i) || h[i].at < Cutoff(h, last))
  {
    var last := |h| - 1;
    var init := h[..last];
    forall j | i < j < last
      ensures Cutoff(init, j) == Cutoff(h, j)
    {
    }
    if i < last && h[i].at < Cutoff(h, last) {
      assert Overtaken(h, i);
    }
    if i < last && Overtaken(init, i) {
      var j :| i < j < |init| && init[i].at < Cutoff(init, j);
      assert h[i].at < Cutoff(h, j);
    }
    if Overtaken(h, i) {
      var j :| i < j < |h| && h[i].at < Cutoff(h, j);
      if j < last {
        assert init[i].at < Cutoff(init, j);
      }
    }
  }

  /** Dropping a prefix loses a recent entry exactly when the prefix holds one. */
  lemma {:induction false} DroppedEntriesCount(q: seq<int>, m: nat, cutoff: int)
    requires m <= |q|
    ensures Recent(q[m..], cutoff) <= Recent(q, cutoff)
    ensures Recent(q, cutoff) == Recent(q[m..], cutoff) <==> forall i :: 0 <= i < m ==> q[i] < cutoff
  {
    if m > 0 {
      DroppedEntriesCount(q[1..], m - 1, cutoff);
      assert q[1..][m - 1..] == q[m..];
      assert forall i :: 0 < i < m ==> q[i] == q[1..][i - 1];
    }
  }

  /** A transition of the present window that a later record found too old. */
  ghost predicate Misses(h: seq<Stamp>, i: nat, cutoff: int)
    requires i < |h|
  {
    h[i].at >= cutoff && Overtaken(h, i)
  }

  /**
   * For nondecreasing times and windows that come and go as they like: the pruned queue counts what
   * the full history counts exactly when no transition inside the present window was older than the
   * cutoff of some later record, and it never counts more.
   */
  lemma QueueCountsAllExactlyWhen(f: Flap, h: seq<Stamp>, now: int, window: int)
    requires f.transitions == [] && Forward(h)
    ensures var cutoff := now - Max(window, 0);
            var kept := Recent(Replay(f, h).transitions, cutoff);
            && kept <= Recent(Times(h), cutoff)
            && (kept == Recent(Times(h), cutoff) <==> forall i :: 0 <= i < |h| ==> !Misses(h, i, cutoff))
  {
    var cutoff := now - Max(window, 0);
    var m := QueueIsASuffix(f, h);
    DroppedEntriesCount(Times(h), m, cutoff);
    if forall i :: 0 <= i < m ==> Times(h)[i] < cutoff {
      forall i | 0 <= i < |h|
        ensures !Misses(h, i, cutoff)
      {
        assert i < m ==> Times(h)[i] < cutoff;
      }
    } else {
      var i :| 0 <= i < m && Times(h)[i] >= cutoff;
      assert Misses(h, i, cutoff);
    }
  }

  /** So with a window that never grows it answers at every later instant as the full history would. */
  lemma PrunedQueueAnswersAsTheFullHistory(f: Flap, h: seq<Stamp>, now: int, window: int)
    requires f.transitions == [] && Forward(h) && Narrowing(h)
    requires h != [] ==> h[|h| - 1].at <= now && Max(window, 0) <= Max(h[|h| - 1].window, 0)
    ensures SeesFlapping(WithWindow(Replay(f, h), window), now)
            <==> f.threshold <= Recent(Times(h), now - Max(window, 0))
  {
    var cutoff := now - Max(window, 0);
    QueueCountsAllExactlyWhen(f, h, now, window);
    forall i | 0 <= i < |h|
      ensures !Misses(h, i, cutoff)
    {
      forall j | i < j < |h|
        ensures Cutoff(h, j) <= cutoff
      {
        assert h[j].at <= h[|h| - 1].at && Max(h[|h| - 1].window, 0) <= Max(h[j].window, 0);
      }
    }
    ThresholdIsKept(f, h);
  }

  lemma {:induction false} ThresholdIsKept(f: Flap, h: seq<Stamp>)
    ensures Replay(f, h).threshold == f.threshold
  {
    if h != [] {
      ThresholdIsKept(f, h[..|h| - 1]);
    }
  }

  /** A window that grows can miss a transition an earlier, narrower one already pruned. */
  lemma AGrownWindowMissesWhatWasPruned()
    ensures var h := [Stamp(0, 10), Stamp(20, 10)];
            && !SeesFlapping(WithWindow(Replay(Fresh(10, 2), h), 30), 20)
            && 2 <= Recent(Times(h), 20 - 30)
  {
    var h := [Stamp(0, 10), Stamp(20, 10)];
    assert h[..1] == [Stamp(0, 10)];
    assert h[..1][..0] == [];
    assert Replay(Fresh(10, 2), h[..1][..0]) == Fresh(10, 2);
    assert Pruned([0], -10) == [0];
    assert Replay(Fresh(10, 2), h[..1]).transitions == [0];
    assert Pruned([0, 20], 10) == Pruned([20], 10) by { assert [0, 20][1..] == [20]; }
    assert Replay(Fresh(10, 2), h).transitions == [20];
    assert Recent([20], -10) == 1;
    assert Times(h) == [0, 20];
    assert Recent([0, 20], -10) == 1 + Recent([20], -10) by { assert [0, 20][1..] == [20]; }
  }

  // ------------------------------------------------------------------------------------------
  // Spacing, for the bound on how small a window can still see flapping.

  /** Neighbouring entries are at least `gap` apart. */
  predicate Spaced(q: seq<int>, gap: nat) {
    forall i :: 0 < i < |q| ==> q[i - 1] + gap <= q[i]
  }

  lemma {:induction false} SpacedSpan(q: seq<int>, gap: nat)
    requires q != [] && Spaced(q, gap)
    ensures q[0] + (|q| - 1) * gap <= q[|q| - 1]
  {
    if |q| > 1 {
      var init := q[..|q| - 1];
      SpacedSpan(init, gap);
      assert (|q| - 1) * gap == (|init| - 1) * gap + gap;
    }
  }

  lemma MulMonotone(a: int, b: int, gap: nat)
    requires a <= b
    ensures a * gap <= b * gap
  {
  }

  /** Entries at or after a cutoff, when spaced, cannot outnumber the room there is for them. */
  lemma {:induction false} RecentNeedsRoom(q: seq<int>, gap: nat, cutoff: int, n: nat)
    requires q != [] && Spaced(q, gap) && 1 <= n <= Recent(q, cutoff)
    ensures (n - 1) * gap <= q[|q| - 1] - cutoff
  {
    if q[0] >= cutoff {
      RecentAtMostLength(q, cutoff);
      SpacedSpan(q, gap);
      MulMonotone(n - 1, |q| - 1, gap);
    } else {
      var rest := q[1..];
      forall i | 0 < i < |rest|
        ensures rest[i - 1] + gap <= rest[i]
      {
        assert q[i] + gap <= q[i + 1];
      }
      RecentNeedsRoom(rest, gap, cutoff, n);
    }
  }

  lemma {:induction false} RecentAtMostLength(q: seq<int>, cutoff: int)
    ensures Recent(q, cutoff) <= |q|
  {
    if q != [] {
      RecentAtMostLength(q[1..], cutoff);
    }
  }

  lemma PrunedKeepsSpacing(q: seq<int>, cutoff: int, gap: nat)
    requires Spaced(q, gap)
    ensures Spaced(Pruned(q, cutoff), gap)
    ensures Pruned(q, cutoff) != [] ==> q != [] && Pruned(q, cutoff)[|Pruned(q, cutoff)| - 1] == q[|q| - 1]
  {
    var m := PrunedDropsAPrefix(q, cutoff);
    var r := q[m..];
    forall i | 0 < i < |r|
      ensures r[i - 1] + gap <= r[i]
    {
      assert r[i - 1] == q[m + i - 1] && r[i] == q[m + i];
    }
  }
}
