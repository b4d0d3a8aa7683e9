/** Delivering notifications over one channel: duplicates suppressed, failures retried. */
module Dispatch {
  import opened Base

  type Key = string
  type Failure = string

  function Pow2(n: nat): (r: nat)
    ensures r >= 1
  {
    if n == 0 then 1 else 2 * Pow2(n - 1)
  }

  datatype RetryPolicy = RetryPolicy(maxAttempts: nat, baseBackoffMs: nat) {

    /** Zero attempts means one. */
    function Attempts(): nat {
      Max(maxAttempts, 1)
    }

    /** The wait meant after failed attempt `n`: twice the one before. */
    function Doubled(n: nat): nat
      requires n >= 1
    {
      baseBackoffMs * Pow2(n - 1)
    }

    /** The wait after failed attempt `n` in unsigned 64-bit arithmetic that wraps around. */
    function Backoff(n: nat): nat
      requires n >= 1
    {
      baseBackoffMs * Pow2((n - 1) % 64) % (U64_MAX + 1)
    }

    /** No wait that can be reached shifts past, or overflows, an unsigned 64-bit number. */
    ghost predicate NeverOverflows() {
      forall n :: 1 <= n < Attempts() ==> n - 1 < 64 && Doubled(n) <= U64_MAX
    }

    /** The longest wait fits. */
    predicate Fits() {
      Attempts() >= 2 ==> Attempts() - 2 < 64 && Doubled(Attempts() - 1) <= U64_MAX
    }
  }

  const DEFAULT_POLICY: RetryPolicy := RetryPolicy(3, 500)

  lemma {:induction false} Pow2Grows(a: nat, b: nat)
    requires a <= b
    ensures Pow2(a) <= Pow2(b)
  {
    if a < b {
      Pow2Grows(a, b - 1);
    }
  }

  lemma DoubledGrows(p: RetryPolicy, a: nat, b: nat)
    requires 1 <= a <= b
    ensures p.Doubled(a) <= p.Doubled(b)
  {
    Pow2Grows(a - 1, b - 1);
    ScaleMonotone(p.baseBackoffMs, Pow2(a - 1), Pow2(b - 1));
  }

  lemma ScaleMonotone(k: nat, a: nat, b: nat)
    requires a <= b
    ensures k * a <= k * b
  {
  }

  /** No wait overflows exactly when the longest one fits, and the default policy's does. */
  lemma OverflowFreeExactlyWhenTheLongestFits(p: RetryPolicy)
    ensures p.NeverOverflows() <==> p.Fits()
    ensures DEFAULT_POLICY.Fits()
  {
    if p.Attempts() >= 2 {
      var longest := p.Attempts() - 1;
      if p.NeverOverflows() {
        assert longest - 1 < 64 && p.Doubled(longest) <= U64_MAX;
      }
      if p.Fits() {
        forall n | 1 <= n < p.Attempts()
          ensures n - 1 < 64 && p.Doubled(n) <= U64_MAX
        {
          DoubledGrows(p, n, longest);
        }
      }
    }
    assert DEFAULT_POLICY.Doubled(2) == 500 * Pow2(1) == 1000;
  }

  /** A wait that does not overflow is the one meant. */
  lemma WaitIsTheOneMeant(p: RetryPolicy, n: nat)
    requires p.Fits() && 1 <= n < p.Attempts()
    ensures p.Backoff(n) == p.Doubled(n)
  {
    OverflowFreeExactlyWhenTheLongestFits(p);
    assert n - 1 < 64 && p.Doubled(n) <= U64_MAX;
  }

  // ------------------------------------------------------------------------------------------
  // One delivery.

  /** What a channel answers: sent, nothing to send (a resolve only), or an error. */
  datatype Answer = Sent | NothingToSend | Error(failure: Failure)

  datatype Outcome = Delivered(attempts: nat) | Suppressed | Skipped | Failed(attempts: nat)

  /** An attempt's failure, or `None` when it succeeded. */
  datatype Report = Report(outcome: Outcome, attempts: seq<Option<Failure>>)

  /** The channel fails every attempt before `n`. */
  predicate FailsBefore(answers: nat -> Answer, n: nat) {
    forall i :: 1 <= i < n ==> answers(i).Error?
  }

  /** The failures recorded by the attempts before `n`. */
  function FailuresBefore(answers: nat -> Answer, n: nat): seq<Option<Failure>>
    requires n >= 1 && FailsBefore(answers, n)
  {
    if n == 1 then [] else FailuresBefore(answers, n - 1) + [Some(answers(n - 1).failure)]
  }

  /** The time slept before attempt `n`. */
  function SleptBefore(p: RetryPolicy, n: nat): nat
    requires n >= 1
  {
    if n == 1 then 0 else SleptBefore(p, n - 1) + p.Backoff(n - 1)
  }

  lemma Distribute(k: int, x: int)
    ensures k * (2 * x - 1) == k * (x - 1) + k * x
  {
  }

  /** Where no wait overflows, the sleeps before attempt `n` add up to one short of the next wait. */
  lemma {:induction false} SleepsDouble(p: RetryPolicy, n: nat)
    requires p.Fits() && 1 <= n <= p.Attempts()
    ensures SleptBefore(p, n) == p.baseBackoffMs * (Pow2(n - 1) - 1)
  {
    if n > 1 {
      SleepsDouble(p, n - 1);
      WaitIsTheOneMeant(p, n - 1);
      Distribute(p.baseBackoffMs, Pow2(n - 2));
      assert Pow2(n - 1) == 2 * Pow2(n - 2);
    }
  }

  lemma {:induction false} FailureAt(answers: nat -> Answer, n: nat, i: nat)
    requires n >= 1 && FailsBefore(answers, n) && 1 <= i < n
    ensures |FailuresBefore(answers, n)| == n - 1 && FailuresBefore(answers, n)[i - 1] == Some(answers(i).failure)
  {
    if i < n - 1 {
      FailureAt(answers, n - 1, i);
    } else {
      FailureCount(answers, n - 1);
    }
  }

  lemma {:induction false} FailureCount(answers: nat -> Answer, n: nat)
    requires n >= 1 && FailsBefore(answers, n)
    ensures |FailuresBefore(answers, n)| == n - 1
  {
    if n > 1 {
      FailureCount(answers, n - 1);
    }
  }

  /** What a delivery over a channel with these answers reports, and how long it sleeps. */
  ghost predicate Reports(p: RetryPolicy, resolve: bool, answers: nat -> Answer, report: Report, slept: nat) {
    if FailsBefore(answers, p.Attempts() + 1) then
      && report == Report(Failed(p.Attempts()), FailuresBefore(answers, p.Attempts() + 1))
      && slept == SleptBefore(p, p.Attempts())
    else
      exists n :: 1 <= n <= p.Attempts() && FailsBefore(answers, n) && EndsAt(p, resolve, answers, n, report, slept)
  }

  /** Attempt `n` is the first that does not fail. */
  predicate EndsAt(p: RetryPolicy, resolve: bool, answers: nat -> Answer, n: nat, report: Report, slept: nat)
    requires n >= 1 && FailsBefore(answers, n)
  {
    && !answers(n).Error? && slept == SleptBefore(p, n)
    && report == if resolve && answers(n).NothingToSend? then Report(Skipped, [])
                 else Report(Delivered(n), FailuresBefore(answers, n) + [None])
  }

  /** The first attempt that does not fail decides. */
  lemma ReportsAt(p: RetryPolicy, resolve: bool, answers: nat -> Answer, n: nat, report: Report, slept: nat)
    requires 1 <= n <= p.Attempts() && FailsBefore(answers, n) && EndsAt(p, resolve, answers, n, report, slept)
    ensures Reports(p, resolve, answers, report, slept)
  {
  }

  /** Deliver, retrying with doubling waits; `slept` is their sum. */
  method DeliverWithRetry(p: RetryPolicy, resolve: bool, answers: nat -> Answer) returns (report: Report, slept: nat)
    ensures Reports(p, resolve, answers, report, slept)
  {
    var max := p.Attempts();
    var attempts := [];
    slept := 0;
    var attempt := 1;
    while attempt <= max
      invariant 1 <= attempt <= max + 1 && FailsBefore(answers, attempt)
      invariant attempts == FailuresBefore(answers, attempt)
      invariant slept == SleptBefore(p, Min(attempt, max))
    {
      var answer := answers(attempt);
      if resolve && answer.NothingToSend? {
        report := Report(Skipped, []);
        ReportsAt(p, resolve, answers, attempt, report, slept);
        return;
      }
      if !answer.Error? {
        attempts := attempts + [None];
        report := Report(Delivered(attempt), attempts);
        ReportsAt(p, resolve, answers, attempt, report, slept);
        return;
      }
      attempts := attempts + [Some(answer.failure)];
      if attempt < max {
        slept := slept + p.Backoff(attempt);
      }
      attempt := attempt + 1;
    }
    report := Report(Failed(max), attempts);
  }

  /** The sleeps before attempt `n` as the policy means them. */
  predicate SleptAsMeant(p: RetryPolicy, n: nat, slept: nat)
    requires n >= 1
  {
    p.Fits() ==> slept == p.baseBackoffMs * (Pow2(n - 1) - 1)
  }

  lemma SleptIsAsMeant(p: RetryPolicy, n: nat)
    requires 1 <= n <= p.Attempts()
    ensures SleptAsMeant(p, n, SleptBefore(p, n))
  {
    if p.Fits() {
      SleepsDouble(p, n);
    }
  }

  /**
   * A delivery at attempt `n` records `n - 1` failures and then one success, and sleeps
   * `base * (2^(n-1) - 1)` unless a wait overflows; a failure records every attempt the policy allows, at
   * least one; a skip records none.
   */
  lemma DeliveredAfterFailures(p: RetryPolicy, resolve: bool, answers: nat -> Answer, report: Report, slept: nat)
    requires Reports(p, resolve, answers, report, slept)
    ensures report.outcome.Delivered? ==>
      var n := report.outcome.attempts;
      && 1 <= n && (n <= p.maxAttempts || n == 1) && |report.attempts| == n && report.attempts[n - 1] == None
      && (forall i :: 0 <= i < n - 1 ==> report.attempts[i].Some?) && SleptAsMeant(p, n, slept)
    ensures report.outcome.Failed? ==>
      var n := if p.maxAttempts == 0 then 1 else p.maxAttempts;
      && report.outcome.attempts == n == |report.attempts|
      && (forall i :: 0 <= i < n ==> report.attempts[i].Some?) && SleptAsMeant(p, n, slept)
    ensures report.outcome.Skipped? ==> resolve && report.attempts == []
    ensures !report.outcome.Suppressed?
  {
    if FailsBefore(answers, p.Attempts() + 1) {
      AllFailed(answers, p.Attempts() + 1);
      SleptIsAsMeant(p, p.Attempts());
    } else {
      var n :| 1 <= n <= p.Attempts() && FailsBefore(answers, n) && EndsAt(p, resolve, answers, n, report, slept);
      AllFailed(answers, n);
      SleptIsAsMeant(p, n);
    }
  }

  /** By default a channel that never answers is tried three times, half a second and then a second apart. */
  lemma ADeadChannelIsTriedThrice(resolve: bool, answers: nat -> Answer, report: Report, slept: nat)
    requires Reports(DEFAULT_POLICY, resolve, answers, report, slept)
    requires forall i :: 1 <= i <= 3 ==> answers(i).Error?
    ensures report.outcome == Failed(3) && |report.attempts| == 3 && slept == 1500
  {
    DeliveredAfterFailures(DEFAULT_POLICY, resolve, answers, report, slept);
    OverflowFreeExactlyWhenTheLongestFits(DEFAULT_POLICY);
    assert Pow2(2) == 2 * Pow2(1) == 4;
  }

  lemma AllFailed(answers: nat -> Answer, n: nat)
    requires n >= 1 && FailsBefore(answers, n)
    ensures |FailuresBefore(answers, n)| == n - 1
    ensures forall i :: 0 <= i < n - 1 ==> FailuresBefore(answers, n)[i] == Some(answers(i + 1).failure)
  {
    FailureCount(answers, n);
    forall i | 0 <= i < n - 1
      ensures FailuresBefore(answers, n)[i] == Some(answers(i + 1).failure)
    {
      FailureAt(answers, n, i + 1);
    }
  }

  lemma OnlyTheDedupSetSuppresses(p: RetryPolicy, resolve: bool, answers: nat -> Answer, report: Report, slept: nat)
    requires Reports(p, resolve, answers, report, slept)
    ensures !report.outcome.Suppressed?
  {
  }

  /** The channel fails every attempt before `n` and then says that it has nothing to send. */
  predicate NothingToSendAt(p: RetryPolicy, answers: nat -> Answer, n: nat) {
    1 <= n <= p.Attempts() && FailsBefore(answers, n) && answers(n).NothingToSend?
  }

  /** A delivery records no attempt exactly when a resolve ends in nothing to send, however late. */
  lemma NoAttemptsExactlyWhenSkipped(p: RetryPolicy, resolve: bool, answers: nat -> Answer, report: Report, slept: nat)
    requires Reports(p, resolve, answers, report, slept)
    ensures report.attempts == [] <==> resolve && exists n :: NothingToSendAt(p, answers, n)
  {
    if FailsBefore(answers, p.Attempts() + 1) {
      FailureCount(answers, p.Attempts() + 1);
    } else {
      var n :| 1 <= n <= p.Attempts() && FailsBefore(answers, n) && EndsAt(p, resolve, answers, n, report, slept);
      assert answers(n).NothingToSend? ==> NothingToSendAt(p, answers, n);
      if m :| NothingToSendAt(p, answers, m) {
        assert m == n;
      }
    }
  }

  /** The report lists no attempt although one failed: the documentation reads that as no request sent. */
  predicate LosesAFailure(answers: nat -> Answer, report: Report) {
    report.attempts == [] && answers(1).Error?
  }

  /**
   * An empty list means that no request was lost exactly when the first answer is that there is
   * nothing to send. It loses a failure exactly when a resolve fails first and is then told so.
   */
  lemma FailureIsLostExactlyWhen(p: RetryPolicy, resolve: bool, answers: nat -> Answer, report: Report, slept: nat)
    requires Reports(p, resolve, answers, report, slept)
    ensures LosesAFailure(answers, report) <==>
            resolve && answers(1).Error? && exists n :: NothingToSendAt(p, answers, n)
    ensures report.attempts == [] ==> (!LosesAFailure(answers, report) <==> answers(1).NothingToSend?)
  {
    NoAttemptsExactlyWhenSkipped(p, resolve, answers, report, slept);
    if n :| NothingToSendAt(p, answers, n) {
      assert n > 1 ==> answers(1).Error?;
    }
  }

  /** A channel as the dispatcher's trait permits one, whose resolve loses its first failure. */
  lemma AFailureIsLostBeforeASkip(failure: Failure, report: Report, slept: nat)
    requires Reports(DEFAULT_POLICY, true, (n: nat) => if n == 1 then Error(failure) else NothingToSend, report, slept)
    ensures report == Report(Skipped, []) && slept == 500
  {
    var answers := (n: nat) => if n == 1 then Error(failure) else NothingToSend;
    assert !answers(2).Error?;
    var n :| 1 <= n <= DEFAULT_POLICY.Attempts() && FailsBefore(answers, n)
      && EndsAt(DEFAULT_POLICY, true, answers, n, report, slept);
    assert answers(n).NothingToSend? && n == 2;
    DefaultFirstSleep();
  }

  lemma DefaultFirstSleep()
    ensures SleptBefore(DEFAULT_POLICY, 2) == 500
  {
    assert SleptBefore(DEFAULT_POLICY, 2) == SleptBefore(DEFAULT_POLICY, 1) + DEFAULT_POLICY.Backoff(1);
  }

  // ------------------------------------------------------------------------------------------
  // The channels there are.

  /**
   * Webhooks and emails open nothing that a resolve could end; PagerDuty and JSM do, and any attempt at
   * ending it may fail; a fan-out goes through its children and stops where one fails.
   */
  datatype Channel = Plain | Incident(attempt: nat -> Option<Failure>) | Fanout(children: seq<Channel>)

  /** What a channel answers to the `n`-th attempt at a resolve. */
  function ResolveAnswer(ch: Channel, n: nat): Answer
    decreases ch
  {
    match ch
    case Plain => NothingToSend
    case Incident(attempt) => if attempt(n).Some? then Error(attempt(n).value) else Sent
    case Fanout(children) => FirstFailure(children, n)
  }

  function FirstFailure(children: seq<Channel>, n: nat): Answer
    decreases children
  {
    if children == [] then NothingToSend
    else
      var head := ResolveAnswer(children[0], n);
      if head.Error? then head
      else
        var rest := FirstFailure(children[1..], n);
        if rest.NothingToSend? then head else rest
  }

  function AnswersOf(ch: Channel): nat -> Answer {
    (n: nat) => ResolveAnswer(ch, n)
  }

  /** Whether some channel below has an incident to close. */
  predicate Closes(ch: Channel)
    decreases ch
  {
    match ch
    case Plain => false
    case Incident(_) => true
    case Fanout(children) => AnyCloses(children)
  }

  predicate AnyCloses(children: seq<Channel>)
    decreases children
  {
    children != [] && (Closes(children[0]) || AnyCloses(children[1..]))
  }

  /** A channel has nothing to send at every attempt, or at none. */
  lemma {:induction false} NothingToSendIsForGood(ch: Channel, n: nat)
    ensures ResolveAnswer(ch, n).NothingToSend? <==> !Closes(ch)
    decreases ch
  {
    if ch.Fanout? {
      FanoutIsForGood(ch.children, n);
    }
  }

  lemma {:induction false} FanoutIsForGood(children: seq<Channel>, n: nat)
    ensures FirstFailure(children, n).NothingToSend? <==> !AnyCloses(children)
    decreases children
  {
    if children != [] {
      NothingToSendIsForGood(children[0], n);
      FanoutIsForGood(children[1..], n);
    }
  }

  /**
   * So over every channel there is, fan-outs of fan-outs included, the documentation holds: a resolve
   * lists no attempt exactly when nothing below has an incident to close, and never loses a failure.
   */
  lemma NoChannelLosesAFailure(p: RetryPolicy, ch: Channel, report: Report, slept: nat)
    requires Reports(p, true, AnswersOf(ch), report, slept)
    ensures report.attempts == [] <==> !Closes(ch)
    ensures !LosesAFailure(AnswersOf(ch), report)
  {
    var answers := AnswersOf(ch);
    NoAttemptsExactlyWhenSkipped(p, true, answers, report, slept);
    FailureIsLostExactlyWhen(p, true, answers, report, slept);
    NothingToSendIsForGood(ch, 1);
    if n :| NothingToSendAt(p, answers, n) {
      NothingToSendIsForGood(ch, n);
    }
    assert !Closes(ch) ==> NothingToSendAt(p, answers, 1);
  }

  // ------------------------------------------------------------------------------------------
  // The dedup set over every sequence of calls.

  /** One call and how it ended. */
  datatype Event = Fired(key: Key, outcome: Outcome) | Resolved(key: Key, outcome: Outcome) | Marked(key: Key)

  predicate DeliversFire(e: Event, k: Key) {
    e.Fired? && e.key == k && e.outcome.Delivered?
  }

  predicate Clears(e: Event, k: Key) {
    !e.Fired? && e.key == k
  }

  /** The dispatcher: one channel's policy, the keys it has delivered and not cleared, and a ghost log. */
  class Dispatcher {
    const policy: RetryPolicy
    var active: set<Key>
    ghost var log: seq<Event>

    ghost predicate Valid()
      reads this
    {
      active == ActiveAfter(log) && Truthful(log)
    }

    constructor (policy: RetryPolicy)
      ensures Valid() && log == [] && this.policy == policy
    {
      this.policy := policy;
      active, log := {}, [];
    }

    /** Deliver, and remember the key if that succeeded. */
    method DeliverFire(key: Key, answers: nat -> Answer) returns (report: Report, slept: nat)
      modifies this`active
      ensures Reports(policy, false, answers, report, slept) && !report.outcome.Suppressed?
      ensures active == old(active) + if report.outcome.Delivered? then {key} else {}
    {
      report, slept := DeliverWithRetry(policy, false, answers);
      OnlyTheDedupSetSuppresses(policy, false, answers, report, slept);
      if report.outcome.Delivered? {
        active := active + {key};
      }
    }

    /** Suppress a duplicate of an active alert, else deliver; only a delivery makes the key active. */
    method Dispatch(key: Key, answers: nat -> Answer) returns (report: Report, slept: nat)
      requires Valid()
      modifies this
      ensures Valid() && log == old(log) + [Fired(key, report.outcome)]
      ensures if old(key in active) then report == Report(Suppressed, []) && slept == 0
              else Reports(policy, false, answers, report, slept)
    {
      if key in active {
        report, slept := Report(Suppressed, []), 0;
      } else {
        report, slept := DeliverFire(key, answers);
      }
      LogOneMore(log, Fired(key, report.outcome));
      log := log + [Fired(key, report.outcome)];
    }

    /** Clear the key and deliver the resolve, whether or not the key was active here. */
    method DispatchResolve(key: Key, answers: nat -> Answer) returns (report: Report, slept: nat)
      requires Valid()
      modifies this
      ensures Valid() && log == old(log) + [Resolved(key, report.outcome)]
      ensures Reports(policy, true, answers, report, slept)
    {
      active := active - {key};
      report, slept := DeliverWithRetry(policy, true, answers);
      LogOneMore(log, Resolved(key, report.outcome));
      log := log + [Resolved(key, report.outcome)];
    }

    /** Mark an alert resolved, so that its next occurrence notifies again. */
    method MarkResolved(key: Key)
      requires Valid()
      modifies this
      ensures Valid() && log == old(log) + [Marked(key)]
    {
      active := active - {key};
      LogOneMore(log, Marked(key));
      log := log + [Marked(key)];
    }
  }

  function ActiveAfter(log: seq<Event>): set<Key> {
    if log == [] then {}
    else
      var before, last := ActiveAfter(log[..|log| - 1]), log[|log| - 1];
      if last.Fired? then if last.outcome.Delivered? then before + {last.key} else before
      else before - {last.key}
  }

  /** A fire is suppressed exactly when its key is active. */
  predicate Truthful(log: seq<Event>) {
    log != [] ==>
      var init, last := log[..|log| - 1], log[|log| - 1];
      Truthful(init) && (last.Fired? ==> (last.outcome.Suppressed? <==> last.key in ActiveAfter(init)))
  }

  lemma LogOneMore(log: seq<Event>, e: Event)
    ensures ActiveAfter(log + [e]) ==
            if e.Fired? then if e.outcome.Delivered? then ActiveAfter(log) + {e.key} else ActiveAfter(log)
            else ActiveAfter(log) - {e.key}
    ensures Truthful(log + [e]) <==>
            Truthful(log) && (e.Fired? ==> (e.outcome.Suppressed? <==> e.key in ActiveAfter(log)))
  {
    assert (log + [e])[..|log|] == log;
  }

  /** Fire `i` delivered the key, and nothing after it has cleared it. */
  ghost predicate OpenSince(log: seq<Event>, k: Key, i: int) {
    0 <= i < |log| && DeliversFire(log[i], k) && forall j :: i < j < |log| ==> !Clears(log[j], k)
  }

  /** A key is active exactly when some delivered fire of it has had no later resolve or mark. */
  lemma {:induction false} ActiveExactlyWhenDeliveredAndNotCleared(log: seq<Event>, k: Key)
    ensures k in ActiveAfter(log) <==> exists i :: OpenSince(log, k, i)
  {
    if log != [] {
      var init, last := log[..|log| - 1], log[|log| - 1];
      ActiveExactlyWhenDeliveredAndNotCleared(init, k);
      if i :| OpenSince(init, k, i) {
        assert !Clears(last, k) ==> OpenSince(log, k, i);
      }
      if i :| OpenSince(log, k, i) {
        assert !Clears(log[|log| - 1], k) || i == |log| - 1;
        assert i < |init| ==> OpenSince(init, k, i);
      }
      if DeliversFire(last, k) {
        assert OpenSince(log, k, |log| - 1);
      }
    }
  }

  /** No two fires of a key are delivered without a resolve or a mark between them. */
  lemma {:induction false} NoTwoDeliveriesWithoutAClear(log: seq<Event>, k: Key, i: nat, j: nat)
    requires Truthful(log) && i < j < |log| && DeliversFire(log[i], k) && DeliversFire(log[j], k)
    ensures exists m :: i < m < j && Clears(log[m], k)
  {
    if j < |log| - 1 {
      var init := log[..|log| - 1];
      NoTwoDeliveriesWithoutAClear(init, k, i, j);
      var m :| i < m < j && Clears(init[m], k);
      assert Clears(log[m], k);
    } else {
      var init := log[..j];
      if !(exists m :: i < m < j && Clears(log[m], k)) {
        assert OpenSince(init, k, i);
        ActiveExactlyWhenDeliveredAndNotCleared(init, k);
        assert false;
      }
    }
  }
}
