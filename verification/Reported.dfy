/** The report ledger: how long ago a node that is never polled itself was last answered for. */
module Reported {
  import opened Base

  const FRESH_FLOOR_SECS: nat := 600
  const FRESH_POLLS: nat := 3

  /** Clamping an unbounded result into a signed 64-bit number. */
  function Clamp(x: int): int {
    if x > I64_MAX then I64_MAX else if x < -I64_MAX - 1 then -I64_MAX - 1 else x
  }

  /** The age up to which a report counts, given how often its reporter is polled. */
  function FreshForMs(interval: Option<nat>): int {
    var secs := if interval.None? then FRESH_FLOOR_SECS
                else Max(FRESH_FLOOR_SECS, Min(interval.value * FRESH_POLLS, U64_MAX));
    Min(Min(secs * 1000, U64_MAX), I64_MAX)
  }

  predicate IsCurrent(at: int, interval: Option<nat>, now: int) {
    Clamp(now - at) <= FreshForMs(interval)
  }

  /**
   * None of the saturating steps ever decides: for every 32-bit interval and every pair of instants,
   * a report is current exactly while its age is at most ten minutes, or three polls if longer.
   */
  lemma CurrentUpToTheWindow(at: int, interval: Option<nat>, now: int)
    requires interval.Some? ==> interval.value <= U32_MAX
    ensures IsCurrent(at, interval, now) <==>
            now - at <= 600_000 || (interval.Some? && now - at <= interval.value * 3000)
  {
  }

  /** Once stale, a report stays stale until a newer one arrives or the reporter's interval grows. */
  lemma StaleStaysStale(at: int, interval: Option<nat>, now: int, later: int, shorter: Option<nat>)
    requires interval.Some? ==> interval.value <= U32_MAX
    requires !IsCurrent(at, interval, now) && now <= later
    requires shorter.None? || (interval.Some? && shorter.value <= interval.value)
    ensures !IsCurrent(at, shorter, later)
  {
    CurrentUpToTheWindow(at, interval, now);
    CurrentUpToTheWindow(at, shorter, later);
  }

  datatype Report = Report(at: int, reporter: NodeId, announcedStale: bool)

  predicate IsStale(r: Report, interval: NodeId -> Option<nat>, now: int) {
    !IsCurrent(r.at, interval(r.reporter), now)
  }

  /** What one more report makes of the one held: an older one is ignored. */
  function Noted(held: Option<Report>, reporter: NodeId, at: int): Report {
    if held.None? then Report(at, reporter, false)
    else if held.value.at <= at then held.value.(at := at, reporter := reporter)
    else held.value
  }

  /** The latest report about each node that is reported on. */
  class ReportLedger {
    var reports: map<NodeId, Report>

    constructor ()
      ensures reports == map[]
    {
      reports := map[];
    }

    /** `reporter` reported `node`. */
    method Note(node: NodeId, reporter: NodeId, at: int)
      modifies this
      ensures reports == old(reports)[node := Noted(old(if node in reports then Some(reports[node]) else None),
                                                    reporter, at)]
    {
      if node !in reports {
        reports := reports[node := Report(at, reporter, false)];
      }
      var held := reports[node];
      if at >= held.at {
        reports := reports[node := held.(at := at, reporter := reporter)];
      }
    }

    /** What was recorded before this process started; a live report always wins. */
    method Seed(node: NodeId, reporter: NodeId, at: int)
      modifies this
      ensures node in old(reports) ==> reports == old(reports)
      ensures node !in old(reports) ==> reports == old(reports)[node := Report(at, reporter, false)]
    {
      if node !in reports {
        reports := reports[node := Report(at, reporter, false)];
      }
    }

    /** Drop every node that no longer exists. */
    method Retain(keep: set<NodeId>)
      modifies this
      ensures reports == map n | n in old(reports) && n in keep :: old(reports)[n]
    {
      reports := map n | n in reports && n in keep :: reports[n];
    }

    /** The nodes whose staleness differs from what was last announced, which is announced now. */
    method Flips(now: int, interval: NodeId -> Option<nat>) returns (out: seq<NodeId>)
      modifies this
      ensures NamesOnce(out, Unannounced(old(reports), interval, now))
      ensures reports == Announced(old(reports), interval, now)
    {
      out := [];
      var left := reports.Keys;
      ghost var was, seen := reports, {};
      while left != {}
        invariant reports.Keys == was.Keys && left <= was.Keys && seen == was.Keys - left
        invariant forall n :: n in left ==> reports[n] == was[n]
        invariant forall n :: n in seen ==> reports[n] == was[n].(announcedStale := IsStale(was[n], interval, now))
        invariant NamesOnce(out, set n | n in seen && IsStale(was[n], interval, now) != was[n].announcedStale)
        decreases left
      {
        var node :| node in left;
        var report := reports[node];
        var stale := IsStale(report, interval, now);
        ghost var before := set n | n in seen && IsStale(was[n], interval, now) != was[n].announcedStale;
        left, seen := left - {node}, seen + {node};
        ghost var after := set n | n in seen && IsStale(was[n], interval, now) != was[n].announcedStale;
        if stale != report.announcedStale {
          reports := reports[node := report.(announcedStale := stale)];
          assert after == before + {node};
          NamesOneMore(out, before, node);
          out := out + [node];
        } else {
          assert after == before;
        }
      }
      assert seen == was.Keys;
    }
  }

  /** A listing of a set with nothing named twice. */
  ghost predicate NamesOnce(out: seq<NodeId>, all: set<NodeId>) {
    && (forall n :: n in all <==> n in out)
    && (forall i, j :: 0 <= i < j < |out| ==> out[i] != out[j])
  }

  lemma NamesOneMore(out: seq<NodeId>, all: set<NodeId>, n: NodeId)
    requires NamesOnce(out, all) && n !in all
    ensures NamesOnce(out + [n], all + {n})
  {
  }

  function Announced(reports: map<NodeId, Report>, interval: NodeId -> Option<nat>, now: int): map<NodeId, Report> {
    map n | n in reports :: reports[n].(announcedStale := IsStale(reports[n], interval, now))
  }

  function Unannounced(reports: map<NodeId, Report>, interval: NodeId -> Option<nat>, now: int): set<NodeId> {
    set n | n in reports && IsStale(reports[n], interval, now) != reports[n].announcedStale
  }

  /** Once announced, a node is not named again until its staleness has changed. */
  lemma NamedOncePerChange(reports: map<NodeId, Report>, interval: NodeId -> Option<nat>, now: int, later: int,
                           n: NodeId)
    requires n in reports
    ensures n in Unannounced(Announced(reports, interval, now), interval, later) <==>
            IsStale(reports[n], interval, now) != IsStale(reports[n], interval, later)
  {
  }

  // ------------------------------------------------------------------------------------------
  // Reports arriving in any order.

  datatype Arrival = Arrival(reporter: NodeId, at: int)

  function AfterAll(arrivals: seq<Arrival>): Option<Report> {
    if arrivals == [] then None
    else
      var last := arrivals[|arrivals| - 1];
      Some(Noted(AfterAll(arrivals[..|arrivals| - 1]), last.reporter, last.at))
  }

  /** However reports are ordered on arrival, the one held is the newest, the last of equally new ones. */
  lemma {:induction false} TheNewestReportIsHeld(arrivals: seq<Arrival>, k: nat)
    requires k < |arrivals|
    ensures AfterAll(arrivals).Some? && arrivals[k].at <= AfterAll(arrivals).value.at
    ensures Arrival(AfterAll(arrivals).value.reporter, AfterAll(arrivals).value.at) in arrivals
    ensures (forall j :: 0 <= j < |arrivals| ==> arrivals[j].at <= arrivals[k].at) &&
            (forall j :: k < j < |arrivals| ==> arrivals[j].at < arrivals[k].at) ==>
              AfterAll(arrivals).value == Report(arrivals[k].at, arrivals[k].reporter, false)
  {
    var init, last := arrivals[..|arrivals| - 1], arrivals[|arrivals| - 1];
    assert arrivals == init + [last];
    if k < |init| {
      TheNewestReportIsHeld(init, k);
    } else if init != [] {
      TheNewestReportIsHeld(init, 0);
      NeverAnnouncedByArriving(init);
      assert Arrival(AfterAll(init).value.reporter, AfterAll(init).value.at) in init;
    }
  }

  lemma {:induction false} NeverAnnouncedByArriving(arrivals: seq<Arrival>)
    ensures AfterAll(arrivals).Some? ==> !AfterAll(arrivals).value.announcedStale
  {
    if arrivals != [] {
      NeverAnnouncedByArriving(arrivals[..|arrivals| - 1]);
    }
  }
}
