/**
 * Table rows. The engine keeps a state only for the rows that have breached: a healthy sample of a
 * row it holds nothing for is skipped. It asks which rows it holds once per result.
 */
module Rows {
  import opened Base
  import opened Lanes
  import opened Restore
  import opened Runs

  /**
   * One row of a result: the rule's verdict on its value, whether the device reported a value at all
   * rather than its no-reading placeholder, and whether the metric is a raw counter.
   */
  datatype RowSample = RowSample(
    c: Check, verdict: NodeState, isValue: bool, isCounter: bool,
    at: int, dwell: nat, window: int, eval: Eval, rowName: Option<string>)
  {
    /** A rule calls a value healthy, warning or critical. */
    predicate Valid() {
      IsRowCheck(c) && verdict in {Ok, Warning, Critical}
    }

    function Raw(maintenance: bool): NodeState {
      if maintenance then Maintenance else if !isValue || isCounter then Ok else verdict
    }

    /** Maintenance, a placeholder and a counter breach nothing. */
    predicate Breaching(maintenance: bool) {
      isValue && !maintenance && !isCounter && verdict != Ok
    }

    function Seen(maintenance: bool): Obs {
      Obs(Raw(maintenance), at, dwell, window, true, true, if isValue then Some(eval) else None, rowName)
    }
  }

  // ------------------------------------------------------------------------------------------
  // One result's rows. The engine asks the index once, before it observes any of them.

  predicate RowsValid(rows: seq<RowSample>) {
    forall i :: 0 <= i < |rows| ==> rows[i].Valid()
  }

  /** The rows of a result that are observed, the index asked once. */
  function Kept(rows: seq<RowSample>, index: set<Check>, maintenance: bool): seq<RowSample> {
    if rows == [] then []
    else
      var last := rows[|rows| - 1];
      Kept(rows[..|rows| - 1], index, maintenance) + if last.Breaching(maintenance) || last.c in index then [last]
        else []
  }

  /** The index once these rows have been observed. */
  function IndexAfter(rows: seq<RowSample>, index: set<Check>, maintenance: bool): set<Check> {
    if rows == [] then index
    else
      var before, last := IndexAfter(rows[..|rows| - 1], index, maintenance), rows[|rows| - 1];
      if last.Breaching(maintenance) then before + {last.c} else before
  }

  /** The rows an engine observes that asks the index again for each row. */
  function OneByOne(rows: seq<RowSample>, index: set<Check>, maintenance: bool): seq<RowSample> {
    if rows == [] then []
    else
      var init, last := rows[..|rows| - 1], rows[|rows| - 1];
      OneByOne(init, index, maintenance) +
      if last.Breaching(maintenance) || last.c in IndexAfter(init, index, maintenance) then [last] else []
  }

  /** A row not yet held breaches, and a later sample of the same row in the same result does not. */
  ghost predicate LateRecovery(rows: seq<RowSample>, index: set<Check>, maintenance: bool) {
    exists j, i :: IsLate(rows, index, maintenance, j, i)
  }

  predicate IsLate(rows: seq<RowSample>, index: set<Check>, maintenance: bool, j: int, i: int) {
    && 0 <= j < i < |rows| && rows[j].c == rows[i].c && rows[i].c !in index
    && rows[j].Breaching(maintenance) && !rows[i].Breaching(maintenance)
  }

  lemma {:induction false} IndexHoldsTheBreached(rows: seq<RowSample>, index: set<Check>, maintenance: bool, c: Check)
    ensures c in IndexAfter(rows, index, maintenance) <==>
            c in index || exists j :: 0 <= j < |rows| && rows[j].c == c && rows[j].Breaching(maintenance)
  {
    if rows != [] {
      var init := rows[..|rows| - 1];
      IndexHoldsTheBreached(init, index, maintenance, c);
      if j :| 0 <= j < |rows| && rows[j].c == c && rows[j].Breaching(maintenance) {
        assert j < |init| ==> init[j] == rows[j];
      }
      if j :| 0 <= j < |init| && init[j].c == c && init[j].Breaching(maintenance) {
        assert rows[j] == init[j];
      }
    }
  }

  lemma LateRecoveryAtTheEnd(rows: seq<RowSample>, index: set<Check>, maintenance: bool)
    requires rows != []
    ensures var init, last := rows[..|rows| - 1], rows[|rows| - 1];
            LateRecovery(rows, index, maintenance) <==>
            LateRecovery(init, index, maintenance) ||
            (last.c in IndexAfter(init, index, maintenance) && last.c !in index && !last.Breaching(maintenance))
  {
    var init, last := rows[..|rows| - 1], rows[|rows| - 1];
    IndexHoldsTheBreached(init, index, maintenance, last.c);
    if j, i :| IsLate(rows, index, maintenance, j, i) {
      assert init[j] == rows[j];
      assert i < |init| ==> IsLate(init, index, maintenance, j, i);
    }
    if j, i :| IsLate(init, index, maintenance, j, i) {
      assert IsLate(rows, index, maintenance, j, i);
    }
    if last.c !in index && !last.Breaching(maintenance) {
      if j :| 0 <= j < |init| && init[j].c == last.c && init[j].Breaching(maintenance) {
        assert IsLate(rows, index, maintenance, j, |rows| - 1);
      }
    }
  }

  /**
   * Asking the index once per result and once per row come to the same rows exactly when no row
   * that was not yet held breaches and then recovers inside one result.
   */
  lemma {:induction false} OneQuestionIsEnough(rows: seq<RowSample>, index: set<Check>, maintenance: bool)
    ensures Kept(rows, index, maintenance) == OneByOne(rows, index, maintenance) <==>
            !LateRecovery(rows, index, maintenance)
    ensures |Kept(rows, index, maintenance)| <= |OneByOne(rows, index, maintenance)|
  {
    if rows != [] {
      var init, last := rows[..|rows| - 1], rows[|rows| - 1];
      OneQuestionIsEnough(init, index, maintenance);
      LateRecoveryAtTheEnd(rows, index, maintenance);
      IndexHoldsTheBreached(init, index, maintenance, last.c);
      var kept, asked := Kept(init, index, maintenance), OneByOne(init, index, maintenance);
      if Kept(rows, index, maintenance) == OneByOne(rows, index, maintenance) {
        assert |kept| == |asked|;
        assert kept == Kept(rows, index, maintenance)[..|kept|];
        assert asked == OneByOne(rows, index, maintenance)[..|asked|];
      }
    }
  }

  /** What is added to the index at the end of a result is what the breaching rows add one by one. */
  lemma {:induction false} IndexGrowsByTheKept(rows: seq<RowSample>, index: set<Check>, maintenance: bool)
    ensures index + ChecksOf(Kept(rows, index, maintenance)) == IndexAfter(rows, index, maintenance)
  {
    if rows != [] {
      var init, last := rows[..|rows| - 1], rows[|rows| - 1];
      IndexGrowsByTheKept(init, index, maintenance);
      var kept := Kept(init, index, maintenance);
      assert (kept + [last])[..|kept|] == kept;
      assert kept + [] == kept;
    }
  }

  /** A row reported twice in one result, breaching and then healthy, hides its own recovery. */
  lemma ADuplicateRowHidesItsRecovery(c: Check, ev: Eval)
    requires IsRowCheck(c)
    ensures var bad := RowSample(c, Critical, true, false, 0, 1, 0, ev, None);
            var good := bad.(verdict := Ok);
            && LateRecovery([bad, good], {}, false)
            && Kept([bad, good], {}, false) == [bad]
            && Observed(c, EMPTY_LANE, bad.Seen(false), None, None).alert.Some?
            && Observed(c, Observed(c, EMPTY_LANE, bad.Seen(false), None, None), good.Seen(false), None,
                        None).alert.None?
  {
    var bad := RowSample(c, Critical, true, false, 0, 1, 0, ev, None);
    var good := bad.(verdict := Ok);
    var rows := [bad, good];
    assert IsLate(rows, {}, false, 0, 1);
    assert rows[..1] == [bad] && rows[..1][..0] == [];
    assert Kept(rows[..1], {}, false) == [bad];
  }

  // ------------------------------------------------------------------------------------------
  // Which rows a result adds to the index, and which leftovers it retires.

  function ChecksOf(rows: seq<RowSample>): set<Check> {
    if rows == [] then {} else ChecksOf(rows[..|rows| - 1]) + {rows[|rows| - 1].c}
  }

  /** The check a row's metric would have without rows. */
  function NodeWideOf(r: RowSample): Check
    requires IsRowCheck(r.c)
  {
    Threshold(r.c.node, Whole, r.c.metric)
  }

  function Leftovers(rows: seq<RowSample>): set<Check>
    requires RowsValid(rows)
  {
    if rows == [] then {}
    else
      assert rows[|rows| - 1].Valid();
      Leftovers(rows[..|rows| - 1]) + {NodeWideOf(rows[|rows| - 1])}
  }

  lemma OneMoreRow(rows: seq<RowSample>, i: nat, index: set<Check>, maintenance: bool)
    requires i < |rows|
    ensures var r := rows[i];
            var kept, now := Kept(rows[..i], index, maintenance), Kept(rows[..i + 1], index, maintenance);
            if r.Breaching(maintenance) || r.c in index then
              && now == kept + [r] && ChecksOf(now) == ChecksOf(kept) + {r.c}
              && Observations(now, maintenance) == Observations(kept, maintenance)
                + [Observing(r.c, r.Seen(maintenance))]
            else now == kept
  {
    assert rows[..i + 1][..i] == rows[..i];
    var kept := Kept(rows[..i], index, maintenance);
    assert (kept + [rows[i]])[..|kept|] == kept;
  }

  lemma OneMoreLeftover(rows: seq<RowSample>, i: nat, legacy: set<Check>)
    requires i < |rows| && RowsValid(rows)
    ensures rows[i].Valid() && Leftovers(rows[..i + 1]) == Leftovers(rows[..i]) + {NodeWideOf(rows[i])}
    ensures Retirements(rows[..i + 1], legacy) ==
            Retirements(rows[..i], legacy) + RetireSteps(NodeWideOf(rows[i]), legacy - Leftovers(rows[..i]))
  {
    assert rows[..i + 1][..i] == rows[..i];
  }

  // ------------------------------------------------------------------------------------------
  // The steps one result's rows make the engine take.

  /** Every row's observation, in order. */
  function Observations(rows: seq<RowSample>, maintenance: bool): seq<Step> {
    if rows == [] then []
    else
      var last := rows[|rows| - 1];
      Observations(rows[..|rows| - 1], maintenance) + [Observing(last.c, last.Seen(maintenance))]
  }

  /** The steps that retire a check if it is still left over. */
  function RetireSteps(c: Check, legacy: set<Check>): seq<Step> {
    if c in legacy then [Retiring(legacy - {c}), Orphaning({c})] else []
  }

  /** The leftover of each row's metric is retired, the first time it comes up. */
  function Retirements(rows: seq<RowSample>, legacy: set<Check>): seq<Step>
    requires RowsValid(rows)
  {
    if rows == [] then []
    else
      var init := rows[..|rows| - 1];
      assert rows[|rows| - 1].Valid();
      Retirements(init, legacy) + RetireSteps(NodeWideOf(rows[|rows| - 1]), legacy - Leftovers(init))
  }

  /** One result's rows: leftovers retired, the kept rows observed, and the index grown by them. */
  function RowSteps(rows: seq<RowSample>, index: set<Check>, legacy: set<Check>, maintenance: bool): seq<Step>
    requires RowsValid(rows)
  {
    var kept := Kept(rows, index, maintenance);
    Retirements(rows, legacy) + Observations(kept, maintenance) + [Indexing(index + ChecksOf(kept))]
  }
}
