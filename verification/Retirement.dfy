/** A node-wide alert left over from before its metric became a table's is closed when the table reports. */
module Retirement {
  import opened Base
  import opened Lanes
  import opened Engine
  import opened EngineProofs
  import opened Restore
  import opened Runs
  import opened Lifelines
  import opened Trails
  import opened Rows

  /** The steps the rows of a result lead to. */
  predicate IsRowStep(step: Step) {
    match step
    case Observing(c, _) => IsRowCheck(c)
    case Orphaning(_) => true
    case Indexing(_) => true
    case Retiring(_) => true
    case _ => false
  }

  predicate AllRowSteps(steps: seq<Step>) {
    forall i :: 0 <= i < |steps| ==> IsRowStep(steps[i])
  }

  /** Some step closes the check. */
  predicate ClosedIn(steps: seq<Step>, c: Check) {
    exists i :: 0 <= i < |steps| && steps[i].Orphaning? && c in steps[i].orphans
  }

  lemma ClosedInMore(steps: seq<Step>, more: seq<Step>, c: Check)
    ensures ClosedIn(steps + more, c) <==> ClosedIn(steps, c) || ClosedIn(more, c)
  {
    var all := steps + more;
    assert forall i :: 0 <= i < |steps| ==> all[i] == steps[i];
    assert forall i :: 0 <= i < |more| ==> all[|steps| + i] == more[i];
    assert forall i :: |steps| <= i < |all| ==> all[i] == more[i - |steps|];
  }

  /** The row metric whose node-wide form a check is. */
  predicate IsNodeWideOf(c: Check, row: RowSample) {
    IsRowCheck(row.c) && c == Threshold(row.c.node, Whole, row.c.metric)
  }

  lemma {:induction false} LeftoversOfRows(rows: seq<RowSample>, c: Check)
    requires RowsValid(rows)
    ensures c in Leftovers(rows) <==> exists i :: 0 <= i < |rows| && IsNodeWideOf(c, rows[i])
  {
    if rows != [] {
      var init := rows[..|rows| - 1];
      LeftoversOfRows(init, c);
      assert rows[|rows| - 1].Valid();
      assert forall i :: 0 <= i < |init| ==> init[i] == rows[i];
    }
  }

  lemma {:induction false} RetirementsClose(rows: seq<RowSample>, legacy: set<Check>, c: Check)
    requires RowsValid(rows)
    ensures AllRowSteps(Retirements(rows, legacy))
    ensures ClosedIn(Retirements(rows, legacy), c) <==> c in legacy && c in Leftovers(rows)
  {
    if rows != [] {
      var init := rows[..|rows| - 1];
      assert rows[|rows| - 1].Valid();
      RetirementsClose(init, legacy, c);
      var own := NodeWideOf(rows[|rows| - 1]);
      var steps := RetireSteps(own, legacy - Leftovers(init));
      ClosedInMore(Retirements(init, legacy), steps, c);
      if own in legacy - Leftovers(init) {
        assert steps[1] == Orphaning({own});
      }
    }
  }

  lemma {:induction false} ObservationsCloseNothing(rows: seq<RowSample>, maintenance: bool, c: Check)
    requires forall i :: 0 <= i < |rows| ==> IsRowCheck(rows[i].c)
    ensures AllRowSteps(Observations(rows, maintenance)) && !ClosedIn(Observations(rows, maintenance), c)
  {
    if rows != [] {
      ObservationsCloseNothing(rows[..|rows| - 1], maintenance, c);
    }
  }

  lemma {:induction false} KeptAreRows(rows: seq<RowSample>, index: set<Check>, maintenance: bool)
    requires RowsValid(rows)
    ensures forall i :: 0 <= i < |Kept(rows, index, maintenance)| ==> IsRowCheck(Kept(rows, index, maintenance)[i].c)
  {
    if rows != [] {
      assert rows[|rows| - 1].Valid();
      KeptAreRows(rows[..|rows| - 1], index, maintenance);
    }
  }

  /** The rows of a result close exactly the leftovers that are the node-wide form of one of them. */
  lemma RowsCloseTheirLeftovers(rows: seq<RowSample>, index: set<Check>, legacy: set<Check>, maintenance: bool,
                                c: Check)
    requires RowsValid(rows)
    ensures AllRowSteps(RowSteps(rows, index, legacy, maintenance))
    ensures ClosedIn(RowSteps(rows, index, legacy, maintenance), c) <==>
            c in legacy && exists i :: 0 <= i < |rows| && IsNodeWideOf(c, rows[i])
  {
    var kept := Kept(rows, index, maintenance);
    var a, b, d := Retirements(rows, legacy), Observations(kept, maintenance), [Indexing(index + ChecksOf(kept))];
    RetirementsClose(rows, legacy, c);
    LeftoversOfRows(rows, c);
    KeptAreRows(rows, index, maintenance);
    ObservationsCloseNothing(kept, maintenance, c);
    ClosedInMore(a, b, c);
    ClosedInMore(a + b, d, c);
  }

  // ------------------------------------------------------------------------------------------
  // Over the run the rows lead to.

  lemma LaneUnderRows(env: Env, s: State, down: set<NodeId>, step: Step, c: Check, l': Lane, act: Option<Action>)
    requires LaneTakes(env, s, down, step, c, l', act) && IsRowStep(step) && IsNodeWide(c)
    ensures if step.Orphaning? && c in step.orphans then
              l' == Orphaned(LaneOf(s, c)) && act == ClosedAction(LaneOf(s, c))
            else
              l' == LaneOf(s, c) && act.None?
  {
  }

  /** What has been said about the check, and its alert now: closed once if some step closed it, else untouched. */
  ghost predicate ClosedOnce(before: Option<Alert>, now: Option<Alert>, said: seq<Action>, closed: bool) {
    if closed then now.None? && said == (if before.Some? then [Resolve(before.value)] else [])
    else now == before && said == []
  }

  /** A node-wide check under a run of such steps. */
  lemma {:induction false} ALeftoverIsClosedOnce(s: State, retired: set<NodeId>, run: seq<Entry>, c: Check)
    requires Inv(s, retired) && IsRun(s, retired, run) && IsNodeWide(c) && AllRowSteps(Steps(run))
    ensures ClosedOnce(Lookup(s.active, c), Lookup(EndState(s, run).active, c), LogAbout(Log(run), c),
                       ClosedIn(Steps(run), c))
  {
    if run != [] {
      var init, last := run[..|run| - 1], run[|run| - 1];
      var pre := EndState(s, init);
      assert Steps(run)[|Steps(init)|] == last.step;
      assert forall i :: 0 <= i < |Steps(init)| ==> Steps(run)[i] == Steps(init)[i];
      ClosedInMore(Steps(init), [last.step], c);
      assert ClosedIn([last.step], c) <==> last.step.Orphaning? && c in last.step.orphans by {
        assert [last.step][0] == last.step;
      }
      LastEntry(s, retired, run);
      ALeftoverIsClosedOnce(s, retired, init, c);
      RunStaysSound(s, retired, init);
      OneRowStep(pre, EndRetired(s, retired, init), last, c);
      LogAboutConcat(Log(init), last.acts, c);
    }
  }

  lemma OneRowStep(s: State, retired: set<NodeId>, e: Entry, c: Check)
    requires Inv(s, retired) && Follows(s, retired, e) && IsRowStep(e.step) && IsNodeWide(c)
    ensures ClosedOnce(Lookup(s.active, c), Lookup(e.post.active, c), LogAbout(e.acts, c),
                       e.step.Orphaning? && c in e.step.orphans)
  {
    LaneOfStep(e.env, s, e.post, e.step, e.em, c);
    LaneUnderRows(e.env, s, e.post.down, e.step, c, LaneOf(e.post, c), Lookup(e.em, c));
    assert LaneOk(c, LaneOf(s, c), NodeDown(s, c));
    assert LaneOf(e.post, c).alert == Lookup(e.post.active, c) && LaneOf(s, c).alert == Lookup(s.active, c);
    ListedAbout(e.acts, e.em, c);
  }

  /**
   * After the rows of a result: a node-wide alert left over from a restart is closed, with one resolve,
   * exactly when the result holds a row of its metric on its node; any other node-wide alert is left
   * alone and nothing is said about it.
   */
  lemma TheTableClosesItsLeftover(s: State, retired: set<NodeId>, rows: seq<RowSample>, maintenance: bool,
                                  run: seq<Entry>, c: Check)
    requires Inv(s, retired) && IsRun(s, retired, run) && RowsValid(rows) && IsNodeWide(c)
    requires Steps(run) == RowSteps(rows, s.rowStates, s.legacy, maintenance)
    ensures ClosedOnce(Lookup(s.active, c), Lookup(EndState(s, run).active, c), LogAbout(Log(run), c),
                       c in s.legacy && exists i :: 0 <= i < |rows| && IsNodeWideOf(c, rows[i]))
  {
    RowsCloseTheirLeftovers(rows, s.rowStates, s.legacy, maintenance, c);
    ALeftoverIsClosedOnce(s, retired, run, c);
  }
}
