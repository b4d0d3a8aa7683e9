/** What one poll result shows the engine: every sample, by its own rule, and nothing else. */
module ResultProofs {
  import opened Base
  import opened Lanes
  import opened LaneProofs
  import opened Engine
  import opened EngineProofs
  import opened Runs
  import opened Trails
  import opened Rows
  import opened Thresholds
  import opened Results

  // ------------------------------------------------------------------------------------------
  // The observations of a result and its samples.

  /**
   * A step observes the check of a sample with what the sample's own rule says: a node-wide metric, a
   * port's and a row's are looked up each in its own way; in maintenance every check is shown
   * `Maintenance`, and a counter or a placeholder is judged healthy.
   */
  predicate Shows(r: PollResult, s: PollSample, rule: Rule, step: Step) {
    && step.Observing? && step.c.Threshold? && step.c.node == r.node && step.c.metric == s.metric
    && (match s.ifindex
        case None =>
          step.c.dim == Whole && r.resolve(s.metric, None, None) == Some(rule) && step.o.rowName.None?
        case Some(i) =>
          if s.isPort then
            step.c.dim == Port(i) && r.resolve(s.metric, Some(i), None) == Some(rule) && step.o.rowName.None?
          else
            step.c.dim == Row(i) && r.resolve(s.metric, None, s.resolvingName) == Some(rule)
            && step.o.rowName == s.rowName)
    && step.o.raw == (if r.maintenance then Maintenance
                      else if s.isCounter || !s.isValue then Ok
                      else rule.bounds.Evaluate(s.value))
    && step.o.at == r.at && step.o.dwell == rule.dwell && step.o.window == r.window && step.o.alerting && step.o.loaded
    && step.o.eval == if s.isValue then Some(rule.bounds.EvalOf(s.value)) else None
  }

  /** The liveness observation of a result that claims one: no rule means no paging, and three in a row to commit. */
  predicate ShowsLiveness(r: PollResult, step: Step) {
    && step.Observing? && step.c == Liveness(r.node) && r.outcome.Some?
    && step.o.raw == (if r.maintenance then Maintenance else r.outcome.value)
    && step.o.at == r.at && step.o.window == r.window && step.o.loaded && step.o.eval.None? && step.o.rowName.None?
    && (match r.livenessDwell
        case Some(d) => step.o.alerting && step.o.dwell == d
        case None => !step.o.alerting && step.o.dwell == 3)
  }

  /** Some sample among the first `n` is shown by the step. */
  ghost predicate OfASample(r: PollResult, n: nat, step: Step)
    requires n <= |r.samples|
  {
    exists i, rule :: 0 <= i < n && Shows(r, r.samples[i], rule, step)
  }

  /** Steps among which every observation is of a sample, and which otherwise only tidy up. */
  ghost predicate OnlySamples(r: PollResult, steps: seq<Step>) {
    forall i :: 0 <= i < |steps| ==>
      match steps[i]
      case Observing(_, _) => OfASample(r, |r.samples|, steps[i])
      case Orphaning(orphans) => forall c :: c in orphans ==> c.Threshold? && c.dim == Whole
      case Indexing(_) => true
      case Retiring(_) => true
      case _ => false
  }

  lemma OnlySamplesConcat(r: PollResult, a: seq<Step>, b: seq<Step>)
    requires OnlySamples(r, a) && OnlySamples(r, b)
    ensures OnlySamples(r, a + b)
  {
  }

  /** A judged sample is shown. */
  lemma JudgedShows(r: PollResult, s: PollSample, rule: Rule)
    requires r.RuleOf(s) == Some(rule)
    ensures Shows(r, s, rule, r.Judged(s, rule))
  {
  }

  lemma JudgedIsOfASample(r: PollResult, i: nat)
    requires i < |r.samples| && r.RuleOf(r.samples[i]).Some?
    ensures OfASample(r, |r.samples|, r.Judged(r.samples[i], r.RuleOf(r.samples[i]).value))
  {
    JudgedShows(r, r.samples[i], r.RuleOf(r.samples[i]).value);
  }

  lemma {:induction false} PortsAreSamples(r: PollResult, n: nat)
    requires n <= |r.samples|
    ensures OnlySamples(r, r.PortSteps(n))
  {
    if n > 0 {
      PortsAreSamples(r, n - 1);
      if r.OnPort(r.samples[n - 1]) {
        JudgedIsOfASample(r, n - 1);
      }
    }
  }

  lemma {:induction false} FoldsAreSamples(r: PollResult, folded: seq<nat>, legacy: set<Check>)
    requires r.Chosen(|r.samples|, folded)
    ensures OnlySamples(r, r.FoldSteps(folded, legacy))
  {
    if folded != [] {
      FoldsAreSamples(r, folded[..|folded| - 1], legacy);
      JudgedIsOfASample(r, folded[|folded| - 1]);
    }
  }

  /** Every row gathered is a sample's. */
  ghost predicate GatheredFrom(r: PollResult, rows: seq<RowSample>) {
    forall i :: 0 <= i < |rows| ==> OfASample(r, |r.samples|, Observing(rows[i].c, rows[i].Seen(r.maintenance)))
  }

  lemma {:induction false} RowsAreSamples(r: PollResult, n: nat)
    requires n <= |r.samples|
    ensures GatheredFrom(r, r.RowsSeen(n))
  {
    if n > 0 {
      RowsAreSamples(r, n - 1);
      if r.OnRow(r.samples[n - 1]) {
        JudgedIsOfASample(r, n - 1);
      }
    }
  }

  lemma {:induction false} KeptAreSamples(r: PollResult, rows: seq<RowSample>, index: set<Check>)
    requires GatheredFrom(r, rows)
    ensures GatheredFrom(r, Kept(rows, index, r.maintenance))
  {
    if rows != [] {
      var init := rows[..|rows| - 1];
      assert forall i :: 0 <= i < |init| ==> init[i] == rows[i];
      KeptAreSamples(r, init, index);
    }
  }

  lemma {:induction false} ObservationsAreSamples(r: PollResult, rows: seq<RowSample>)
    requires GatheredFrom(r, rows)
    ensures OnlySamples(r, Observations(rows, r.maintenance))
  {
    if rows != [] {
      var init := rows[..|rows| - 1];
      assert forall i :: 0 <= i < |init| ==> init[i] == rows[i];
      ObservationsAreSamples(r, init);
    }
  }

  lemma {:induction false} RetirementsOnlyTidyUp(r: PollResult, rows: seq<RowSample>, legacy: set<Check>)
    requires RowsValid(rows)
    ensures OnlySamples(r, Retirements(rows, legacy))
  {
    if rows != [] {
      RetirementsOnlyTidyUp(r, rows[..|rows| - 1], legacy);
    }
  }

  lemma RowStepsAreSamples(r: PollResult, index: set<Check>, legacy: set<Check>)
    ensures RowsValid(r.RowsSeen(|r.samples|))
    ensures OnlySamples(r, RowSteps(r.RowsSeen(|r.samples|), index, legacy, r.maintenance))
  {
    var rows := r.RowsSeen(|r.samples|);
    RowsSeenAreValid(r, |r.samples|);
    RowsAreSamples(r, |r.samples|);
    KeptAreSamples(r, rows, index);
    ObservationsAreSamples(r, Kept(rows, index, r.maintenance));
    RetirementsOnlyTidyUp(r, rows, legacy);
    OnlySamplesConcat(r, Retirements(rows, legacy), Observations(Kept(rows, index, r.maintenance), r.maintenance));
  }

  lemma TheRestIsSamples(r: PollResult, folded: seq<nat>, index: set<Check>, legacy: set<Check>)
    requires r.Chosen(|r.samples|, folded)
    ensures OnlySamples(r, StepsAfterLiveness(r, folded, index, legacy))
  {
    var a, b := r.PortSteps(|r.samples|), r.FoldSteps(folded, legacy);
    PortsAreSamples(r, |r.samples|);
    FoldsAreSamples(r, folded, legacy);
    OnlySamplesConcat(r, a, b);
    RowStepsAreSamples(r, index, legacy - r.FoldedChecks(folded));
    OnlySamplesConcat(r, a + b, RowSteps(r.RowsSeen(|r.samples|), index, legacy - r.FoldedChecks(folded),
                                         r.maintenance));
  }

  lemma LivenessComesFirst(r: PollResult, folded: seq<nat>, index: set<Check>, legacy: set<Check>)
    requires r.Chosen(|r.samples|, folded)
    ensures var steps, rest := ResultSteps(r, folded, index, legacy), StepsAfterLiveness(r, folded, index, legacy);
            if r.outcome.Some? then steps != [] && steps[0] == r.LivenessSteps()[0] && steps[1..] == rest
            else steps == rest
  {
  }

  /**
   * Nothing but its samples: every step a result makes the engine take observes the node's liveness as
   * the result claims it, or the check of one of its samples as that sample's rule says, or tidies up
   * the row index and the node-wide leftovers.
   */
  lemma AResultShowsOnlyItsSamples(r: PollResult, folded: seq<nat>, index: set<Check>, legacy: set<Check>)
    requires r.Chosen(|r.samples|, folded)
    ensures var steps := ResultSteps(r, folded, index, legacy);
            if r.outcome.Some? then steps != [] && ShowsLiveness(r, steps[0]) && OnlySamples(r, steps[1..])
            else OnlySamples(r, steps)
  {
    TheRestIsSamples(r, folded, index, legacy);
    LivenessComesFirst(r, folded, index, legacy);
  }

  // ------------------------------------------------------------------------------------------
  // The other way round: every sample that counts is shown.

  /** Some step shows a sample as its rule says. */
  ghost predicate Shown(r: PollResult, s: PollSample, rule: Rule, steps: seq<Step>) {
    exists step :: step in steps && Shows(r, s, rule, step)
  }

  lemma ShownInMore(r: PollResult, s: PollSample, rule: Rule, steps: seq<Step>, more: seq<Step>)
    requires Shown(r, s, rule, steps) && forall step :: step in steps ==> step in more
    ensures Shown(r, s, rule, more)
  {
  }

  lemma {:induction false} PortIsShown(r: PollResult, n: nat, i: nat)
    requires i < n <= |r.samples| && r.OnPort(r.samples[i])
    ensures Shown(r, r.samples[i], r.RuleOf(r.samples[i]).value, r.PortSteps(n))
  {
    if i < n - 1 {
      PortIsShown(r, n - 1, i);
      ShownInMore(r, r.samples[i], r.RuleOf(r.samples[i]).value, r.PortSteps(n - 1), r.PortSteps(n));
    } else {
      var rule := r.RuleOf(r.samples[i]).value;
      JudgedShows(r, r.samples[i], rule);
      assert r.Judged(r.samples[i], rule) in r.PortSteps(n);
    }
  }

  lemma {:induction false} ChosenIsShown(r: PollResult, folded: seq<nat>, legacy: set<Check>, k: nat)
    requires r.Chosen(|r.samples|, folded) && k < |folded|
    ensures Shown(r, r.samples[folded[k]], r.RuleOf(r.samples[folded[k]]).value, r.FoldSteps(folded, legacy))
  {
    var init := folded[..|folded| - 1];
    var s := r.samples[folded[k]];
    var rule := r.RuleOf(s).value;
    if k < |init| {
      ChosenIsShown(r, init, legacy, k);
      ShownInMore(r, s, rule, r.FoldSteps(init, legacy), r.FoldSteps(folded, legacy));
    } else {
      JudgedShows(r, s, rule);
      assert r.Judged(s, rule) in r.FoldSteps(folded, legacy);
    }
  }

  lemma {:induction false} RowIsGathered(r: PollResult, n: nat, i: nat)
    requires i < n <= |r.samples| && r.OnRow(r.samples[i])
    ensures r.AsRow(r.samples[i], r.RuleOf(r.samples[i]).value) in r.RowsSeen(n)
  {
    if i < n - 1 {
      RowIsGathered(r, n - 1, i);
    }
  }

  lemma {:induction false} RowIsKept(rows: seq<RowSample>, index: set<Check>, maintenance: bool, row: RowSample)
    requires row in rows && (row.Breaching(maintenance) || row.c in index)
    ensures Observing(row.c, row.Seen(maintenance)) in Observations(Kept(rows, index, maintenance), maintenance)
  {
    var init, last := rows[..|rows| - 1], rows[|rows| - 1];
    var kept := Kept(init, index, maintenance);
    if row in init {
      RowIsKept(init, index, maintenance, row);
    }
    if last.Breaching(maintenance) || last.c in index {
      assert (kept + [last])[..|kept|] == kept;
    } else {
      assert kept + [] == kept;
    }
  }

  /** A port's value, and a row that breaches or is held, is shown; healthy rows nobody holds are passed over. */
  lemma EverySampleIsShown(r: PollResult, folded: seq<nat>, index: set<Check>, legacy: set<Check>, i: nat, rule: Rule)
    requires r.Chosen(|r.samples|, folded) && i < |r.samples|
    requires var s := r.samples[i];
             match s.ifindex
             case None => false
             case Some(k) =>
               if s.isPort then s.isValue && r.resolve(s.metric, Some(k), None) == Some(rule)
               else
                 && r.resolve(s.metric, None, s.resolvingName) == Some(rule)
                 && (Threshold(r.node, Row(k), s.metric) in index ||
                     (s.isValue && !r.maintenance && !s.isCounter && rule.bounds.Evaluate(s.value) != Ok))
    ensures Shown(r, r.samples[i], rule, ResultSteps(r, folded, index, legacy))
  {
    var s, n := r.samples[i], |r.samples|;
    RowsSeenAreValid(r, n);
    if s.isPort {
      PortIsShown(r, n, i);
      ShownInMore(r, s, rule, r.PortSteps(n), ResultSteps(r, folded, index, legacy));
    } else {
      var rows, row := r.RowsSeen(n), r.AsRow(s, rule);
      RowIsGathered(r, n, i);
      RowIsKept(rows, index, r.maintenance, row);
      JudgedShows(r, s, rule);
      assert r.Judged(s, rule) in RowSteps(rows, index, legacy - r.FoldedChecks(folded), r.maintenance);
      assert r.Judged(s, rule) in ResultSteps(r, folded, index, legacy);
    }
  }

  lemma {:induction false} KeptBreachOrAreHeld(rows: seq<RowSample>, index: set<Check>, maintenance: bool,
                                                step: Step)
    requires step in Observations(Kept(rows, index, maintenance), maintenance)
    ensures step.Observing?
    ensures exists row :: row in rows && row.c == step.c && (row.Breaching(maintenance) || row.c in index)
  {
    var init, last := rows[..|rows| - 1], rows[|rows| - 1];
    var kept := Kept(init, index, maintenance);
    if last.Breaching(maintenance) || last.c in index {
      assert (kept + [last])[..|kept|] == kept;
    } else {
      assert kept + [] == kept;
    }
    if step in Observations(kept, maintenance) {
      KeptBreachOrAreHeld(init, index, maintenance, step);
    }
  }

  /** A sample of a row that breaches: a value, not a counter, judged unhealthy, outside maintenance. */
  ghost predicate BreachesRow(r: PollResult, s: PollSample, k: nat, metric: string) {
    && s.ifindex == Some(k) && !s.isPort && s.metric == metric && s.isValue && !s.isCounter && !r.maintenance
    && exists rule :: r.resolve(metric, None, s.resolvingName) == Some(rule) && rule.bounds.Evaluate(s.value) != Ok
  }

  lemma {:induction false} RowsComeFromSamples(r: PollResult, n: nat, row: RowSample)
    requires n <= |r.samples| && row in r.RowsSeen(n)
    ensures exists i :: 0 <= i < n && r.OnRow(r.samples[i])
              && row == r.AsRow(r.samples[i], r.RuleOf(r.samples[i]).value)
  {
    if row in r.RowsSeen(n - 1) {
      RowsComeFromSamples(r, n - 1, row);
    }
  }

  lemma AHealthyRowIsNotKept(r: PollResult, index: set<Check>, k: nat, metric: string, step: Step)
    requires Threshold(r.node, Row(k), metric) !in index
    requires forall i :: 0 <= i < |r.samples| ==> !BreachesRow(r, r.samples[i], k, metric)
    requires step in Observations(Kept(r.RowsSeen(|r.samples|), index, r.maintenance), r.maintenance)
    ensures step.Observing? && step.c != Threshold(r.node, Row(k), metric)
  {
    var rows := r.RowsSeen(|r.samples|);
    KeptBreachOrAreHeld(rows, index, r.maintenance, step);
    var row :| row in rows && row.c == step.c && (row.Breaching(r.maintenance) || row.c in index);
    RowsComeFromSamples(r, |r.samples|, row);
    var i :| 0 <= i < |r.samples| && r.OnRow(r.samples[i])
      && row == r.AsRow(r.samples[i], r.RuleOf(r.samples[i]).value);
    var s := r.samples[i];
    assert row.c == Threshold(r.node, Row(k), metric) && row.Breaching(r.maintenance) ==> BreachesRow(r, s, k, metric);
  }

  lemma {:induction false} PortStepsAreAboutPorts(r: PollResult, n: nat, step: Step)
    requires n <= |r.samples| && step in r.PortSteps(n)
    ensures step.Observing? && step.c.Threshold? && step.c.dim.Port?
  {
    if step in r.PortSteps(n - 1) {
      PortStepsAreAboutPorts(r, n - 1, step);
    }
  }

  lemma {:induction false} FoldStepsAreAboutNodes(r: PollResult, folded: seq<nat>, legacy: set<Check>, step: Step)
    requires r.Chosen(|r.samples|, folded) && step in r.FoldSteps(folded, legacy)
    ensures step.Retiring? || (step.Observing? && step.c.Threshold? && step.c.dim.Whole?)
  {
    if step in r.FoldSteps(folded[..|folded| - 1], legacy) {
      FoldStepsAreAboutNodes(r, folded[..|folded| - 1], legacy, step);
    }
  }

  lemma {:induction false} RetirementsObserveNothing(rows: seq<RowSample>, legacy: set<Check>, step: Step)
    requires RowsValid(rows) && step in Retirements(rows, legacy)
    ensures !step.Observing?
  {
    if step in Retirements(rows[..|rows| - 1], legacy) {
      RetirementsObserveNothing(rows[..|rows| - 1], legacy, step);
    }
  }

  /** A row the index does not hold, and that no sample of the result breaches, is not observed at all. */
  lemma AHealthyRowIsPassedOver(r: PollResult, folded: seq<nat>, index: set<Check>, legacy: set<Check>, k: nat,
                                metric: string, step: Step)
    requires r.Chosen(|r.samples|, folded) && step in ResultSteps(r, folded, index, legacy)
    requires Threshold(r.node, Row(k), metric) !in index
    requires forall i :: 0 <= i < |r.samples| ==> !BreachesRow(r, r.samples[i], k, metric)
    ensures step.Observing? ==> step.c != Threshold(r.node, Row(k), metric)
  {
    var n, left := |r.samples|, legacy - r.FoldedChecks(folded);
    RowsSeenAreValid(r, n);
    if step in r.PortSteps(n) {
      PortStepsAreAboutPorts(r, n, step);
    } else if step in r.FoldSteps(folded, legacy) {
      FoldStepsAreAboutNodes(r, folded, legacy, step);
    } else if step in Retirements(r.RowsSeen(n), left) {
      RetirementsObserveNothing(r.RowsSeen(n), left, step);
    } else if step in Observations(Kept(r.RowsSeen(n), index, r.maintenance), r.maintenance) {
      AHealthyRowIsNotKept(r, index, k, metric, step);
    }
  }

  /**
   * A node-wide metric is shown by one of its samples: no other is judged worse, and among those judged
   * alike none lies further along the side the rule is about.
   */
  lemma TheWorstSampleIsShown(r: PollResult, folded: seq<nat>, index: set<Check>, legacy: set<Check>, i: nat,
                              rule: Rule)
    requires r.IsFold(|r.samples|, folded) && i < |r.samples|
    requires var s := r.samples[i]; s.ifindex.None? && s.isValue && r.resolve(s.metric, None, None) == Some(rule)
    ensures exists k :: 0 <= k < |r.samples|
              && r.samples[k].ifindex.None? && r.samples[k].metric == r.samples[i].metric
              && Shown(r, r.samples[k], rule, ResultSteps(r, folded, index, legacy))
              && AsBadAs(rule.bounds, r.samples[k].value, r.samples[i].value)
  {
    assert r.OnNode(r.samples[i]) && r.Represented(folded, i);
    var slot :| r.HeldAt(folded, slot, i);
    var k := folded[slot];
    OneRulePerMetric(r, r.samples[k], r.samples[i]);
    ChosenIsShown(r, folded, legacy, slot);
    RowsSeenAreValid(r, |r.samples|);
    ShownInMore(r, r.samples[k], rule, r.FoldSteps(folded, legacy), ResultSteps(r, folded, index, legacy));
    NotWorseMeans(rule.bounds, r.samples[k].value, r.samples[i].value);
  }

  // ------------------------------------------------------------------------------------------
  // Maintenance.

  /** The steps of a result about a node in maintenance: they show `Maintenance`, or only tidy up. */
  predicate InMaintenance(step: Step) {
    match step
    case Observing(_, o) => o.raw == Maintenance
    case Orphaning(_) => true
    case Indexing(_) => true
    case Retiring(_) => true
    case _ => false
  }

  lemma MaintenanceSweepsNothing(s: State, retired: set<NodeId>, c: Check, o: Obs)
    requires Inv(s, retired) && ObsOk(c, o) && c.node !in retired && o.raw == Maintenance
    ensures !SweepFollows(s, c, o)
  {
    if SweepFollows(s, c, o) {
      FlipNeedsATransition(s, c, o, retired);
    }
  }

  lemma MaintenanceFiresNoLane(c: Check, l: Lane, o: Obs, isDown: bool, rc: Option<NodeId>, wait: Option<int>)
    requires LaneOk(c, l, isDown) && ObsOk(c, o) && o.raw == Maintenance
    ensures ObservedAction(c, l, o, rc, wait).None? || ObservedAction(c, l, o, rc, wait).value.Resolve?
  {
    WeighedIsOk(c, l, o, isDown);
  }

  lemma AMaintenanceStepOnlyResolves(s: State, retired: set<NodeId>, e: Entry, c: Check)
    requires Inv(s, retired) && Follows(s, retired, e) && InMaintenance(e.step) && c in e.em
    ensures e.em[c].Resolve?
  {
    assert LaneOk(c, LaneOf(s, c), NodeDown(s, c));
    LaneOfStep(e.env, s, e.post, e.step, e.em, c);
    if e.step.Observing? {
      MaintenanceSweepsNothing(s, retired, e.step.c, e.step.o);
      if e.step.c == c {
        MaintenanceFiresNoLane(c, LaneOf(s, c), e.step.o, NodeDown(s, c), RcNow(e.env, c, e.post.down),
                               WaitOn(e.env, s, c, e.step.o));
      }
    }
  }

  /** From entry `k` on, the run stays in maintenance. */
  predicate InMaintenanceFrom(run: seq<Entry>, k: nat) {
    forall i :: k <= i < |run| ==> InMaintenance(run[i].step)
  }

  /** Whatever such a stretch delivers is a resolve. */
  lemma {:induction false} OnlyResolvesFrom(s: State, retired: set<NodeId>, run: seq<Entry>, k: nat)
    requires Inv(s, retired) && IsRun(s, retired, run) && k <= |run| && InMaintenanceFrom(run, k)
    ensures Log(run[..k]) <= Log(run)
    ensures forall i :: |Log(run[..k])| <= i < |Log(run)| ==> Log(run)[i].Resolve?
  {
    if k == |run| {
      assert run[..k] == run;
    } else {
      var init, last := run[..|run| - 1], run[|run| - 1];
      assert init[..k] == run[..k];
      LastEntry(s, retired, run);
      OnlyResolvesFrom(s, retired, init, k);
      RunStaysSound(s, retired, init);
      forall i | 0 <= i < |last.acts|
        ensures last.acts[i].Resolve?
      {
        AMaintenanceStepOnlyResolves(EndState(s, init), EndRetired(s, retired, init), last, last.acts[i].alert.check);
      }
    }
  }

  lemma {:induction false} StepsAt(run: seq<Entry>, i: nat)
    requires i < |run|
    ensures |Steps(run)| == |run| && Steps(run)[i] == run[i].step
  {
    if |run| > 1 {
      StepsAt(run[..|run| - 1], if i < |run| - 1 then i else 0);
    }
  }

  lemma StepsOfAPrefix(t0: Trail, t: Trail, steps: seq<Step>)
    requires Continues(t0, t, steps)
    ensures |t.run| == |t0.run| + |steps|
    ensures forall i :: |t0.run| <= i < |t.run| ==> t.run[i].step == steps[i - |t0.run|]
  {
    if t.run != [] {
      StepsAt(t.run, 0);
    }
    if t0.run != [] {
      StepsAt(t0.run, 0);
    }
    forall i | |t0.run| <= i < |t.run|
      ensures t.run[i].step == steps[i - |t0.run|]
    {
      StepsAt(t.run, i);
    }
  }

  /** Every step of a result about a node in maintenance shows `Maintenance`, or only tidies up. */
  lemma AResultInMaintenance(r: PollResult, folded: seq<nat>, index: set<Check>, legacy: set<Check>)
    requires r.Chosen(|r.samples|, folded) && r.maintenance
    ensures forall step :: step in ResultSteps(r, folded, index, legacy) ==> InMaintenance(step)
  {
    AResultShowsOnlyItsSamples(r, folded, index, legacy);
    var steps := ResultSteps(r, folded, index, legacy);
    forall i | 0 <= i < |steps|
      ensures InMaintenance(steps[i])
    {
      if r.outcome.Some? && i > 0 {
        assert steps[i] == steps[1..][i - 1];
      }
    }
  }

  /** The trail started in a sound state. */
  ghost predicate StartedSound(t: Trail) {
    Inv(t.start, t.retired)
  }

  /** What was added to the actions is nothing but resolves. */
  predicate OnlyResolvesAdded(acts0: seq<Action>, acts: seq<Action>) {
    acts0 <= acts && forall i :: |acts0| <= i < |acts| ==> acts[i].Resolve?
  }

  /**
   * From any sound state, a result about a node in maintenance delivers nothing but resolves: no page,
   * no roll-up, no matter what its outcome and its samples say.
   */
  lemma MaintenanceOnlyResolves(env: Env, r: PollResult, folded: seq<nat>, index: set<Check>, legacy: set<Check>,
                                t0: Trail, t: Trail, before: State, here: State, acts0: seq<Action>, acts: seq<Action>)
    requires r.Chosen(|r.samples|, folded) && r.maintenance && StartedSound(t0)
    requires LeadsTo(env, t0, before, acts0) && LeadsTo(env, t, here, acts)
    requires Continues(t0, t, ResultSteps(r, folded, index, legacy))
    ensures OnlyResolvesAdded(acts0, acts)
  {
    AResultInMaintenance(r, folded, index, legacy);
    StepsOfAPrefix(t0, t, ResultSteps(r, folded, index, legacy));
    assert t.run[..|t0.run|] == t0.run;
    OnlyResolvesFrom(t.start, t.retired, t.run, |t0.run|);
  }
}
