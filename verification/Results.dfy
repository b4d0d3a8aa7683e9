/** One poll result: which checks it observes, in which order, and with what. */
module Results {
  import opened Base
  import opened CheckStates
  import opened Lanes
  import opened Runs
  import opened Rows
  import opened Thresholds

  datatype Rule = Rule(bounds: Bounds, dwell: nat)

  /** One sample. `isPort` says whether its metric is collected per interface. */
  datatype PollSample = PollSample(
    metric: string, ifindex: Option<nat>, isPort: bool,
    value: real, isValue: bool, isCounter: bool, resolvingName: Option<string>, rowName: Option<string>)
  {
    function Dimension(): Dim {
      if ifindex.None? then Whole else if isPort then Port(ifindex.value) else Row(ifindex.value)
    }
  }

  /**
   * A result with what the configuration says about it: the rule that resolves for a metric, port
   * and row name, the liveness rule's dwell, and whether the node is in maintenance.
   */
  datatype PollResult = PollResult(
    node: NodeId, at: int, window: int, maintenance: bool,
    outcome: Option<NodeState>, livenessDwell: Option<nat>,
    resolve: (string, Option<nat>, Option<string>) -> Option<Rule>,
    samples: seq<PollSample>)
  {
    predicate Valid() {
      outcome.Some? ==> outcome.value in {Ok, Unreachable, Unknown}
    }

    /** An observational result makes no claim about liveness. No rule means no paging, not no state. */
    function LivenessSeen(): Obs
      requires outcome.Some?
    {
      Obs(if maintenance then Maintenance else outcome.value, at,
          if livenessDwell.Some? then livenessDwell.value else DEFAULT_LIVENESS_DWELL,
          window, livenessDwell.Some?, true, None, None)
    }

    function LivenessSteps(): seq<Step> {
      if outcome.None? then [] else [Observing(Liveness(node), LivenessSeen())]
    }

    /** A row is resolved under the name it goes by; a port and a node-wide metric have none. */
    function RuleOf(s: PollSample): Option<Rule> {
      resolve(s.metric, if s.Dimension().Port? then s.ifindex else None,
              if s.Dimension().Row? then s.resolvingName else None)
    }

    function AsRow(s: PollSample, rule: Rule): RowSample {
      RowSample(Threshold(node, s.Dimension(), s.metric), rule.bounds.Evaluate(s.value), s.isValue, s.isCounter,
                at, rule.dwell, window, rule.bounds.EvalOf(s.value), if s.Dimension().Row? then s.rowName else None)
    }

    /** What one judged sample shows its check. */
    function Judged(s: PollSample, rule: Rule): Step {
      Observing(Threshold(node, s.Dimension(), s.metric), AsRow(s, rule).Seen(maintenance))
    }

    /** A port's sample, judged on its own. Placeholders say something about table rows and nothing else. */
    predicate OnPort(s: PollSample) {
      s.Dimension().Port? && s.isValue && RuleOf(s).Some?
    }

    predicate OnRow(s: PollSample) {
      s.Dimension().Row? && RuleOf(s).Some?
    }

    /** A sample of a node-wide metric, folded with the others of that metric. */
    predicate OnNode(s: PollSample) {
      s.Dimension().Whole? && s.isValue && RuleOf(s).Some?
    }

    /** Among the first `n` samples, the ports' observations in order. */
    function PortSteps(n: nat): seq<Step>
      requires n <= |samples|
    {
      if n == 0 then []
      else
        PortSteps(n - 1) + if OnPort(samples[n - 1]) then [Judged(samples[n - 1], RuleOf(samples[n - 1]).value)] else []
    }

    function RowsSeen(n: nat): seq<RowSample>
      requires n <= |samples|
    {
      if n == 0 then []
      else RowsSeen(n - 1) + if OnRow(samples[n - 1]) then [AsRow(samples[n - 1], RuleOf(samples[n - 1]).value)] else []
    }

    /** The chosen samples, one per node-wide metric: each is observed, and its check is no leftover. */
    function FoldSteps(folded: seq<nat>, legacy: set<Check>): seq<Step>
      requires Chosen(|samples|, folded)
    {
      if folded == [] then []
      else
        var init, k := folded[..|folded| - 1], folded[|folded| - 1];
        var step := Judged(samples[k], RuleOf(samples[k]).value);
        FoldSteps(init, legacy) + [Retiring(legacy - FoldedChecks(init) - {step.c}), step]
    }

    /** The node-wide checks the chosen samples are about. */
    function FoldedChecks(folded: seq<nat>): set<Check>
      requires Chosen(|samples|, folded)
    {
      if folded == [] then {}
      else FoldedChecks(folded[..|folded| - 1]) + {Threshold(node, Whole, samples[folded[|folded| - 1]].metric)}
    }

    predicate Chosen(n: nat, folded: seq<nat>)
      requires n <= |samples|
    {
      forall i :: 0 <= i < |folded| ==> folded[i] < n && OnNode(samples[folded[i]])
    }

    /** Sample `k` is at least as bad as sample `j`, of the same metric, by that metric's rule. */
    predicate StandsFor(k: nat, j: nat)
      requires k < |samples| && j < |samples| && OnNode(samples[k])
    {
      && samples[k].metric == samples[j].metric
      && !RuleOf(samples[k]).value.bounds.IsWorse(samples[j].value, samples[k].value)
    }

    /** One sample per node-wide metric, none of whose samples is worse. */
    ghost predicate IsFold(n: nat, folded: seq<nat>)
      requires n <= |samples|
    {
      && Chosen(n, folded) && OneSlotEach(folded)
      && (forall j :: 0 <= j < n && OnNode(samples[j]) ==> Represented(folded, j))
    }

    predicate OneSlotEach(folded: seq<nat>)
      requires Chosen(|samples|, folded)
    {
      forall i, j :: 0 <= i < j < |folded| ==> samples[folded[i]].metric != samples[folded[j]].metric
    }

    ghost predicate Represented(folded: seq<nat>, j: nat)
      requires j < |samples|
    {
      exists i :: HeldAt(folded, i, j)
    }

    /** Slot `i` holds a sample that stands for sample `j`. */
    predicate HeldAt(folded: seq<nat>, i: int, j: nat)
      requires j < |samples|
    {
      0 <= i < |folded| && folded[i] < |samples| && OnNode(samples[folded[i]]) && StandsFor(folded[i], j)
    }
  }

  /** The rule of a node-wide metric is the same for each of its samples. */
  lemma OneRulePerMetric(r: PollResult, a: PollSample, b: PollSample)
    requires r.OnNode(a) && r.OnNode(b) && a.metric == b.metric
    ensures r.RuleOf(a) == r.RuleOf(b)
  {
  }

  // ------------------------------------------------------------------------------------------
  // The fold, sample by sample.

  /** The slot a metric is folded into, if it has one yet. */
  method FindSlot(r: PollResult, n: nat, folded: seq<nat>, metric: string) returns (slot: Option<nat>)
    requires n <= |r.samples| && r.Chosen(n, folded)
    ensures slot.Some? ==> slot.value < |folded| && r.samples[folded[slot.value]].metric == metric
    ensures slot.None? ==> forall i :: 0 <= i < |folded| ==> r.samples[folded[i]].metric != metric
  {
    for i := 0 to |folded|
      invariant forall x :: 0 <= x < i ==> r.samples[folded[x]].metric != metric
    {
      if r.samples[folded[i]].metric == metric {
        return Some(i);
      }
    }
    return None;
  }

  /** One more sample: it opens a slot, takes one over because it is worse, or is passed over. */
  method FoldIn(r: PollResult, n: nat, folded0: seq<nat>) returns (folded: seq<nat>)
    requires n < |r.samples| && r.IsFold(n, folded0) && r.OnNode(r.samples[n])
    ensures r.IsFold(n + 1, folded)
  {
    var slot := FindSlot(r, n, folded0, r.samples[n].metric);
    if slot.None? {
      folded := folded0 + [n];
      FoldOpens(r, n, folded0);
    } else {
      var k := folded0[slot.value];
      OneRulePerMetric(r, r.samples[n], r.samples[k]);
      if r.RuleOf(r.samples[n]).value.bounds.IsWorse(r.samples[n].value, r.samples[k].value) {
        folded := folded0[slot.value := n];
        FoldReplaces(r, n, folded0, slot.value);
      } else {
        folded := folded0;
        assert r.HeldAt(folded, slot.value, n);
      }
    }
  }

  lemma FoldOpens(r: PollResult, n: nat, folded: seq<nat>)
    requires n < |r.samples| && r.IsFold(n, folded) && r.OnNode(r.samples[n])
    requires forall i :: 0 <= i < |folded| ==> r.samples[folded[i]].metric != r.samples[n].metric
    ensures r.IsFold(n + 1, folded + [n])
  {
    var now := folded + [n];
    assert r.HeldAt(now, |folded|, n);
    forall j | 0 <= j < n && r.OnNode(r.samples[j])
      ensures r.Represented(now, j)
    {
      var i :| r.HeldAt(folded, i, j);
      assert r.HeldAt(now, i, j);
    }
  }

  /** A worse sample stands for whatever the one it beats stood for. */
  lemma TakesOver(r: PollResult, n: nat, k: nat, j: nat)
    requires n < |r.samples| && k < |r.samples| && j < |r.samples| && r.OnNode(r.samples[n]) && r.OnNode(r.samples[k])
    requires r.samples[k].metric == r.samples[n].metric && r.StandsFor(k, j)
    requires r.RuleOf(r.samples[n]).value.bounds.IsWorse(r.samples[n].value, r.samples[k].value)
    ensures r.StandsFor(n, j)
  {
    OneRulePerMetric(r, r.samples[n], r.samples[k]);
    WorseBeatsTheBeaten(r.RuleOf(r.samples[n]).value.bounds, r.samples[n].value, r.samples[k].value,
                        r.samples[j].value);
  }

  lemma ReplacedStillRepresented(r: PollResult, n: nat, folded: seq<nat>, slot: nat, j: nat)
    requires n < |r.samples| && r.Chosen(n, folded) && r.OnNode(r.samples[n]) && slot < |folded| && j < n
    requires r.samples[folded[slot]].metric == r.samples[n].metric
    requires r.RuleOf(r.samples[n]).value.bounds.IsWorse(r.samples[n].value, r.samples[folded[slot]].value)
    requires r.Represented(folded, j)
    ensures r.Represented(folded[slot := n], j)
  {
    var i :| r.HeldAt(folded, i, j);
    if i == slot {
      TakesOver(r, n, folded[slot], j);
    }
    assert r.HeldAt(folded[slot := n], i, j);
  }

  lemma ReplacedStillDistinct(r: PollResult, n: nat, folded: seq<nat>, slot: nat)
    requires n < |r.samples| && r.Chosen(n, folded) && r.OneSlotEach(folded) && r.OnNode(r.samples[n])
    requires slot < |folded|
    requires r.samples[folded[slot]].metric == r.samples[n].metric
    ensures r.Chosen(n + 1, folded[slot := n]) && r.OneSlotEach(folded[slot := n])
  {
  }

  lemma FoldReplaces(r: PollResult, n: nat, folded: seq<nat>, slot: nat)
    requires n < |r.samples| && r.IsFold(n, folded) && r.OnNode(r.samples[n]) && slot < |folded|
    requires r.samples[folded[slot]].metric == r.samples[n].metric
    requires r.RuleOf(r.samples[n]).value.bounds.IsWorse(r.samples[n].value, r.samples[folded[slot]].value)
    ensures r.IsFold(n + 1, folded[slot := n])
  {
    ReplacedStillDistinct(r, n, folded, slot);
    assert r.HeldAt(folded[slot := n], slot, n);
    forall j | 0 <= j < n && r.OnNode(r.samples[j])
      ensures r.Represented(folded[slot := n], j)
    {
      ReplacedStillRepresented(r, n, folded, slot, j);
    }
  }

  lemma {:induction false} RowsSeenAreValid(r: PollResult, n: nat)
    requires n <= |r.samples|
    ensures RowsValid(r.RowsSeen(n)) && forall i :: 0 <= i < |r.RowsSeen(n)| ==> r.RowsSeen(n)[i].c.node == r.node
  {
    if n > 0 {
      RowsSeenAreValid(r, n - 1);
      if r.OnRow(r.samples[n - 1]) {
        VerdictIsTheWorstCrossing(r.RuleOf(r.samples[n - 1]).value.bounds, r.samples[n - 1].value);
      }
    }
  }

  lemma FoldedOneMore(r: PollResult, folded: seq<nat>, i: nat, legacy: set<Check>)
    requires r.Chosen(|r.samples|, folded) && i < |folded|
    ensures var step := r.Judged(r.samples[folded[i]], r.RuleOf(r.samples[folded[i]]).value);
            && r.FoldedChecks(folded[..i + 1]) == r.FoldedChecks(folded[..i]) + {step.c}
            && r.FoldSteps(folded[..i + 1], legacy) ==
               r.FoldSteps(folded[..i], legacy) + [Retiring(legacy - r.FoldedChecks(folded[..i]) - {step.c}), step]
  {
    assert folded[..i + 1][..i] == folded[..i];
  }

  /** The steps of a result after its liveness. */
  function StepsAfterLiveness(r: PollResult, folded: seq<nat>, index: set<Check>, legacy: set<Check>): seq<Step>
    requires r.Chosen(|r.samples|, folded)
  {
    RowsSeenAreValid(r, |r.samples|);
    r.PortSteps(|r.samples|) + r.FoldSteps(folded, legacy)
    + RowSteps(r.RowsSeen(|r.samples|), index, legacy - r.FoldedChecks(folded), r.maintenance)
  }

  /** Every step a whole result makes the engine take. */
  function ResultSteps(r: PollResult, folded: seq<nat>, index: set<Check>, legacy: set<Check>): seq<Step>
    requires r.Chosen(|r.samples|, folded)
  {
    r.LivenessSteps() + StepsAfterLiveness(r, folded, index, legacy)
  }
}
