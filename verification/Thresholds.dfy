/** Judging a value against a rule's bounds, and folding the samples of one poll to the worst. */
module Thresholds {
  import opened Base
  import opened Lanes

  /** A value breaches at or below a lower bound, or at or above an upper one. Values are reals. */
  datatype Bounds = Bounds(warningBelow: Option<real>, criticalBelow: Option<real>, warningAbove: Option<real>,
                           criticalAbove: Option<real>) {

    /** The verdict on a value, with the side it crossed. */
    function Classify(v: real): Option<(NodeState, Direction)> {
      if criticalBelow.Some? && v <= criticalBelow.value then Some((Critical, Below))
      else if criticalAbove.Some? && v >= criticalAbove.value then Some((Critical, Above))
      else if warningBelow.Some? && v <= warningBelow.value then Some((Warning, Below))
      else if warningAbove.Some? && v >= warningAbove.value then Some((Warning, Above))
      else None
    }

    function Evaluate(v: real): NodeState {
      if Classify(v).Some? then Classify(v).value.0 else Ok
    }

    /** The side a rule is filed under. */
    function Primary(): Direction {
      if warningAbove.Some? || criticalAbove.Some? || (warningBelow.None? && criticalBelow.None?) then Above else Below
    }

    function WarningOn(side: Direction): Option<real> {
      if side == Below then warningBelow else warningAbove
    }

    function CriticalOn(side: Direction): Option<real> {
      if side == Below then criticalBelow else criticalAbove
    }

    /** What an alert about this value would describe: the side it crossed, and that side's bounds. */
    function EvalOf(v: real): Eval {
      var side := if Classify(v).Some? then Classify(v).value.1 else Primary();
      Eval(v, side, WarningOn(side), CriticalOn(side))
    }

    /** Severity first, then further along the primary side. */
    predicate IsWorse(candidate: real, incumbent: real) {
      var a, b := Evaluate(candidate), Evaluate(incumbent);
      if a != b then StateRank(a) > StateRank(b)
      else if Primary() == Above then candidate > incumbent
      else candidate < incumbent
    }
  }

  function StateRank(s: NodeState): nat {
    match s
    case Critical => 2
    case Warning => 1
    case _ => 0
  }

  /** A rule with a lower bound and no upper one. */
  predicate LowerOnly(b: Bounds) {
    b.warningAbove.None? && b.criticalAbove.None? && (b.warningBelow.Some? || b.criticalBelow.Some?)
  }

  predicate Crosses(v: real, bound: real, side: Direction) {
    if side == Below then v <= bound else v >= bound
  }

  /** A value is judged by its worst crossing: critical past a critical bound, warning past only a warning one. */
  lemma VerdictIsTheWorstCrossing(b: Bounds, v: real)
    ensures b.Evaluate(v) in {Ok, Warning, Critical}
    ensures b.Evaluate(v) == Critical <==>
            exists side: Direction :: b.CriticalOn(side).Some? && Crosses(v, b.CriticalOn(side).value, side)
    ensures b.Evaluate(v) == Ok <==>
            forall side: Direction ::
              && (b.CriticalOn(side).Some? ==> !Crosses(v, b.CriticalOn(side).value, side))
              && (b.WarningOn(side).Some? ==> !Crosses(v, b.WarningOn(side).value, side))
  {
    assert b.CriticalOn(Below) == b.criticalBelow && b.CriticalOn(Above) == b.criticalAbove;
    assert b.WarningOn(Below) == b.warningBelow && b.WarningOn(Above) == b.warningAbove;
  }

  /** The bound an alert publishes for a sample is one the sample crossed, on the published side. */
  lemma PublishedBoundIsCrossed(b: Bounds, v: real, sev: Severity)
    requires b.Evaluate(v).Severity() == Some(sev)
    ensures var br := BreachFor(sev, b.EvalOf(v));
            br.value == v && br.threshold.Some? && Crosses(v, br.threshold.value, br.direction)
  {
  }

  /** The side a value is filed under: one where it crossed a bound of its verdict, or the rule's own if healthy. */
  lemma TheSideOfAValue(b: Bounds, v: real)
    ensures var ev := b.EvalOf(v);
            && ev.value == v
            && (ev.warning, ev.critical) == (if ev.direction == Below then (b.warningBelow, b.criticalBelow)
                                             else (b.warningAbove, b.criticalAbove))
            && match b.Evaluate(v)
               case Critical => ev.critical.Some? && Crosses(v, ev.critical.value, ev.direction)
               case Warning => ev.warning.Some? && Crosses(v, ev.warning.value, ev.direction)
               case _ => ev.direction == if LowerOnly(b) then Below else Above
  {
  }

  /**
   * The comparison is a strict weak order: nothing is worse than itself, of two values at most one is
   * worse, and not being worse carries over, so "as bad as" is an equivalence.
   */
  lemma WorseIsAStrictWeakOrder(b: Bounds, x: real, y: real, z: real)
    ensures !b.IsWorse(x, x)
    ensures b.IsWorse(x, y) ==> !b.IsWorse(y, x)
    ensures b.IsWorse(x, y) && b.IsWorse(y, z) ==> b.IsWorse(x, z)
    ensures !b.IsWorse(x, y) && !b.IsWorse(y, z) ==> !b.IsWorse(x, z)
  {
    VerdictIsTheWorstCrossing(b, x);
    VerdictIsTheWorstCrossing(b, y);
    VerdictIsTheWorstCrossing(b, z);
  }

  /** So what is worse than an incumbent is worse than everything the incumbent has beaten. */
  lemma WorseBeatsTheBeaten(b: Bounds, x: real, y: real, z: real)
    requires b.IsWorse(x, y) && !b.IsWorse(z, y)
    ensures b.IsWorse(x, z)
  {
    WorseIsAStrictWeakOrder(b, x, z, y);
  }

  /**
   * `x` is as bad as `y`: judged no milder, and where both are judged alike not short of it on the side
   * the rule is about, which is the upper one unless the rule has lower bounds only.
   */
  predicate AsBadAs(b: Bounds, x: real, y: real) {
    && (b.Evaluate(y) == Critical ==> b.Evaluate(x) == Critical)
    && (b.Evaluate(y) == Warning ==> b.Evaluate(x) in {Warning, Critical})
    && (b.Evaluate(x) == b.Evaluate(y) ==> if LowerOnly(b) then x <= y else y <= x)
  }

  /** Not being beaten by a value means being as bad as it. */
  lemma NotWorseMeans(b: Bounds, x: real, y: real)
    ensures !b.IsWorse(y, x) <==> AsBadAs(b, x, y)
  {
    VerdictIsTheWorstCrossing(b, x);
    VerdictIsTheWorstCrossing(b, y);
  }
}
