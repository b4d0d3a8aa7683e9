/** Values shared by every component of the alert engine model. */
module Base {

  datatype Option<+T> = None | Some(value: T)

  /** A node id. The source orders UUIDs; any total order will do, so a natural number stands in. */
  type NodeId = nat

  /** The six states of a node or a check. */
  datatype NodeState = Ok | Warning | Critical | Unknown | Unreachable | Maintenance {

    /** `Unknown` and `Maintenance` are not problems, and neither is `Ok`. */
    predicate IsProblem() {
      this in {Warning, Critical, Unreachable}
    }

    /** The severity an alert about this state carries, when it warrants an alert at all. */
    function Severity(): Option<Severity> {
      match this
      case Warning => Some(SevWarning)
      case Critical => Some(SevCritical)
      case Unreachable => Some(SevCritical)
      case Ok => None
      case Unknown => None
      case Maintenance => None
    }
  }

  datatype Severity = SevInfo | SevWarning | SevCritical

  /** A reachability outcome or a maintenance substitution: all a liveness check is ever fed. */
  predicate IsLivenessState(s: NodeState) {
    s in {Ok, Unreachable, Unknown, Maintenance}
  }

  /** Counts, dwells and poll intervals are unsigned 32-bit numbers in the source. */
  const U32_MAX: nat := 0xFFFF_FFFF
  const U64_MAX: nat := 0xFFFF_FFFF_FFFF_FFFF
  const I64_MAX: int := 0x7FFF_FFFF_FFFF_FFFF

  function Max(a: int, b: int): int {
    if a < b then b else a
  }

  function Min(a: int, b: int): int {
    if a < b then a else b
  }
}
