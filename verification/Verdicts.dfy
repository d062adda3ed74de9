/** Verdicts and how several of them combine. */
module Verdicts {

  datatype Verdict = Pass | Fail | Inconclusive | Error | Skipped | UnknownVerdict

  /** How far a verdict is from a pass; one that is not known counts as an error. */
  function Gravity(v: Verdict): nat {
    match v
    case Pass => 0
    case Skipped => 1
    case Inconclusive => 2
    case Error => 3
    case UnknownVerdict => 3
    case Fail => 4
  }

  /** A failure dominates, then anything unknown or erroneous, then the weaker non-passes: the graver verdict wins. */
  function Combine(a: Verdict, b: Verdict): (v: Verdict)
    ensures Gravity(v) == if Gravity(a) >= Gravity(b) then Gravity(a) else Gravity(b)
    ensures v != UnknownVerdict
    ensures v == Pass <==> a == Pass && b == Pass
    ensures v == Fail <==> a == Fail || b == Fail
  {
    if a.Fail? || b.Fail? then Fail
    else if a.UnknownVerdict? || b.UnknownVerdict? || a.Error? || b.Error? then Error
    else if a.Inconclusive? || b.Inconclusive? then Inconclusive
    else if a.Skipped? || b.Skipped? then Skipped
    else Pass
  }
}
