/** Outcomes, stop reasons and child results shared by the sequential and the concurrent scheduler. */
module PlanOutcomes {
  import opened JsonFrames

  /** Python's `str.strip` removes exactly these code points. */
  predicate Space(c: CodePoint) {
    || 9 <= c <= 13 || 28 <= c <= 32 || c == 0x85 || c == 0xA0 || c == 0x1680 || 0x2000 <= c <= 0x200A
    || c in {0x2028, 0x2029, 0x202F, 0x205F, 0x3000}
  }

  predicate NonBlank(s: Text) { exists i :: 0 <= i < |s| && !Space(s[i]) }

  lemma LetterIsNotBlank(s: Text)
    requires s == [120]
    ensures NonBlank(s)
  {
    assert !Space(s[0]);
  }

  /** An exception's qualified type name, or a diagnostic: never blank. */
  type Name = s: Text | NonBlank(s) ghost witness (LetterIsNotBlank([120]); [120])

  /** Statuses a canonical artifact can carry. */
  datatype NativeStatus = Succeeded | Unsuccessful | Partial

  datatype Status =
    | Completed | Failed | Incomplete | Exception | NotRun | Cancelled | TimedOut | CleanupFailed

  function FromNative(s: NativeStatus): Status {
    match s
    case Succeeded => Completed
    case Unsuccessful => Failed
    case Partial => Incomplete
  }

  predicate Interrupted(s: Status) { s in {Cancelled, TimedOut, CleanupFailed} }

  /** Only exceptions and interruptions retain delivered events. */
  predicate RetainsEvents(s: Status) { Interrupted(s) || s == Exception }

  /** Executed, and not successfully. */
  predicate Unsuccess(s: Status) { s != Completed && s != NotRun }

  datatype StopReason = StopOnError | ElapsedAdmissionLimit | CancelStop | TimeoutStop | CleanupStop

  predicate Hard(r: StopReason) { r in {CancelStop, TimeoutStop, CleanupStop} }

  /** The exception an unconfirmed cleanup was raised from. */
  datatype Prior = NoPrior | PriorCancelled | PriorTimeout

  /** What the owned task of a trial turns out to hold. */
  datatype Outcome =
    | Returned(native: NativeStatus)
    | Unencodable(error: Name, diagnostics: seq<Name>)
    | Raised(error: Name)
    | RaisedTimeout(error: Name)
    | RaisedCancelled(error: Name)
    | RaisedCleanup(error: Name, prior: Prior)

  /** `_retain_unencodable_result` always explains itself. */
  predicate Explained(o: Outcome) { o.Unencodable? ==> o.diagnostics != [] }

  /** Recorded durations may disagree by as much as rounding explains. */
  const TOLERANCE: real := 0.000000001

  function Abs(x: real): real { if x < 0.0 then -x else x }
}
