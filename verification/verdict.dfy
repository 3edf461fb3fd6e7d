/** The verdict reduction of `processActionStates`
    (internal/messaging/handler.go): the reported action statuses are
    reduced to five flags, and a fixed priority chain turns the flags into
    one PLC status letter, or into no response at all. */
module ActionStates {
  import opened Wrappers
  import Plc

  /** The verdicts the PLC can be told. */
  datatype PlcStatus = Waiting | Initializing | Running | Succeeded | Failed

  /** The status letter of a verdict (the constants of plc.go). */
  function Letter(v: PlcStatus): (s: string)
    ensures |s| == 1
    ensures s == Plc.StatusWaiting <==> v == Waiting
    ensures s == Plc.StatusInitializing <==> v == Initializing
    ensures s == Plc.StatusRunning <==> v == Running
    ensures s == Plc.StatusSuccess <==> v == Succeeded
    ensures s == Plc.StatusFailed <==> v == Failed
  {
    match v
    case Waiting => Plc.StatusWaiting
    case Initializing => Plc.StatusInitializing
    case Running => Plc.StatusRunning
    case Succeeded => Plc.StatusSuccess
    case Failed => Plc.StatusFailed
  }

  /** Distinct verdicts get distinct letters. */
  lemma LetterInjective(v: PlcStatus, w: PlcStatus)
    requires Letter(v) == Letter(w)
    ensures v == w
  {
  }

  /** Success and failure end the order; the other verdicts do not. */
  predicate IsTerminal(v: PlcStatus)
    ensures IsTerminal(v) <==> Letter(v) == Plc.StatusFailed || Letter(v) == Plc.StatusSuccess
  {
    v == Succeeded || v == Failed
  }

  /** One entry of a report's `actionStates` array: its `actionStatus` when
      the entry is an object with a string status, `None` otherwise. */
  type ReportedStatus = Option<string>

  const WaitingName: string := "WAITING"
  const InitializingName: string := "INITIALIZING"
  const RunningName: string := "RUNNING"
  const FinishedName: string := "FINISHED"
  const FailedName: string := "FAILED"

  predicate IsKnownStatus(s: ReportedStatus) {
    s == Some(WaitingName) || s == Some(InitializingName) || s == Some(RunningName)
    || s == Some(FinishedName) || s == Some(FailedName)
  }

  /** The five flags of `processActionStates`. */
  datatype StatusFlags = StatusFlags(
    waiting: bool, initializing: bool, running: bool, finished: bool, failed: bool)

  /** Which of the five known statuses occur among the entries. */
  function FlagsOf(states: seq<ReportedStatus>): (flags: StatusFlags) {
    StatusFlags(Some(WaitingName) in states, Some(InitializingName) in states,
                Some(RunningName) in states, Some(FinishedName) in states,
                Some(FailedName) in states)
  }

  /** The loop of `processActionStates`: one pass over the entries, raising
      the flag of each known status met; unknown statuses and entries
      without a status are skipped. */
  method CollectStatusFlags(states: seq<ReportedStatus>) returns (flags: StatusFlags)
    ensures flags == FlagsOf(states)
  {
    var hasWaiting, hasInitializing, hasRunning, hasFinished, hasFailed :=
      false, false, false, false, false;
    var i := 0;
    while i < |states|
      invariant 0 <= i <= |states|
      invariant hasWaiting <==> Some(WaitingName) in states[..i]
      invariant hasInitializing <==> Some(InitializingName) in states[..i]
      invariant hasRunning <==> Some(RunningName) in states[..i]
      invariant hasFinished <==> Some(FinishedName) in states[..i]
      invariant hasFailed <==> Some(FailedName) in states[..i]
    {
      assert states[..i + 1] == states[..i] + [states[i]];
      match states[i] {
        case Some(status) =>
        if status == WaitingName {
          hasWaiting := true;
        } else if status == InitializingName {
          hasInitializing := true;
        } else if status == RunningName {
          hasRunning := true;
        } else if status == FinishedName {
          hasFinished := true;
        } else if status == FailedName {
          hasFailed := true;
        }
        case None =>
      }
      i := i + 1;
    }
    assert states[..i] == states;
    flags := StatusFlags(hasWaiting, hasInitializing, hasRunning, hasFinished, hasFailed);
  }

  /** The priority chain of `processActionStates`. */
  function Decide(flags: StatusFlags): (v: Option<PlcStatus>) {
    if flags.failed then Some(Failed)
    else if flags.finished && !flags.running && !flags.initializing && !flags.waiting then Some(Succeeded)
    else if flags.running then Some(Running)
    else if flags.initializing then Some(Initializing)
    else if flags.waiting then Some(Waiting)
    else None
  }

  /** The verdict for a report, characterised by which statuses occur:
      any failure fails; a finish with nothing still waiting, initializing or
      running succeeds; otherwise the most advanced status in flight wins;
      with no known status there is no verdict. */
  function Verdict(states: seq<ReportedStatus>): (v: Option<PlcStatus>)
    ensures v == Some(Failed) <==> Some(FailedName) in states
    ensures v == Some(Succeeded) <==>
      && Some(FailedName) !in states && Some(FinishedName) in states
      && Some(RunningName) !in states && Some(InitializingName) !in states
      && Some(WaitingName) !in states
    ensures v == Some(Running) <==> Some(FailedName) !in states && Some(RunningName) in states
    ensures v == Some(Initializing) <==>
      && Some(FailedName) !in states && Some(RunningName) !in states
      && Some(InitializingName) in states
    ensures v == Some(Waiting) <==>
      && Some(FailedName) !in states && Some(RunningName) !in states
      && Some(InitializingName) !in states && Some(WaitingName) in states
    ensures v == None <==> forall s :: s in states ==> !IsKnownStatus(s)
  {
    Decide(FlagsOf(states))
  }

  /** Two reports in which the same statuses occur get the same verdict,
      whatever the order and however often each status occurs. */
  lemma VerdictDependsOnlyOnOccurrence(a: seq<ReportedStatus>, b: seq<ReportedStatus>)
    requires forall s :: s in a <==> s in b
    ensures Verdict(a) == Verdict(b)
  {
  }

  /** In particular a reordering of the report does not change the verdict. */
  lemma VerdictOfPermutation(a: seq<ReportedStatus>, b: seq<ReportedStatus>)
    requires multiset(a) == multiset(b)
    ensures Verdict(a) == Verdict(b)
  {
    forall s ensures s in a <==> s in b {
      assert s in a <==> s in multiset(a);
      assert s in b <==> s in multiset(b);
    }
    VerdictDependsOnlyOnOccurrence(a, b);
  }

  /** Entries without a known status do not affect the verdict. */
  lemma VerdictIgnoresUnknown(a: seq<ReportedStatus>, extra: seq<ReportedStatus>)
    requires forall s :: s in extra ==> !IsKnownStatus(s)
    ensures Verdict(a + extra) == Verdict(a)
  {
    forall s | IsKnownStatus(s) ensures s in a + extra <==> s in a {
    }
  }

  /** A single failed action decides the verdict, whatever else is reported. */
  lemma FailureDominates(a: seq<ReportedStatus>, b: seq<ReportedStatus>)
    requires Some(FailedName) in a
    ensures Verdict(a + b) == Some(Failed) && Verdict(b + a) == Some(Failed)
  {
  }
}
