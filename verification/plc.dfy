/** The PLC side of the protocol (internal/types/plc.go): the five status
    letters and the `BASE:LETTER` response. */
module Plc {
  import opened Strings

  const StatusWaiting: string := "W"
  const StatusInitializing: string := "I"
  const StatusRunning: string := "R"
  const StatusSuccess: string := "S"
  const StatusFailed: string := "F"

  /** The five status codes, in the order the source declares them. */
  function StatusLetters(): (letters: seq<string>)
    ensures |letters| == 5
    ensures forall i :: 0 <= i < 5 ==> |letters[i]| == 1
    ensures forall i, j :: 0 <= i < j < 5 ==> letters[i] != letters[j]
  {
    [StatusWaiting, StatusInitializing, StatusRunning, StatusSuccess, StatusFailed]
  }

  /** `extractBaseCommand`: the first field of `strings.Split(command, ":")`,
      that is, the text before the first ':' (all of `command` if it has none). */
  function ExtractBaseCommand(command: string): (base: string)
    ensures |base| <= |command| && base == command[..|base|]
    ensures Colon !in base
    ensures |base| < |command| ==> command[|base|] == Colon
  {
    BaseIsTextBeforeFirstColon(command);
    Split(command)[0]
  }

  lemma {:induction false} BaseIsTextBeforeFirstColon(s: string)
    ensures |Split(s)[0]| <= |s| && Split(s)[0] == s[..|Split(s)[0]|]
    ensures |Split(s)[0]| < |s| ==> s[|Split(s)[0]|] == Colon
    decreases |s|
  {
    if s != [] {
      BaseIsTextBeforeFirstColon(s[1..]);
    }
  }

  /** A command without ':' is its own base command. */
  lemma BaseOfColonFree(command: string)
    requires Colon !in command
    ensures ExtractBaseCommand(command) == command
  {
  }

  /** The base command of `base + ":" + rest` is `base`. */
  lemma BaseOfColonJoined(base: string, rest: string)
    requires Colon !in base
    ensures ExtractBaseCommand(base + [Colon] + rest) == base
  {
    SplitAfterColonFreePrefix(base, rest);
  }

  /** `PLCResponse`: the base command and the status letter. */
  datatype PlcResponse = PlcResponse(command: string, status: string) {

    /** `ToResponseString`: `Command + ":" + Status`. */
    function ToResponseString(): (s: string)
      ensures |s| == |command| + 1 + |status|
      ensures s[..|command|] == command && s[|command|] == Colon
      ensures s[|command| + 1..] == status
    {
      command + [Colon] + status
    }
  }

  /** `NewPLCResponse`: keeps only the base of `command`; `message` is only
      for the log and does not reach the response. */
  function NewPlcResponse(command: string, status: string, message: string): (r: PlcResponse)
    ensures Colon !in r.command
    ensures |r.command| <= |command| && r.command == command[..|r.command|]
    ensures |r.command| < |command| ==> command[|r.command|] == Colon
    ensures r.status == status
  {
    PlcResponse(ExtractBaseCommand(command), status)
  }

  /** The message argument has no effect on the response. */
  lemma ResponseIgnoresMessage(command: string, status: string, m1: string, m2: string)
    ensures NewPlcResponse(command, status, m1) == NewPlcResponse(command, status, m2)
  {
  }

  /** Reading the base command back from a response string gives the
      response's command. */
  lemma {:induction false} ResponseStringRoundTrip(r: PlcResponse)
    requires Colon !in r.command
    ensures ExtractBaseCommand(r.ToResponseString()) == r.command
  {
    BaseOfColonJoined(r.command, r.status);
  }

  /** A response built from any command reads back as that command's base. */
  lemma ResponseKeepsBase(command: string, status: string, message: string)
    ensures ExtractBaseCommand(NewPlcResponse(command, status, message).ToResponseString())
         == ExtractBaseCommand(command)
  {
    ResponseStringRoundTrip(NewPlcResponse(command, status, message));
  }
}
