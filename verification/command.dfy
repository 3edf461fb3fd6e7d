/** The pure half of the direct-action handler (internal/messaging/handler.go):
    which PLC strings are direct actions, how they split into base command,
    action type and arm, and what order content each produces. */
module CommandParsing {
  import opened Wrappers
  import opened Strings
  import opened Order
  import Plc

  const InferenceActionType: string := "Roboligent Robin - Inference"
  const TrajectoryActionType: string := "Roboligent Robin - Follow Trajectory"

  /** `isDirectActionCommand`: the command ends in ":I" or contains ":T". */
  predicate IsDirectActionCommand(command: string) {
    HasSuffix(command, ":I") || Contains(command, ":T")
  }

  /** Every accepted command has a ':' and hence at least two fields, so the
      "fewer than two fields" guard of `handleDirectAction` never fires after
      `isDirectActionCommand` has accepted the command. */
  lemma AcceptedCommandHasTwoFields(command: string)
    requires IsDirectActionCommand(command)
    ensures Colon in command
    ensures |Split(command)| >= 2
  {
    if HasSuffix(command, ":I") {
      assert command[|command| - 2] == Colon;
    } else {
      ContainsFirstChar(command, ":T");
    }
    TwoFieldsIffColon(command);
  }

  /** Behind a colon-free prefix, a pattern that starts with ':' occurs
      exactly where it occurs in the rest. */
  lemma {:induction false} ContainsAfterColonFreePrefix(p: string, q: string, sub: string)
    requires Colon !in p && sub != [] && sub[0] == Colon
    ensures Contains(p + q, sub) <==> Contains(q, sub)
    decreases |p|
  {
    if p != [] {
      assert (p + q)[0] == p[0];
      assert (p + q)[1..] == p[1..] + q;
      ContainsAfterColonFreePrefix(p[1..], q, sub);
    } else {
      assert p + q == q;
    }
  }

  /** A `BASE:X` command whose type letter is neither I nor T (a cancel
      `BASE:C`, say) is not a direct action. */
  lemma OtherTypeLetterRejected(base: string, letter: char)
    requires Colon !in base && letter != 'I' && letter != 'T'
    ensures !IsDirectActionCommand(base + [Colon, letter])
  {
    var c := base + [Colon, letter];
    assert c[|c| - 2..] == [Colon, letter];
    ContainsAfterColonFreePrefix(base, [Colon, letter], ":T");
    assert !Contains([], ":T");
    assert !Contains([letter], ":T");
    assert [Colon, letter][..2] == [Colon, letter] != ":T";
    assert [Colon, letter][1..] == [letter];
    assert !Contains([Colon, letter], ":T");
  }

  /** The three fields `handleDirectAction` reads: the base command, the
      first character of the second field, and the third field ("" if
      absent). */
  datatype DirectAction = DirectAction(base: string, kind: char, arm: string)

  datatype CommandError =
    | NotDirectAction       // rejected by `isDirectActionCommand`
    | TooFewFields          // "Invalid command format"
    | EmptyTypeField        // second field empty: the source indexes past it
    | UnsupportedType(kind: char)
    | PublishFailed         // the transport refused the order

  /** The field split of `handleDirectAction` as the source writes it: an
      empty second field (as in "A::T") is indexed at position 0, which makes
      the Go runtime panic. */
  datatype AsWritten = Returned(result: Result<DirectAction, CommandError>) | Panicked

  function ParseDirectActionAsWritten(command: string): (w: AsWritten) {
    var parts := Split(command);
    if |parts| < 2 then Returned(Failure(TooFewFields))
    else if parts[1] == "" then Panicked
    else Returned(Success(DirectAction(parts[0], parts[1][0],
                                       if |parts| >= 3 then parts[2] else "")))
  }

  /** The field split of `handleDirectAction`, with an empty second field
      answered as an error instead of a crash. */
  function ParseDirectAction(command: string): (r: Result<DirectAction, CommandError>)
    ensures r == Failure(TooFewFields) <==> Colon !in command
    ensures r.Success? ==> r.value.base == Plc.ExtractBaseCommand(command)
    ensures r.Success? ==> Colon !in r.value.base && Colon !in r.value.arm
  {
    TwoFieldsIffColon(command);
    var parts := Split(command);
    if |parts| < 2 then Failure(TooFewFields)
    else if parts[1] == "" then Failure(EmptyTypeField)
    else
      assert parts[1] in parts;
      assert |parts| >= 3 ==> parts[2] in parts;
      Success(DirectAction(parts[0], parts[1][0], if |parts| >= 3 then parts[2] else ""))
  }

  /** The crash: "A::T" passes `isDirectActionCommand` and then panics. */
  lemma EmptyTypeFieldPanics()
    ensures IsDirectActionCommand("A::T")
    ensures ParseDirectActionAsWritten("A::T") == Panicked
  {
    assert "A::T" == Join(["A", "", "T"]);
    JoinThenSplit(["A", "", "T"]);
    assert "A::T"[2..] == ":T";
  }

  /** The corrected split differs from the source only where the source
      panics, and there it reports `EmptyTypeField`. */
  lemma CorrectionOnlyReplacesPanic(command: string)
    ensures ParseDirectActionAsWritten(command) == Panicked
        <==> ParseDirectAction(command) == Failure(EmptyTypeField)
    ensures ParseDirectActionAsWritten(command) != Panicked
        ==> ParseDirectActionAsWritten(command) == Returned(ParseDirectAction(command))
  {
  }

  /** What the split produces from fields `f` joined with ':': an empty
      second field is `EmptyTypeField`; otherwise the base is the first
      field, the type letter the first character of the second field, and
      the arm the third field, or "" when there are only two. Extra fields
      and extra characters of the second field are ignored. Together with
      `SplitThenJoin` this covers every command that contains ':'. */
  lemma ParseOfJoin(f: seq<string>)
    requires |f| >= 2 && forall p :: p in f ==> Colon !in p
    ensures ParseDirectAction(Join(f))
         == if f[1] == "" then Failure(EmptyTypeField)
            else Success(DirectAction(f[0], f[1][0], if |f| >= 3 then f[2] else ""))
  {
    JoinThenSplit(f);
  }

  /** `parseArmParam`: "L" is the left arm; every other string, including
      "R" and "", is the right arm. */
  function ParseArmParam(armParam: string): (side: string)
    ensures side == "left" || side == "right"
    ensures side == "left" <==> armParam == "L"
  {
    match armParam
    case "R" => "right"
    case "" => "right"
    case "L" => "left"
    case _ => "right"
  }

  /** What the order will carry: the base command, the action type and the
      action parameters. */
  datatype OrderPlan = OrderPlan(base: string, actionType: string, parameters: seq<ActionParameter>)

  /** The action-type switch of `sendDirectActionOrder`. */
  function PlanAction(d: DirectAction): (r: Result<OrderPlan, CommandError>)
    ensures r.Success? <==> d.kind == 'I' || d.kind == 'T'
    ensures r.Failure? ==> r.error == UnsupportedType(d.kind)
    ensures r.Success? ==>
      r.value.base == d.base && |r.value.parameters| >= 1 && r.value.parameters[0].value == d.base
    ensures d.kind == 'I' ==>
      && r.value.actionType == InferenceActionType
      && r.value.parameters == [ActionParameter("inference_name", d.base)]
    ensures d.kind == 'T' ==>
      && r.value.actionType == TrajectoryActionType
      && r.value.parameters == [ActionParameter("trajectory_name", d.base),
                                ActionParameter("arm", ParseArmParam(d.arm))]
  {
    match d.kind
    case 'I' =>
      Success(OrderPlan(d.base, InferenceActionType, [ActionParameter("inference_name", d.base)]))
    case 'T' =>
      var parameters := [ActionParameter("trajectory_name", d.base)];
      Success(OrderPlan(d.base, TrajectoryActionType,
                        parameters + [ActionParameter("arm", ParseArmParam(d.arm))]))
    case _ =>
      Failure(UnsupportedType(d.kind))
  }

  /** What `handleDirectAction` decides before it touches the header
      counter: the field split, then the action-type switch. */
  function PlanDirectAction(command: string): (r: Result<OrderPlan, CommandError>) {
    match ParseDirectAction(command)
    case Failure(e) => Failure(e)
    case Success(d) => PlanAction(d)
  }

  /** A command that plans is answered under the base its plan names: the
      text before its first ':'. */
  lemma PlannedBase(command: string)
    requires PlanDirectAction(command).Success?
    ensures PlanDirectAction(command).value.base == Plc.ExtractBaseCommand(command)
  {
  }

  /** What `HandlePLCCommand` decides about a trimmed command before it
      touches the header counter: rejection, then `PlanDirectAction`. */
  function Plan(command: string): (r: Result<OrderPlan, CommandError>) {
    if !IsDirectActionCommand(command) then Failure(NotDirectAction)
    else PlanDirectAction(command)
  }

  /** A planned command is a direct action, and the plan is keyed by the
      command's base; the only errors left after acceptance are an empty
      second field and an unsupported type letter. */
  lemma PlanFacts(command: string)
    ensures Plan(command).Success? ==>
      IsDirectActionCommand(command) && Plan(command).value.base == Plc.ExtractBaseCommand(command)
    ensures IsDirectActionCommand(command) ==> Plan(command) != Failure(TooFewFields)
    ensures Plan(command) == Failure(NotDirectAction) <==> !IsDirectActionCommand(command)
  {
    if IsDirectActionCommand(command) {
      AcceptedCommandHasTwoFields(command);
    }
  }

  /** Scenario "B:I": one parameter, inference_name = B. */
  lemma InferenceCommandPlan(base: string)
    requires Colon !in base
    ensures Plan(base + ":I")
         == Success(OrderPlan(base, InferenceActionType, [ActionParameter("inference_name", base)]))
  {
    var c := base + ":I";
    assert c[|c| - 2..] == ":I";
    assert c == Join([base, "I"]);
    JoinThenSplit([base, "I"]);
  }

  /** Scenario "B:T:A": trajectory_name = B, then arm = the side A names. */
  lemma TrajectoryCommandPlan(base: string, arm: string)
    requires Colon !in base && Colon !in arm
    ensures Plan(base + ":T:" + arm)
         == Success(OrderPlan(base, TrajectoryActionType,
                              [ActionParameter("trajectory_name", base),
                               ActionParameter("arm", ParseArmParam(arm))]))
  {
    var c := base + ":T:" + arm;
    assert [base, "T", arm][1..] == ["T", arm];
    assert ["T", arm][1..] == [arm];
    assert Join(["T", arm]) == "T" + [Colon] + arm;
    assert c == base + [Colon] + ("T" + [Colon] + arm);
    assert c == Join([base, "T", arm]);
    JoinThenSplit([base, "T", arm]);
    assert Contains(":T:" + arm, ":T");
    ContainsSuffix(base, ":T:" + arm, ":T");
    assert c == base + (":T:" + arm);
  }

  /** Scenario "B:T": the arm defaults to the right one. */
  lemma TrajectoryDefaultArmPlan(base: string)
    requires Colon !in base
    ensures Plan(base + ":T")
         == Success(OrderPlan(base, TrajectoryActionType,
                              [ActionParameter("trajectory_name", base),
                               ActionParameter("arm", "right")]))
  {
    var c := base + ":T";
    assert c == Join([base, "T"]);
    JoinThenSplit([base, "T"]);
    assert Contains(":T", ":T");
    ContainsSuffix(base, ":T", ":T");
  }

  lemma {:induction false} ContainsSuffix(p: string, q: string, sub: string)
    requires Contains(q, sub)
    ensures Contains(p + q, sub)
    decreases |p|
  {
    if p != [] {
      ContainsSuffix(p[1..], q, sub);
      assert (p + q)[1..] == p[1..] + q;
    } else {
      assert p + q == q;
    }
  }

  /** The identifiers drawn for one order: in the source, three readings of
      the nanosecond clock; here whatever the caller supplies. */
  datatype GeneratedIds = GeneratedIds(orderId: string, nodeId: string, actionId: string)

  /** The single node of a direct-action order (the node and action built in
      `sendDirectActionOrder`): sequence 1, released, at the default
      position, holding exactly one non-blocking action that carries the
      planned parameters. */
  function DirectActionNode(plan: OrderPlan, ids: GeneratedIds): (n: Node)
    ensures n.nodeId == ids.nodeId && n.sequenceId == 1 && n.released
    ensures n.nodeDescription == Some("Direct action for command " + plan.base)
    ensures n.nodePosition == Some(NodePosition("", Some("")))
    ensures |n.actions| == 1
    ensures n.actions[0].actionId == ids.actionId
    ensures n.actions[0].actionType == plan.actionType
    ensures n.actions[0].blockingType == BlockingTypeNone
    ensures n.actions[0].actionParameters == plan.parameters
    ensures n.actions[0].actionDescription
         == Some("Execute " + plan.actionType + " for " + plan.base)
  {
    var node := NewNode(ids.nodeId, 1, true).(
      nodeDescription := Some("Direct action for command " + plan.base),
      nodePosition := Some(NodePosition("", Some(""))));
    var action := NewAction(plan.actionType, ids.actionId, BlockingTypeNone).(
      actionDescription := Some("Execute " + plan.actionType + " for " + plan.base),
      actionParameters := plan.parameters);
    node.AddAction(action)
  }

  /** The payload `sendPLCResponse` publishes: the base of `command`, ':'
      and the status letter, the same string a `PLCResponse` would give. */
  function ResponsePayload(command: string, status: string): (payload: string)
    ensures forall message :: payload == Plc.NewPlcResponse(command, status, message).ToResponseString()
    ensures Plc.ExtractBaseCommand(payload) == Plc.ExtractBaseCommand(command)
  {
    Plc.ResponseKeepsBase(command, status, "");
    Plc.ExtractBaseCommand(command) + [Colon] + status
  }

  /** The response to a `BASE:...` command is `BASE:<status>`. */
  lemma ResponseToCommand(base: string, rest: string, status: string)
    requires Colon !in base
    ensures ResponsePayload(base + [Colon] + rest, status) == base + [Colon] + status
  {
    Plc.BaseOfColonJoined(base, rest);
  }
}
