/** End-to-end runs of the direct-action handler, as a PLC and a robot would
    drive it; each is proved from the handler's contracts alone. */
module Scenarios {
  import opened Wrappers
  import opened Strings
  import opened Order
  import opened CommandParsing
  import opened ActionStates
  import opened Handler
  import Plc

  /** A fresh handler receives "B:I" (for instance "PICK:I") and the
      transport accepts the order: no response yet, the order carries
      inference_name = B, and the order id now maps to the command. */
  method PublishInference(base: string, ids: GeneratedIds)
    returns (handler: DirectActionHandler, response: Option<string>, parameters: seq<ActionParameter>)
    requires Colon !in base && base != [] && !IsSpace(base[0])
    ensures fresh(handler) && fresh(handler.counter) && handler.Valid()
    ensures response == None
    ensures parameters == [ActionParameter("inference_name", base)]
    ensures handler.activeOrders == map[ids.orderId := base + ":I"]
  {
    var counter := new HeaderCounter();
    handler := new DirectActionHandler(counter, "Roboligent", "DEX0002");
    var command := base + ":I";
    TrimSpaceKeepsTrimmed(command);
    InferenceCommandPlan(base);
    var order;
    response, order := handler.HandlePlcCommand(command, ids, true);
    parameters := order.nodes[0].actions[0].actionParameters;
  }

  /** A published inference command "B:I", then a FINISHED report for its
      order: the PLC is answered "B:S" and the order is forgotten. The order id is
      non-empty, as the source's 16 hex digits are. */
  method InferenceThenFinished(base: string, ids: GeneratedIds)
    returns (first: Option<string>, parameters: seq<ActionParameter>,
             second: Option<string>, remaining: map<string, string>)
    requires Colon !in base && base != [] && !IsSpace(base[0])
    requires ids.orderId != ""
    ensures first == None
    ensures parameters == [ActionParameter("inference_name", base)]
    ensures second == Some(base + ":S")
    ensures remaining == map[]
  {
    var handler;
    handler, first, parameters := PublishInference(base, ids);
    var states := [Some(FinishedName)];
    var report := Some(StateReport(Some(ids.orderId), Some(states)));
    assert Tracked(report, handler.activeOrders) == Some((ids.orderId, states));
    assert Verdict(states) == Some(Succeeded);
    ResponseToCommand(base, "I", Letter(Succeeded));
    assert base + ":I" == base + [Colon] + "I";
    assert base + [Colon] + Letter(Succeeded) == base + ":S";
    second := handler.HandleRobotState(report);
    remaining := handler.activeOrders;
  }

  /** A trajectory command for the left arm, "B:T:L" (for instance
      "MOVE:T:L"), publishes a trajectory order naming the left arm. */
  method TrajectoryLeftArm(base: string, ids: GeneratedIds)
    returns (response: Option<string>, parameters: seq<ActionParameter>)
    requires Colon !in base && base != [] && !IsSpace(base[0])
    ensures response == None
    ensures parameters == [ActionParameter("trajectory_name", base), ActionParameter("arm", "left")]
  {
    var counter := new HeaderCounter();
    var handler := new DirectActionHandler(counter, "Roboligent", "DEX0002");
    var command := base + ":T:" + "L";
    TrimSpaceKeepsTrimmed(command);
    TrajectoryCommandPlan(base, "L");
    var order;
    response, order := handler.HandlePlcCommand(command, ids, true);
    parameters := order.nodes[0].actions[0].actionParameters;
  }

  /** A command whose type letter is neither I nor T
      ("FOO:X", or the cancel "PICK:C") is answered "B:F" at once; no order
      is built, and an order already active for the same base stays active. */
  method OtherLetterAnsweredFailed(base: string, letter: char, ids: GeneratedIds, cancelIds: GeneratedIds)
    returns (response: Option<string>, orderBuilt: bool, active: map<string, string>)
    requires Colon !in base && base != [] && !IsSpace(base[0])
    requires letter != 'I' && letter != 'T' && !IsSpace(letter)
    ensures response == Some(base + ":F")
    ensures !orderBuilt
    ensures active == map[ids.orderId := base + ":I"]
  {
    var handler, _, _ := PublishInference(base, ids);
    var command := base + [Colon, letter];
    TrimSpaceKeepsTrimmed(command);
    OtherTypeLetterRejected(base, letter);
    assert command == base + [Colon] + [letter];
    ResponseToCommand(base, [letter], Plc.StatusFailed);
    assert base + [Colon] + Plc.StatusFailed == base + ":F";
    var order;
    response, order := handler.HandlePlcCommand(command, cancelIds, true);
    orderBuilt := order != null;
    active := handler.activeOrders;
  }

  /** A report for an order this bridge is not tracking gets no
      response and changes nothing. */
  method UnknownOrderIgnored(base: string, ids: GeneratedIds, otherId: string, states: seq<ReportedStatus>)
    returns (response: Option<string>, active: map<string, string>)
    requires Colon !in base && base != [] && !IsSpace(base[0])
    requires otherId != ids.orderId
    ensures response == None
    ensures active == map[ids.orderId := base + ":I"]
  {
    var handler, _, _ := PublishInference(base, ids);
    response := handler.HandleRobotState(Some(StateReport(Some(otherId), Some(states))));
    active := handler.activeOrders;
  }
}
