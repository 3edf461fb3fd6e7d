/** The stateful half of the direct-action handler
    (internal/messaging/handler.go): the process-wide header counter, and the
    handler that turns PLC commands into orders, remembers which order came
    from which command, and answers the PLC when the robot reports progress.
    Publishing is an oracle: the caller says whether the transport accepted
    the order. The identifiers the source derives from the clock are
    supplied by the caller. */
module Handler {
  import opened Wrappers
  import opened Strings
  import opened Order
  import opened CommandParsing
  import opened ActionStates
  import Plc

  const Int64Min: int := -0x8000_0000_0000_0000
  const Int64Max: int := 0x7FFF_FFFF_FFFF_FFFF

  predicate IsInt64(x: int) {
    Int64Min <= x <= Int64Max
  }

  /** `headerIDCounter++` on a Go `int64`: one more, wrapping from the
      largest value to the smallest. */
  function NextHeaderId(v: int): (r: int)
    requires IsInt64(v)
    ensures IsInt64(r)
    ensures v < Int64Max ==> r == v + 1
    ensures v == Int64Max ==> r == Int64Min
  {
    if v == Int64Max then Int64Min else v + 1
  }

  /** The ids that `n` successive calls of `getNextHeaderID` hand out,
      starting from counter value `v`. */
  function HeaderIdsFrom(v: int, n: nat): (ids: seq<int>)
    requires IsInt64(v)
    ensures |ids| == n
    ensures n > 0 ==> ids[0] == NextHeaderId(v)
    ensures forall k :: 0 <= k < n ==> IsInt64(ids[k])
    ensures forall k :: 0 < k < n ==> ids[k] == NextHeaderId(ids[k - 1])
    decreases n
  {
    if n == 0 then [] else [NextHeaderId(v)] + HeaderIdsFrom(NextHeaderId(v), n - 1)
  }

  /** Below the wrap-around, successive header ids are the counter's next
      values, hence strictly increasing. */
  lemma {:induction false} HeaderIdsIncrease(v: int, n: nat)
    requires IsInt64(v) && v + n <= Int64Max
    ensures |HeaderIdsFrom(v, n)| == n
    ensures forall k :: 0 <= k < n ==> HeaderIdsFrom(v, n)[k] == v + k + 1
    ensures forall j, k :: 0 <= j < k < n ==> HeaderIdsFrom(v, n)[j] < HeaderIdsFrom(v, n)[k]
    decreases n
  {
    if n > 0 {
      HeaderIdsIncrease(v + 1, n - 1);
      var rest := HeaderIdsFrom(v + 1, n - 1);
      assert HeaderIdsFrom(v, n) == [v + 1] + rest;
    }
  }

  /** The counter the whole process shares (a package-level variable in the
      source), so every handler draws from the same sequence. */
  class HeaderCounter {
    var value: int

    ghost predicate Valid()
      reads this
    {
      IsInt64(value)
    }

    /** A Go variable starts at zero. */
    constructor ()
      ensures Valid() && value == 0
    {
      value := 0;
    }

    /** `getNextHeaderID`: advances the counter and returns its new value. */
    method Next() returns (id: int)
      requires Valid()
      modifies this
      ensures Valid()
      ensures value == NextHeaderId(old(value)) && id == value
    {
      value := NextHeaderId(value);
      id := value;
    }
  }

  /** A robot state report after JSON decoding: the `orderId` when it is a
      string, and the `actionStates` entries when that field is an array. */
  datatype StateReport = StateReport(orderId: Option<string>, actionStates: Option<seq<ReportedStatus>>)

  /** The order id and the entries of a report that `HandleRobotState`
      goes on to reduce: the report parsed, names a non-empty order id that
      is active, and carries an `actionStates` array. `None` for an
      unparseable report. */
  function Tracked(report: Option<StateReport>, active: map<string, string>)
    : (t: Option<(string, seq<ReportedStatus>)>)
    ensures t.Some? ==> t.value.0 in active
    ensures t.Some? <==>
      && report.Some? && report.value.orderId.Some? && report.value.orderId.value != ""
      && report.value.orderId.value in active && report.value.actionStates.Some?
    ensures t.Some? ==> t.value == (report.value.orderId.value, report.value.actionStates.value)
  {
    match report
    case None => None
    case Some(StateReport(orderId, actionStates)) =>
      if orderId.None? || orderId.value == "" || orderId.value !in active then None
      else if actionStates.None? then None
      else Some((orderId.value, actionStates.value))
  }

  /** `DirectActionHandler`: the active-orders map (order id to the PLC
      command that caused it) and the robot's identity from the
      configuration. */
  class DirectActionHandler {
    const counter: HeaderCounter
    const manufacturer: string
    const serialNumber: string
    var activeOrders: map<string, string>

    /** Every tracked command is one that produced an order: its fields
        split and its type letter is I or T. `HandleRobotState` relies on
        this to name the base of that order in its answer. */
    ghost predicate Valid()
      reads this, counter
    {
      && counter.Valid()
      && forall orderId :: orderId in activeOrders ==> PlanDirectAction(activeOrders[orderId]).Success?
    }

    /** The order document `sendDirectActionOrder` publishes for `plan`. */
    ghost predicate IsDirectActionOrder(order: OrderMessage, plan: OrderPlan, ids: GeneratedIds, headerId: int)
      reads this, order
    {
      && order.headerId == headerId
      && order.version == OrderVersion
      && order.manufacturer == manufacturer
      && order.serialNumber == serialNumber
      && order.orderId == ids.orderId
      && order.orderUpdateId == 0
      && order.zoneSetId == None
      && order.nodes == [DirectActionNode(plan, ids)]
      && order.edges == []
    }

    /** `NewDirectActionHandler`: no active orders. */
    constructor (counter: HeaderCounter, manufacturer: string, serialNumber: string)
      requires counter.Valid()
      ensures Valid()
      ensures this.counter == counter && this.manufacturer == manufacturer
      ensures this.serialNumber == serialNumber && activeOrders == map[]
    {
      this.counter := counter;
      this.manufacturer := manufacturer;
      this.serialNumber := serialNumber;
      activeOrders := map[];
    }

    /** `HandlePLCCommand`: trims the payload, answers "<base>:F" to anything
        that is not a direct action, and otherwise hands it on. */
    method HandlePlcCommand(payload: string, ids: GeneratedIds, publishOk: bool)
      returns (response: Option<string>, order: OrderMessage?)
      requires Valid()
      modifies this, counter
      ensures Valid()
      ensures order != null ==> fresh(order)
      ensures var command := TrimSpace(payload);
        match Plan(command)
        case Failure(_) =>
          && response == Some(ResponsePayload(command, Plc.StatusFailed))
          && order == null
          && activeOrders == old(activeOrders)
          && counter.value == old(counter.value)
        case Success(plan) =>
          && counter.value == NextHeaderId(old(counter.value))
          && order != null && IsDirectActionOrder(order, plan, ids, counter.value)
          && (publishOk ==> response == None && activeOrders == old(activeOrders)[ids.orderId := command])
          && (!publishOk ==> response == Some(ResponsePayload(command, Plc.StatusFailed))
                             && activeOrders == old(activeOrders))
    {
      var command := TrimSpace(payload);
      if !IsDirectActionCommand(command) {
        response := Some(ResponsePayload(command, Plc.StatusFailed));
        order := null;
        return;
      }
      response, order := HandleDirectAction(command, ids, publishOk);
    }

    /** `handleDirectAction`: splits the command, sends the order and, only
        once the order is published, records which command it came from. */
    method HandleDirectAction(command: string, ids: GeneratedIds, publishOk: bool)
      returns (response: Option<string>, order: OrderMessage?)
      requires Valid()
      modifies this, counter
      ensures Valid()
      ensures order != null ==> fresh(order)
      ensures match PlanDirectAction(command)
        case Failure(_) =>
          && response == Some(ResponsePayload(command, Plc.StatusFailed))
          && order == null
          && activeOrders == old(activeOrders)
          && counter.value == old(counter.value)
        case Success(plan) =>
          && counter.value == NextHeaderId(old(counter.value))
          && order != null && IsDirectActionOrder(order, plan, ids, counter.value)
          && (publishOk ==> response == None && activeOrders == old(activeOrders)[ids.orderId := command])
          && (!publishOk ==> response == Some(ResponsePayload(command, Plc.StatusFailed))
                             && activeOrders == old(activeOrders))
    {
      match ParseDirectAction(command) {
        case Failure(_) =>
          response := Some(ResponsePayload(command, Plc.StatusFailed));
          order := null;
        case Success(fields) =>
          var sent;
          sent, order := SendDirectActionOrder(fields.base, fields.kind, fields.arm, ids, publishOk);
          match sent {
            case Failure(_) =>
              response := Some(ResponsePayload(command, Plc.StatusFailed));
            case Success(orderId) =>
              activeOrders := activeOrders[orderId := command];
              response := None;
          }
      }
    }

    /** `sendDirectActionOrder`: picks the action type and parameters, draws
        a header id, builds the one-node order and publishes it. */
    method SendDirectActionOrder(base: string, kind: char, arm: string, ids: GeneratedIds, publishOk: bool)
      returns (sent: Result<string, CommandError>, order: OrderMessage?)
      requires counter.Valid()
      modifies counter
      ensures counter.Valid()
      ensures order != null ==> fresh(order)
      ensures match PlanAction(DirectAction(base, kind, arm))
        case Failure(e) =>
          sent == Failure(e) && order == null && counter.value == old(counter.value)
        case Success(plan) =>
          && counter.value == NextHeaderId(old(counter.value))
          && order != null && IsDirectActionOrder(order, plan, ids, counter.value)
          && sent == (if publishOk then Success(ids.orderId) else Failure(PublishFailed))
    {
      match PlanAction(DirectAction(base, kind, arm)) {
        case Failure(e) =>
          sent, order := Failure(e), null;
        case Success(plan) =>
          var headerId := counter.Next();
          order := new OrderMessage(headerId, manufacturer, serialNumber, ids.orderId, 0);
          order.AddNode(DirectActionNode(plan, ids));
          sent := if publishOk then Success(ids.orderId) else Failure(PublishFailed);
      }
    }

    /** `HandleRobotState`: reports that did not parse, that name no order,
        an order that is not active, or that carry no action states are
        dropped without a response. */
    method HandleRobotState(report: Option<StateReport>) returns (response: Option<string>)
      requires Valid()
      modifies this
      ensures Valid()
      ensures match Tracked(report, old(activeOrders))
        case None =>
          response == None && activeOrders == old(activeOrders)
        case Some((orderId, states)) =>
          && response == (match Verdict(states)
                          case None => None
                          case Some(v) => Some(ResponsePayload(old(activeOrders)[orderId], Letter(v))))
          && activeOrders == (if Verdict(states).Some? && IsTerminal(Verdict(states).value)
                              then old(activeOrders) - {orderId}
                              else old(activeOrders))
      // The answer names the base of the order the tracked command produced.
      ensures var t := Tracked(report, old(activeOrders));
        t.Some? && Verdict(t.value.1).Some? ==>
          response == Some(PlanDirectAction(old(activeOrders)[t.value.0]).value.base
                           + [Colon] + Letter(Verdict(t.value.1).value))
    {
      response := None;
      if report.None? {
        return;
      }
      var orderId := report.value.orderId;
      if orderId.None? || orderId.value == "" {
        return;
      }
      if orderId.value !in activeOrders {
        return;
      }
      var originalCommand := activeOrders[orderId.value];
      PlannedBase(originalCommand);
      var actionStates := report.value.actionStates;
      if actionStates.Some? {
        response := ProcessActionStates(orderId.value, originalCommand, actionStates.value);
      }
    }

    /** `processActionStates`: collects the five flags, answers by the
        priority chain, and forgets the order on a terminal verdict. */
    method ProcessActionStates(orderId: string, originalCommand: string, states: seq<ReportedStatus>)
      returns (response: Option<string>)
      requires Valid()
      modifies this
      ensures Valid()
      ensures response == (match Verdict(states)
                           case None => None
                           case Some(v) => Some(ResponsePayload(originalCommand, Letter(v))))
      ensures Verdict(states).Some? && IsTerminal(Verdict(states).value)
              ==> activeOrders == old(activeOrders) - {orderId}
      ensures !(Verdict(states).Some? && IsTerminal(Verdict(states).value))
              ==> activeOrders == old(activeOrders)
    {
      var flags := CollectStatusFlags(states);
      if flags.failed {
        response := Some(ResponsePayload(originalCommand, Plc.StatusFailed));
        activeOrders := activeOrders - {orderId};
      } else if flags.finished && !flags.running && !flags.initializing && !flags.waiting {
        response := Some(ResponsePayload(originalCommand, Plc.StatusSuccess));
        activeOrders := activeOrders - {orderId};
      } else if flags.running {
        response := Some(ResponsePayload(originalCommand, Plc.StatusRunning));
      } else if flags.initializing {
        response := Some(ResponsePayload(originalCommand, Plc.StatusInitializing));
      } else if flags.waiting {
        response := Some(ResponsePayload(originalCommand, Plc.StatusWaiting));
      } else {
        response := None;
      }
    }
  }
}
