# Direct-action bridge: a Dafny model of the order-correlation core

The bridge translates colon-delimited PLC commands into robot orders in the
layout of VDA 5050 version 2.0, and translates the robot's state reports back into
one-letter PLC statuses. This project models the decision logic of its
direct-action handler and the message types that handler builds:

- **Command classification.** `CommandParsing.IsDirectActionCommand` accepts a trimmed command that ends in `:I` or contains `:T`. `ParseDirectAction` splits the command into base, type letter and arm code. `PlanAction` is the I/T switch that chooses the action type and parameters. `ParseArmParam` resolves the arm.
- **Order construction.** `CommandParsing.DirectActionNode` builds the single node with its single non-blocking action. `Handler.DirectActionHandler.SendDirectActionOrder` draws a header id, creates an `Order.OrderMessage` and publishes it.
- **Correlation state.** `Handler.DirectActionHandler` is a class whose `activeOrders: map<string, string>` maps an order id to the PLC command that caused it. `Handler.HeaderCounter` is the process-wide `int64` header counter. Its wrap-around is written out.
- **Verdict reduction.** `ActionStates.CollectStatusFlags` is the flag-collecting loop. `ActionStates.Verdict` is the priority chain, characterised by which statuses occur.
- **Responses.** `Plc.ExtractBaseCommand` and `Plc.PlcResponse` model the `BASE:LETTER` response, and `CommandParsing.ResponsePayload` is the payload of `sendPLCResponse`. The handler's private `extractBaseCommand` (internal/messaging/handler.go:298-304) has the same body as the one in internal/types/plc.go:38-44, so `Plc.ExtractBaseCommand` models both.
- **Go library calls.** `Strings` models `strings.Split`, `HasSuffix`, `Contains` and `TrimSpace` over `seq<char>`, with `Split`/`Join` round trips.
- **Scenarios.** `Scenarios` drives the handler end to end (order published, robot finishes, PLC told `B:S`, and so on) using only the handler's contracts.

Go value structs (`Node`, `Edge`, `Action`, `InstantAction`, the parameter pairs) are datatypes. They are copied whenever they are stored, so their pointer-receiver appenders (`Node.AddAction`, `Action.AddParameter`, ...) are functions that return the updated value. `OrderMessage` and `InstantActionsMessage` are passed around by pointer and filled in place, so they are classes with `modifies` clauses.

Transport, clock and configuration become parameters:
- `publishOk` says whether the transport accepted the order;
- `GeneratedIds` supplies the order, node and action ids the source derives from the nanosecond clock;
- the manufacturer and serial number are constants of the handler.

Three facts about the code shape the model:
- The code has no cancel flow and no canceled-orders map. A cancel command `B:C` is rejected with `B:F` like any other non-direct command (`Scenarios.OtherLetterAnsweredFailed`).
- State reports are looked up only in the active-orders map.
- The verdict is computed from five booleans ("some entry has this status"), not from status counts (`ActionStates.VerdictDependsOnlyOnOccurrence`).

## Model

| member | source | states |
|---|---|---|
| `Strings.Split` | internal/messaging/handler.go:92 | `strings.Split(s, ":")` gives at least one field and no field contains ':' |
| `Strings.SplitThenJoin` | internal/messaging/handler.go:92 | joining the fields with ':' gives back the command |
| `Strings.JoinThenSplit` | internal/messaging/handler.go:92 | splitting a join of colon-free fields gives back the fields |
| `Strings.TwoFieldsIffColon` | internal/messaging/handler.go:92-96 | a command has at least two fields exactly when it contains ':' |
| `Strings.HasSuffix` | internal/messaging/handler.go:87 | `strings.HasSuffix`; no contract of its own, defined by its body as "`s` ends with the characters of `suffix`"; `CommandParsing.AcceptedCommandHasTwoFields` and `CommandParsing.OtherTypeLetterRejected` state what it means for the acceptance test |
| `Strings.Contains` | internal/messaging/handler.go:87 | `strings.Contains`; no contract of its own, defined recursively as "some suffix starts with `sub`"; `Strings.ContainsFirstChar` and `CommandParsing.OtherTypeLetterRejected` supply its properties |
| `Strings.TrimSpace` | internal/messaging/handler.go:39 | `strings.TrimSpace`; no contract of its own, defined as dropping leading, then trailing `unicode.IsSpace` characters; `Strings.TrimSpaceIsCore`, `Strings.TrimSpaceKeepsTrimmed` and `Strings.TrimSpaceIdempotent` characterise it |
| `Strings.TrimSpaceIsCore` | internal/messaging/handler.go:39 | `TrimSpace` removes only white space and only at the two ends; the result neither starts nor ends with white space |
| `Strings.TrimSpaceKeepsTrimmed` | internal/messaging/handler.go:39 | a payload without white space at either end is used unchanged |
| `Strings.TrimSpaceIdempotent` | internal/messaging/handler.go:39 | trimming twice is trimming once |
| `Plc.StatusLetters` | internal/types/plc.go:16-22 | the five status codes W, I, R, S, F are single characters and pairwise distinct |
| `Plc.ExtractBaseCommand` | internal/types/plc.go:38-44 | the result is the prefix of the command before its first ':' and contains no ':' |
| `Plc.BaseOfColonFree` | internal/types/plc.go:38-44 | a command without ':' is its own base command |
| `Plc.BaseOfColonJoined` | internal/types/plc.go:38-44 | the base of `B:rest` is `B` when `B` has no ':' |
| `Plc.NewPlcResponse` | internal/types/plc.go:25-30 | stores the base of the command (colon-free, the text before the first ':') and the status unchanged |
| `Plc.ResponseIgnoresMessage` | internal/types/plc.go:25-30 | the message argument has no effect on the response |
| `Plc.PlcResponse.ToResponseString` | internal/types/plc.go:33-35 | the string is `Command`, then ':', then `Status` |
| `Plc.ResponseStringRoundTrip` | internal/types/plc.go:33-44 | extracting the base from `Command:Status` gives back `Command` when it has no ':' |
| `Plc.ResponseKeepsBase` | internal/types/plc.go:25-44 | a response string built from any command reads back as that command's base |
| `Order.Action.AddParameter` | internal/types/order.go:174-180 | appends exactly one `{key, value}` pair at the end; nothing else changes |
| `Order.Node.AddAction` | internal/types/order.go:159-162 | the node's actions grow by one, the new action last; nothing else changes |
| `Order.Edge.AddAction` | internal/types/order.go:194-197 | the edge's actions grow by one, the new action last; nothing else changes |
| `Order.NewNode` | internal/types/order.go:149-157 | stores node id, sequence id and released flag, with no actions, description or position |
| `Order.NewAction` | internal/types/order.go:164-172 | stores type, id and blocking type, with no description and no parameters |
| `Order.NewEdge` | internal/types/order.go:182-192 | stores edge id, sequence id, released flag and both end nodes, with no actions |
| `Order.OrderMessage.constructor` | internal/types/order.go:120-137 | copies header id, manufacturer, serial number, order id and update id, sets version 2.0.0, and starts with no nodes and no edges |
| `Order.OrderMessage.AddNode` | internal/types/order.go:139-142 | appends exactly one node at the end; only the node list may change |
| `Order.OrderMessage.AddEdge` | internal/types/order.go:144-147 | appends exactly one edge at the end; only the edge list may change |
| `InstantActions.InstantAction.AddParameter` | internal/types/instant_actions.go:63-69 | appends exactly one `{key, value}` pair at the end; nothing else changes |
| `InstantActions.NewInstantAction` | internal/types/instant_actions.go:53-61 | stores type, id and blocking type, with no description and no parameters |
| `InstantActions.InstantActionsMessage.constructor` | internal/types/instant_actions.go:33-46 | copies header id, manufacturer and serial number, sets version 2.0.0, starts with no actions |
| `InstantActions.InstantActionsMessage.AddAction` | internal/types/instant_actions.go:48-51 | appends exactly one action at the end; only the action list may change |
| `CommandParsing.IsDirectActionCommand` | internal/messaging/handler.go:86-88 | `isDirectActionCommand`; no contract of its own, defined by its body (ends in ":I" or contains ":T"); `CommandParsing.AcceptedCommandHasTwoFields`, `CommandParsing.OtherTypeLetterRejected` and `CommandParsing.PlanFacts` supply its properties |
| `CommandParsing.AcceptedCommandHasTwoFields` | internal/messaging/handler.go:86-96 | every accepted command contains ':' and has at least two fields, so the "invalid format" guard never fires after acceptance |
| `CommandParsing.OtherTypeLetterRejected` | internal/messaging/handler.go:86-88 | `B:X` with X neither I nor T (a cancel `B:C` included) is not a direct action |
| `CommandParsing.ParseDirectAction` | internal/messaging/handler.go:91-103 | fails with too few fields exactly when there is no ':'; on success the base is the command's base command and neither base nor arm contains ':' |
| `CommandParsing.ParseDirectActionAsWritten` | internal/messaging/handler.go:92-103 | the field split exactly as written, with the panic of line 99 as the `Panicked` outcome; no contract of its own; `CommandParsing.EmptyTypeFieldPanics` shows the panic is reachable and `CommandParsing.CorrectionOnlyReplacesPanic` relates it to the corrected split |
| `CommandParsing.EmptyTypeFieldPanics` | internal/messaging/handler.go:98-99 | "A::T" is accepted and the source's field split then indexes an empty second field |
| `CommandParsing.CorrectionOnlyReplacesPanic` | internal/messaging/handler.go:92-103 | the corrected split reports `EmptyTypeField` exactly where the source panics and agrees with it everywhere else |
| `CommandParsing.ParseOfJoin` | internal/messaging/handler.go:92-103 | for colon-free fields joined with ':': an empty second field is `EmptyTypeField`; otherwise base = first field, type letter = first character of the second field, arm = third field or "" when there are only two; further fields are ignored |
| `CommandParsing.ParseArmParam` | internal/messaging/handler.go:306-316 | total; the result is "left" exactly for "L" and "right" for everything else, "R" and "" included |
| `CommandParsing.PlanAction` | internal/messaging/handler.go:121-152 | succeeds exactly for type I or T. I gives one parameter, inference_name = base. T gives trajectory_name = base then arm = the resolved side. Any other letter fails with that letter |
| `CommandParsing.PlanDirectAction` | internal/messaging/handler.go:92-152 | what `handleDirectAction` decides before the header counter moves: the corrected split, then the I/T switch; no contract of its own; `CommandParsing.PlannedBase`, `CommandParsing.ParseOfJoin` and `CommandParsing.PlanAction`'s contract characterise it, and `Handler.DirectActionHandler.HandleDirectAction` is specified through it |
| `CommandParsing.PlannedBase` | internal/messaging/handler.go:98-106 | a command that plans is keyed by the text before its first ':' |
| `CommandParsing.Plan` | internal/messaging/handler.go:43-50 | what `HandlePLCCommand` decides for a trimmed command: rejection, then `PlanDirectAction`; no contract of its own; `CommandParsing.PlanFacts` characterises it and `Handler.DirectActionHandler.HandlePlcCommand` is specified through it |
| `CommandParsing.PlanFacts` | internal/messaging/handler.go:86-103 | a command that yields an order is a direct action keyed by its base command; only non-direct commands fail as not direct |
| `CommandParsing.InferenceCommandPlan` | internal/messaging/handler.go:125-133 | `B:I` plans an inference action with the single parameter inference_name = B |
| `CommandParsing.TrajectoryCommandPlan` | internal/messaging/handler.go:134-148 | `B:T:A` plans a trajectory action with trajectory_name = B and arm = the side A names |
| `CommandParsing.TrajectoryDefaultArmPlan` | internal/messaging/handler.go:98-148 | `B:T` without an arm field plans the right arm |
| `CommandParsing.DirectActionNode` | internal/messaging/handler.go:167-201 | one node: the given node id, sequence 1, released, default position, and a description naming the base command. It holds exactly one NONE-blocking action with the given action id, the planned type, the planned parameters and an "Execute <type> for <base>" description |
| `CommandParsing.ResponsePayload` | internal/messaging/handler.go:281-295 | the published payload equals `NewPLCResponse(...).ToResponseString()` and reads back as the command's base |
| `CommandParsing.ResponseToCommand` | internal/messaging/handler.go:282 | the response to `B:...` is `B:<letter>` |
| `ActionStates.Letter` | internal/types/plc.go:16-22 | each verdict is sent as its one-character status code: W for waiting, I for initializing, R for running, S for success, F for failure, in both directions |
| `ActionStates.LetterInjective` | internal/types/plc.go:17-21 | distinct verdicts are sent as distinct letters |
| `ActionStates.IsTerminal` | internal/messaging/handler.go:260-267 | a verdict ends the order exactly when its letter is F or S, the two branches that delete the entry |
| `ActionStates.FlagsOf` | internal/messaging/handler.go:229-257 | the five flags as "this status occurs among the entries"; no contract of its own; `ActionStates.CollectStatusFlags` proves the source's loop computes it |
| `ActionStates.CollectStatusFlags` | internal/messaging/handler.go:229-257 | each flag is raised exactly when its status occurs among the entries; other statuses and status-less entries are skipped |
| `ActionStates.Decide` | internal/messaging/handler.go:259-277 | the priority chain over the five flags; no contract of its own; `ActionStates.Verdict` characterises the chain, applied to the flags, outcome by outcome |
| `ActionStates.Verdict` | internal/messaging/handler.go:259-277 | any FAILED gives F. Otherwise FINISHED with no RUNNING, INITIALIZING or WAITING gives S. Otherwise RUNNING gives R, then INITIALIZING gives I, then WAITING gives W. No known status gives no verdict |
| `ActionStates.VerdictDependsOnlyOnOccurrence` | internal/messaging/handler.go:229-257 | reports in which the same statuses occur get the same verdict |
| `ActionStates.VerdictOfPermutation` | internal/messaging/handler.go:235-257 | reordering the reported entries does not change the verdict |
| `ActionStates.VerdictIgnoresUnknown` | internal/messaging/handler.go:236-255 | unknown statuses and entries without a status do not affect the verdict |
| `ActionStates.FailureDominates` | internal/messaging/handler.go:260-263 | one FAILED entry makes the verdict F whatever else is reported |
| `Handler.NextHeaderId` | internal/messaging/handler.go:331-336 | the increment stays in int64: one more below the maximum, wrapping to the minimum at it |
| `Handler.HeaderIdsFrom` | internal/messaging/handler.go:331-336 | the ids of `n` successive `getNextHeaderID` calls: exactly `n` of them, all in int64, the first the successor of the counter and each the successor of the one before |
| `Handler.HeaderIdsIncrease` | internal/messaging/handler.go:331-336 | below the wrap-around, successive header ids are previous + 1 and strictly increasing |
| `Handler.HeaderCounter.constructor` | internal/messaging/handler.go:331 | the counter starts at 0 |
| `Handler.HeaderCounter.Next` | internal/messaging/handler.go:333-336 | advances the counter and returns its new value |
| `Handler.Tracked` | internal/messaging/handler.go:57-82 | a report is reduced exactly when it parsed, names a non-empty active order id and carries an actionStates array; the pair reduced is that report's own order id and actionStates entries |
| `Handler.DirectActionHandler.constructor` | internal/messaging/handler.go:24-35 | a new handler tracks no orders |
| `Handler.DirectActionHandler.HandlePlcCommand` | internal/messaging/handler.go:38-51 | a rejected or unplannable command gets `<base>:F` and changes nothing (an empty second field included; the source panics there, see "## Findings"). Otherwise the counter advances and the one-node order is built. A successful publish adds exactly `orderId -> command` and sends nothing to the PLC; a failed one sends `<base>:F` and adds nothing |
| `Handler.DirectActionHandler.HandleDirectAction` | internal/messaging/handler.go:91-118 | the same outcomes for a command already accepted; the entry is added only after a successful publish. An empty second field answers `<base>:F` where the source panics (see "## Findings") |
| `Handler.DirectActionHandler.SendDirectActionOrder` | internal/messaging/handler.go:121-224 | a bad type letter fails without touching the counter. Otherwise the counter advances even if the publish then fails, and the order carries the new header id, version 2.0.0, orderUpdateId 0, one node and no edges |
| `Handler.DirectActionHandler.HandleRobotState` | internal/messaging/handler.go:54-83 | an untracked report gets no response and leaves the map alone. A tracked one gets `<base>:<letter>` of its verdict, or nothing without a verdict. Its entry is removed exactly on F or S. The answer names the base of the order the tracked command produced, which is well defined because every tracked command plans (the handler's invariant) |
| `Handler.DirectActionHandler.ProcessActionStates` | internal/messaging/handler.go:227-278 | answers by the priority chain. F and S remove the entry; R, I, W and no verdict leave the map unchanged |
| `Scenarios.PublishInference` | internal/messaging/handler.go:38-118 | a published `B:I` sends no response, carries inference_name = B and is tracked under its order id |
| `Scenarios.InferenceThenFinished` | internal/messaging/handler.go:54-83 | after `B:I` is published, a FINISHED report answers `B:S` and empties the map |
| `Scenarios.TrajectoryLeftArm` | internal/messaging/handler.go:134-148 | `B:T:L` publishes trajectory_name = B and arm = left |
| `Scenarios.OtherLetterAnsweredFailed` | internal/messaging/handler.go:42-47 | `B:X` (X not I or T, e.g. the cancel `B:C`) answers `B:F`, builds no order and leaves an active order for B in place |
| `Scenarios.UnknownOrderIgnored` | internal/messaging/handler.go:70-75 | a report for an order id that is not active gets no response and changes nothing |

## Left out

- MQTT transport: connecting, subscribing, QoS and topics. Publishing an order is the `publishOk` oracle. The response publish, whose error the source ignores, is the returned payload.
- JSON: encoding the order and decoding the state report. A report is modelled after decoding (`Handler.StateReport`), with `None` for an unparseable payload, a non-string `orderId` or a non-array `actionStates`. The `json.Marshal` failure branch of `sendDirectActionOrder` is not modelled: these record types always marshal.
- Clock-derived values: timestamps, and the order, node and action ids built from `time.Now().UnixNano()`. The caller supplies the ids, and the model assumes nothing about their uniqueness. A repeated order id overwrites the existing entry, exactly as the Go map assignment does.
- Floating-point fields of `NodePosition`: the coordinates and deviations, all 0.0 in the only order the bridge builds. The node position keeps its map id and map description.
- The optional geometry and motion fields of `Edge`, which the bridge never sets:
  - `MaxSpeed`, `MaxHeight`, `MinHeight`, `Orientation`, `MaxRotationSpeed` and `Length` (floats);
  - `OrientationType` and `Direction` (strings);
  - `RotationAllowed` (a flag);
  - `Trajectory` and `Corridor` (including the corridor's `CorridorRefPoint` string).

  The `OrientationType` and `CorridorRefPoint` constants go with these fields.
- `ActionParameter` and `InstantActionParameter` values are `interface{}` in the source; every value the bridge sends is a string, and the model carries strings only.
- Bytes: the payload is modelled as characters. `parts[1][0]` reads a byte, and the model reads the first character. The two agree for ASCII. For any other first character, neither the byte nor the character is I or T, so the command fails either way.
- Configuration loading, logging and the log messages passed to `sendPLCResponse`: the manufacturer and serial number are constants of the handler.
- Handler.DirectActionHandler.HandlePlcCommand: for a command whose second field is empty (`A::T`, `A::I`), the source panics at internal/messaging/handler.go:99. This member takes the corrected branch described under "## Findings" and answers `A:F`; it does not model the crash.
- Handler.DirectActionHandler.HandleDirectAction: the same. For an empty second field it answers `<base>:F` through the corrected split, where the source panics at internal/messaging/handler.go:99.
- Concurrency: MQTT callbacks may run concurrently and the source takes no lock. The model is sequential.
- Cancellation: the code has no cancel flow, no canceled-orders map and no cancel instant action. `instant_actions.go` is modelled only as a builder.

## Findings

| source | as written | input that shows it | evidently intended | confidence | as-written member | corrected member |
|---|---|---|---|---|---|---|
| internal/messaging/handler.go:99 | `parts[1][0]` indexes the second field without checking that it is non-empty. A command whose second field is empty still passes `isDirectActionCommand` when it contains ":T" later, and the index panics inside the MQTT callback | `A::T` | answer `A:F` like the other malformed commands and keep running | high (not executed) | `CommandParsing.EmptyTypeFieldPanics` | `CommandParsing.ParseDirectAction` |
