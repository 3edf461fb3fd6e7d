/** The instant-actions document (internal/types/instant_actions.go). The
    bridge's handler never sends one; this is the builder alone.
    `InstantAction` is a Go value struct, so a datatype; the message is
    handed around by pointer and filled in place, so a class. */
module InstantActions {
  import opened Wrappers

  /** The protocol version every instant-actions message carries. */
  const InstantActionsVersion: string := "2.0.0"

  datatype InstantActionParameter = InstantActionParameter(key: string, value: string)

  datatype InstantAction = InstantAction(
    actionType: string,
    actionId: string,
    actionDescription: Option<string>,
    blockingType: string,
    actionParameters: seq<InstantActionParameter>)
  {
    /** `InstantAction.AddParameter`: one more parameter at the end, nothing
        else changes. */
    function AddParameter(key: string, value: string): (a: InstantAction)
      ensures |a.actionParameters| == |actionParameters| + 1
      ensures a.actionParameters[..|actionParameters|] == actionParameters
      ensures a.actionParameters[|actionParameters|] == InstantActionParameter(key, value)
      ensures a.(actionParameters := actionParameters) == this
    {
      this.(actionParameters := actionParameters + [InstantActionParameter(key, value)])
    }
  }

  /** `NewInstantAction`: an instant action without description or
      parameters. */
  function NewInstantAction(actionType: string, actionId: string, blockingType: string): (a: InstantAction)
    ensures a.actionType == actionType && a.actionId == actionId
    ensures a.blockingType == blockingType
    ensures a.actionDescription == None && a.actionParameters == []
  {
    InstantAction(actionType, actionId, None, blockingType, [])
  }

  /** The instant-actions message. Its timestamp comes from the clock and is
      not part of this model. */
  class InstantActionsMessage {
    var headerId: int
    var version: string
    var manufacturer: string
    var serialNumber: string
    var actions: seq<InstantAction>

    /** `NewInstantActionsMessage`: copies the header fields, stamps version
        2.0.0 and starts with no actions. */
    constructor (headerId: int, manufacturer: string, serialNumber: string)
      ensures this.headerId == headerId && this.manufacturer == manufacturer
      ensures this.serialNumber == serialNumber
      ensures version == InstantActionsVersion && actions == []
    {
      this.headerId := headerId;
      version := InstantActionsVersion;
      this.manufacturer := manufacturer;
      this.serialNumber := serialNumber;
      actions := [];
    }

    /** `AddAction`: appends one action; every other field is left alone. */
    method AddAction(action: InstantAction)
      modifies this`actions
      ensures actions == old(actions) + [action]
    {
      actions := actions + [action];
    }
  }
}
