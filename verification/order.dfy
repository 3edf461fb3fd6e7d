/** The robot order document (internal/types/order.go), in the layout of
    VDA 5050 version 2.0. `Node`, `Edge`, `Action` and `ActionParameter` are
    Go value structs, copied whenever they are stored, so they are datatypes
    here and their pointer-receiver appenders return the updated value.
    `OrderMessage` is handed around by pointer and filled in place, so it is
    a class. */
module Order {
  import opened Wrappers

  const BlockingTypeNone: string := "NONE"
  const BlockingTypeSoft: string := "SOFT"
  const BlockingTypeHard: string := "HARD"

  /** The protocol version every order carries. */
  const OrderVersion: string := "2.0.0"

  /** A `{key, value}` pair; every value the bridge sends is a string. */
  datatype ActionParameter = ActionParameter(key: string, value: string)

  datatype Action = Action(
    actionType: string,
    actionId: string,
    actionDescription: Option<string>,
    blockingType: string,
    actionParameters: seq<ActionParameter>)
  {
    /** `Action.AddParameter`: one more parameter at the end, nothing else
        changes. */
    function AddParameter(key: string, value: string): (a: Action)
      ensures |a.actionParameters| == |actionParameters| + 1
      ensures a.actionParameters[..|actionParameters|] == actionParameters
      ensures a.actionParameters[|actionParameters|] == ActionParameter(key, value)
      ensures a.(actionParameters := actionParameters) == this
    {
      this.(actionParameters := actionParameters + [ActionParameter(key, value)])
    }
  }

  /** Where a node lies on the map. The coordinates, orientation and allowed
      deviations are floating-point values and are not part of this model. */
  datatype NodePosition = NodePosition(mapId: string, mapDescription: Option<string>)

  datatype Node = Node(
    nodeId: string,
    sequenceId: int,
    nodeDescription: Option<string>,
    released: bool,
    nodePosition: Option<NodePosition>,
    actions: seq<Action>)
  {
    /** `Node.AddAction`: one more action at the end, nothing else changes. */
    function AddAction(action: Action): (n: Node)
      ensures |n.actions| == |actions| + 1
      ensures n.actions[..|actions|] == actions && n.actions[|actions|] == action
      ensures n.(actions := actions) == this
    {
      this.(actions := actions + [action])
    }
  }

  /** An edge between two nodes. Its optional geometry and motion fields are
      not part of this model, because the bridge never sets them. These are
      the speed, height, orientation, rotation-speed and length limits
      (floats), the orientation type and direction (strings), the
      rotation-allowed flag, and the NURBS trajectory and corridor
      (including the corridor's reference-point string). */
  datatype Edge = Edge(
    edgeId: string,
    sequenceId: int,
    edgeDescription: Option<string>,
    released: bool,
    startNodeId: string,
    endNodeId: string,
    actions: seq<Action>)
  {
    /** `Edge.AddAction`: one more action at the end, nothing else changes. */
    function AddAction(action: Action): (e: Edge)
      ensures |e.actions| == |actions| + 1
      ensures e.actions[..|actions|] == actions && e.actions[|actions|] == action
      ensures e.(actions := actions) == this
    {
      this.(actions := actions + [action])
    }
  }

  /** `NewNode`: a bare node, with no description, no position and no
      actions. */
  function NewNode(nodeId: string, sequenceId: int, released: bool): (n: Node)
    ensures n.nodeId == nodeId && n.sequenceId == sequenceId && n.released == released
    ensures n.nodeDescription == None && n.nodePosition == None && n.actions == []
  {
    Node(nodeId, sequenceId, None, released, None, [])
  }

  /** `NewAction`: an action without description or parameters. */
  function NewAction(actionType: string, actionId: string, blockingType: string): (a: Action)
    ensures a.actionType == actionType && a.actionId == actionId
    ensures a.blockingType == blockingType
    ensures a.actionDescription == None && a.actionParameters == []
  {
    Action(actionType, actionId, None, blockingType, [])
  }

  /** `NewEdge`: an edge without description and without actions. */
  function NewEdge(edgeId: string, sequenceId: int, released: bool,
                   startNodeId: string, endNodeId: string): (e: Edge)
    ensures e.edgeId == edgeId && e.sequenceId == sequenceId && e.released == released
    ensures e.startNodeId == startNodeId && e.endNodeId == endNodeId
    ensures e.edgeDescription == None && e.actions == []
  {
    Edge(edgeId, sequenceId, None, released, startNodeId, endNodeId, [])
  }

  /** The order document sent to the robot. Its timestamp comes from the
      clock and is not part of this model. */
  class OrderMessage {
    var headerId: int
    var version: string
    var manufacturer: string
    var serialNumber: string
    var orderId: string
    var orderUpdateId: int
    var zoneSetId: Option<string>
    var nodes: seq<Node>
    var edges: seq<Edge>

    /** `NewOrderMessage`: copies the identifying fields, stamps version
        2.0.0 and starts with no nodes and no edges. */
    constructor (headerId: int, manufacturer: string, serialNumber: string,
                 orderId: string, orderUpdateId: int)
      ensures this.headerId == headerId && this.manufacturer == manufacturer
      ensures this.serialNumber == serialNumber && this.orderId == orderId
      ensures this.orderUpdateId == orderUpdateId
      ensures version == OrderVersion && zoneSetId == None
      ensures nodes == [] && edges == []
    {
      this.headerId := headerId;
      version := OrderVersion;
      this.manufacturer := manufacturer;
      this.serialNumber := serialNumber;
      this.orderId := orderId;
      this.orderUpdateId := orderUpdateId;
      zoneSetId := None;
      nodes := [];
      edges := [];
    }

    /** `AddNode`: appends one node; every other field is left alone. */
    method AddNode(node: Node)
      modifies this`nodes
      ensures nodes == old(nodes) + [node]
    {
      nodes := nodes + [node];
    }

    /** `AddEdge`: appends one edge; every other field is left alone. */
    method AddEdge(edge: Edge)
      modifies this`edges
      ensures edges == old(edges) + [edge]
    {
      edges := edges + [edge];
    }
  }
}
