/** Two nodes of the Ruby parse tree: `begin … rescue … else … end`
    (RescueParseNode, all fields final, so a value) and `super(args) { … }`
    (SuperParseNode, whose block node can be replaced later, so an object).
    Each computes at construction whether its subtree assigns a variable,
    from the children that are present. */
module ParseNodes {
  import opened Runtime

  /** A source position; only carried along. */
  type Position = nat

  /** A child node, reduced to its identity and its own
      "contains variable assignment" flag.  `None` is Java's null. */
  datatype ParseNode = ParseNode(id: nat, containsVariableAssignment: bool)

  datatype NodeType = RESCUENODE | SUPERNODE

  /** A visitor: one callback per node kind. */
  datatype NodeVisitor<T> = NodeVisitor(
    visitRescueNode: RescueParseNode -> T,
    visitSuperNode: SuperParseNode -> T)

  /** The visitor that answers with the kind of node it was sent to. */
  function NodeTypeVisitor(): NodeVisitor<NodeType> {
    NodeVisitor(_ => RESCUENODE, _ => SUPERNODE)
  }

  /** A child that is present and assigns a variable (`n != null &&
      n.containsVariableAssignment()`). */
  predicate Assigns(child: Option<ParseNode>) {
    child.Some? && child.value.containsVariableAssignment
  }

  /** Some entry of a child list is present and assigns a variable. */
  predicate AnyAssigns(children: seq<Option<ParseNode>>) {
    exists i :: 0 <= i < |children| && Assigns(children[i])
  }

  // ---------------------------------------------------------------------
  // RescueParseNode

  /** The getters `getBodyNode`, `getRescueNode` and `getElseNode` are the
      fields themselves: the node is immutable. */
  datatype RescueParseNode = RescueParseNode(
    position: Position,
    bodyNode: Option<ParseNode>,
    rescueNode: Option<ParseNode>,
    elseNode: Option<ParseNode>)

  /** `childNodes`: rescue first, then body, then else; an absent child
      stays in the list as a null entry. */
  function RescueChildNodes(r: RescueParseNode): (c: seq<Option<ParseNode>>)
    ensures multiset(c) == multiset{r.bodyNode, r.rescueNode, r.elseNode}
    ensures |c| == 3 && c[0] == r.rescueNode && c[1] == r.bodyNode && c[2] == r.elseNode
  {
    [r.rescueNode, r.bodyNode, r.elseNode]
  }

  /** The flag the constructor passes up, in the constructor's own order:
      body, rescue, else. */
  function RescueContainsVariableAssignment(r: RescueParseNode): (b: bool)
    ensures b <==> AnyAssigns(RescueChildNodes(r))
  {
    var c := RescueChildNodes(r);
    if Assigns(r.bodyNode) then
      assert Assigns(c[1]);
      true
    else if Assigns(r.rescueNode) then
      assert Assigns(c[0]);
      true
    else if Assigns(r.elseNode) then
      assert Assigns(c[2]);
      true
    else
      false
  }

  /** Reordering the children does not change the flag: it is the same
      disjunction taken in field order. */
  lemma RescueFlagIgnoresOrder(r: RescueParseNode)
    ensures RescueContainsVariableAssignment(r) <==>
            AnyAssigns([r.bodyNode, r.rescueNode, r.elseNode])
  {
    var fields := [r.bodyNode, r.rescueNode, r.elseNode];
    if Assigns(r.bodyNode) {
      assert Assigns(fields[0]);
    } else if Assigns(r.rescueNode) {
      assert Assigns(fields[1]);
    } else if Assigns(r.elseNode) {
      assert Assigns(fields[2]);
    }
  }

  function RescueNodeType(r: RescueParseNode): (t: NodeType)
    ensures t == RESCUENODE
  {
    RESCUENODE
  }

  /** `accept`: the visitor's rescue callback. */
  function RescueAccept<T>(r: RescueParseNode, visitor: NodeVisitor<T>): (result: T)
    ensures result == visitor.visitRescueNode(r)
  {
    visitor.visitRescueNode(r)
  }

  /** The callback `accept` picks is the one for the node's own type. */
  lemma RescueAcceptMatchesNodeType(r: RescueParseNode)
    ensures RescueAccept(r, NodeTypeVisitor()) == RescueNodeType(r)
  {
  }

  // ---------------------------------------------------------------------
  // SuperParseNode

  /** `childNodes` of a super call: the arguments, then the block when
      there is one. */
  function SuperChildren(argsNode: Option<ParseNode>, iterNode: Option<ParseNode>): (c: seq<Option<ParseNode>>)
    ensures |c| == if iterNode.Some? then 2 else 1
    ensures c[0] == argsNode
    ensures forall x :: x in c <==> x == argsNode || (iterNode.Some? && x == iterNode)
  {
    if iterNode.Some? then [argsNode, iterNode] else [argsNode]
  }

  /** The flag the constructor passes up. */
  function SuperFlag(argsNode: Option<ParseNode>, iterNode: Option<ParseNode>): (b: bool)
    ensures b <==> AnyAssigns(SuperChildren(argsNode, iterNode))
  {
    var c := SuperChildren(argsNode, iterNode);
    if Assigns(argsNode) then
      assert Assigns(c[0]);
      true
    else if Assigns(iterNode) then
      assert Assigns(c[1]);
      true
    else
      false
  }

  class SuperParseNode {
    const position: Position
    const argsNode: Option<ParseNode>
    var iterNode: Option<ParseNode>
    /** Computed once, from the children given to the constructor. */
    const containsVariableAssignment: bool

    /** The two-argument constructor: no block. */
    constructor (position: Position, argsNode: Option<ParseNode>)
      ensures this.position == position && this.argsNode == argsNode && iterNode == None
      ensures containsVariableAssignment == SuperFlag(argsNode, None)
      ensures ChildNodes() == [argsNode]
    {
      this.position := position;
      this.argsNode := argsNode;
      this.iterNode := None;
      this.containsVariableAssignment := Assigns(argsNode) || Assigns(None);
    }

    /** The three-argument constructor. */
    constructor WithIter(position: Position, argsNode: Option<ParseNode>, iterNode: Option<ParseNode>)
      ensures this.position == position && this.argsNode == argsNode && this.iterNode == iterNode
      ensures containsVariableAssignment == SuperFlag(argsNode, iterNode)
      ensures containsVariableAssignment <==> AnyAssigns(ChildNodes())
    {
      this.position := position;
      this.argsNode := argsNode;
      this.iterNode := iterNode;
      this.containsVariableAssignment := Assigns(argsNode) || Assigns(iterNode);
    }

    function GetArgsNode(): (a: Option<ParseNode>)
      ensures a == argsNode
    {
      argsNode
    }

    function GetIterNode(): (i: Option<ParseNode>)
      reads this
      ensures i == iterNode
    {
      iterNode
    }

    function ChildNodes(): (c: seq<Option<ParseNode>>)
      reads this
      ensures c == SuperChildren(argsNode, iterNode)
    {
      if iterNode != None then [argsNode, iterNode] else [argsNode]
    }

    /** `setIterNode`: replaces the block and returns the node itself; the
        arguments and the flag computed at construction are constants and
        stay as they were. */
    method SetIterNode(iterNode: Option<ParseNode>) returns (r: SuperParseNode)
      modifies this`iterNode
      ensures r == this && this.iterNode == iterNode
      ensures ChildNodes() == SuperChildren(argsNode, iterNode)
    {
      this.iterNode := iterNode;
      r := this;
    }

    function GetNodeType(): (t: NodeType)
      ensures t == SUPERNODE
    {
      SUPERNODE
    }

    /** `accept`: the visitor's super callback, handed this node. */
    function Accept<T>(visitor: NodeVisitor<T>): (result: T)
      ensures result == visitor.visitSuperNode(this)
    {
      visitor.visitSuperNode(this)
    }
  }

  /** The callback `accept` picks is the one for the node's own type. */
  lemma SuperAcceptMatchesNodeType(n: SuperParseNode)
    ensures n.Accept(NodeTypeVisitor()) == n.GetNodeType()
  {
  }

  /** The two constructors agree: building without a block is building
      with a null block. */
  method TwoConstructorsAgree(position: Position, argsNode: Option<ParseNode>)
    returns (a: SuperParseNode, b: SuperParseNode)
    ensures a.position == b.position && a.argsNode == b.argsNode && a.iterNode == b.iterNode
    ensures a.containsVariableAssignment == b.containsVariableAssignment
    ensures a.ChildNodes() == b.ChildNodes()
  {
    a := new SuperParseNode(position, argsNode);
    b := new SuperParseNode.WithIter(position, argsNode, None);
  }

  /** The flag is fixed at construction: giving an assignment-free call a
      block that assigns leaves the flag false although a child now
      assigns. */
  method BlockAddedLater(position: Position, argsNode: Option<ParseNode>, block: ParseNode)
    returns (n: SuperParseNode)
    requires !Assigns(argsNode) && block.containsVariableAssignment
    ensures !n.containsVariableAssignment && AnyAssigns(n.ChildNodes())
  {
    n := new SuperParseNode(position, argsNode);
    var same := n.SetIterNode(Some(block));
    assert Assigns(n.ChildNodes()[1]);
  }
}
