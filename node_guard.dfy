/**
 * The node-kind checks both `create` operations perform before anything else.
 */
module NodeGuard {
  import opened Values
  import opened Results

  const UnverifiedNodeMessage: string := "cannot create a batch transaction with an UnverifiedNode"
  const NotABaseNodeMessage: string := "node must be a type of BaseNode object"

  /**
   * The two `raise ArgumentError` lines, in their order: an UnverifiedNode is
   * rejected first, then anything that is not a BaseNode.
   */
  function CheckNode(node: Node): (r: Outcome)
    ensures r == Pass <==> node.kind == OtherBase
    ensures node.kind == Unverified ==> r == Fail(ArgumentError(UnverifiedNodeMessage))
    ensures node.kind == NotANode ==> r == Fail(ArgumentError(NotABaseNodeMessage))
  {
    if node.kind == Unverified then Fail(ArgumentError(UnverifiedNodeMessage))
    else if node.kind != OtherBase then Fail(ArgumentError(NotABaseNodeMessage))
    else Pass
  }
}
