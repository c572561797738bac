// The toolbox's selection: the selected node front, whether it is the
// slotted version of the node, the reason it was selected, and the events the
// selection emits.  Node types are the nodeType constants of the Node
// interface in section 4.4 of the DOM Living Standard.

module NodeSelection {
  import opened Basics

  const ELEMENT_NODE: int := 1
  const ATTRIBUTE_NODE: int := 2
  const TEXT_NODE: int := 3
  const CDATA_SECTION_NODE: int := 4
  const ENTITY_REFERENCE_NODE: int := 5
  const ENTITY_NODE: int := 6
  const PROCESSING_INSTRUCTION_NODE: int := 7
  const COMMENT_NODE: int := 8
  const DOCUMENT_NODE: int := 9
  const DOCUMENT_TYPE_NODE: int := 10
  const DOCUMENT_FRAGMENT_NODE: int := 11
  const NOTATION_NODE: int := 12

  /** What the selection reads of a node front; `pseudoType` is "" for an ordinary node. */
  datatype NodeFront = NodeFront(
    nodeType: int,
    nodeName: string,
    isConnected: bool,
    isDocumentElement: bool,
    isShadowRoot: bool,
    pseudoType: string,
    isLoaded: bool)

  datatype Event =
    | NewNodeFront(node: Option<NodeFront>, reason: string)
    | AttributeChanged
    | Pseudoclass
    | DetachedFront(parentNode: Option<nat>)

  /** A DOM mutation record: its type and the id of its target node. */
  datatype Mutation = Mutation(mutationType: string, target: nat)

  predicate HasType(mutations: seq<Mutation>, t: string)
  {
    exists i :: 0 <= i < |mutations| && mutations[i].mutationType == t
  }

  /** The mutation at `i` is the first of type `t`. */
  predicate FirstOfType(mutations: seq<Mutation>, t: string, i: int)
  {
    0 <= i < |mutations| && mutations[i].mutationType == t &&
    forall j :: 0 <= j < i ==> mutations[j].mutationType != t
  }

  /** The target of the first mutation of type `t`. */
  function FirstTarget(mutations: seq<Mutation>, t: string): (r: Option<nat>)
    ensures r.Some? <==> HasType(mutations, t)
    ensures r.Some? ==> exists i :: FirstOfType(mutations, t, i) && mutations[i].target == r.value
  {
    if mutations == [] then None
    else if mutations[0].mutationType == t then Some(mutations[0].target)
    else
      var r := FirstTarget(mutations[1..], t);
      assert forall i :: 0 <= i < |mutations| - 1 ==> mutations[1..][i] == mutations[i + 1];
      if r.Some? then
        assert exists i :: FirstOfType(mutations, t, i) && mutations[i].target == r.value by {
          var i :| FirstOfType(mutations[1..], t, i) && mutations[1..][i].target == r.value;
          assert FirstOfType(mutations, t, i + 1);
        }
        r
      else r
  }

  /**
   * The events a batch of mutations produces: "attribute-changed" if any
   * mutation is an attribute change, "pseudoclass" if any is a pseudo-class
   * lock, and "detached-front" if any is a child-list change while the
   * selection is not connected, carrying the first such mutation's target
   * when a node is selected; each at most once and in that order.
   */
  function MutationEvents(mutations: seq<Mutation>, connected: bool, isNode: bool): seq<Event>
  {
    (if HasType(mutations, "attributes") then [AttributeChanged] else []) +
    (if HasType(mutations, "pseudoClassLock") then [Pseudoclass] else []) +
    (if !connected && HasType(mutations, "childList") then
       [DetachedFront(if isNode then FirstTarget(mutations, "childList") else None)]
     else [])
  }

  /** Each event is emitted exactly when its kind of mutation occurred, and none twice. */
  lemma MutationEventsExact(mutations: seq<Mutation>, connected: bool, isNode: bool)
    ensures var r := MutationEvents(mutations, connected, isNode);
      (AttributeChanged in r <==> HasType(mutations, "attributes")) &&
      (Pseudoclass in r <==> HasType(mutations, "pseudoClassLock")) &&
      (DetachedFront(if isNode then FirstTarget(mutations, "childList") else None) in r <==>
        !connected && HasType(mutations, "childList")) &&
      forall i, j :: 0 <= i < j < |r| ==> r[i] != r[j]
  {
  }

  class Selection {
    var nodeFront: Option<NodeFront>
    var isSlotted: bool
    /** The reason of the last selection; undefined before the first. */
    var reason: Option<string>
    var events: seq<Event>

    constructor ()
      ensures nodeFront.None? && !isSlotted && reason.None? && events == []
    {
      nodeFront := None;
      isSlotted := false;
      reason := None;
      events := [];
    }

    predicate IsNode()
      reads this
    {
      nodeFront.Some?
    }

    predicate IsConnected()
      reads this
    {
      nodeFront.Some? && nodeFront.value.isConnected
    }

    predicate IsRoot()
      reads this
    {
      IsNode() && IsConnected() && nodeFront.value.isDocumentElement
    }

    predicate IsHTMLNode()
      reads this
    {
      IsNode()
    }

    predicate HasNodeType(t: int)
      reads this
    {
      IsNode() && nodeFront.value.nodeType == t
    }

    predicate IsElementNode() reads this { HasNodeType(ELEMENT_NODE) }
    predicate IsAttributeNode() reads this { HasNodeType(ATTRIBUTE_NODE) }
    predicate IsTextNode() reads this { HasNodeType(TEXT_NODE) }
    predicate IsCDATANode() reads this { HasNodeType(CDATA_SECTION_NODE) }
    predicate IsEntityRefNode() reads this { HasNodeType(ENTITY_REFERENCE_NODE) }
    predicate IsEntityNode() reads this { HasNodeType(ENTITY_NODE) }
    predicate IsProcessingInstructionNode() reads this { HasNodeType(PROCESSING_INSTRUCTION_NODE) }
    predicate IsDocumentNode() reads this { HasNodeType(DOCUMENT_NODE) }
    predicate IsDocumentTypeNode() reads this { HasNodeType(DOCUMENT_TYPE_NODE) }
    predicate IsDocumentFragmentNode() reads this { HasNodeType(DOCUMENT_FRAGMENT_NODE) }
    predicate IsNotationNode() reads this { HasNodeType(NOTATION_NODE) }

    /** `isCommentNode` as written: it tests for a processing instruction. */
    predicate IsCommentNode()
      reads this
    {
      HasNodeType(PROCESSING_INSTRUCTION_NODE)
    }

    /** `isCommentNode` as intended. */
    predicate IsCommentNodeIntended()
      reads this
    {
      HasNodeType(COMMENT_NODE)
    }

    /** `isPseudoElementNode` as written: it holds of nodes without a pseudo type. */
    predicate IsPseudoElementNode()
      reads this
    {
      IsNode() && nodeFront.value.pseudoType == ""
    }

    /** `isPseudoElementNode` as intended. */
    predicate IsPseudoElementNodeIntended()
      reads this
    {
      IsNode() && nodeFront.value.pseudoType != ""
    }

    predicate IsAnonymousNode()
      reads this
    {
      false
    }

    predicate IsBodyNode()
      reads this
    {
      IsHTMLNode() && IsConnected() && nodeFront.value.nodeName == "BODY"
    }

    predicate IsHeadNode()
      reads this
    {
      IsHTMLNode() && IsConnected() && nodeFront.value.nodeName == "HEAD"
    }

    predicate IsShadowRootNode()
      reads this
    {
      IsNode() && nodeFront.value.isShadowRoot
    }

    /**
     * The node-type tests, with the intended comment test, in the order of the
     * nodeType constants.
     */
    function NodeTypeTests(): (r: seq<bool>)
      reads this
      ensures |r| == 12
    {
      [IsElementNode(), IsAttributeNode(), IsTextNode(), IsCDATANode(), IsEntityRefNode(), IsEntityNode(),
       IsProcessingInstructionNode(), IsCommentNodeIntended(), IsDocumentNode(), IsDocumentTypeNode(),
       IsDocumentFragmentNode(), IsNotationNode()]
    }

    /**
     * `setNodeFront`: an unloaded node fails the assertion and changes nothing;
     * otherwise the reason is recorded, and unless both the old and the new
     * node are absent the node and slotted flag are replaced and
     * "new-node-front" is emitted once.
     */
    method SetNodeFront(node: Option<NodeFront>, newReason: string, slotted: bool) returns (failed: bool)
      modifies this
      ensures failed <==> node.Some? && !node.value.isLoaded
      ensures failed ==> unchanged(this)
      ensures !failed ==> reason == Some(newReason)
      ensures !failed && old(nodeFront).None? && node.None? ==>
        nodeFront == old(nodeFront) && isSlotted == old(isSlotted) && events == old(events)
      ensures !failed && (old(nodeFront).Some? || node.Some?) ==>
        nodeFront == node && isSlotted == slotted && events == old(events) + [NewNodeFront(node, newReason)]
    {
      if node.Some? && !node.value.isLoaded {
        return true;
      }
      failed := false;
      reason := Some(newReason);
      if nodeFront.None? && node.None? {
        return;
      }
      isSlotted := slotted;
      nodeFront := node;
      events := events + [NewNodeFront(node, newReason)];
    }

    /** `_onMutations`: one pass over the mutations setting flags, then the events. */
    method OnMutations(mutations: seq<Mutation>)
      modifies this
      ensures events == old(events) + MutationEvents(mutations, old(IsConnected()), old(IsNode()))
      ensures nodeFront == old(nodeFront) && isSlotted == old(isSlotted) && reason == old(reason)
    {
      var connected, isNode := IsConnected(), IsNode();
      var attributeChange := false;
      var pseudoChange := false;
      var detached := false;
      var parentNode: Option<nat> := None;
      for i := 0 to |mutations|
        invariant unchanged(this)
        invariant attributeChange <==> HasType(mutations[..i], "attributes")
        invariant pseudoChange <==> HasType(mutations[..i], "pseudoClassLock")
        invariant detached <==> !connected && HasType(mutations[..i], "childList")
        invariant parentNode == if detached && isNode then FirstTarget(mutations[..i], "childList") else None
      {
        var m := mutations[i];
        MutationPrefixStep(mutations, i);
        if !attributeChange && m.mutationType == "attributes" {
          attributeChange := true;
        }
        if m.mutationType == "childList" {
          if !detached && !connected {
            if isNode {
              parentNode := Some(m.target);
            }
            detached := true;
          }
        }
        if m.mutationType == "pseudoClassLock" {
          pseudoChange := true;
        }
      }
      assert mutations[..|mutations|] == mutations;
      if attributeChange {
        events := events + [AttributeChanged];
      }
      if pseudoChange {
        events := events + [Pseudoclass];
      }
      if detached {
        events := events + [DetachedFront(parentNode)];
      }
    }
  }

  /** What one more mutation adds to the flags of the `_onMutations` pass. */
  lemma MutationPrefixStep(mutations: seq<Mutation>, i: nat)
    requires i < |mutations|
    ensures HasType(mutations[..i + 1], "attributes") <==> HasType(mutations[..i], "attributes") || mutations[i].mutationType == "attributes"
    ensures HasType(mutations[..i + 1], "pseudoClassLock") <==> HasType(mutations[..i], "pseudoClassLock") || mutations[i].mutationType == "pseudoClassLock"
    ensures HasType(mutations[..i + 1], "childList") <==> HasType(mutations[..i], "childList") || mutations[i].mutationType == "childList"
    ensures FirstTarget(mutations[..i + 1], "childList") ==
      if HasType(mutations[..i], "childList") then FirstTarget(mutations[..i], "childList")
      else if mutations[i].mutationType == "childList" then Some(mutations[i].target) else None
  {
    assert mutations[..i + 1] == mutations[..i] + [mutations[i]];
    HasTypeSnoc(mutations[..i], mutations[i], "attributes");
    HasTypeSnoc(mutations[..i], mutations[i], "pseudoClassLock");
    HasTypeSnoc(mutations[..i], mutations[i], "childList");
    FirstTargetSnoc(mutations[..i], mutations[i], "childList");
  }

  lemma HasTypeSnoc(mutations: seq<Mutation>, m: Mutation, t: string)
    ensures HasType(mutations + [m], t) <==> HasType(mutations, t) || m.mutationType == t
  {
    var s := mutations + [m];
    if HasType(mutations, t) {
      var i :| 0 <= i < |mutations| && mutations[i].mutationType == t;
      assert s[i] == mutations[i];
    }
    if HasType(s, t) {
      var i :| 0 <= i < |s| && s[i].mutationType == t;
      if i < |mutations| {
        assert s[i] == mutations[i];
      }
    }
    if m.mutationType == t {
      assert s[|mutations|] == m;
    }
  }

  lemma {:induction false} FirstTargetSnoc(mutations: seq<Mutation>, m: Mutation, t: string)
    ensures FirstTarget(mutations + [m], t) ==
      if HasType(mutations, t) then FirstTarget(mutations, t)
      else if m.mutationType == t then Some(m.target) else None
    decreases |mutations|
  {
    if mutations != [] {
      assert (mutations + [m])[1..] == mutations[1..] + [m];
      FirstTargetSnoc(mutations[1..], m, t);
      if mutations[0].mutationType != t {
        HasTypeTail(mutations, t);
      }
    }
  }

  lemma HasTypeTail(mutations: seq<Mutation>, t: string)
    requires mutations != [] && mutations[0].mutationType != t
    ensures HasType(mutations, t) <==> HasType(mutations[1..], t)
  {
    if HasType(mutations, t) {
      var i :| 0 <= i < |mutations| && mutations[i].mutationType == t;
      assert mutations[1..][i - 1] == mutations[i];
    }
    if HasType(mutations[1..], t) {
      var i :| 0 <= i < |mutations[1..]| && mutations[1..][i].mutationType == t;
      assert mutations[i + 1] == mutations[1..][i];
    }
  }

  /** With nothing selected, every node test is false. */
  lemma NoNodeNoTests(s: Selection)
    requires s.nodeFront.None?
    ensures forall i :: 0 <= i < 12 ==> !s.NodeTypeTests()[i]
    ensures !s.IsRoot() && !s.IsCommentNode() && !s.IsPseudoElementNode() && !s.IsBodyNode() &&
      !s.IsHeadNode() && !s.IsShadowRootNode() && !s.IsAnonymousNode()
  {
  }

  /**
   * With the intended comment test, a selected node of any of the twelve
   * types passes exactly the test for its own type.
   */
  lemma NodeTypeTestsExact(s: Selection)
    requires s.nodeFront.Some? && 1 <= s.nodeFront.value.nodeType <= 12
    ensures forall i :: 0 <= i < 12 ==> (s.NodeTypeTests()[i] <==> i + 1 == s.nodeFront.value.nodeType)
  {
  }

  /** As written, a comment node fails `isCommentNode`, while a processing instruction passes it. */
  lemma CommentNodeAsWritten(s: Selection)
    requires s.nodeFront.Some?
    ensures s.nodeFront.value.nodeType == COMMENT_NODE ==> !s.IsCommentNode() && s.IsCommentNodeIntended()
    ensures s.nodeFront.value.nodeType == PROCESSING_INSTRUCTION_NODE ==> s.IsCommentNode() && !s.IsCommentNodeIntended()
  {
  }

  /** As written, an ordinary element counts as a pseudo-element, and a "::before" node does not. */
  lemma PseudoElementAsWritten(s: Selection)
    requires s.nodeFront.Some?
    ensures s.nodeFront.value.pseudoType == "" ==> s.IsPseudoElementNode() && !s.IsPseudoElementNodeIntended()
    ensures s.nodeFront.value.pseudoType == "::before" ==> !s.IsPseudoElementNode() && s.IsPseudoElementNodeIntended()
  {
  }

  /** The intended test holds exactly of selected nodes that have a pseudo type. */
  lemma PseudoElementIntended(s: Selection)
    ensures s.IsPseudoElementNodeIntended() <==> s.nodeFront.Some? && s.nodeFront.value.pseudoType != ""
  {
  }
}
