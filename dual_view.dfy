/** The dual tree/graph view (app/masters/factory/dual-view.tsx): the
    selected node, the expanded and mobile layout flags, the panel widths
    they imply and when the details panel is shown. */
module DualView {
  import opened Js

  /** `removeCircularReferences`: a missing node becomes null; otherwise a shallow
      copy without its `parent` and `children` links. */
  function RemoveCircularReferences(node: Json): (r: Json)
    ensures !JTruthy(node) ==> r == JNull
    ensures JTruthy(node) ==>
      (r.JObj? && r.fields.Keys == Spread(node).Keys - {"parent", "children"}
       && forall k :: k in r.fields ==> r.fields[k] == Spread(node)[k])
  {
    if !JTruthy(node) then JNull
    else JObj(map k | k in Spread(node) && k != "parent" && k != "children" :: Spread(node)[k])
  }

  /** Cleaning a node twice is the same as cleaning it once. */
  lemma {:induction false} CleanIdempotent(node: Json)
    ensures RemoveCircularReferences(RemoveCircularReferences(node)) == RemoveCircularReferences(node)
  {
    var once := RemoveCircularReferences(node);
    if JTruthy(node) {
      assert RemoveCircularReferences(once).fields == once.fields;
    }
  }

  /** Widths in percent: the tree or graph takes 70% when expanded and 50%
      otherwise, and all of the width on a small screen. */
  function LeftPanelWidth(isExpanded: bool, isMobile: bool): nat
  {
    if isMobile then 100 else if isExpanded then 70 else 50
  }

  function RightPanelWidth(isExpanded: bool): nat
  {
    if isExpanded then 30 else 50
  }

  /** Side by side, the two panels always share the whole width. */
  lemma {:induction false} WidthsAddUp(isExpanded: bool)
    ensures LeftPanelWidth(isExpanded, false) + RightPanelWidth(isExpanded) == 100
    ensures LeftPanelWidth(isExpanded, false) >= RightPanelWidth(isExpanded)
  {
  }

  /** `(!isExpanded || selectedNode) && !isMobile` */
  predicate SidePanelShown(isExpanded: bool, isMobile: bool, selectedNode: Json)
  {
    (!isExpanded || JTruthy(selectedNode)) && !isMobile
  }

  /** The screens narrower than this are small. */
  const MobileBreakpoint: int := 768

  class DualViewState {
    var selectedNodeId: Option<string>
    var selectedNodeType: Option<string>
    var selectedNode: Json
    var isExpanded: bool
    var isMobile: bool

    /** Nothing selected, both panels shown, a wide screen. */
    constructor ()
      ensures selectedNodeId == None && selectedNodeType == None && selectedNode == JNull
      ensures !isExpanded && !isMobile
    {
      selectedNodeId, selectedNodeType, selectedNode := None, None, JNull;
      isExpanded, isMobile := false, false;
    }

    predicate ShowsSidePanel()
      reads this
    {
      SidePanelShown(isExpanded, isMobile, selectedNode)
    }

    /** `handleNodeSelect`: the id, the lower-cased type and the cleaned node
        are set together. A missing type makes `toLowerCase` throw before
        anything is set. */
    method SelectNode(nodeId: string, nodeType: Option<string>, node: Json)
      modifies this
      ensures nodeType.None? ==>
        selectedNodeId == old(selectedNodeId) && selectedNodeType == old(selectedNodeType)
        && selectedNode == old(selectedNode)
      ensures nodeType.Some? ==>
        selectedNodeId == Some(nodeId) && selectedNodeType == Some(ToLower(nodeType.value))
        && selectedNode == RemoveCircularReferences(node)
      ensures isExpanded == old(isExpanded) && isMobile == old(isMobile)
    {
      if nodeType.Some? {
        selectedNodeId := Some(nodeId);
        selectedNodeType := Some(ToLower(nodeType.value));
        selectedNode := RemoveCircularReferences(node);
      }
    }

    /** `handleCloseDetails` */
    method CloseDetails()
      modifies this
      ensures selectedNodeId == None && selectedNodeType == None && selectedNode == JNull
      ensures isExpanded == old(isExpanded) && isMobile == old(isMobile)
    {
      selectedNodeId, selectedNodeType, selectedNode := None, None, JNull;
    }

    /** `refreshData`: the selection is cleared as on close; the reload
        itself is the caller's. */
    method RefreshData()
      modifies this
      ensures selectedNodeId == None && selectedNodeType == None && selectedNode == JNull
      ensures isExpanded == old(isExpanded) && isMobile == old(isMobile)
    {
      CloseDetails();
    }

    /** `toggleExpanded` */
    method ToggleExpanded()
      modifies this
      ensures isExpanded == !old(isExpanded)
      ensures selectedNodeId == old(selectedNodeId) && selectedNodeType == old(selectedNodeType)
      ensures selectedNode == old(selectedNode) && isMobile == old(isMobile)
    {
      isExpanded := !isExpanded;
    }

    /** The resize handler: a small screen is mobile and forces the expanded
        layout; a wide one leaves the layout as it was. */
    method Resize(innerWidth: int)
      modifies this
      ensures isMobile == (innerWidth < MobileBreakpoint)
      ensures isExpanded == (old(isExpanded) || innerWidth < MobileBreakpoint)
      ensures selectedNodeId == old(selectedNodeId) && selectedNodeType == old(selectedNodeType)
      ensures selectedNode == old(selectedNode)
      ensures innerWidth < MobileBreakpoint ==> !ShowsSidePanel()
    {
      var mobile := innerWidth < MobileBreakpoint;
      isMobile := mobile;
      if mobile {
        isExpanded := true;
      }
    }
  }

  /** When the details panel is shown: never on a small screen; on a wide
      one always while a node is selected, and otherwise exactly in the
      default (not expanded) layout. */
  lemma {:induction false} SidePanelRule(isExpanded: bool, isMobile: bool, selectedNode: Json)
    ensures SidePanelShown(isExpanded, isMobile, selectedNode) ==> !isMobile
    ensures !isMobile && JTruthy(selectedNode) ==> SidePanelShown(isExpanded, isMobile, selectedNode)
    ensures !isMobile && selectedNode == JNull ==> (SidePanelShown(isExpanded, isMobile, selectedNode) <==> !isExpanded)
  {
  }
}
