/**
 * The career-roadmap page: marking a watched resource complete inside the
 * current career, deriving the node's completion from its resources, and
 * the selection state behind the resource panel (selected node, selected
 * resource, whether the panel is open).
 */
module CareerTreePage {
  import opened Types
  import opened Strings
  import opened Store
  import opened Api

  /** The resources of one node with `resourceId` marked complete. */
  function MarkResources(rs: seq<Resource>, resourceId: string): (out: seq<Resource>)
    ensures |out| == |rs|
    ensures forall j :: 0 <= j < |rs| ==>
      out[j] == (if rs[j].id == resourceId then rs[j].(completed := true) else rs[j])
  {
    if |rs| == 0 then [] else
      [if rs[0].id == resourceId then rs[0].(completed := true) else rs[0]] + MarkResources(rs[1..], resourceId)
  }

  /** `resources.every(r => r.completed)` */
  predicate AllCompleted(rs: seq<Resource>) {
    forall j :: 0 <= j < |rs| ==> rs[j].completed
  }

  function MarkNode(node: CareerNode, nodeId: string, resourceId: string): CareerNode {
    if node.id == nodeId then
      var rs := MarkResources(node.resources, resourceId);
      node.(resources := rs, completed := AllCompleted(rs))
    else node
  }

  function MarkNodes(nodes: seq<CareerNode>, nodeId: string, resourceId: string): (out: seq<CareerNode>)
    ensures |out| == |nodes|
    ensures forall i :: 0 <= i < |nodes| ==> out[i] == MarkNode(nodes[i], nodeId, resourceId)
  {
    if |nodes| == 0 then [] else [MarkNode(nodes[0], nodeId, resourceId)] + MarkNodes(nodes[1..], nodeId, resourceId)
  }

  /**
   * The career after `handleResourceComplete`: in the node with `nodeId`,
   * the resource with `resourceId` is completed and the node is completed
   * exactly when all its resources are; everything else is kept.
   */
  function MarkResourceComplete(career: CareerTree, nodeId: string, resourceId: string): (c: CareerTree)
    ensures c == career.(nodes := c.nodes)
    ensures |c.nodes| == |career.nodes|
    ensures forall i :: 0 <= i < |career.nodes| && career.nodes[i].id != nodeId ==> c.nodes[i] == career.nodes[i]
    ensures forall i :: 0 <= i < |career.nodes| && career.nodes[i].id == nodeId ==>
      && c.nodes[i] == career.nodes[i].(resources := c.nodes[i].resources, completed := c.nodes[i].completed)
      && |c.nodes[i].resources| == |career.nodes[i].resources|
      && (c.nodes[i].completed <==> forall j :: 0 <= j < |c.nodes[i].resources| ==> c.nodes[i].resources[j].completed)
      && (forall j :: 0 <= j < |career.nodes[i].resources| ==>
            c.nodes[i].resources[j] ==
              if career.nodes[i].resources[j].id == resourceId then career.nodes[i].resources[j].(completed := true)
              else career.nodes[i].resources[j])
  {
    career.(nodes := MarkNodes(career.nodes, nodeId, resourceId))
  }

  /** Marking the same resource twice is marking it once. */
  lemma MarkResourceCompleteIdempotent(career: CareerTree, nodeId: string, resourceId: string)
    ensures var once := MarkResourceComplete(career, nodeId, resourceId);
            MarkResourceComplete(once, nodeId, resourceId) == once
  {
    var once := MarkResourceComplete(career, nodeId, resourceId);
    var twice := MarkResourceComplete(once, nodeId, resourceId);
    forall i | 0 <= i < |career.nodes|
      ensures twice.nodes[i] == once.nodes[i]
    {
      if career.nodes[i].id == nodeId {
        assert twice.nodes[i].resources == once.nodes[i].resources;
      }
    }
    assert twice.nodes == once.nodes;
  }

  /** Completing the last incomplete resource of a node completes the node. */
  lemma LastResourceCompletesNode(career: CareerTree, i: nat, resourceId: string)
    requires i < |career.nodes|
    requires forall j :: 0 <= j < |career.nodes[i].resources| ==>
               career.nodes[i].resources[j].completed || career.nodes[i].resources[j].id == resourceId
    ensures MarkResourceComplete(career, career.nodes[i].id, resourceId).nodes[i].completed
  {
  }

  /** `handleResourceComplete`: nothing happens unless a node, a resource and a career are all present. */
  function AfterResourceComplete(node: Option<CareerNode>, res: Option<Resource>, career: Option<CareerTree>): (c: Option<CareerTree>)
    ensures node.None? || res.None? || career.None? ==> c == career
    ensures node.Some? && res.Some? && career.Some? ==> c == Some(MarkResourceComplete(career.value, node.value.id, res.value.id))
  {
    if node.Some? && res.Some? && career.Some? then Some(MarkResourceComplete(career.value, node.value.id, res.value.id))
    else career
  }

  /**
   * `getNextResource`: the resource after the selected one in the selected
   * node.  An id not found gives index -1, hence the first resource.
   */
  function NextResource(node: Option<CareerNode>, res: Option<Resource>): (r: Option<Resource>)
    ensures node.None? ==> r.None?
    ensures node.Some? ==>
      var rs := node.value.resources;
      var k := if res.Some? then IndexOfResource(rs, res.value.id) else -1;
      r == (if k + 1 < |rs| then Some(rs[k + 1]) else None)
    ensures node.Some? && (res.None? || forall j :: 0 <= j < |node.value.resources| ==> node.value.resources[j].id != res.value.id) ==>
      r == (if |node.value.resources| > 0 then Some(node.value.resources[0]) else None)
    ensures node.Some? && res.Some? && res.value in node.value.resources && r.None? ==>
      node.value.resources[|node.value.resources| - 1].id == res.value.id
  {
    if node.None? then None
    else
      var rs := node.value.resources;
      var k := if res.Some? then IndexOfResource(rs, res.value.id) else -1;
      assert res.Some? && res.value in rs ==> exists m :: 0 <= m < |rs| && rs[m].id == res.value.id;
      if k + 1 < |rs| then Some(rs[k + 1]) else None
  }

  /** The number of nodes with `completed`: the header badge's count. */
  function CompletedNodeCount(nodes: seq<CareerNode>): (n: nat)
    ensures n <= |nodes|
    ensures n == |nodes| <==> forall i :: 0 <= i < |nodes| ==> nodes[i].completed
    ensures n == 0 <==> forall i :: 0 <= i < |nodes| ==> !nodes[i].completed
  {
    if |nodes| == 0 then 0
    else
      var rest := CompletedNodeCount(nodes[1..]);
      assert forall i :: 1 <= i < |nodes| ==> nodes[i] == nodes[1..][i - 1];
      (if nodes[0].completed then 1 else 0) + rest
  }

  /** "<completed> / <all> completed" */
  function BadgeLabel(career: CareerTree): string {
    NatToString(CompletedNodeCount(career.nodes)) + " / " + NatToString(|career.nodes|) + " completed"
  }

  /** The panel's position text. */
  function PositionLabel(node: Option<CareerNode>, res: Option<Resource>): (s: string)
    ensures node.None? || res.None? ==> s == "No resource selected"
    ensures node.Some? && res.Some? ==>
      var rs := node.value.resources;
      if forall j :: 0 <= j < |rs| ==> rs[j].id != res.value.id then s == "Resource not found"
      else exists k :: 0 <= k < |rs| && rs[k].id == res.value.id && (forall j :: 0 <= j < k ==> rs[j].id != res.value.id)
                       && s == "Resource " + NatToString(k + 1) + " of " + NatToString(|rs|)
  {
    if node.None? || res.None? then "No resource selected"
    else
      var rs := node.value.resources;
      var k := IndexOfResource(rs, res.value.id);
      if k == -1 then "Resource not found"
      else "Resource " + NatToString(k + 1) + " of " + NatToString(|rs|)
  }

  /** What the panel shows beside the position: a Next button, disabled until the selected resource is completed, or the all-done badge. */
  datatype NextControl = NextButton(disabled: bool) | AllDoneBadge

  function NextControlFor(node: Option<CareerNode>, res: Resource): (c: NextControl)
    ensures c.NextButton? <==> NextResource(node, Some(res)).Some?
    ensures c.NextButton? ==> (c.disabled <==> !res.completed)
  {
    if NextResource(node, Some(res)).Some? then NextButton(!res.completed) else AllDoneBadge
  }

  /**
   * The selection re-read from a career: the node with the selected node's
   * id and, inside it, the resource with the selected resource's id.
   */
  function RefreshSelection(career: CareerTree, node: CareerNode, res: Resource): (sel: (CareerNode, Resource))
    ensures sel.0.id == node.id && sel.1.id == res.id
    ensures IndexOfNode(career.nodes, node.id) >= 0 ==> sel.0 == career.nodes[IndexOfNode(career.nodes, node.id)]
    ensures var i := IndexOfNode(career.nodes, node.id);
            i >= 0 && IndexOfResource(career.nodes[i].resources, res.id) >= 0 ==>
              sel.1 == career.nodes[i].resources[IndexOfResource(career.nodes[i].resources, res.id)]
  {
    var i := IndexOfNode(career.nodes, node.id);
    if i == -1 then (node, res)
    else
      var n := career.nodes[i];
      var j := IndexOfResource(n.resources, res.id);
      if j == -1 then (n, res) else (n, n.resources[j])
  }

  /**
   * With the selection re-read after the update, the selected resource is
   * completed whenever it is held by the selected node of the career.
   */
  lemma RefreshedResourceCompleted(career: CareerTree, node: CareerNode, res: Resource)
    requires exists i :: 0 <= i < |career.nodes| && career.nodes[i].id == node.id
    requires var i := IndexOfNode(career.nodes, node.id);
             exists j :: 0 <= j < |career.nodes[i].resources| && career.nodes[i].resources[j].id == res.id
    ensures var c := MarkResourceComplete(career, node.id, res.id);
            RefreshSelection(c, node, res).1.completed
  {
    MarkKeepsPositions(career, node.id, res.id);
  }

  /**
   * With the selection re-read after the update, a selected resource that has
   * a successor in its node leaves the Next button enabled.
   */
  lemma RefreshedNextEnabled(career: CareerTree, node: CareerNode, res: Resource)
    requires var i := IndexOfNode(career.nodes, node.id);
             i >= 0 && 0 <= IndexOfResource(career.nodes[i].resources, res.id) < |career.nodes[i].resources| - 1
    ensures var sel := RefreshSelection(MarkResourceComplete(career, node.id, res.id), node, res);
            NextControlFor(Some(sel.0), sel.1) == NextButton(false)
  {
    MarkKeepsPositions(career, node.id, res.id);
  }

  /** Marking moves no node and no resource: the same ids sit at the same positions, and the marked one is completed. */
  lemma MarkKeepsPositions(career: CareerTree, nodeId: string, resourceId: string)
    requires IndexOfNode(career.nodes, nodeId) >= 0
    ensures var c := MarkResourceComplete(career, nodeId, resourceId);
            var i := IndexOfNode(career.nodes, nodeId);
            var j := IndexOfResource(career.nodes[i].resources, resourceId);
            && IndexOfNode(c.nodes, nodeId) == i
            && |c.nodes[i].resources| == |career.nodes[i].resources|
            && IndexOfResource(c.nodes[i].resources, resourceId) == j
            && (j >= 0 ==> c.nodes[i].resources[j].completed)
  {
    var c := MarkResourceComplete(career, nodeId, resourceId);
    var i := IndexOfNode(career.nodes, nodeId);
    MarkKeepsNodeIds(career, nodeId, resourceId);
    SameIdsSameIndex(career.nodes, c.nodes, nodeId);
    MarkKeepsResourceIds(career, nodeId, resourceId, i);
    SameIdsSameResourceIndex(career.nodes[i].resources, c.nodes[i].resources, resourceId);
  }

  lemma MarkKeepsNodeIds(career: CareerTree, nodeId: string, resourceId: string)
    ensures var c := MarkResourceComplete(career, nodeId, resourceId);
            |c.nodes| == |career.nodes| && forall k :: 0 <= k < |c.nodes| ==> c.nodes[k].id == career.nodes[k].id
  {
    var c := MarkResourceComplete(career, nodeId, resourceId);
    forall k | 0 <= k < |c.nodes|
      ensures c.nodes[k].id == career.nodes[k].id
    {
    }
  }

  lemma MarkKeepsResourceIds(career: CareerTree, nodeId: string, resourceId: string, i: nat)
    requires i < |career.nodes| && career.nodes[i].id == nodeId
    ensures var before := career.nodes[i].resources;
            var after := MarkResourceComplete(career, nodeId, resourceId).nodes[i].resources;
            && |after| == |before|
            && (forall k :: 0 <= k < |after| ==> after[k].id == before[k].id)
            && (forall k :: 0 <= k < |after| && before[k].id == resourceId ==> after[k].completed)
  {
    var before := career.nodes[i].resources;
    var after := MarkResourceComplete(career, nodeId, resourceId).nodes[i].resources;
    forall k | 0 <= k < |after|
      ensures after[k].id == before[k].id && (before[k].id == resourceId ==> after[k].completed)
    {
    }
  }

  lemma {:induction false} SameIdsSameResourceIndex(a: seq<Resource>, b: seq<Resource>, id: string)
    requires |a| == |b|
    requires forall k :: 0 <= k < |a| ==> a[k].id == b[k].id
    ensures IndexOfResource(a, id) == IndexOfResource(b, id)
  {
    if |a| > 0 && a[0].id != id {
      SameIdsSameResourceIndex(a[1..], b[1..], id);
    }
  }

  lemma {:induction false} SameIdsSameIndex(a: seq<CareerNode>, b: seq<CareerNode>, id: string)
    requires |a| == |b|
    requires forall k :: 0 <= k < |a| ==> a[k].id == b[k].id
    ensures IndexOfNode(a, id) == IndexOfNode(b, id)
  {
    if |a| > 0 && a[0].id != id {
      SameIdsSameIndex(a[1..], b[1..], id);
    }
  }

  /**
   * As written, completing the selected resource rewrites only the career:
   * the selection keeps its old copy, so on the mock career tree the Next button
   * stays disabled after the first resource of the root node is completed.
   */
  lemma NextStaysDisabledAsWritten()
    ensures var career := MockCareerTree();
            var node := career.nodes[0];
            var res := node.resources[0];
            var updated := MarkResourceComplete(career, node.id, res.id);
            && updated.nodes[0].resources[0].completed
            && NextControlFor(Some(node), res) == NextButton(true)
  {
    var career := MockCareerTree();
    var node := career.nodes[0];
    assert IndexOfResource(node.resources, node.resources[0].id) == 0;
  }

  /** The same scenario with the selection re-read: the Next button is enabled. */
  lemma NextEnabledWhenRefreshed()
    ensures var career := MockCareerTree();
            var node := career.nodes[0];
            var res := node.resources[0];
            var updated := MarkResourceComplete(career, node.id, res.id);
            var sel := RefreshSelection(updated, node, res);
            NextControlFor(Some(sel.0), sel.1) == NextButton(false)
  {
    var career := MockCareerTree();
    var node := career.nodes[0];
    var res := node.resources[0];
    assert IndexOfNode(career.nodes, node.id) == 0;
    assert IndexOfResource(node.resources, res.id) == 0;
    RefreshedNextEnabled(career, node, res);
  }

  /** The page's selection state; the career itself lives in the store. */
  class RoadmapPage {
    const store: AppStore
    var selectedNode: Option<CareerNode>
    var selectedResource: Option<Resource>
    var showPanel: bool

    constructor (store: AppStore)
      ensures this.store == store
      ensures selectedNode == None && selectedResource == None && !showPanel
    {
      this.store := store;
      selectedNode := None;
      selectedResource := None;
      showPanel := false;
    }

    /** `loadCareerTree` with the API reply as input: the loading flag brackets the store write. */
    method LoadCareerTree(reply: ApiResponse<CareerTree>)
      modifies store
      ensures store.currentCareer == (if reply.success && reply.data.Some? then reply.data else old(store.currentCareer))
      ensures !store.isLoading
      ensures store.user == old(store.user) && store.skillVector == old(store.skillVector)
      ensures store.recommendations == old(store.recommendations) && store.watchProgress == old(store.watchProgress)
    {
      store.SetLoading(true);
      if reply.success && reply.data.Some? {
        store.SetCurrentCareer(reply.data);
      }
      store.SetLoading(false);
    }

    /** A locked node is ignored; otherwise it is selected, and a node with resources opens its first one. */
    method HandleNodeClick(node: CareerNode)
      modifies this
      ensures node.locked ==> selectedNode == old(selectedNode) && selectedResource == old(selectedResource) && showPanel == old(showPanel)
      ensures !node.locked ==> selectedNode == Some(node)
      ensures !node.locked && |node.resources| > 0 ==> selectedResource == Some(node.resources[0]) && showPanel
      ensures !node.locked && |node.resources| == 0 ==> selectedResource == old(selectedResource) && showPanel == old(showPanel)
    {
      if node.locked {
        return;
      }
      selectedNode := Some(node);
      if |node.resources| > 0 {
        selectedResource := Some(node.resources[0]);
        showPanel := true;
      }
    }

    /** `handleResourceComplete` as written: only the store's career changes. */
    method HandleResourceComplete()
      modifies store
      ensures store.currentCareer == AfterResourceComplete(selectedNode, selectedResource, old(store.currentCareer))
      ensures store.user == old(store.user) && store.skillVector == old(store.skillVector)
      ensures store.recommendations == old(store.recommendations) && store.watchProgress == old(store.watchProgress)
      ensures store.isLoading == old(store.isLoading)
    {
      if selectedNode.Some? && selectedResource.Some? && store.currentCareer.Some? {
        store.SetCurrentCareer(Some(MarkResourceComplete(store.currentCareer.value, selectedNode.value.id, selectedResource.value.id)));
      }
    }

    /** `handleResourceComplete` followed by re-reading the selection from the updated career. */
    method HandleResourceCompleteRefreshed()
      modifies this, store
      ensures store.currentCareer == AfterResourceComplete(old(selectedNode), old(selectedResource), old(store.currentCareer))
      ensures store.user == old(store.user) && store.skillVector == old(store.skillVector)
      ensures store.recommendations == old(store.recommendations) && store.watchProgress == old(store.watchProgress)
      ensures store.isLoading == old(store.isLoading) && showPanel == old(showPanel)
      ensures old(selectedNode).Some? && old(selectedResource).Some? && store.currentCareer.Some? ==>
        var sel := RefreshSelection(store.currentCareer.value, old(selectedNode).value, old(selectedResource).value);
        selectedNode == Some(sel.0) && selectedResource == Some(sel.1)
      ensures !(old(selectedNode).Some? && old(selectedResource).Some? && store.currentCareer.Some?) ==>
        selectedNode == old(selectedNode) && selectedResource == old(selectedResource)
    {
      HandleResourceComplete();
      if selectedNode.Some? && selectedResource.Some? && store.currentCareer.Some? {
        var sel := RefreshSelection(store.currentCareer.value, selectedNode.value, selectedResource.value);
        selectedNode := Some(sel.0);
        selectedResource := Some(sel.1);
      }
    }

    /** Advance to the next resource, or close the panel and clear the selection when there is none. */
    method HandleNextResource()
      modifies this
      ensures var next := NextResource(old(selectedNode), old(selectedResource));
              if next.Some? then selectedResource == next && selectedNode == old(selectedNode) && showPanel == old(showPanel)
              else selectedNode == None && selectedResource == None && !showPanel
    {
      var next := NextResource(selectedNode, selectedResource);
      if next.Some? {
        selectedResource := next;
      } else {
        showPanel := false;
        selectedNode := None;
        selectedResource := None;
      }
    }

    /** The panel's close button hides the panel and keeps the selection. */
    method ClosePanel()
      modifies this
      ensures !showPanel && selectedNode == old(selectedNode) && selectedResource == old(selectedResource)
    {
      showPanel := false;
    }
  }
}
