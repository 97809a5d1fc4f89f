/**
 * How the roadmap draws its nodes: the circle's colour, icon and label, the
 * info card's resource preview and action button, and which nodes get a
 * connection line to their parent.
 */
module CareerTreeView {
  import opened Types
  import opened Strings

  const Palette: seq<string> := ["bg-purple-500", "bg-blue-500", "bg-red-500", "bg-orange-500",
                                 "bg-yellow-500", "bg-green-500", "bg-teal-500", "bg-indigo-500", "bg-pink-500"]

  /** `getNodeColor`: completion first, then the lock, then the palette by position. */
  function NodeColor(node: CareerNode, index: nat): (c: string)
    ensures node.completed ==> c == "bg-green-500"
    ensures !node.completed && node.locked ==> c == "bg-gray-400"
    ensures !node.completed && !node.locked ==> c == Palette[index % 9]
  {
    if node.completed then "bg-green-500"
    else if node.locked then "bg-gray-400"
    else Palette[index % |Palette|]
  }

  /** Green does not mean completed: the sixth palette slot is green as well. */
  lemma GreenNodes(node: CareerNode, index: nat)
    ensures NodeColor(node, index) == "bg-green-500" <==> node.completed || (!node.locked && index % 9 == 5)
  {
    if !node.completed && !node.locked {
      var k := index % 9;
      assert forall j :: 0 <= j < 9 && j != 5 ==> Palette[j] != "bg-green-500";
    }
  }

  datatype Icon = VideoIcon | BookIcon | PlayIcon

  predicate IsVideoKind(k: ResourceKind) {
    k == YouTube || k == Video
  }

  /** `getNodeIcon`: video if any resource plays, else book if any is an article, else play. */
  function NodeIcon(rs: seq<Resource>): (i: Icon)
    ensures i == VideoIcon <==> exists j :: 0 <= j < |rs| && IsVideoKind(rs[j].kind)
    ensures i == BookIcon <==>
      (forall j :: 0 <= j < |rs| ==> !IsVideoKind(rs[j].kind)) && exists j :: 0 <= j < |rs| && rs[j].kind == Article
    ensures i == PlayIcon <==> forall j :: 0 <= j < |rs| ==> rs[j].kind == Task
  {
    if exists j :: 0 <= j < |rs| && IsVideoKind(rs[j].kind) then VideoIcon
    else if exists j :: 0 <= j < |rs| && rs[j].kind == Article then BookIcon
    else PlayIcon
  }

  /** The preview lists each resource with the icon of its own kind. */
  lemma ResourceIconByKind(r: Resource)
    ensures NodeIcon([r]) == (match r.kind case YouTube => VideoIcon case Video => VideoIcon
                                             case Article => BookIcon case Task => PlayIcon)
  {
    assert [r][0] == r;
  }

  /** What the node circle shows. */
  datatype Badge = CheckBadge | LockBadge | NumberBadge(text: string)

  function NodeBadge(node: CareerNode, index: nat): (b: Badge)
    ensures node.completed ==> b == CheckBadge
    ensures !node.completed && node.locked ==> b == LockBadge
    ensures !node.completed && !node.locked ==> b == NumberBadge(PadStart(NatToString(index + 1), 2, '0'))
  {
    if node.completed then CheckBadge
    else if node.locked then LockBadge
    else NumberBadge(PadStart(NatToString(index + 1), 2, '0'))
  }

  lemma {:induction false} LeadingZero(s: string)
    requires forall k :: 0 <= k < |s| ==> IsDigit(s[k])
    ensures DecimalValue("0" + s) == DecimalValue(s)
  {
    if |s| > 0 {
      var t := "0" + s;
      assert t[..|t| - 1] == "0" + s[..|s| - 1];
      LeadingZero(s[..|s| - 1]);
    }
  }

  /** The number label has at least two digits and reads back as the node's one-based position. */
  lemma NumberLabelReadsBack(index: nat)
    ensures var lbl := PadStart(NatToString(index + 1), 2, '0');
            && |lbl| >= 2
            && (forall k :: 0 <= k < |lbl| ==> IsDigit(lbl[k]))
            && DecimalValue(lbl) == index + 1
            && (index < 9 ==> lbl[0] == '0')
  {
    var s := NatToString(index + 1);
    NatToStringRoundTrip(index + 1);
    NatToStringLength(index + 1);
    if |s| < 2 {
      assert PadStart(s, 2, '0') == "0" + s;
      LeadingZero(s);
    }
  }

  function MinNat(a: nat, b: nat): nat {
    if a <= b then a else b
  }

  /** `resources.slice(0, 3)` */
  function Preview(node: CareerNode): (rs: seq<Resource>)
    ensures |rs| == MinNat(|node.resources|, 3)
    ensures rs == node.resources[..|rs|]
  {
    node.resources[..MinNat(|node.resources|, 3)]
  }

  /** `+{n - 3} more resources`, shown only past three. */
  function MoreLabel(node: CareerNode): (l: Option<string>)
    ensures l.Some? <==> |node.resources| > 3
    ensures l.Some? ==> l.value == "+" + NatToString(|node.resources| - 3) + " more resources"
    ensures l.None? ==> Preview(node) == node.resources
  {
    if |node.resources| > 3 then Some("+" + NatToString(|node.resources| - 3) + " more resources") else None
  }

  /** `{n} resource{n !== 1 ? 's' : ''}` */
  function CountLabel(node: CareerNode): (l: string)
    ensures var n := |node.resources|;
            l == NatToString(n) + (if n == 1 then " resource" else " resources")
  {
    var n := |node.resources|;
    NatToString(n) + " resource" + (if n != 1 then "s" else "")
  }

  /** The info card's button: none on a locked node, otherwise Review or Start Learning. */
  function ActionButton(node: CareerNode): (b: Option<string>)
    ensures b.None? <==> node.locked
    ensures b.Some? ==> b.value == (if node.completed then "Review" else "Start Learning")
  {
    if node.locked then None
    else if node.completed then Some("Review")
    else Some("Start Learning")
  }

  /** A connection from the node at `parentIndex` to the node at `childIndex`. */
  datatype Line = Line(parentIndex: nat, childIndex: nat)

  /** The parent a node names, when it names one that is drawn: a truthy id held by some node. */
  predicate HasDrawnParent(nodes: seq<CareerNode>, i: nat)
    requires i < |nodes|
  {
    nodes[i].parent.Some? && nodes[i].parent.value != "" && IndexOfNode(nodes, nodes[i].parent.value) >= 0
  }

  /** The lines for the nodes from position `from` on, in node order. */
  function LinesFrom(nodes: seq<CareerNode>, from: nat): seq<Line>
    requires from <= |nodes|
    decreases |nodes| - from
  {
    if from == |nodes| then []
    else if HasDrawnParent(nodes, from) then
      [Line(IndexOfNode(nodes, nodes[from].parent.value), from)] + LinesFrom(nodes, from + 1)
    else LinesFrom(nodes, from + 1)
  }

  /** Each of `ls` is a line for a node from position `from` on, starting at the first node holding its parent id. */
  predicate SoundLines(nodes: seq<CareerNode>, ls: seq<Line>, from: nat) {
    forall k :: 0 <= k < |ls| ==>
      && from <= ls[k].childIndex < |nodes|
      && HasDrawnParent(nodes, ls[k].childIndex)
      && ls[k].parentIndex == IndexOfNode(nodes, nodes[ls[k].childIndex].parent.value)
  }

  /** The lines of `ls` come in strictly increasing child order. */
  predicate OrderedLines(ls: seq<Line>) {
    forall k, m :: 0 <= k < m < |ls| ==> ls[k].childIndex < ls[m].childIndex
  }

  /** Every line starts at the first node holding the id its child names as parent. */
  lemma {:induction false} LinesFromSound(nodes: seq<CareerNode>, from: nat)
    requires from <= |nodes|
    ensures SoundLines(nodes, LinesFrom(nodes, from), from)
    decreases |nodes| - from
  {
    if from < |nodes| {
      LinesFromSound(nodes, from + 1);
      var rest := LinesFrom(nodes, from + 1);
      if HasDrawnParent(nodes, from) {
        var ls := LinesFrom(nodes, from);
        assert ls == [Line(IndexOfNode(nodes, nodes[from].parent.value), from)] + rest;
        assert forall k :: 1 <= k < |ls| ==> ls[k] == rest[k - 1];
      }
    }
  }

  /** Every node from `from` on with a drawn parent gets its line. */
  lemma {:induction false} LinesFromComplete(nodes: seq<CareerNode>, from: nat)
    requires from <= |nodes|
    ensures forall c :: from <= c < |nodes| && HasDrawnParent(nodes, c) ==>
              Line(IndexOfNode(nodes, nodes[c].parent.value), c) in LinesFrom(nodes, from)
    decreases |nodes| - from
  {
    if from < |nodes| {
      LinesFromComplete(nodes, from + 1);
    }
  }

  /** Every line of `ls` is for a node at position `from` or later. */
  predicate LinesAfter(ls: seq<Line>, from: nat) {
    forall k :: 0 <= k < |ls| ==> from <= ls[k].childIndex
  }

  lemma LinesFromAfter(nodes: seq<CareerNode>, from: nat)
    requires from <= |nodes|
    ensures LinesAfter(LinesFrom(nodes, from), from)
  {
    LinesFromSound(nodes, from);
  }

  /** The lines come in strictly increasing child order. */
  lemma {:induction false} LinesFromOrdered(nodes: seq<CareerNode>, from: nat)
    requires from <= |nodes|
    ensures OrderedLines(LinesFrom(nodes, from))
    decreases |nodes| - from
  {
    if from < |nodes| {
      LinesFromAfter(nodes, from + 1);
      LinesFromOrdered(nodes, from + 1);
      var rest := LinesFrom(nodes, from + 1);
      if HasDrawnParent(nodes, from) {
        ConsOrdered(IndexOfNode(nodes, nodes[from].parent.value), from, rest);
      }
    }
  }

  /** A line for node `from` put ahead of ordered lines for later nodes keeps them ordered. */
  lemma ConsOrdered(parentIndex: nat, from: nat, rest: seq<Line>)
    requires OrderedLines(rest) && LinesAfter(rest, from + 1)
    ensures OrderedLines([Line(parentIndex, from)] + rest)
  {
    var ls := [Line(parentIndex, from)] + rest;
    forall k, m | 0 <= k < m < |ls|
      ensures ls[k].childIndex < ls[m].childIndex
    {
      assert ls[m] == rest[m - 1];
      if k > 0 {
        assert ls[k] == rest[k - 1];
      }
    }
  }

  /**
   * The connection lines, in node order: a line runs from the first node
   * holding the id a node names as its parent to that node, exactly for the
   * nodes whose parent id is non-empty and held by some node, once each.
   */
  function ConnectionLines(nodes: seq<CareerNode>): (ls: seq<Line>)
    ensures forall k :: 0 <= k < |ls| ==>
      && ls[k].childIndex < |nodes| && ls[k].parentIndex < |nodes|
      && HasDrawnParent(nodes, ls[k].childIndex)
      && nodes[ls[k].parentIndex].id == nodes[ls[k].childIndex].parent.value
    ensures forall c :: 0 <= c < |nodes| && HasDrawnParent(nodes, c) ==>
      Line(IndexOfNode(nodes, nodes[c].parent.value), c) in ls
    ensures forall k, m :: 0 <= k < m < |ls| ==> ls[k].childIndex != ls[m].childIndex
  {
    LinesFromSound(nodes, 0);
    LinesFromComplete(nodes, 0);
    LinesFromOrdered(nodes, 0);
    LinesFrom(nodes, 0)
  }
}
