/**
 * The document relationship graph (client/src/components/DocumentRelationshipGraph.tsx):
 * the nodes and links its effect computes from the current document and the
 * analysis's related documents, the type-to-colour lookup, and the node
 * selection toggle. Layout and drawing are not modelled.
 */
module RelationshipGraph {
  import opened Wrappers
  import opened Text
  import opened Sequences
  import opened Schema

  /**
   * A node id: "doc-<id>" for the current document, "related-<i>" for the
   * i-th related document. The model keeps the tag and the number and
   * renders the text with `IdText`, which is injective (`IdTextInjective`).
   */
  datatype NodeId = CurrentId(documentId: int) | RelatedId(index: nat)

  /** `nodeLabel` is the field `label`, a reserved word in Dafny. */
  datatype GraphNode = GraphNode(id: NodeId, nodeLabel: string, nodeType: string, color: string)

  /** Strengths are exact rationals; the source computes them in floating point. */
  datatype GraphLink = GraphLink(source: NodeId, target: NodeId, strength: real)

  const Indigo: string := "#4f46e5"
  const Cyan: string := "#0891b2"
  const Teal: string := "#0d9488"
  const Violet: string := "#7c3aed"
  const Red: string := "#b91c1c"
  const Gray: string := "#6b7280"

  /** `getColorByType`: a case-insensitive lookup of ten type names into five colours, gray for any other. */
  function ColorByType(docType: string): string
  {
    var t := ToLower(docType);
    if t == "prd" || t == "product requirement" then Indigo
    else if t == "design" || t == "design document" then Cyan
    else if t == "tech spec" || t == "technical specification" then Teal
    else if t == "research" || t == "research document" then Violet
    else if t == "legal" || t == "compliance" then Red
    else Gray
  }

  lemma ColorByTypeCases(docType: string)
    ensures var color := ColorByType(docType);
            var t := ToLower(docType);
            && (color == Indigo <==> t == "prd" || t == "product requirement")
            && (color == Cyan <==> t == "design" || t == "design document")
            && (color == Teal <==> t == "tech spec" || t == "technical specification")
            && (color == Violet <==> t == "research" || t == "research document")
            && (color == Red <==> t == "legal" || t == "compliance")
            && (color == Gray <==> !(t in KnownTypes))
  {
  }

  const KnownTypes: set<string> := {
    "prd", "product requirement", "design", "design document", "tech spec",
    "technical specification", "research", "research document", "legal", "compliance" }

  lemma ColorByTypeIgnoresCase(docType: string)
    ensures ColorByType(ToLower(docType)) == ColorByType(docType)
  {
    ToLowerIdempotent(docType);
  }

  /** "BRD", the type of one of the mock related documents, has no colour of its own. */
  lemma BrdIsGray()
    ensures ColorByType("BRD") == Gray
  {
    var t := ToLower("BRD");
    assert t[0] == LowerChar('B') && t[1] == LowerChar('R') && t[2] == LowerChar('D');
    assert t == "brd";
  }

  /** The id as the source writes it: `doc-${currentDocument.id}` or `related-${index}`. */
  function IdText(id: NodeId): string {
    match id
    case CurrentId(documentId) => "doc-" + IntToString(documentId)
    case RelatedId(index) => "related-" + NatToString(index)
  }

  /** The text of an id starts with `d` for the current document and `r` for a related one. */
  lemma IdTextFirst(id: NodeId)
    ensures |IdText(id)| > 0 && IdText(id)[0] == if id.CurrentId? then 'd' else 'r'
  {
  }

  /** Two ids have the same text exactly when they are the same id. */
  lemma IdTextInjective(a: NodeId, b: NodeId)
    ensures IdText(a) == IdText(b) <==> a == b
  {
    IdTextFirst(a);
    IdTextFirst(b);
    if IdText(a) == IdText(b) {
      var t := IdText(a);
      if a.CurrentId? && b.CurrentId? {
        assert IntToString(a.documentId) == t[4..] == IntToString(b.documentId);
        IntToStringInjective(a.documentId, b.documentId);
      } else if a.RelatedId? && b.RelatedId? {
        assert NatToString(a.index) == t[8..] == NatToString(b.index);
        NatToStringInjective(a.index, b.index);
      }
    }
  }

  /** `getRelationshipStrength`: `Math.min(1, tags.length / 5)`. */
  function RelationshipStrength(tags: seq<string>): (r: real)
    ensures 0.0 <= r <= 1.0
    ensures |tags| >= 5 ==> r == 1.0
    ensures |tags| < 5 ==> r * 5.0 == |tags| as real
  {
    var ratio := |tags| as real / 5.0;
    if ratio < 1.0 then ratio else 1.0
  }

  /** `getSharedTags`: the tags of `a`, in order and with repeats, that also occur in `b` (`a.filter(t => b.includes(t))`). */
  function SharedTags(a: seq<string>, b: seq<string>): seq<string>
    decreases |a|
  {
    if a == [] then [] else (if a[0] in b then [a[0]] else []) + SharedTags(a[1..], b)
  }

  /** A tag is shared exactly when it occurs in both lists. */
  lemma {:induction false} SharedTagsMembers(a: seq<string>, b: seq<string>)
    ensures forall t :: t in SharedTags(a, b) <==> t in a && t in b
    decreases |a|
  {
    if a != [] {
      SharedTagsMembers(a[1..], b);
      assert a == [a[0]] + a[1..];
    }
  }

  /** Each tag of `a` that occurs in `b` is kept as often as it occurs in `a`; the others not at all. */
  lemma {:induction false} SharedTagsCount(a: seq<string>, b: seq<string>, t: string)
    ensures multiset(SharedTags(a, b))[t] == if t in b then multiset(a)[t] else 0
    decreases |a|
  {
    if a != [] {
      SharedTagsCount(a[1..], b, t);
      assert a == [a[0]] + a[1..];
    }
  }

  /** Filtering the concatenation of two tag lists is filtering each and concatenating. */
  lemma {:induction false} SharedTagsAppend(a: seq<string>, a': seq<string>, b: seq<string>)
    ensures SharedTags(a + a', b) == SharedTags(a, b) + SharedTags(a', b)
    decreases |a|
  {
    if a == [] {
      assert a + a' == a';
    } else {
      SharedTagsAppend(a[1..], a', b);
      assert (a + a')[1..] == a[1..] + a';
    }
  }

  /** Two tag lists share a tag exactly when some tag of the first occurs in the second. */
  lemma SharedTagsEmptyIff(a: seq<string>, b: seq<string>)
    ensures SharedTags(a, b) == [] <==> forall i :: 0 <= i < |a| ==> a[i] !in b
  {
    var r := SharedTags(a, b);
    SharedTagsMembers(a, b);
    if r != [] {
      assert r[0] in r;
      var k :| 0 <= k < |a| && a[k] == r[0];
    }
  }

  // ------------------------------------------------------ what the effect computes

  function CurrentNode(document: Document): GraphNode {
    GraphNode(CurrentId(document.id), document.title, "current", Indigo)
  }

  function RelatedNode(related: seq<RelatedDocument>, i: nat): GraphNode
    requires i < |related|
  {
    GraphNode(RelatedId(i), related[i].title, related[i].docType, ColorByType(related[i].docType))
  }

  function CurrentLink(document: Document, related: seq<RelatedDocument>, i: nat): GraphLink
    requires i < |related|
  {
    GraphLink(CurrentId(document.id), RelatedId(i), RelationshipStrength(related[i].tags))
  }

  /** Related documents `i` and `j` share at least one tag. */
  predicate Linked(related: seq<RelatedDocument>, i: nat, j: nat)
    requires i < |related| && j < |related|
  {
    |SharedTags(related[i].tags, related[j].tags)| > 0
  }

  function PairLink(related: seq<RelatedDocument>, i: nat, j: nat): GraphLink
    requires i < |related| && j < |related|
  {
    GraphLink(RelatedId(i), RelatedId(j), |SharedTags(related[i].tags, related[j].tags)| as real / 3.0)
  }

  /** The related nodes pushed by the first `n` rounds of the node loop. */
  function RelatedNodes(related: seq<RelatedDocument>, n: nat): seq<GraphNode>
    requires n <= |related|
  {
    if n == 0 then [] else RelatedNodes(related, n - 1) + [RelatedNode(related, n - 1)]
  }

  /** The current-to-related links pushed by the first `n` rounds of the link loop. */
  function CurrentLinks(document: Document, related: seq<RelatedDocument>, n: nat): seq<GraphLink>
    requires n <= |related|
  {
    if n == 0 then [] else CurrentLinks(document, related, n - 1) + [CurrentLink(document, related, n - 1)]
  }

  /** What round (i, j) of the nested loop pushes: the pair's link when the two share a tag. */
  function PairEntry(related: seq<RelatedDocument>): (nat, nat) -> seq<GraphLink> {
    (i: nat, j: nat) => if i < |related| && j < |related| && Linked(related, i, j) then [PairLink(related, i, j)] else []
  }

  /** The links pushed by the inner loop for row `i` while `j` ran from `i + 1` up to `m`. */
  function RowLinks(related: seq<RelatedDocument>, i: nat, m: nat): seq<GraphLink> {
    RowEntries(i, m, PairEntry(related))
  }

  /** The links pushed by the first `n` rows of the nested loop. */
  function PairLinks(related: seq<RelatedDocument>, n: nat): seq<GraphLink> {
    PairEntries(n, |related|, PairEntry(related))
  }

  function GraphNodes(document: Document, related: seq<RelatedDocument>): seq<GraphNode> {
    [CurrentNode(document)] + RelatedNodes(related, |related|)
  }

  function GraphLinks(document: Document, related: seq<RelatedDocument>): seq<GraphLink> {
    CurrentLinks(document, related, |related|) + PairLinks(related, |related|)
  }

  // ------------------------------------------------------ properties of the graph

  lemma {:induction false} RelatedNodesShape(related: seq<RelatedDocument>, n: nat)
    requires n <= |related|
    ensures |RelatedNodes(related, n)| == n
    ensures forall i :: 0 <= i < n ==> RelatedNodes(related, n)[i] == RelatedNode(related, i)
  {
    if n > 0 {
      RelatedNodesShape(related, n - 1);
    }
  }

  lemma {:induction false} CurrentLinksShape(document: Document, related: seq<RelatedDocument>, n: nat)
    requires n <= |related|
    ensures |CurrentLinks(document, related, n)| == n
    ensures forall i :: 0 <= i < n ==> CurrentLinks(document, related, n)[i] == CurrentLink(document, related, i)
  {
    if n > 0 {
      CurrentLinksShape(document, related, n - 1);
    }
  }

  /**
   * There are n + 1 nodes: the current document first, "doc-<id>" of type
   * "current", then "related-<i>" for each related document in order, with
   * its title, type and colour; no two nodes have the same id.
   */
  lemma GraphNodesShape(document: Document, related: seq<RelatedDocument>)
    ensures var nodes := GraphNodes(document, related);
            && |nodes| == |related| + 1
            && nodes[0] == GraphNode(CurrentId(document.id), document.title, "current", Indigo)
            && (forall i :: 0 <= i < |related| ==> nodes[i + 1] == RelatedNode(related, i))
            && (forall a, b :: 0 <= a < b < |nodes| ==> IdText(nodes[a].id) != IdText(nodes[b].id))
  {
    var nodes := GraphNodes(document, related);
    RelatedNodesShape(related, |related|);
    forall a, b | 0 <= a < b < |nodes| ensures IdText(nodes[a].id) != IdText(nodes[b].id) {
      IdTextInjective(nodes[a].id, nodes[b].id);
    }
  }

  /**
   * The first n links join the current node to each related node in order,
   * with strength min(1, |tags| / 5), which lies in [0, 1].
   */
  lemma CurrentLinksFirst(document: Document, related: seq<RelatedDocument>)
    ensures var links := GraphLinks(document, related);
            && |links| >= |related|
            && links[|related|..] == PairLinks(related, |related|)
            && forall i :: 0 <= i < |related| ==>
                 && links[i] == GraphLink(CurrentId(document.id), RelatedId(i), RelationshipStrength(related[i].tags))
                 && 0.0 <= links[i].strength <= 1.0
  {
    CurrentLinksShape(document, related, |related|);
  }

  /** Every link of the first `n` rows joins a pair i < j, with i below `n`, that shares a tag. */
  lemma PairLinksSound(related: seq<RelatedDocument>, n: nat, l: GraphLink)
    requires l in PairLinks(related, n)
    ensures exists i, j :: 0 <= i < j < |related| && i < n && Linked(related, i, j) && l == PairLink(related, i, j)
  {
    PairEntriesSound(n, |related|, PairEntry(related), l);
    var i: nat, j: nat :| i < j < |related| && i < n && l in PairEntry(related)(i, j);
    assert Linked(related, i, j) && l == PairLink(related, i, j);
  }

  /** The first `n` rows link every pair i < j, with i below `n`, that shares a tag. */
  lemma PairLinksComplete(related: seq<RelatedDocument>, n: nat, i: nat, j: nat)
    requires i < j < |related| && i < n && Linked(related, i, j)
    ensures PairLink(related, i, j) in PairLinks(related, n)
  {
    assert PairLink(related, i, j) in PairEntry(related)(i, j);
    PairEntriesComplete(n, |related|, PairEntry(related), i, j, PairLink(related, i, j));
  }

  /**
   * Among the links after the current ones (see `CurrentLinksFirst`), there is a link from related-i to related-j
   * exactly when i < j and the two share a tag, with strength |shared| / 3.
   */
  lemma PairLinkIff(related: seq<RelatedDocument>, i: nat, j: nat)
    requires i < |related| && j < |related|
    ensures var pairs := PairLinks(related, |related|);
            (exists l :: l in pairs && l.source == RelatedId(i) && l.target == RelatedId(j))
            <==> i < j && Linked(related, i, j)
    ensures var pairs := PairLinks(related, |related|);
            forall l :: l in pairs && l.source == RelatedId(i) && l.target == RelatedId(j) ==>
              l.strength * 3.0 == |SharedTags(related[i].tags, related[j].tags)| as real
  {
    var pairs := PairLinks(related, |related|);
    forall l | l in pairs && l.source == RelatedId(i) && l.target == RelatedId(j)
      ensures i < j && Linked(related, i, j)
      ensures l.strength * 3.0 == |SharedTags(related[i].tags, related[j].tags)| as real
    {
      PairLinksSound(related, |related|, l);
      var i', j' :| 0 <= i' < j' < |related| && Linked(related, i', j') && l == PairLink(related, i', j');
    }
    if i < j && Linked(related, i, j) {
      PairLinksComplete(related, |related|, i, j);
    }
  }

  /** `node === selectedNode ? null : node`. */
  function Toggle(selected: Option<GraphNode>, node: GraphNode): (r: Option<GraphNode>)
    ensures r == None <==> selected == Some(node)
    ensures r != None ==> r == Some(node)
  {
    if selected == Some(node) then None else Some(node)
  }

  /** Clicking the same node twice from no selection comes back to no selection. */
  lemma ToggleTwice(node: GraphNode)
    ensures Toggle(Toggle(None, node), node) == None
  {
  }

  /** The node list: the current document, then one node per related document (`forEach` + `push`). */
  method BuildNodes(currentDocument: Document, relatedDocuments: seq<RelatedDocument>) returns (documentNodes: seq<GraphNode>)
    ensures documentNodes == GraphNodes(currentDocument, relatedDocuments)
  {
    documentNodes := [CurrentNode(currentDocument)];
    var index := 0;
    while index < |relatedDocuments|
      invariant 0 <= index <= |relatedDocuments|
      invariant documentNodes == [CurrentNode(currentDocument)] + RelatedNodes(relatedDocuments, index)
    {
      assert RelatedNodes(relatedDocuments, index + 1) == RelatedNodes(relatedDocuments, index) + [RelatedNode(relatedDocuments, index)];
      documentNodes := documentNodes + [RelatedNode(relatedDocuments, index)];
      index := index + 1;
    }
  }

  /** One link from the current node to each related node (`forEach` + `push`). */
  method BuildCurrentLinks(currentDocument: Document, relatedDocuments: seq<RelatedDocument>) returns (documentLinks: seq<GraphLink>)
    ensures documentLinks == CurrentLinks(currentDocument, relatedDocuments, |relatedDocuments|)
  {
    documentLinks := [];
    var index := 0;
    while index < |relatedDocuments|
      invariant 0 <= index <= |relatedDocuments|
      invariant documentLinks == CurrentLinks(currentDocument, relatedDocuments, index)
    {
      documentLinks := documentLinks + [CurrentLink(currentDocument, relatedDocuments, index)];
      index := index + 1;
    }
  }

  /** The nested `for i, j` loop: a link for every pair i < j that shares a tag. */
  method BuildPairLinks(relatedDocuments: seq<RelatedDocument>) returns (documentLinks: seq<GraphLink>)
    ensures documentLinks == PairLinks(relatedDocuments, |relatedDocuments|)
  {
    documentLinks := [];
    var i := 0;
    while i < |relatedDocuments|
      invariant 0 <= i <= |relatedDocuments|
      invariant documentLinks == PairLinks(relatedDocuments, i)
    {
      var row := BuildRowLinks(relatedDocuments, i);
      documentLinks := documentLinks + row;
      i := i + 1;
    }
  }

  /** One round of the outer loop: the inner loop over j = i + 1 .. n - 1. */
  method BuildRowLinks(relatedDocuments: seq<RelatedDocument>, i: nat) returns (row: seq<GraphLink>)
    requires i < |relatedDocuments|
    ensures row == RowLinks(relatedDocuments, i, |relatedDocuments|)
  {
    row := [];
    var j := i + 1;
    while j < |relatedDocuments|
      invariant i + 1 <= j <= |relatedDocuments|
      invariant row == RowLinks(relatedDocuments, i, j)
    {
      var sharedTags := SharedTags(relatedDocuments[i].tags, relatedDocuments[j].tags);
      if |sharedTags| > 0 {
        row := row + [PairLink(relatedDocuments, i, j)];
      }
      j := j + 1;
    }
  }

  /** The component's state: the computed nodes and links and the selected node. */
  class Graph {
    var nodes: seq<GraphNode>
    var links: seq<GraphLink>
    var selected: Option<GraphNode>

    constructor ()
      ensures nodes == [] && links == [] && selected == None
    {
      nodes := [];
      links := [];
      selected := None;
    }

    /**
     * The effect on `[currentDocument, relatedDocuments]`: with no related
     * documents nothing is recomputed; otherwise the nodes and links are
     * rebuilt as the source's loops build them.
     */
    method Compute(currentDocument: Document, relatedDocuments: seq<RelatedDocument>)
      modifies this
      ensures relatedDocuments == [] ==> nodes == old(nodes) && links == old(links)
      ensures relatedDocuments != [] ==>
                nodes == GraphNodes(currentDocument, relatedDocuments)
                && links == GraphLinks(currentDocument, relatedDocuments)
      ensures selected == old(selected)
    {
      if |relatedDocuments| == 0 {
        return;
      }
      var documentNodes := BuildNodes(currentDocument, relatedDocuments);
      var currentLinks := BuildCurrentLinks(currentDocument, relatedDocuments);
      var pairLinks := BuildPairLinks(relatedDocuments);
      nodes := documentNodes;
      links := currentLinks + pairLinks;
    }

    /** `handleNodeClick`: toggle the selection; the graph itself is untouched. */
    method HandleNodeClick(node: GraphNode)
      modifies this
      ensures selected == Toggle(old(selected), node)
      ensures nodes == old(nodes) && links == old(links)
    {
      selected := if selected == Some(node) then None else Some(node);
    }
  }
}
