// parseDraft after decoding (internal/assist/parse.go): the model's nodes and edges filtered,
// renumbered, deduplicated and capped.
module Draft {
  import opened Common

  datatype WireNode = WireNode(kind: string, name: string, body: string, gmPrivate: bool)
  datatype WireEdge = WireEdge(from: int, to: int, kind: string)
  datatype Wire = Wire(nodes: seq<WireNode>, edges: seq<WireEdge>)

  datatype DraftNode = DraftNode(kind: string, name: string, body: string, gmPrivate: bool)
  datatype DraftEdge = DraftEdge(from: nat, to: nat, kind: string)
  datatype Draft = Draft(nodes: seq<DraftNode>, edges: seq<DraftEdge>)

  const MAX_NODES := 12
  const MAX_EDGES := 24

  // The vocabulary: trimming, lower-casing, the node and relation kinds, and the relation matrix.
  datatype Vocabulary = Vocabulary(trim: string -> string, lower: string -> string, nodeKind: string -> bool,
                                   relation: string -> bool, matrix: (string, string, string) -> bool)
  {
    function Kind(s: string): string { lower(trim(s)) }

    // Normalising twice is normalising once.
    ghost predicate Lawful() {
      (forall s :: trim(trim(s)) == trim(s)) && (forall s :: Kind(Kind(s)) == Kind(s))
    }
  }

  // ---- The specification -------------------------------------------------------------------

  predicate NodeOk(v: Vocabulary, n: WireNode) {
    v.trim(n.name) != "" && v.nodeKind(v.Kind(n.kind))
  }

  function Clean(v: Vocabulary, n: WireNode): DraftNode {
    DraftNode(v.Kind(n.kind), v.trim(n.name), v.trim(n.body), n.gmPrivate)
  }

  // The well-formed nodes, in order.
  function GoodNodes(v: Vocabulary, ns: seq<WireNode>): seq<DraftNode> {
    if ns == [] then []
    else
      var n := ns[|ns| - 1];
      GoodNodes(v, ns[..|ns| - 1]) + (if NodeOk(v, n) then [Clean(v, n)] else [])
  }

  function Cap<T>(s: seq<T>, max: nat): seq<T> {
    if |s| <= max then s else s[..max]
  }

  // Where node i ends up: after the well-formed nodes before it, unless the cap is reached.
  function Place(v: Vocabulary, ns: seq<WireNode>, i: nat): int
    requires i < |ns|
  {
    var before := |GoodNodes(v, ns[..i])|;
    if NodeOk(v, ns[i]) && before < MAX_NODES then before else -1
  }

  function PlaceOf(v: Vocabulary, ns: seq<WireNode>, i: int): int {
    if 0 <= i < |ns| then Place(v, ns, i) else -1
  }

  function KeptNodes(v: Vocabulary, ns: seq<WireNode>): seq<DraftNode> {
    Cap(GoodNodes(v, ns), MAX_NODES)
  }

  // An edge of the vocabulary between two different kept nodes that the matrix allows.
  predicate EdgeOk(v: Vocabulary, ns: seq<WireNode>, e: WireEdge) {
    var from, to := PlaceOf(v, ns, e.from), PlaceOf(v, ns, e.to);
    var kept := KeptNodes(v, ns);
    v.relation(v.Kind(e.kind)) && from != to && 0 <= from < |kept| && 0 <= to < |kept|
    && v.matrix(v.Kind(e.kind), kept[from].kind, kept[to].kind)
  }

  function Moved(v: Vocabulary, ns: seq<WireNode>, e: WireEdge): DraftEdge
    requires EdgeOk(v, ns, e)
  {
    DraftEdge(PlaceOf(v, ns, e.from), PlaceOf(v, ns, e.to), v.Kind(e.kind))
  }

  // The valid edges, renumbered, each the first time it appears.
  function GoodEdges(v: Vocabulary, ns: seq<WireNode>, es: seq<WireEdge>): seq<DraftEdge> {
    if es == [] then []
    else
      var e, before := es[|es| - 1], GoodEdges(v, ns, es[..|es| - 1]);
      if EdgeOk(v, ns, e) && Moved(v, ns, e) !in before then before + [Moved(v, ns, e)] else before
  }

  // The first twelve good nodes and the first twenty-four good edges; nothing without a node.
  function Expected(v: Vocabulary, w: Wire): Option<Draft> {
    if GoodNodes(v, w.nodes) == [] then None
    else Some(Draft(KeptNodes(v, w.nodes), Cap(GoodEdges(v, w.nodes, w.edges), MAX_EDGES)))
  }

  // ---- The loops -----------------------------------------------------------------------------

  // Filter the nodes; remap[i] is node i's index among the kept, -1 when dropped. The break at
  // the cap leaves the tail at its initial -1.
  method FilterNodes(v: Vocabulary, ns: seq<WireNode>) returns (nodes: seq<DraftNode>, remap: seq<int>)
    ensures nodes == KeptNodes(v, ns)
    ensures |remap| == |ns| && forall i :: 0 <= i < |ns| ==> remap[i] == Place(v, ns, i)
  {
    nodes, remap := [], seq(|ns|, _ => -1);
    for i := 0 to |ns|
      invariant |remap| == |ns| && nodes == GoodNodes(v, ns[..i]) && |nodes| <= MAX_NODES
      invariant forall j :: 0 <= j < |ns| ==> remap[j] == if j < i then Place(v, ns, j) else -1
    {
      var n := ns[i];
      assert ns[..i + 1][..i] == ns[..i];
      if v.trim(n.name) == "" || !v.nodeKind(v.Kind(n.kind)) { continue; }
      if |nodes| == MAX_NODES {
        forall j | i <= j < |ns| ensures Place(v, ns, j) == -1 { GoodNodesGrow(v, ns, i, j); }
        GoodNodesGrow(v, ns, i, |ns|);
        assert ns[..|ns|] == ns;
        return;
      }
      remap := remap[i := |nodes|];
      nodes := nodes + [DraftNode(v.Kind(n.kind), v.trim(n.name), v.trim(n.body), n.gmPrivate)];
    }
    assert ns[..|ns|] == ns;
  }

  lemma {:induction false} GoodNodesGrow(v: Vocabulary, ns: seq<WireNode>, i: nat, j: nat)
    requires i <= j <= |ns|
    ensures GoodNodes(v, ns[..i]) <= GoodNodes(v, ns[..j])
  {
    if i < j {
      GoodNodesGrow(v, ns, i, j - 1);
      assert ns[..j][..j - 1] == ns[..j - 1];
    }
  }

  lemma {:induction false} GoodEdgesGrow(v: Vocabulary, ns: seq<WireNode>, es: seq<WireEdge>, i: nat, j: nat)
    requires i <= j <= |es|
    ensures GoodEdges(v, ns, es[..i]) <= GoodEdges(v, ns, es[..j])
  {
    hide EdgeOk, Moved;
    if i < j {
      GoodEdgesGrow(v, ns, es, i, j - 1);
      assert es[..j][..j - 1] == es[..j - 1];
    }
  }

  method FilterEdges(v: Vocabulary, ns: seq<WireNode>, nodes: seq<DraftNode>, remap: seq<int>, es: seq<WireEdge>) returns (edges: seq<DraftEdge>)
    requires nodes == KeptNodes(v, ns) && |remap| == |ns| && forall i :: 0 <= i < |ns| ==> remap[i] == Place(v, ns, i)
    ensures edges == Cap(GoodEdges(v, ns, es), MAX_EDGES)
  {
    edges := [];
    var seen: set<DraftEdge> := {};
    for i := 0 to |es|
      invariant edges == GoodEdges(v, ns, es[..i]) && |edges| <= MAX_EDGES
      invariant seen == set e | e in edges
    {
      if |edges| == MAX_EDGES {
        GoodEdgesGrow(v, ns, es, i, |es|);
        assert es[..|es|] == es;
        return;
      }
      assert es[..i + 1][..i] == es[..i];
      var e := es[i];
      var kind := v.Kind(e.kind);
      if !v.relation(kind) { continue; }
      if e.from < 0 || e.from >= |remap| || e.to < 0 || e.to >= |remap| { continue; }
      var from, to := remap[e.from], remap[e.to];
      if from < 0 || to < 0 || from == to { continue; }
      PlaceIsKept(v, ns, e.from);
      PlaceIsKept(v, ns, e.to);
      if !v.matrix(kind, nodes[from].kind, nodes[to].kind) { continue; }
      var key := DraftEdge(from, to, kind);
      if key in seen { continue; }
      seen := seen + {key};
      edges := edges + [key];
    }
    assert es[..|es|] == es;
  }

  method ValidateDraft(v: Vocabulary, w: Wire) returns (d: Option<Draft>)
    ensures d == Expected(v, w)
  {
    var nodes, remap := FilterNodes(v, w.nodes);
    if |nodes| == 0 { return None; }
    var edges := FilterEdges(v, w.nodes, nodes, remap, w.edges);
    d := Some(Draft(nodes, edges));
  }

  // ---- What a validated draft is ---------------------------------------------------------------

  // A good node has a name, and a kind of the vocabulary, in lower case and trimmed.
  predicate Good(v: Vocabulary, n: WireNode) {
    v.trim(n.name) != "" && v.nodeKind(v.lower(v.trim(n.kind)))
  }

  // The good nodes among the first i.
  function GoodBelow(v: Vocabulary, ns: seq<WireNode>, i: nat): set<int>
    requires i <= |ns|
  {
    set j | 0 <= j < i && Good(v, ns[j])
  }

  // A node is placed, after the good ones before it, when it is one of the first twelve.
  lemma PlacedExactly(v: Vocabulary, ns: seq<WireNode>, i: nat)
    requires i < |ns|
    ensures var before := |GoodBelow(v, ns, i)|;
            Place(v, ns, i) == if Good(v, ns[i]) && before < 12 then before else -1
  {
    hide GoodBelow;
    GoodBefore(v, ns, i);
  }

  lemma OneMoreGood(v: Vocabulary, ns: seq<WireNode>, i: nat)
    requires i < |ns|
    ensures |GoodBelow(v, ns, i + 1)| == |GoodBelow(v, ns, i)| + if Good(v, ns[i]) then 1 else 0
  {
    hide Good;
    assert GoodBelow(v, ns, i + 1) == GoodBelow(v, ns, i) + if Good(v, ns[i]) then {i as int} else {};
  }

  lemma {:induction false} GoodBefore(v: Vocabulary, ns: seq<WireNode>, i: nat)
    requires i <= |ns|
    ensures |GoodNodes(v, ns[..i])| == |GoodBelow(v, ns, i)|
  {
    if i > 0 {
      GoodBefore(v, ns, i - 1);
      OneMoreGood(v, ns, i - 1);
      assert ns[..i][..i - 1] == ns[..i - 1];
    }
  }

  // A placed node is kept, cleaned, at its place.
  lemma PlaceIsKept(v: Vocabulary, ns: seq<WireNode>, i: nat)
    requires i < |ns| && Place(v, ns, i) >= 0
    ensures Place(v, ns, i) < |KeptNodes(v, ns)| && KeptNodes(v, ns)[Place(v, ns, i)] == Clean(v, ns[i])
    ensures Clean(v, ns[i]) == DraftNode(v.lower(v.trim(ns[i].kind)), v.trim(ns[i].name), v.trim(ns[i].body), ns[i].gmPrivate)
  {
    GoodNodesGrow(v, ns, i + 1, |ns|);
    assert ns[..|ns|] == ns && ns[..i + 1][..i] == ns[..i];
  }

  // Places are an order-preserving injection of the placed nodes onto the kept ones.
  lemma PlacesKeepOrder(v: Vocabulary, ns: seq<WireNode>, i: nat, j: nat)
    requires i < j < |ns| && Place(v, ns, i) >= 0 && Place(v, ns, j) >= 0
    ensures Place(v, ns, i) < Place(v, ns, j)
  {
    GoodNodesGrow(v, ns, i + 1, j);
    assert ns[..i + 1][..i] == ns[..i];
  }

  lemma {:induction false} EveryKeptNodeHasAPlace(v: Vocabulary, ns: seq<WireNode>, n: nat, p: nat)
    requires n <= |ns| && p < |GoodNodes(v, ns[..n])| && p < MAX_NODES
    ensures exists i: nat :: i < n && Place(v, ns, i) == p
  {
    assert ns[..n][..n - 1] == ns[..n - 1];
    if p < |GoodNodes(v, ns[..n - 1])| {
      EveryKeptNodeHasAPlace(v, ns, n - 1, p);
    } else {
      assert Place(v, ns, n - 1) == p;
    }
  }

  // Sound edges: in range, between different nodes, allowed by the matrix.
  ghost predicate EdgeSound(v: Vocabulary, nodes: seq<DraftNode>, e: DraftEdge) {
    e.from != e.to && e.from < |nodes| && e.to < |nodes| && v.relation(e.kind) && v.matrix(e.kind, nodes[e.from].kind, nodes[e.to].kind)
  }

  ghost predicate DraftSound(v: Vocabulary, d: Draft) {
    && 0 < |d.nodes| <= 12 && |d.edges| <= 24
    && (forall i :: 0 <= i < |d.nodes| ==> d.nodes[i].name != "" && v.nodeKind(d.nodes[i].kind))
    && (forall i :: 0 <= i < |d.edges| ==> EdgeSound(v, d.nodes, d.edges[i]))
    && (forall i, j :: 0 <= i < j < |d.edges| ==> d.edges[i] != d.edges[j])
  }

  lemma {:induction false} GoodNodesSound(v: Vocabulary, ns: seq<WireNode>)
    ensures forall i :: 0 <= i < |GoodNodes(v, ns)| ==> GoodNodes(v, ns)[i].name != "" && v.nodeKind(GoodNodes(v, ns)[i].kind)
  {
    if ns != [] { GoodNodesSound(v, ns[..|ns| - 1]); }
  }

  lemma {:induction false} GoodEdgesSound(v: Vocabulary, ns: seq<WireNode>, es: seq<WireEdge>)
    ensures forall i :: 0 <= i < |GoodEdges(v, ns, es)| ==> EdgeSound(v, KeptNodes(v, ns), GoodEdges(v, ns, es)[i])
    ensures forall i, j :: 0 <= i < j < |GoodEdges(v, ns, es)| ==> GoodEdges(v, ns, es)[i] != GoodEdges(v, ns, es)[j]
  {
    if es != [] { GoodEdgesSound(v, ns, es[..|es| - 1]); }
  }

  lemma DraftIsSound(v: Vocabulary, w: Wire)
    requires Expected(v, w).Some?
    ensures DraftSound(v, Expected(v, w).value)
  {
    GoodNodesSound(v, w.nodes);
    GoodEdgesSound(v, w.nodes, w.edges);
  }

  // No valid edge is lost but to the cap.
  lemma {:induction false} EveryGoodEdgeIsKept(v: Vocabulary, ns: seq<WireNode>, es: seq<WireEdge>, i: nat)
    requires i < |es| && EdgeOk(v, ns, es[i])
    ensures Moved(v, ns, es[i]) in GoodEdges(v, ns, es)
  {
    if i < |es| - 1 {
      var front := es[..|es| - 1];
      EveryGoodEdgeIsKept(v, ns, front, i);
    }
  }

  // An edge between two different placed nodes, of a relation the matrix allows between their
  // kinds, is in the draft whenever the good edges are no more than twenty-four.
  lemma EveryAllowedEdgeIsInTheDraft(v: Vocabulary, w: Wire, i: nat)
    requires i < |w.edges| && |GoodEdges(v, w.nodes, w.edges)| <= 24
    requires var e := w.edges[i];
             && 0 <= e.from < |w.nodes| && 0 <= e.to < |w.nodes| && e.from != e.to
             && Place(v, w.nodes, e.from) >= 0 && Place(v, w.nodes, e.to) >= 0 && v.relation(v.lower(v.trim(e.kind)))
             && v.matrix(v.lower(v.trim(e.kind)), v.lower(v.trim(w.nodes[e.from].kind)), v.lower(v.trim(w.nodes[e.to].kind)))
    ensures var e := w.edges[i];
            Expected(v, w).Some?
            && DraftEdge(Place(v, w.nodes, e.from), Place(v, w.nodes, e.to), v.lower(v.trim(e.kind))) in Expected(v, w).value.edges
  {
    var e := w.edges[i];
    PlaceIsKept(v, w.nodes, e.from);
    PlaceIsKept(v, w.nodes, e.to);
    if e.from < e.to { PlacesKeepOrder(v, w.nodes, e.from, e.to); } else { PlacesKeepOrder(v, w.nodes, e.to, e.from); }
    EveryGoodEdgeIsKept(v, w.nodes, w.edges, i);
  }

  // There is no draft only when no node is good.
  lemma NothingOnlyOfNothing(v: Vocabulary, w: Wire)
    ensures Expected(v, w).None? <==> forall j :: 0 <= j < |w.nodes| ==> !Good(v, w.nodes[j])
  {
    GoodBefore(v, w.nodes, |w.nodes|);
    assert w.nodes[..|w.nodes|] == w.nodes;
    var good := GoodBelow(v, w.nodes, |w.nodes|);
    if j :| 0 <= j < |w.nodes| && Good(v, w.nodes[j]) {
      assert j in good;
    } else {
      assert good == {};
    }
  }

  // ---- Validating twice -------------------------------------------------------------------------

  function Rewired(d: Draft): Wire {
    Wire(seq(|d.nodes|, i requires 0 <= i < |d.nodes| => var n := d.nodes[i]; WireNode(n.kind, n.name, n.body, n.gmPrivate)),
         seq(|d.edges|, i requires 0 <= i < |d.edges| => var e := d.edges[i]; WireEdge(e.from, e.to, e.kind)))
  }

  // A node that cleaning does not change.
  ghost predicate Normal(v: Vocabulary, n: DraftNode) {
    v.Kind(n.kind) == n.kind && v.trim(n.name) == n.name && v.trim(n.body) == n.body
  }

  lemma {:induction false} GoodNodesNormal(v: Vocabulary, ns: seq<WireNode>)
    requires v.Lawful()
    ensures forall i :: 0 <= i < |GoodNodes(v, ns)| ==> Normal(v, GoodNodes(v, ns)[i])
  {
    if ns != [] { GoodNodesNormal(v, ns[..|ns| - 1]); }
  }

  lemma {:induction false} GoodEdgesNormal(v: Vocabulary, ns: seq<WireNode>, es: seq<WireEdge>)
    requires v.Lawful()
    ensures forall i :: 0 <= i < |GoodEdges(v, ns, es)| ==> v.Kind(GoodEdges(v, ns, es)[i].kind) == GoodEdges(v, ns, es)[i].kind
  {
    if es != [] { GoodEdgesNormal(v, ns, es[..|es| - 1]); }
  }

  lemma {:induction false} NodesAgain(v: Vocabulary, d: Draft, n: nat)
    requires n <= |d.nodes| && forall i :: 0 <= i < |d.nodes| ==> d.nodes[i].name != "" && v.nodeKind(d.nodes[i].kind) && Normal(v, d.nodes[i])
    ensures GoodNodes(v, Rewired(d).nodes[..n]) == d.nodes[..n]
  {
    var ns := Rewired(d).nodes;
    if n > 0 {
      NodesAgain(v, d, n - 1);
      assert ns[..n][..n - 1] == ns[..n - 1];
      assert Clean(v, ns[n - 1]) == d.nodes[n - 1];
    }
  }

  lemma {:induction false} EdgesAgain(v: Vocabulary, d: Draft, n: nat)
    requires DraftSound(v, d) && n <= |d.edges|
    requires forall i :: 0 <= i < |d.nodes| ==> Normal(v, d.nodes[i])
    requires forall i :: 0 <= i < |d.edges| ==> v.Kind(d.edges[i].kind) == d.edges[i].kind
    ensures GoodEdges(v, Rewired(d).nodes, Rewired(d).edges[..n]) == d.edges[..n]
  {
    hide EdgeOk, Moved, EdgeSound;
    var w := Rewired(d);
    if n > 0 {
      EdgesAgain(v, d, n - 1);
      assert w.edges[..n][..n - 1] == w.edges[..n - 1];
      EdgeAgain(v, d, n - 1);
    }
  }

  lemma EdgeAgain(v: Vocabulary, d: Draft, i: nat)
    requires DraftSound(v, d) && i < |d.edges| && v.Kind(d.edges[i].kind) == d.edges[i].kind
    requires forall j :: 0 <= j < |d.nodes| ==> Normal(v, d.nodes[j])
    ensures EdgeOk(v, Rewired(d).nodes, Rewired(d).edges[i]) && Moved(v, Rewired(d).nodes, Rewired(d).edges[i]) == d.edges[i]
  {
    var w, e := Rewired(d), d.edges[i];
    NodesAgain(v, d, |d.nodes|);
    assert w.nodes[..|w.nodes|] == w.nodes && d.nodes[..|d.nodes|] == d.nodes;
    assert EdgeSound(v, d.nodes, e);
    NodesAgain(v, d, e.from);
    NodesAgain(v, d, e.to);
  }

  // Validating a validated draft gives it back.
  lemma ValidatingTwiceIsOnce(v: Vocabulary, w: Wire)
    requires v.Lawful() && Expected(v, w).Some?
    ensures Expected(v, Rewired(Expected(v, w).value)) == Expected(v, w)
  {
    var d := Expected(v, w).value;
    var again := Rewired(d);
    DraftIsSound(v, w);
    GoodNodesNormal(v, w.nodes);
    GoodEdgesNormal(v, w.nodes, w.edges);
    NodesAgain(v, d, |d.nodes|);
    EdgesAgain(v, d, |d.edges|);
    assert again.nodes[..|again.nodes|] == again.nodes && again.edges[..|again.edges|] == again.edges;
    assert d.nodes[..|d.nodes|] == d.nodes && d.edges[..|d.edges|] == d.edges;
  }
}
