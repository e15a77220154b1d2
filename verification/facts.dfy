// The fact block of a prompt (internal/kgfacts/kgfacts.go): nodes rendered as facts within per-fact and
// whole-block budgets. Text is a sequence of runes; the block is measured in bytes.
module Facts {
  import opened Common

  type Id = nat
  datatype Aspect = Aspect(key: string, value: string, gmPrivate: bool)
  datatype Node = Node(id: Id, kind: string, name: string, body: string, aspects: seq<Aspect>, note: string, disposition: int)

  // Trimming, the label of a node kind, the generated disposition clause, and a rune's width
  // in bytes.
  datatype Renderer = Renderer(trim: string -> string, kindLabel: string -> string, clause: (int, string) -> string, width: char -> nat)

  const MAX_FACTS := 20
  const MAX_FACT_CHARS := 500
  const MAX_NAME_CHARS := 200
  const MAX_RELATION_CHARS := 120
  const MAX_BLOCK_CHARS := 4000
  const HEADER := "## What you know about the world"
  const JOIN := "\n\n"
  const SEP := "\n\n"
  const ELLIPSIS := "\U{2026}"

  // What is left for the two sides, and the part of it reserved for the body: two fifths,
  // rounded down.
  const BUDGET := MAX_FACT_CHARS - |SEP|
  const BODY_SHARE := BUDGET * 4 / 10
  const ASPECT_SHARE := BUDGET - BODY_SHARE

  // ---- Cutting ------------------------------------------------------------------------------

  // Cut to max runes and mark the cut: one rune more than max when cut.
  function TruncateRunes(s: string, max: int): (r: string)
    ensures max > 0 ==> |r| <= max + 1 && (|s| <= max ==> r == s) && (|s| > max ==> r == s[..max] + ['\U{2026}'])
  {
    if max <= 0 || |s| <= max then s else s[..max] + ELLIPSIS
  }

  // Cut to max runes, the mark included.
  function FitRunes(s: string, max: int): (r: string)
    ensures max > 0 ==> |r| == (if |s| <= max then |s| else max) && (|s| <= max ==> r == s)
    ensures (1 < max < |s| ==> r == s[..max - 1] + ['\U{2026}']) && (1 == max < |s| ==> r == s[..1]) && (max <= 0 ==> r == "")
  {
    if max <= 0 then "" else if |s| <= max then s else if max == 1 then s[..1] else s[..max - 1] + ELLIPSIS
  }

  // ---- One fact -----------------------------------------------------------------------------

  predicate Shown(d: Renderer, a: Aspect) {
    !a.gmPrivate && !(d.trim(a.key) == "" && d.trim(a.value) == "")
  }

  function AspectLine(d: Renderer, a: Aspect): string {
    var key, value := d.trim(a.key), d.trim(a.value);
    if key == "" then "- " + value else if value == "" then "- " + key else "- " + key + ": " + value
  }

  function AddLine(text: string, line: string): string {
    if text == "" then line else text + "\n" + line
  }

  // The lines of the public aspects.
  function AspectLines(d: Renderer, xs: seq<Aspect>): string {
    if xs == [] then ""
    else
      var rest, a := AspectLines(d, xs[..|xs| - 1]), xs[|xs| - 1];
      if Shown(d, a) then AddLine(rest, AspectLine(d, a)) else rest
  }

  function RelationClause(d: Renderer, n: Node): string {
    var note := d.trim(n.note);
    if note != "" then TruncateRunes(note, MAX_RELATION_CHARS)
    else TruncateRunes(d.clause(n.disposition, d.trim(n.name)), MAX_RELATION_CHARS)
  }

  // The aspect side: the public aspects and the relation.
  function AspectSide(d: Renderer, n: Node): string {
    var lines, rel := AspectLines(d, n.aspects), RelationClause(d, n);
    if rel == "" then lines else AddLine(lines, "- " + rel)
  }

  // How the budget is split when the two sides overrun it.
  function Shares(aspects: nat, body: nat): (int, int) {
    if body < BODY_SHARE then (ASPECT_SHARE + (BODY_SHARE - body), body)
    else if aspects < ASPECT_SHARE then (aspects, BODY_SHARE + (ASPECT_SHARE - aspects))
    else (ASPECT_SHARE, BODY_SHARE)
  }

  function Composed(aspects: string, body: string): string {
    if body == "" then TruncateRunes(aspects, MAX_FACT_CHARS)
    else if aspects == "" then TruncateRunes(body, MAX_FACT_CHARS)
    else if |aspects| + |body| + |SEP| <= MAX_FACT_CHARS then aspects + SEP + body
    else
      var (a, b) := Shares(|aspects|, |body|);
      FitRunes(aspects, a) + SEP + FitRunes(body, b)
  }

  function Content(d: Renderer, n: Node): string {
    Composed(AspectSide(d, n), d.trim(n.body))
  }

  function Head(d: Renderer, n: Node): string {
    "### " + TruncateRunes(n.name, MAX_NAME_CHARS) + " (" + d.kindLabel(n.kind) + ")"
  }

  function Fact(d: Renderer, n: Node): string {
    if Content(d, n) == "" then Head(d, n) else Head(d, n) + "\n" + Content(d, n)
  }

  // The aspect side, built line by line.
  method BuildAspects(d: Renderer, n: Node) returns (b: string)
    ensures b == AspectSide(d, n)
  {
    b := "";
    for i := 0 to |n.aspects|
      invariant b == AspectLines(d, n.aspects[..i])
    {
      assert n.aspects[..i + 1][..i] == n.aspects[..i];
      var a := n.aspects[i];
      if a.gmPrivate { continue; }
      var key, value := d.trim(a.key), d.trim(a.value);
      if key == "" && value == "" { continue; }
      var line := "- ";
      if key == "" {
        line := line + value;
      } else if value == "" {
        line := line + key;
      } else {
        line := line + key + ": " + value;
      }
      if |b| > 0 { b := b + "\n"; }
      b := b + line;
    }
    assert n.aspects[..|n.aspects|] == n.aspects;
    var rel := RelationClause(d, n);
    if rel != "" {
      if |b| > 0 { b := b + "\n"; }
      b := b + ("- " + rel);
    }
  }

  method ComposeContent(d: Renderer, n: Node) returns (content: string)
    ensures content == Content(d, n)
  {
    hide AspectSide;
    var aspects := BuildAspects(d, n);
    var body := d.trim(n.body);
    if body == "" { return TruncateRunes(aspects, MAX_FACT_CHARS); }
    if aspects == "" { return TruncateRunes(body, MAX_FACT_CHARS); }
    if |aspects| + |body| + |SEP| <= MAX_FACT_CHARS { return aspects + SEP + body; }
    var bodyShare := BODY_SHARE;
    var aspectShare := BUDGET - bodyShare;
    if |body| < bodyShare {
      aspectShare := aspectShare + (bodyShare - |body|);
      bodyShare := |body|;
    } else if |aspects| < aspectShare {
      bodyShare := bodyShare + (aspectShare - |aspects|);
      aspectShare := |aspects|;
    }
    content := FitRunes(aspects, aspectShare) + SEP + FitRunes(body, bodyShare);
  }

  // An over-budget pair fills the budget exactly, and each side keeps its own length or its
  // share, 299 runes of the aspects and 199 of the body.
  lemma OverBudgetFillsTheBudget(aspects: string, body: string)
    requires aspects != "" && body != "" && |aspects| + |body| + 2 > 500
    ensures |Composed(aspects, body)| == 500
    ensures var (a, b) := Shares(|aspects|, |body|);
            && Composed(aspects, body) == FitRunes(aspects, a) + "\n\n" + FitRunes(body, b)
            && (|aspects| <= 299 ==> FitRunes(aspects, a) == aspects) && (|aspects| >= 299 ==> |FitRunes(aspects, a)| >= 299)
            && (|body| <= 199 ==> FitRunes(body, b) == body) && (|body| >= 199 ==> |FitRunes(body, b)| >= 199)
  {
  }

  // The budget is overshot, by the mark alone, exactly when one side is empty and the other is cut.
  lemma ContentIsBounded(aspects: string, body: string)
    ensures |Composed(aspects, body)| <= MAX_FACT_CHARS + 1
    ensures |Composed(aspects, body)| > MAX_FACT_CHARS <==>
              (body == "" && |aspects| > MAX_FACT_CHARS) || (aspects == "" && |body| > MAX_FACT_CHARS)
  {
    if aspects != "" && body != "" && |aspects| + |body| + |SEP| > MAX_FACT_CHARS { OverBudgetFillsTheBudget(aspects, body); }
  }

  function Public(xs: seq<Aspect>): seq<Aspect> {
    if xs == [] then []
    else Public(xs[..|xs| - 1]) + (if xs[|xs| - 1].gmPrivate then [] else [xs[|xs| - 1]])
  }

  lemma {:induction false} PublicLines(d: Renderer, xs: seq<Aspect>)
    ensures AspectLines(d, Public(xs)) == AspectLines(d, xs)
  {
    if xs != [] {
      var front := xs[..|xs| - 1];
      PublicLines(d, front);
      if xs[|xs| - 1].gmPrivate {
        assert Public(xs) == Public(front);
      } else {
        assert Public(xs)[..|Public(xs)| - 1] == Public(front);
      }
    }
  }

  // A fact says nothing of the private aspects.
  lemma PrivateAspectsAreNeverRendered(d: Renderer, n: Node, m: Node)
    requires m == n.(aspects := m.aspects) && Public(m.aspects) == Public(n.aspects)
    ensures Fact(d, m) == Fact(d, n)
  {
    PublicLines(d, n.aspects);
    PublicLines(d, m.aspects);
  }

  // The lines a node's public aspects and its relation come to, in order.
  function LinesFrom(d: Renderer, xs: seq<Aspect>, rel: string): seq<string> {
    if xs == [] then (if rel == "" then [] else ["- " + rel])
    else
      var key, value := d.trim(xs[0].key), d.trim(xs[0].value);
      var line :=
        if xs[0].gmPrivate || (key == "" && value == "") then []
        else if key == "" then ["- " + value]
        else if value == "" then ["- " + key]
        else ["- " + key + ": " + value];
      line + LinesFrom(d, xs[1..], rel)
  }

  function Lined(lines: seq<string>): string {
    if lines == [] then "" else if |lines| == 1 then lines[0] else Lined(lines[..|lines| - 1]) + "\n" + lines[|lines| - 1]
  }

  lemma {:induction false} LinesSplit(d: Renderer, xs: seq<Aspect>, rel: string)
    ensures LinesFrom(d, xs, rel) == LinesFrom(d, xs, "") + (if rel == "" then [] else ["- " + rel])
    ensures forall k :: 0 <= k < |LinesFrom(d, xs, rel)| ==> LinesFrom(d, xs, rel)[k] != ""
  {
    if xs != [] { LinesSplit(d, xs[1..], rel); }
  }

  lemma {:induction false} OneMoreAspect(d: Renderer, xs: seq<Aspect>, a: Aspect)
    ensures LinesFrom(d, xs + [a], "") == LinesFrom(d, xs, "") + if Shown(d, a) then [AspectLine(d, a)] else []
  {
    if xs == [] {
      assert [] + [a] == [a] && [a][1..] == [];
    } else {
      OneMoreAspect(d, xs[1..], a);
      assert (xs + [a])[1..] == xs[1..] + [a];
    }
  }

  lemma LinedOneMore(lines: seq<string>, line: string)
    requires forall k :: 0 <= k < |lines| ==> lines[k] != ""
    ensures Lined(lines + [line]) == AddLine(Lined(lines), line)
  {
    assert (lines + [line])[..|lines|] == lines;
    if |lines| > 0 { assert Lined(lines) != ""; }
  }

  lemma {:induction false} AspectLinesAre(d: Renderer, xs: seq<Aspect>)
    ensures AspectLines(d, xs) == Lined(LinesFrom(d, xs, ""))
  {
    hide Lined, AspectLine, Shown, AddLine;
    if xs == [] {
      LinedNothing();
    } else {
      var front, a := xs[..|xs| - 1], xs[|xs| - 1];
      assert xs == front + [a];
      AspectLinesAre(d, front);
      OneMoreAspect(d, front, a);
      LinesSplit(d, front, "");
      LinedOneMore(LinesFrom(d, front, ""), AspectLine(d, a));
      assert LinesFrom(d, front, "") + [] == LinesFrom(d, front, "");
    }
  }

  lemma LinedNothing()
    ensures Lined([]) == ""
  {
  }

  // A fact within its budgets says all there is, under its heading: each public aspect and the
  // relation on a line of its own, then, after an empty line, the body.
  lemma UncutFactSaysAll(d: Renderer, n: Node)
    requires |n.name| <= 200
    requires var rel := if d.trim(n.note) != "" then d.trim(n.note) else d.clause(n.disposition, d.trim(n.name));
             |rel| <= 120 && |Lined(LinesFrom(d, n.aspects, rel))| + |d.trim(n.body)| + 2 <= 500
    ensures var rel := if d.trim(n.note) != "" then d.trim(n.note) else d.clause(n.disposition, d.trim(n.name));
            var lines, body, head := Lined(LinesFrom(d, n.aspects, rel)), d.trim(n.body), "### " + n.name + " (" + d.kindLabel(n.kind) + ")";
            Fact(d, n) == if lines == "" && body == "" then head
                          else if body == "" then head + "\n" + lines
                          else if lines == "" then head + "\n" + body
                          else head + "\n" + lines + "\n\n" + body
  {
    hide LinesFrom, Lined, AspectLines;
    var rel := RelationClause(d, n);
    AspectLinesAre(d, n.aspects);
    LinesSplit(d, n.aspects, rel);
    LinesSplit(d, n.aspects, "");
    LinedOneMore(LinesFrom(d, n.aspects, ""), "- " + rel);
    assert AspectSide(d, n) == Lined(LinesFrom(d, n.aspects, rel));
  }

  // ---- The block -----------------------------------------------------------------------------

  function Bytes(d: Renderer, s: string): nat {
    if s == "" then 0 else Bytes(d, s[..|s| - 1]) + d.width(s[|s| - 1])
  }

  // The length of the block with the first n facts.
  function BlockBytes(d: Renderer, nodes: seq<Node>, n: nat): nat
    requires n <= |nodes|
  {
    if n == 0 then Bytes(d, HEADER) else BlockBytes(d, nodes, n - 1) + (Bytes(d, JOIN) + Bytes(d, Fact(d, nodes[n - 1])))
  }

  // The block itself: the header, then every fact after an empty line.
  function Assembled(facts: seq<string>): string {
    if facts == [] then "## What you know about the world" else Assembled(facts[..|facts| - 1]) + "\n\n" + facts[|facts| - 1]
  }

  // Bytes are the widths of the runes, added up.
  lemma {:induction false} BytesAdd(d: Renderer, a: string, b: string)
    ensures Bytes(d, a + b) == Bytes(d, a) + Bytes(d, b)
    ensures forall c :: Bytes(d, [c]) == d.width(c)
  {
    forall c ensures Bytes(d, [c]) == d.width(c) { assert [c][..0] == ""; }
    if b == "" {
      assert a + b == a;
    } else {
      BytesAdd(d, a, b[..|b| - 1]);
      assert (a + b)[..|a + b| - 1] == a + b[..|b| - 1];
    }
  }

  lemma {:induction false} BlockIsMeasured(d: Renderer, nodes: seq<Node>, n: nat)
    requires n <= |nodes|
    ensures BlockBytes(d, nodes, n) == Bytes(d, Assembled(FactsOf(d, nodes[..n])))
  {
    hide Fact, Bytes;
    if n > 0 {
      BlockIsMeasured(d, nodes, n - 1);
      var before, fact := FactsOf(d, nodes[..n - 1]), Fact(d, nodes[n - 1]);
      assert FactsOf(d, nodes[..n])[..n - 1] == before;
      BytesAdd(d, Assembled(before) + "\n\n", fact);
      BytesAdd(d, Assembled(before), "\n\n");
    }
  }

  predicate Fits(d: Renderer, nodes: seq<Node>, n: nat)
    requires n <= |nodes|
  {
    n <= MAX_FACTS && (n == 0 || BlockBytes(d, nodes, n) <= MAX_BLOCK_CHARS)
  }

  // The caps: twenty facts, and four thousand bytes of block.
  lemma FitsExactly(d: Renderer, nodes: seq<Node>, n: nat)
    requires n <= |nodes|
    ensures Fits(d, nodes, n) <==> n <= 20 && (n == 0 || Bytes(d, Assembled(FactsOf(d, nodes[..n]))) <= 4000)
  {
    BlockIsMeasured(d, nodes, n);
  }

  function CutLine(s: string): Option<string> {
    if s == "" then None else if s[0] == '\n' then Some(s[1..]) else CutLine(s[1..])
  }

  // Anything beyond the header line.
  predicate HasContent(d: Renderer, fact: string) {
    var rest := CutLine(fact);
    rest.Some? && d.trim(rest.value) != ""
  }

  // Content is what follows the first line break, unless that is blank.
  lemma {:induction false} HasContentExactly(d: Renderer, fact: string)
    ensures HasContent(d, fact) <==>
              exists k :: 0 <= k < |fact| && fact[k] == '\n' && '\n' !in fact[..k] && d.trim(fact[k + 1..]) != ""
  {
    CutLineExactly(fact);
    if HasContent(d, fact) {
      var k := |fact| - 1 - |CutLine(fact).value|;
      assert fact[k] == '\n' && fact[k + 1..] == CutLine(fact).value;
    }
  }

  lemma {:induction false} CutLineExactly(fact: string)
    ensures CutLine(fact).None? <==> '\n' !in fact
    ensures CutLine(fact).Some? ==>
              var k := |fact| - 1 - |CutLine(fact).value|; 0 <= k && fact[k] == '\n' && '\n' !in fact[..k] && fact[k + 1..] == CutLine(fact).value
    ensures forall k :: 0 <= k < |fact| && fact[k] == '\n' && '\n' !in fact[..k] ==> CutLine(fact) == Some(fact[k + 1..])
  {
    if fact != "" && fact[0] != '\n' {
      CutLineExactly(fact[1..]);
      forall k | 0 <= k < |fact| && fact[k] == '\n' && '\n' !in fact[..k] ensures CutLine(fact) == Some(fact[k + 1..]) {
        assert fact[1..][k - 1] == '\n' && fact[1..][..k - 1] == fact[..k][1..] && fact[1..][k..] == fact[k + 1..];
      }
    }
  }

  function CountContent(d: Renderer, facts: seq<string>): nat {
    if facts == [] then 0 else CountContent(d, facts[..|facts| - 1]) + (if HasContent(d, facts[|facts| - 1]) then 1 else 0)
  }

  lemma {:induction false} CountIs(d: Renderer, facts: seq<string>)
    ensures CountContent(d, facts) == |set i | 0 <= i < |facts| && HasContent(d, facts[i])|
  {
    if facts != [] {
      var n := |facts| - 1;
      var front := facts[..n];
      CountIs(d, front);
      var had := set i | 0 <= i < |front| && HasContent(d, front[i]);
      assert (set i | 0 <= i < |facts| && HasContent(d, facts[i])) == had + if HasContent(d, facts[n]) then {n} else {};
    }
  }

  datatype Preview = Preview(facts: seq<string>, included: seq<Id>, dropped: seq<Id>, chars: nat, truncated: bool, contentFacts: nat)

  function Ids(nodes: seq<Node>): seq<Id> { seq(|nodes|, i requires 0 <= i < |nodes| => nodes[i].id) }

  function FactsOf(d: Renderer, nodes: seq<Node>): seq<string> { seq(|nodes|, i requires 0 <= i < |nodes| => Fact(d, nodes[i])) }

  // The preview that keeps the first n nodes.
  ghost predicate Keeps(d: Renderer, nodes: seq<Node>, n: nat, p: Preview)
    requires n <= |nodes|
  {
    && p.facts == FactsOf(d, nodes[..n]) && p.included == Ids(nodes[..n]) && p.dropped == Ids(nodes[n..])
    && p.chars == (if n > 0 then BlockBytes(d, nodes, n) else 0)
    && p.truncated == (n < |nodes|) && p.contentFacts == CountContent(d, p.facts)
  }

  method CountContentFacts(d: Renderer, facts: seq<string>) returns (contentFacts: nat)
    ensures contentFacts == CountContent(d, facts)
  {
    contentFacts := 0;
    for i := 0 to |facts|
      invariant contentFacts == CountContent(d, facts[..i])
    {
      assert facts[..i + 1][..i] == facts[..i];
      if HasContent(d, facts[i]) { contentFacts := contentFacts + 1; }
    }
    assert facts[..|facts|] == facts;
  }

  // The longest prefix within both caps is kept, everything after it dropped.
  method RenderPreview(d: Renderer, nodes: seq<Node>) returns (p: Preview)
    ensures exists n: nat :: n <= |nodes| && Keeps(d, nodes, n, p) && Fits(d, nodes, n)
              && forall m: nat :: m <= |nodes| && Fits(d, nodes, m) ==> m <= n
    ensures p.included + p.dropped == Ids(nodes) && p.chars <= 4000 && |p.facts| <= 20
    ensures p.chars == if p.facts == [] then 0 else Bytes(d, Assembled(p.facts))
    ensures p.contentFacts == |set i | 0 <= i < |p.facts| && HasContent(d, p.facts[i])|
  {
    hide Fact, Bytes, Assembled, HasContent;
    var facts, included, dropped := [], [], [];
    var total, stopped := Bytes(d, HEADER), false;
    ghost var n: nat := 0;
    for i := 0 to |nodes|
      invariant n <= i && (stopped || n == i) && (stopped ==> n < |nodes| && !Fits(d, nodes, n + 1))
      invariant facts == FactsOf(d, nodes[..n]) && included == Ids(nodes[..n]) && dropped == Ids(nodes[n..i])
      invariant total == BlockBytes(d, nodes, n) && Fits(d, nodes, n) && (stopped <==> n < i)
    {
      var x := nodes[i];
      if !stopped {
        if |facts| >= MAX_FACTS {
          stopped := true;
        } else {
          var fact := Fact(d, x);
          var delta := Bytes(d, JOIN) + Bytes(d, fact);
          if total + delta > MAX_BLOCK_CHARS {
            stopped := true;
          } else {
            total := total + delta;
            facts, included := facts + [fact], included + [x.id];
            n := n + 1;
          }
        }
      }
      if stopped { dropped := dropped + [x.id]; }
    }
    var chars := if |facts| > 0 then total else 0;
    var contentFacts := CountContentFacts(d, facts);
    p := Preview(facts, included, dropped, chars, stopped, contentFacts);
    assert Keeps(d, nodes, n, p);
    BlockIsMeasured(d, nodes, n);
    CountIs(d, facts);
    forall m: nat | m <= |nodes| && Fits(d, nodes, m) ensures m <= n {
      if m > n { BlockGrows(d, nodes, n + 1, m); }
    }
    assert included + dropped == Ids(nodes);
  }

  lemma {:induction false} BlockGrows(d: Renderer, nodes: seq<Node>, n: nat, m: nat)
    requires n <= m <= |nodes|
    ensures BlockBytes(d, nodes, n) <= BlockBytes(d, nodes, m)
  {
    hide Fact, Bytes;
    if n < m { BlockGrows(d, nodes, n, m - 1); }
  }

  lemma {:induction false} BytesBounded(d: Renderer, s: string)
    requires forall c :: d.width(c) <= 4
    ensures Bytes(d, s) <= 4 * |s|
  {
    if s != "" { BytesBounded(d, s[..|s| - 1]); }
  }

  // With runes of at most four bytes and labels of at most 256 runes, the first node always
  // fits, whatever it is.
  lemma FirstNodeFits(d: Renderer, nodes: seq<Node>)
    requires nodes != [] && (forall c :: d.width(c) <= 4) && |d.kindLabel(nodes[0].kind)| <= 256
    ensures Fits(d, nodes, 1)
  {
    var n := nodes[0];
    ContentIsBounded(AspectSide(d, n), d.trim(n.body));
    assert |Fact(d, n)| <= 4 + 201 + 2 + 256 + 1 + 1 + 501;
    BytesBounded(d, Fact(d, n));
    BytesBounded(d, HEADER);
    BytesBounded(d, JOIN);
    assert BlockBytes(d, nodes, 0) == Bytes(d, HEADER);
  }
}
