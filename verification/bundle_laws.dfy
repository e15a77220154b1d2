// What the importer's specification (bundle_spec.dfy) means, spelled out on the document.
module BundleLaws {
  import opened Common
  import opened BundleTypes
  import opened BundleSpec
  import opened BundleExport

  // ---- Which documents are importable ----------------------------------------------------------

  ghost predicate NodeNamed(b: Bundle, ref: string) {
    exists k :: 0 <= k < |b.nodes| && b.nodes[k].id == ref
  }

  ghost predicate AgentNamed(b: Bundle, ref: string) {
    exists k :: 0 <= k < |b.agents| && b.agents[k].id == ref
  }

  ghost predicate OtherMapNamed(b: Bundle, i: nat)
    requires i < |b.maps|
  {
    exists k :: 0 <= k < |b.maps| && k != i && b.maps[k].id == b.maps[i].parentMapId
  }

  // One reference and one Butler at most, no voice that does not parse, no tool granted twice.
  ghost predicate AgentsFit(b: Bundle) {
    && (forall i, j :: 0 <= i < j < |b.agents| ==> b.agents[i].id != b.agents[j].id)
    && (forall i, j :: 0 <= i < j < |b.agents| ==> !(b.agents[i].role == "butler" && b.agents[j].role == "butler"))
    && (forall i :: 0 <= i < |b.agents| ==> b.agents[i].voice != Garbage)
    && (forall i :: 0 <= i < |b.agents| ==>
          forall p, q :: 0 <= p < q < |b.agents[i].grants| ==> b.agents[i].grants[p].toolName != b.agents[i].grants[q].toolName)
  }

  lemma AgentsOkMeans(b: Bundle)
    ensures AgentsOk(b.agents, |b.agents|) <==> AgentsFit(b)
  {
    forall i | 0 <= i < |b.agents|
      ensures AgentOk(b.agents[i]) <==>
        (b.agents[i].voice != Garbage
         && forall p, q :: 0 <= p < q < |b.agents[i].grants| ==> b.agents[i].grants[p].toolName != b.agents[i].grants[q].toolName)
    {
    }
  }

  ghost predicate NodesFit(b: Bundle) {
    && (forall i, j :: 0 <= i < j < |b.nodes| ==> b.nodes[i].id != b.nodes[j].id)
    && (forall i :: 0 <= i < |b.nodes| ==> b.nodes[i].agentId == "" || AgentNamed(b, b.nodes[i].agentId))
  }

  lemma NodesOkMeans(b: Bundle)
    ensures NodesOk(b.nodes, |b.nodes|, AgentRefs(b.agents)) <==> NodesFit(b)
  {
  }

  ghost predicate EdgesFit(b: Bundle) {
    forall i :: 0 <= i < |b.edges| ==> NodeNamed(b, b.edges[i].from) && NodeNamed(b, b.edges[i].to)
  }

  lemma EdgesOkMeans(b: Bundle)
    ensures EdgesOk(b.edges, |b.edges|, NodeRefs(b.nodes)) <==> EdgesFit(b)
  {
  }

  predicate StorableImage(m: Map) {
    m.image.Encoded? && m.contentType in {"", "image/png", "image/jpeg", "image/webp", "image/gif"}
  }

  // Images have somewhere to go and a type that is stored, anchors and pins are entries of the
  // document, and a parent is another of its maps.
  ghost predicate MapsFit(b: Bundle, hasBlobs: bool) {
    && (forall i, j :: 0 <= i < j < |b.maps| ==> b.maps[i].id != b.maps[j].id)
    && (forall i :: 0 <= i < |b.maps| ==> b.maps[i].anchorNodeId == "" || NodeNamed(b, b.maps[i].anchorNodeId))
    && (forall i :: 0 <= i < |b.maps| ==> b.maps[i].image == Empty || (hasBlobs && StorableImage(b.maps[i])))
    && (forall i :: 0 <= i < |b.maps| ==> b.maps[i].parentMapId == "" || OtherMapNamed(b, i))
    && (forall i :: 0 <= i < |b.maps| ==> forall k :: 0 <= k < |b.maps[i].pins| ==> NodeNamed(b, b.maps[i].pins[k].nodeId))
  }

  lemma MapsOkMeans(b: Bundle, hasBlobs: bool)
    ensures MapsOk(b.maps, NodeRefs(b.nodes), hasBlobs) <==> MapsFit(b, hasBlobs)
  {
    forall i: nat | i < |b.maps|
      ensures FlatMapOk(b.maps[i], NodeRefs(b.nodes), hasBlobs) <==>
        && (b.maps[i].anchorNodeId == "" || NodeNamed(b, b.maps[i].anchorNodeId))
        && (b.maps[i].image == Empty || (hasBlobs && StorableImage(b.maps[i])))
    {
    }
    forall i: nat | i < |b.maps|
      ensures PinsOk(b.maps[i].pins, NodeRefs(b.nodes)) <==> forall k :: 0 <= k < |b.maps[i].pins| ==> NodeNamed(b, b.maps[i].pins[k].nodeId)
    {
    }
    hide FlatMapOk, PinsOk, NodeNamed, StorableImage;
    if forall i, j :: 0 <= i < j < |b.maps| ==> b.maps[i].id != b.maps[j].id {
      forall i: nat | i < |b.maps|
        ensures OtherMapNamed(b, i) <==> b.maps[i].parentMapId in MapRefs(b.maps) && b.maps[i].parentMapId != b.maps[i].id
      {
        ParentMeans(b, i);
      }
    }
  }

  lemma ParentMeans(b: Bundle, i: nat)
    requires i < |b.maps| && forall p, q :: 0 <= p < q < |b.maps| ==> b.maps[p].id != b.maps[q].id
    ensures OtherMapNamed(b, i) <==> b.maps[i].parentMapId in MapRefs(b.maps) && b.maps[i].parentMapId != b.maps[i].id
  {
    if b.maps[i].parentMapId in MapRefs(b.maps) && b.maps[i].parentMapId != b.maps[i].id {
      var k :| 0 <= k < |b.maps| && b.maps[k].id == b.maps[i].parentMapId;
      assert k != i;
    }
  }

  ghost predicate BoardsFit(b: Bundle) {
    forall i :: 0 <= i < |b.boards| ==> forall k :: 0 <= k < |b.boards[i].nodeIds| ==> NodeNamed(b, b.boards[i].nodeIds[k])
  }

  ghost predicate ThreadsFit(b: Bundle) {
    forall i :: 0 <= i < |b.threads| ==> forall k :: 0 <= k < |b.threads[i].messages| ==> b.threads[i].messages[k].role in {"user", "assistant"}
  }

  lemma RecordsOkMeans(b: Bundle)
    ensures BoardsOk(b.boards, |b.boards|, NodeRefs(b.nodes)) <==> BoardsFit(b)
    ensures ThreadsOk(b.threads, |b.threads|) <==> ThreadsFit(b)
  {
    forall i | 0 <= i < |b.boards|
      ensures BoardOk(b.boards[i], NodeRefs(b.nodes)) <==> forall k :: 0 <= k < |b.boards[i].nodeIds| ==> NodeNamed(b, b.boards[i].nodeIds[k])
    {
    }
    forall i | 0 <= i < |b.threads|
      ensures ThreadOk(b.threads[i]) <==> forall k :: 0 <= k < |b.threads[i].messages| ==> b.threads[i].messages[k].role in {"user", "assistant"}
    {
    }
  }

  // The importable documents, entry by entry.
  lemma ImportableExactly(b: Bundle, hasBlobs: bool)
    ensures Importable(b, hasBlobs) <==>
              1 <= b.formatVersion <= 3 && AgentsFit(b) && NodesFit(b) && EdgesFit(b) && MapsFit(b, hasBlobs) && BoardsFit(b) && ThreadsFit(b)
  {
    hide AgentsOk, NodesOk, EdgesOk, MapsOk, BoardsOk, ThreadsOk, AgentsFit, NodesFit, EdgesFit, MapsFit, BoardsFit, ThreadsFit;
    AgentsOkMeans(b);
    NodesOkMeans(b);
    EdgesOkMeans(b);
    MapsOkMeans(b, hasBlobs);
    RecordsOkMeans(b);
  }

  // Without a Butler of its own, the document leaves the campaign the one it was created with.
  lemma DefaultButlerStands(before: Db, after: Db, b: Bundle, defaults: map<string, Option<string>>, m: Minted)
    requires Restored(before, after, b, defaults, m) && forall k :: 0 <= k < |b.agents| ==> b.agents[k].role != "butler"
    ensures m.butler in after.agents
    ensures after.agents[m.butler] == Owned(m.campaign, AgentRow(Butler, "Glyphoxa", "", "", Absent, true, [], defaults))
  {
    hide Added, Indexes;
    assert forall k :: 0 <= k < |m.agentIds| ==> !IsButler(b.agents[k]);
  }

  // A stored image keeps its declared type, a PNG where none is declared, and its bytes.
  lemma ImagesKeepTheirType(before: map<Id, Image>, after: map<Id, Image>, xs: seq<Map>, keys: seq<Option<Id>>, lo: Id, hi: Id, i: nat)
    requires ImagesStored(before, after, xs, keys, lo, hi) && i < |keys| && xs[i].image.Encoded?
    ensures keys[i].Some? && keys[i].value in after && after[keys[i].value].data == xs[i].image.data
    ensures after[keys[i].value].contentType == if |xs[i].contentType| == 0 then "image/png" else xs[i].contentType
  {
    assert ImageAt(after, xs[i], keys[i], lo, hi);
  }

  // Every imported session is over: failed when the document says so and ended otherwise, at the
  // time it gives or, without one, when it began.
  lemma ImportedSessionsAreOver(before: Db, after: Db, b: Bundle, defaults: map<string, Option<string>>, m: Minted, k: nat)
    requires Restored(before, after, b, defaults, m) && k < |m.sessions|
    ensures k < |SessionsOf(b)| && m.sessions[k] in after.sessions
    ensures var s, row := SessionsOf(b)[k], after.sessions[m.sessions[k]].row;
            && row.status != Running && (row.status == Failed <==> s.status == "failed")
            && row.endedAt.Some? && (s.endedAt.Some? ==> row.endedAt == s.endedAt) && (s.endedAt.None? ==> row.endedAt == Some(s.startedAt))
            && row.startedAt == s.startedAt && row.lineCount == s.lineCount && row.endReason == s.endReason
  {
    hide AgentsAdded, Indexes;
  }

  // ---- History -------------------------------------------------------------------------------------

  // Of the lines with one replay key, the last one's text is kept under the first one's number.
  lemma {:induction false} LastTextFirstNumber(ls: seq<Line>, first: nat, last: nat)
    requires first <= last < |ls| && ls[first].lineId == ls[last].lineId
    requires forall k :: 0 <= k < first ==> ls[k].lineId != ls[first].lineId
    requires forall k :: last < k < |ls| ==> ls[k].lineId != ls[last].lineId
    ensures ls[last].lineId in LineMap(ls) && LineMap(ls)[ls[last].lineId] == ls[last].(seqNo := ls[first].seqNo)
  {
    var front := ls[..|ls| - 1];
    LineMapKeys(front);
    if last < |ls| - 1 {
      LastTextFirstNumber(front, first, last);
    } else if first < last {
      FirstNumberStays(front, first);
    }
  }

  lemma {:induction false} FirstNumberStays(ls: seq<Line>, first: nat)
    requires first < |ls| && forall k :: 0 <= k < first ==> ls[k].lineId != ls[first].lineId
    ensures ls[first].lineId in LineMap(ls) && LineMap(ls)[ls[first].lineId].seqNo == ls[first].seqNo
  {
    var front := ls[..|ls| - 1];
    LineMapKeys(front);
    if first < |ls| - 1 { FirstNumberStays(front, first); }
  }

  predicate Kept(a: Appearance, nodes: map<string, Id>, lines: set<string>) {
    a.nodeId in nodes && a.lineId in lines
  }

  // The appearances recorded are exactly those of known entries and lines.
  lemma {:induction false} RecordedExactly(xs: seq<Appearance>, nodes: map<string, Id>, lines: set<string>, k: (Id, string))
    ensures k in AppearanceMap(xs, nodes, lines) <==>
              exists i :: 0 <= i < |xs| && Kept(xs[i], nodes, lines) && (nodes[xs[i].nodeId], xs[i].lineId) == k
  {
    if xs != [] {
      var front, a := xs[..|xs| - 1], xs[|xs| - 1];
      RecordedExactly(front, nodes, lines, k);
      if Kept(a, nodes, lines) && (nodes[a.nodeId], a.lineId) == k { assert xs[|xs| - 1] == a; }
      assert forall i :: 0 <= i < |front| ==> front[i] == xs[i];
    }
  }

  // Of several of one entry and line, the first is.
  lemma {:induction false} FirstRecorded(xs: seq<Appearance>, nodes: map<string, Id>, lines: set<string>, i: nat)
    requires i < |xs| && Kept(xs[i], nodes, lines)
    requires forall j :: 0 <= j < i && Kept(xs[j], nodes, lines) ==> (nodes[xs[j].nodeId], xs[j].lineId) != (nodes[xs[i].nodeId], xs[i].lineId)
    ensures var k := (nodes[xs[i].nodeId], xs[i].lineId); k in AppearanceMap(xs, nodes, lines) && AppearanceMap(xs, nodes, lines)[k] == xs[i].at
  {
    var front := xs[..|xs| - 1];
    RecordedExactly(front, nodes, lines, (nodes[xs[i].nodeId], xs[i].lineId));
    if i < |front| { FirstRecorded(front, nodes, lines, i); }
  }

  // Every participant reference of a document, in order.
  function RefsOfChunks(cs: seq<Chunk>): seq<string> {
    if cs == [] then [] else RefsOfChunks(cs[..|cs| - 1]) + cs[|cs| - 1].participants
  }

  function RefsOf(xs: seq<Session>): seq<string> {
    if xs == [] then [] else RefsOf(xs[..|xs| - 1]) + RefsOfChunks(xs[|xs| - 1].chunks)
  }

  lemma {:induction false} UnknownConcat(a: seq<string>, b: seq<string>, agents: map<string, Id>)
    ensures Unknown(a + b, agents) == Unknown(a, agents) + Unknown(b, agents)
  {
    if b == [] {
      assert a + b == a;
    } else {
      assert (a + b)[..|a + b| - 1] == a + b[..|b| - 1];
      UnknownConcat(a, b[..|b| - 1], agents);
    }
  }

  lemma {:induction false} UnknownCounts(refs: seq<string>, agents: map<string, Id>)
    ensures Unknown(refs, agents) == |set k | 0 <= k < |refs| && refs[k] !in agents|
  {
    if refs != [] {
      var front, last := refs[..|refs| - 1], |refs| - 1;
      UnknownCounts(front, agents);
      var before, all := set k | 0 <= k < |front| && front[k] !in agents, set k | 0 <= k < |refs| && refs[k] !in agents;
      assert all == if refs[last] in agents then before else before + {last};
    }
  }

  // A participant is either kept or counted as unknown.
  lemma {:induction false} KeptOrUnknown(refs: seq<string>, agents: map<string, Id>)
    ensures |KnownParticipants(refs, agents)| + Unknown(refs, agents) == |refs|
  {
    if refs != [] { KeptOrUnknown(refs[..|refs| - 1], agents); }
  }

  // Every known participant is kept as the agent it names, after those before it.
  lemma {:induction false} KnownInPlace(refs: seq<string>, agents: map<string, Id>, k: nat)
    requires k < |refs| && refs[k] in agents
    ensures |KnownParticipants(refs[..k], agents)| < |KnownParticipants(refs, agents)|
    ensures KnownParticipants(refs, agents)[|KnownParticipants(refs[..k], agents)|] == agents[refs[k]]
  {
    if k < |refs| - 1 {
      KnownInPlace(refs[..|refs| - 1], agents, k);
      assert refs[..|refs| - 1][..k] == refs[..k];
    }
  }

  lemma {:induction false} DroppedInChunksAre(cs: seq<Chunk>, agents: map<string, Id>)
    ensures DroppedInChunks(cs, agents) == Unknown(RefsOfChunks(cs), agents)
  {
    if cs != [] {
      DroppedInChunksAre(cs[..|cs| - 1], agents);
      UnknownConcat(RefsOfChunks(cs[..|cs| - 1]), cs[|cs| - 1].participants, agents);
    }
  }

  lemma {:induction false} DroppedAre(xs: seq<Session>, n: nat, agents: map<string, Id>)
    requires n <= |xs|
    ensures DroppedRefs(xs, n, agents) == Unknown(RefsOf(xs[..n]), agents)
  {
    if n > 0 {
      DroppedAre(xs, n - 1, agents);
      DroppedInChunksAre(xs[n - 1].chunks, agents);
      assert xs[..n][..n - 1] == xs[..n - 1];
      UnknownConcat(RefsOf(xs[..n - 1]), RefsOfChunks(xs[n - 1].chunks), agents);
    }
  }

  // The dropped participants are the references, of all the document's, that no agent answers to.
  lemma DroppedExactly(xs: seq<Session>, agents: map<string, Id>)
    ensures DroppedRefs(xs, |xs|, agents) == |set k | 0 <= k < |RefsOf(xs)| && RefsOf(xs)[k] !in agents|
  {
    DroppedAre(xs, |xs|, agents);
    assert xs[..|xs|] == xs;
    UnknownCounts(RefsOf(xs), agents);
  }

  // ---- The grouped reads -------------------------------------------------------------------------

  // A session's chunks are those read with its id: as many, and each after the ones read before it.
  lemma {:induction false} ChunksCount(cs: seq<Stored>, id: Id)
    ensures |ChunksOf(cs, id)| == |ChunksAt(cs, id)|
  {
    if cs != [] {
      ChunksCount(cs[..|cs| - 1], id);
      OneChunkMore(cs, id);
    }
  }

  // Where the chunks read with a session's id are.
  function ChunksAt(cs: seq<Stored>, id: Id): set<int> {
    set k | 0 <= k < |cs| && cs[k].session == Some(id)
  }

  lemma OneChunkMore(cs: seq<Stored>, id: Id)
    requires cs != []
    ensures |ChunksAt(cs, id)| == |ChunksAt(cs[..|cs| - 1], id)| + if cs[|cs| - 1].session == Some(id) then 1 else 0
  {
    var front, last := cs[..|cs| - 1], |cs| - 1;
    assert ChunksAt(cs, id) == ChunksAt(front, id) + if cs[last].session == Some(id) then {last} else {};
  }

  lemma {:induction false} ChunkInPlace(cs: seq<Stored>, id: Id, k: nat)
    requires k < |cs| && cs[k].session == Some(id)
    ensures |ChunksOf(cs[..k], id)| < |ChunksOf(cs, id)| && ChunksOf(cs, id)[|ChunksOf(cs[..k], id)|] == cs[k].row
  {
    if k < |cs| - 1 {
      ChunkInPlace(cs[..|cs| - 1], id, k);
      assert cs[..|cs| - 1][..k] == cs[..k];
    }
  }

  lemma {:induction false} TagsCount(ts: seq<Tagged>, id: Id)
    ensures |TagsOf(ts, id)| == |TagsAt(ts, id)|
  {
    if ts != [] {
      TagsCount(ts[..|ts| - 1], id);
      OneTagMore(ts, id);
    }
  }

  // Where an entry's labels are among those read.
  function TagsAt(ts: seq<Tagged>, id: Id): set<int> {
    set k | 0 <= k < |ts| && ts[k].node == id
  }

  lemma OneTagMore(ts: seq<Tagged>, id: Id)
    requires ts != []
    ensures |TagsAt(ts, id)| == |TagsAt(ts[..|ts| - 1], id)| + if ts[|ts| - 1].node == id then 1 else 0
  {
    var front, last := ts[..|ts| - 1], |ts| - 1;
    assert TagsAt(ts, id) == TagsAt(front, id) + if ts[last].node == id then {last} else {};
  }

  lemma {:induction false} TagInPlace(ts: seq<Tagged>, id: Id, k: nat)
    requires k < |ts| && ts[k].node == id
    ensures |TagsOf(ts[..k], id)| < |TagsOf(ts, id)| && TagsOf(ts, id)[|TagsOf(ts[..k], id)|] == ts[k].tag
  {
    if k < |ts| - 1 {
      TagInPlace(ts[..|ts| - 1], id, k);
      assert ts[..|ts| - 1][..k] == ts[..k];
    }
  }
}
