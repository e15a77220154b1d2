// Export (internal/bundle/export.go): a campaign read through list calls, each in an order of
// the store's own, and written as a document keyed by the rendered source ids.
module BundleExport {
  import opened Common
  import opened BundleTypes
  import opened BundleSpec

  // ---- What a document says about a row --------------------------------------------------

  function RefText(r: Option<Id>, render: Render): string {
    if r.None? then "" else render(r.value)
  }

  // A voice goes through the canonical mapper, and the zero voice is written as absent.
  function ExportVoice(raw: VoiceJson): Option<VoiceJson> {
    match VoiceFromJson(raw)
    case None => None
    case Some(v) => Some(if v == ZERO_VOICE then Absent else VoiceToJson(v))
  }

  ghost predicate AgentDescribed(a: Agent, id: Id, row: AgentRow, render: Render) {
    && a.id == render(id) && a.role == RoleText(row.role) && a.name == row.name && a.title == row.title
    && a.persona == row.persona && a.addressOnly == row.addressOnly && a.aliases == row.aliases
    && ExportVoice(row.voice) == Some(a.voice)
    && DistinctTools(a.grants) && GrantMap(a.grants) == row.grants
  }

  function NodeEntry(id: Id, row: NodeRow, render: Render): Node {
    Node(render(id), row.kind, row.name, row.body, row.gmPrivate, RefText(row.agent, render), row.aspects, row.tags)
  }

  function EdgeEntry(row: EdgeRow, render: Render): Edge {
    Edge(render(row.from), render(row.to), row.kind, row.note, row.disposition)
  }

  function PinEntry(row: PinRow, render: Render): Pin {
    Pin(render(row.node), row.x, row.y, row.labelOverride, row.gmPrivate)
  }

  function PinEntries(pins: seq<PinRow>, render: Render): seq<Pin> {
    seq(|pins|, k requires 0 <= k < |pins| => PinEntry(pins[k], render))
  }

  // The image a map's row names, when images are asked for and its bytes still exist.
  function ImageFor(row: MapRow, blobs: map<Id, Image>, withImages: bool): Option<Image> {
    if withImages && row.blobKey.Some? && row.blobKey.value in blobs then Some(blobs[row.blobKey.value]) else None
  }

  function MapEntry(id: Id, row: MapRow, image: Option<Image>, render: Render): Map {
    Map(render(id), row.name, row.widthPx, row.heightPx, row.gmPrivate, RefText(row.parent, render), RefText(row.anchor, render),
        if image.Some? then image.value.contentType else "",
        if image.Some? then EncodeBase64(image.value.data) else Empty, PinEntries(row.pins, render))
  }

  function Texts(ids: seq<Id>, render: Render): seq<string> {
    seq(|ids|, k requires 0 <= k < |ids| => render(ids[k]))
  }

  function ChunkEntry(row: ChunkRow, render: Render): Chunk {
    Chunk(row.content, row.speakers, Texts(row.participants, render), row.startedAt)
  }

  function ChunkEntries(rows: seq<ChunkRow>, render: Render): seq<Chunk> {
    seq(|rows|, k requires 0 <= k < |rows| => ChunkEntry(rows[k], render))
  }

  ghost predicate DistinctLines(ls: seq<Line>) {
    forall i, j :: 0 <= i < j < |ls| ==> ls[i].lineId != ls[j].lineId
  }

  ghost predicate ListsKeys<K(!new), V>(keys: seq<K>, m: map<K, V>) {
    && (forall i, j :: 0 <= i < j < |keys| ==> keys[i] != keys[j])
    && (forall k :: k in keys <==> k in m)
  }

  // One entry per recorded appearance, in some order.
  ghost predicate AppearancesDescribed(xs: seq<Appearance>, m: map<(Id, string), Time>, render: Render) {
    exists keys: seq<(Id, string)> :: ListsKeys(keys, m) && AppearancesAt(xs, keys, m, render)
  }

  ghost predicate AppearancesAt(xs: seq<Appearance>, keys: seq<(Id, string)>, m: map<(Id, string), Time>, render: Render) {
    && |xs| == |keys|
    && forall k :: 0 <= k < |xs| ==> keys[k] in m && xs[k] == Appearance(render(keys[k].0), keys[k].1, m[keys[k]])
  }

  ghost predicate SessionDescribed(s: Session, id: Id, row: SessionRow, render: Render) {
    && s.id == render(id) && s.startedAt == row.startedAt && s.endedAt == row.endedAt && s.status == StatusText(row.status)
    && s.lineCount == row.lineCount && s.endReason == row.endReason
    && DistinctLines(s.lines) && LineMap(s.lines) == row.lines
    && s.chunks == ChunkEntries(row.chunks, render)
    && AppearancesDescribed(s.appearances, row.appearances, render)
  }

  // ids is the campaign's rows of one table, each once, in some order.
  ghost predicate Lists<R>(t: Table<R>, cid: Id, ids: seq<Id>) {
    Distinct(ids) && forall i :: i in ids <==> i in t && t[i].campaign == cid
  }

  datatype Order = Order(agents: seq<Id>, nodes: seq<Id>, edges: seq<Id>, characters: seq<Id>, maps: seq<Id>,
                         boards: seq<Id>, threads: seq<Id>, sessions: seq<Id>)

  ghost predicate AgentsDescribed(xs: seq<Agent>, t: Table<AgentRow>, cid: Id, ids: seq<Id>, render: Render) {
    && Lists(t, cid, ids) && |xs| == |ids|
    && forall k :: 0 <= k < |xs| ==> ids[k] in t && AgentDescribed(xs[k], ids[k], t[ids[k]].row, render)
  }

  ghost predicate NodesDescribed(xs: seq<Node>, t: Table<NodeRow>, cid: Id, ids: seq<Id>, render: Render) {
    && Lists(t, cid, ids) && |xs| == |ids|
    && forall k :: 0 <= k < |xs| ==> ids[k] in t && xs[k] == NodeEntry(ids[k], t[ids[k]].row, render)
  }

  ghost predicate EdgesDescribed(xs: seq<Edge>, t: Table<EdgeRow>, cid: Id, ids: seq<Id>, render: Render) {
    && Lists(t, cid, ids) && |xs| == |ids|
    && forall k :: 0 <= k < |xs| ==> ids[k] in t && xs[k] == EdgeEntry(t[ids[k]].row, render)
  }

  ghost predicate MapsDescribed(xs: seq<Map>, t: Table<MapRow>, cid: Id, ids: seq<Id>, blobs: map<Id, Image>, withImages: bool, render: Render) {
    && Lists(t, cid, ids) && |xs| == |ids|
    && forall k :: 0 <= k < |xs| ==>
         ids[k] in t && xs[k] == MapEntry(ids[k], t[ids[k]].row, ImageFor(t[ids[k]].row, blobs, withImages), render)
  }

  // With images asked for, the image of a map whose bytes exist is in the document, and decodes
  // to those bytes; any other map has none.
  ghost predicate ImageWritten(m: Map, row: MapRow, blobs: map<Id, Image>, withImages: bool) {
    if withImages && row.blobKey.Some? && row.blobKey.value in blobs
    then m.contentType == blobs[row.blobKey.value].contentType && DecodeBase64(m.image) == Some(blobs[row.blobKey.value].data)
    else m.contentType == "" && m.image == Empty
  }

  ghost predicate ImagesWritten(xs: seq<Map>, t: Table<MapRow>, ids: seq<Id>, blobs: map<Id, Image>, withImages: bool) {
    |xs| == |ids| && forall k :: 0 <= k < |xs| ==> ids[k] in t && ImageWritten(xs[k], t[ids[k]].row, blobs, withImages)
  }

  ghost predicate BoardsDescribed(xs: seq<Board>, t: Table<BoardRow>, cid: Id, ids: seq<Id>, render: Render) {
    && Lists(t, cid, ids) && |xs| == |ids|
    && forall k :: 0 <= k < |xs| ==> ids[k] in t && xs[k] == Board(t[ids[k]].row.name, Texts(t[ids[k]].row.nodes, render))
  }

  // Rows that are written as they stand.
  ghost predicate Copied<R>(xs: seq<R>, t: Table<R>, cid: Id, ids: seq<Id>) {
    && Lists(t, cid, ids) && |xs| == |ids|
    && forall k :: 0 <= k < |xs| ==> ids[k] in t && xs[k] == t[ids[k]].row
  }

  ghost predicate SessionsDescribed(xs: seq<Session>, t: Table<SessionRow>, cid: Id, ids: seq<Id>, render: Render) {
    && Lists(t, cid, ids) && |xs| == |ids|
    && forall k :: 0 <= k < |xs| ==> ids[k] in t && SessionDescribed(xs[k], ids[k], t[ids[k]].row, render)
  }

  ghost predicate Describes(b: Bundle, db: Db, blobs: map<Id, Image>, cid: Id, o: Order, withHistory: bool, withImages: bool, render: Render) {
    && b.formatVersion == FORMAT_VERSION
    && cid in db.campaigns && db.campaigns[cid] == CampaignRow(b.name, b.system, b.language)
    && AgentsDescribed(b.agents, db.agents, cid, o.agents, render)
    && NodesDescribed(b.nodes, db.nodes, cid, o.nodes, render)
    && EdgesDescribed(b.edges, db.edges, cid, o.edges, render)
    && Copied(b.characters, db.characters, cid, o.characters)
    && MapsDescribed(b.maps, db.maps, cid, o.maps, blobs, withImages, render)
    && BoardsDescribed(b.boards, db.boards, cid, o.boards, render)
    && Copied(b.threads, db.threads, cid, o.threads)
    && (if withHistory then b.history.Some? && SessionsDescribed(b.history.value, db.sessions, cid, o.sessions, render)
        else b.history.None?)
  }

  // ---- The reads ---------------------------------------------------------------------------

  method List<R>(t: Table<R>, cid: Id) returns (ids: seq<Id>)
    ensures Lists(t, cid, ids)
  {
    ids := [];
    var left := t.Keys;
    while left != {}
      invariant Distinct(ids) && left <= t.Keys
      invariant forall i :: i in ids <==> i in t && t[i].campaign == cid && i !in left
      decreases left
    {
      var i :| i in left;
      left := left - {i};
      if t[i].campaign == cid { ids := ids + [i]; }
    }
  }

  // One label on one entry, as the campaign-wide tag read returns them.
  datatype Tagged = Tagged(node: Id, tag: string)

  function TagsOf(ts: seq<Tagged>, id: Id): seq<string> {
    if ts == [] then []
    else TagsOf(ts[..|ts| - 1], id) + (if ts[|ts| - 1].node == id then [ts[|ts| - 1].tag] else [])
  }

  lemma {:induction false} TagsOfAppend(ts: seq<Tagged>, node: Id, tags: seq<string>, id: Id)
    ensures TagsOf(ts + seq(|tags|, k requires 0 <= k < |tags| => Tagged(node, tags[k])), id)
         == TagsOf(ts, id) + (if id == node then tags else [])
  {
    var more := seq(|tags|, k requires 0 <= k < |tags| => Tagged(node, tags[k]));
    if tags == [] {
      assert ts + more == ts;
    } else {
      var front := tags[..|tags| - 1];
      var fewer := seq(|front|, k requires 0 <= k < |front| => Tagged(node, front[k]));
      TagsOfAppend(ts, node, front, id);
      assert (ts + more)[..|ts + more| - 1] == ts + fewer;
      assert tags == front + [tags[|tags| - 1]];
    }
  }

  lemma NoTags()
    ensures forall i :: TagsOf([], i) == []
  {
  }

  // The labels of every entry of the campaign, those of one entry in their own order.
  method CampaignTags(t: Table<NodeRow>, cid: Id) returns (ts: seq<Tagged>)
    ensures forall i :: i in t && t[i].campaign == cid ==> TagsOf(ts, i) == t[i].row.tags
  {
    hide TagsOf;
    var ids := List(t, cid);
    ts := [];
    NoTags();
    for k := 0 to |ids|
      invariant forall j :: k <= j < |ids| ==> TagsOf(ts, ids[j]) == []
      invariant forall j :: 0 <= j < k ==> TagsOf(ts, ids[j]) == t[ids[j]].row.tags
    {
      var id := ids[k];
      var tags := t[id].row.tags;
      ghost var was := ts;
      ts := ts + seq(|tags|, j requires 0 <= j < |tags| => Tagged(id, tags[j]));
      forall i ensures TagsOf(ts, i) == TagsOf(was, i) + (if i == id then tags else []) { TagsOfAppend(was, id, tags, i); }
    }
  }

  // A stored chunk with the session it is bound to, if it is bound to one.
  datatype Stored = Stored(session: Option<Id>, row: ChunkRow)

  function ChunksOf(cs: seq<Stored>, id: Id): seq<ChunkRow> {
    if cs == [] then []
    else ChunksOf(cs[..|cs| - 1], id) + (if cs[|cs| - 1].session == Some(id) then [cs[|cs| - 1].row] else [])
  }

  // ---- The export --------------------------------------------------------------------------

  // exportGrants: one grain per stored grant.
  method ExportGrants(grants: map<string, Option<string>>) returns (gs: seq<Grant>)
    ensures DistinctTools(gs) && GrantMap(gs) == grants
  {
    gs := [];
    var left := grants.Keys;
    while left != {}
      invariant DistinctTools(gs) && left <= grants.Keys
      invariant GrantMap(gs) == map t | t in grants && t !in left :: grants[t]
      invariant forall i :: 0 <= i < |gs| ==> gs[i].toolName !in left
      decreases left
    {
      var tool :| tool in left;
      left := left - {tool};
      ghost var was := gs;
      gs := gs + [Grant(tool, grants[tool])];
      assert gs[..|gs| - 1] == was;
    }
    assert GrantMap(gs) == grants;
  }

  // A voice column that does not parse fails the export.
  method ExportAgents(t: Table<AgentRow>, cid: Id, render: Render) returns (ok: bool, xs: seq<Agent>)
    ensures ok ==> exists ids :: AgentsDescribed(xs, t, cid, ids, render)
    ensures !ok ==> exists i :: i in t && t[i].campaign == cid && t[i].row.voice == Garbage
  {
    var order := List(t, cid);
    ok, xs := true, [];
    for k := 0 to |order|
      invariant |xs| == k
      invariant forall q :: 0 <= q < k ==> order[q] in t && AgentDescribed(xs[q], order[q], t[order[q]].row, render)
    {
      var id := order[k];
      var row := t[id].row;
      var voice := ExportVoice(row.voice);
      if voice.None? { return false, xs; }
      var grants := ExportGrants(row.grants);
      xs := xs + [Agent(render(id), RoleText(row.role), row.name, row.title, row.persona, voice.value,
                        row.addressOnly, row.aliases, grants)];
    }
    assert AgentsDescribed(xs, t, cid, order, render);
  }

  method GroupTags(tagged: seq<Tagged>) returns (byNode: map<Id, seq<string>>)
    ensures forall i :: TagsOf(tagged, i) == if i in byNode then byNode[i] else []
  {
    byNode := map[];
    for k := 0 to |tagged|
      invariant forall i :: TagsOf(tagged[..k], i) == if i in byNode then byNode[i] else []
    {
      assert tagged[..k + 1][..k] == tagged[..k];
      var p := tagged[k];
      byNode := byNode[p.node := (if p.node in byNode then byNode[p.node] else []) + [p.tag]];
    }
    assert tagged[..|tagged|] == tagged;
  }

  // The entries, their labels grouped out of the one campaign-wide read.
  method ExportNodes(t: Table<NodeRow>, cid: Id, render: Render) returns (xs: seq<Node>)
    ensures exists ids :: NodesDescribed(xs, t, cid, ids, render)
  {
    hide TagsOf;
    var order := List(t, cid);
    var tagged := CampaignTags(t, cid);
    var byNode := GroupTags(tagged);
    xs := [];
    for k := 0 to |order|
      invariant |xs| == k && forall q :: 0 <= q < k ==> order[q] in t && xs[q] == NodeEntry(order[q], t[order[q]].row, render)
    {
      var id := order[k];
      var row := t[id].row;
      var tags := if id in byNode then byNode[id] else [];
      assert tags == TagsOf(tagged, id);
      xs := xs + [Node(render(id), row.kind, row.name, row.body, row.gmPrivate,
                       if row.agent.Some? then render(row.agent.value) else "", row.aspects, tags)];
    }
    assert NodesDescribed(xs, t, cid, order, render);
  }

  method ExportEdges(t: Table<EdgeRow>, cid: Id, render: Render) returns (xs: seq<Edge>)
    ensures exists ids :: EdgesDescribed(xs, t, cid, ids, render)
  {
    var order := List(t, cid);
    xs := [];
    for k := 0 to |order|
      invariant |xs| == k && forall q :: 0 <= q < k ==> order[q] in t && xs[q] == EdgeEntry(t[order[q]].row, render)
    {
      var row := t[order[k]].row;
      xs := xs + [Edge(render(row.from), render(row.to), row.kind, row.note, row.disposition)];
    }
    assert EdgesDescribed(xs, t, cid, order, render);
  }

  // Characters and planning threads carry nothing to rename.
  method ExportRows<R>(t: Table<R>, cid: Id) returns (xs: seq<R>)
    ensures exists ids :: Copied(xs, t, cid, ids)
  {
    var order := List(t, cid);
    xs := [];
    for k := 0 to |order|
      invariant |xs| == k && forall q :: 0 <= q < k ==> order[q] in t && xs[q] == t[order[q]].row
    {
      xs := xs + [t[order[k]].row];
    }
    assert Copied(xs, t, cid, order);
  }

  method ExportMaps(t: Table<MapRow>, cid: Id, blobs: map<Id, Image>, withImages: bool, render: Render)
    returns (xs: seq<Map>)
    ensures exists ids :: MapsDescribed(xs, t, cid, ids, blobs, withImages, render) && ImagesWritten(xs, t, ids, blobs, withImages)
  {
    var order := List(t, cid);
    xs := [];
    for k := 0 to |order|
      invariant |xs| == k
      invariant forall q :: 0 <= q < k ==>
        order[q] in t && xs[q] == MapEntry(order[q], t[order[q]].row, ImageFor(t[order[q]].row, blobs, withImages), render)
    {
      var id := order[k];
      var row := t[id].row;
      var m := Map(render(id), row.name, row.widthPx, row.heightPx, row.gmPrivate, "", "", "", Empty, []);
      if row.parent.Some? { m := m.(parentMapId := render(row.parent.value)); }
      if row.anchor.Some? { m := m.(anchorNodeId := render(row.anchor.value)); }
      // A row whose bytes are gone is still written, without an image.
      if withImages && row.blobKey.Some? && row.blobKey.value in blobs {
        var image := blobs[row.blobKey.value];
        m := m.(contentType := image.contentType, image := EncodeBase64(image.data));
      }
      var pins := [];
      for j := 0 to |row.pins|
        invariant |pins| == j && forall q :: 0 <= q < j ==> pins[q] == PinEntry(row.pins[q], render)
      {
        pins := pins + [PinEntry(row.pins[j], render)];
      }
      assert pins == PinEntries(row.pins, render);
      xs := xs + [m.(pins := pins)];
    }
    assert MapsDescribed(xs, t, cid, order, blobs, withImages, render) && ImagesWritten(xs, t, order, blobs, withImages);
  }

  method ExportBoards(t: Table<BoardRow>, cid: Id, render: Render) returns (xs: seq<Board>)
    ensures exists ids :: BoardsDescribed(xs, t, cid, ids, render)
  {
    var order := List(t, cid);
    xs := [];
    for k := 0 to |order|
      invariant |xs| == k
      invariant forall q :: 0 <= q < k ==> order[q] in t && xs[q] == Board(t[order[q]].row.name, Texts(t[order[q]].row.nodes, render))
    {
      var row := t[order[k]].row;
      var refs := RenderAll(row.nodes, render);
      xs := xs + [Board(row.name, refs)];
    }
    assert BoardsDescribed(xs, t, cid, order, render);
  }

  method RenderAll(ids: seq<Id>, render: Render) returns (refs: seq<string>)
    ensures refs == Texts(ids, render)
  {
    refs := [];
    for k := 0 to |ids|
      invariant |refs| == k && forall q :: 0 <= q < k ==> refs[q] == render(ids[q])
    {
      refs := refs + [render(ids[k])];
    }
  }

  // The session's lines, one per replay key.
  method ListLines(lines: map<string, Line>) returns (ls: seq<Line>)
    requires forall k :: k in lines ==> lines[k].lineId == k
    ensures DistinctLines(ls) && LineMap(ls) == lines
  {
    ls := [];
    var left := lines.Keys;
    while left != {}
      invariant DistinctLines(ls) && left <= lines.Keys
      invariant LineMap(ls) == map k | k in lines && k !in left :: lines[k]
      invariant forall i :: 0 <= i < |ls| ==> ls[i].lineId !in left
      decreases left
    {
      var k :| k in left;
      left := left - {k};
      ghost var was := ls;
      ls := ls + [lines[k]];
      assert ls[..|ls| - 1] == was;
    }
    assert LineMap(ls) == lines;
  }

  method ExportAppearances(m: map<(Id, string), Time>, render: Render) returns (xs: seq<Appearance>)
    ensures AppearancesDescribed(xs, m, render)
  {
    xs := [];
    ghost var keys: seq<(Id, string)> := [];
    var left := m.Keys;
    while left != {}
      invariant left <= m.Keys && AppearancesAt(xs, keys, m, render)
      invariant forall i, j :: 0 <= i < j < |keys| ==> keys[i] != keys[j]
      invariant forall k :: k in keys <==> k in m && k !in left
      decreases left
    {
      var k :| k in left;
      left := left - {k};
      xs, keys := xs + [Appearance(render(k.0), k.1, m[k])], keys + [k];
    }
    assert ListsKeys(keys, m);
  }

  lemma OneMoreChunk(cs: seq<Stored>, k: nat, i: Id, render: Render)
    requires k < |cs|
    ensures ChunkEntries(ChunksOf(cs[..k + 1], i), render)
         == ChunkEntries(ChunksOf(cs[..k], i), render) + if cs[k].session == Some(i) then [ChunkEntry(cs[k].row, render)] else []
  {
    assert cs[..k + 1][..k] == cs[..k];
  }

  // Chunks grouped by session; one bound to no session is skipped.
  method GroupChunks(cs: seq<Stored>, render: Render) returns (grouped: map<Id, seq<Chunk>>)
    ensures forall i :: ChunkEntries(ChunksOf(cs, i), render) == if i in grouped then grouped[i] else []
  {
    hide ChunksOf, ChunkEntries;
    grouped := map[];
    NoChunks(cs, render);
    for k := 0 to |cs|
      invariant forall i :: ChunkEntries(ChunksOf(cs[..k], i), render) == if i in grouped then grouped[i] else []
    {
      var c := cs[k];
      if c.session.Some? {
        var id := c.session.value;
        var refs := RenderAll(c.row.participants, render);
        grouped := grouped[id := (if id in grouped then grouped[id] else []) + [Chunk(c.row.content, c.row.speakers, refs, c.row.startedAt)]];
      }
      forall i ensures ChunkEntries(ChunksOf(cs[..k + 1], i), render) == if i in grouped then grouped[i] else [] {
        OneMoreChunk(cs, k, i, render);
      }
    }
    assert cs[..|cs|] == cs;
  }

  lemma NoChunks(cs: seq<Stored>, render: Render)
    ensures forall i :: ChunkEntries(ChunksOf(cs[..0], i), render) == []
  {
  }

  method ExportHistory(t: Table<SessionRow>, cid: Id, chunks: seq<Stored>, render: Render) returns (xs: seq<Session>)
    requires forall i :: i in t && t[i].campaign == cid ==> ChunksOf(chunks, i) == t[i].row.chunks
    requires forall i, k :: i in t && t[i].campaign == cid && k in t[i].row.lines ==> t[i].row.lines[k].lineId == k
    ensures exists ids :: SessionsDescribed(xs, t, cid, ids, render)
  {
    var order := List(t, cid);
    var grouped := GroupChunks(chunks, render);
    xs := [];
    for k := 0 to |order|
      invariant |xs| == k
      invariant forall q :: 0 <= q < k ==> order[q] in t && SessionDescribed(xs[q], order[q], t[order[q]].row, render)
    {
      var id := order[k];
      var row := t[id].row;
      var lines := ListLines(row.lines);
      var appearances := ExportAppearances(row.appearances, render);
      var cs := if id in grouped then grouped[id] else [];
      assert cs == ChunkEntries(row.chunks, render);
      xs := xs + [Session(render(id), row.startedAt, row.endedAt, StatusText(row.status), row.lineCount, row.endReason,
                          lines, cs, appearances)];
    }
    assert SessionsDescribed(xs, t, cid, order, render);
  }

  // The export of one campaign; it fails only on a missing campaign or a voice that does not parse.
  method Export(db: Db, blobs: map<Id, Image>, chunks: seq<Stored>, cid: Id, withHistory: bool, withImages: bool, render: Render)
    returns (ok: bool, b: Bundle, ghost o: Order)
    requires forall i :: i in db.sessions && db.sessions[i].campaign == cid ==> ChunksOf(chunks, i) == db.sessions[i].row.chunks
    requires forall i, k :: i in db.sessions && db.sessions[i].campaign == cid && k in db.sessions[i].row.lines ==>
               db.sessions[i].row.lines[k].lineId == k
    ensures ok ==> Describes(b, db, blobs, cid, o, withHistory, withImages, render)
    ensures ok ==> ImagesWritten(b.maps, db.maps, o.maps, blobs, withImages)
    ensures !ok ==> cid !in db.campaigns || exists i :: i in db.agents && db.agents[i].campaign == cid && db.agents[i].row.voice == Garbage
  {
    hide AgentsDescribed, NodesDescribed, EdgesDescribed, MapsDescribed, BoardsDescribed, SessionsDescribed, Copied, ImagesWritten;
    b := Bundle(FORMAT_VERSION, "", "", "", [], [], [], [], [], [], [], None);
    o := Order([], [], [], [], [], [], [], []);
    if cid !in db.campaigns { return false, b, o; }
    var row := db.campaigns[cid];
    var agents, nodes, edges, characters, maps, boards, threads;
    ok, agents := ExportAgents(db.agents, cid, render);
    if ok {
      nodes := ExportNodes(db.nodes, cid, render);
      edges := ExportEdges(db.edges, cid, render);
      characters := ExportRows(db.characters, cid);
      maps := ExportMaps(db.maps, cid, blobs, withImages, render);
      boards := ExportBoards(db.boards, cid, render);
      threads := ExportRows(db.threads, cid);
      var history: Option<seq<Session>> := None;
      if withHistory {
        var xs;
        xs := ExportHistory(db.sessions, cid, chunks, render);
        history := Some(xs);
      }
      b := Bundle(FORMAT_VERSION, row.name, row.system, row.language, agents, nodes, edges, characters, maps, boards, threads, history);
      ghost var o1 :| AgentsDescribed(agents, db.agents, cid, o1, render);
      ghost var o2 :| NodesDescribed(nodes, db.nodes, cid, o2, render);
      ghost var o3 :| EdgesDescribed(edges, db.edges, cid, o3, render);
      ghost var o4 :| Copied(characters, db.characters, cid, o4);
      ghost var o5 :| MapsDescribed(maps, db.maps, cid, o5, blobs, withImages, render) && ImagesWritten(maps, db.maps, o5, blobs, withImages);
      ghost var o6 :| BoardsDescribed(boards, db.boards, cid, o6, render);
      ghost var o7 :| Copied(threads, db.threads, cid, o7);
      ghost var o8 :| withHistory ==> SessionsDescribed(history.value, db.sessions, cid, o8, render);
      o := Order(o1, o2, o3, o4, o5, o6, o7, o8);
    }
  }
}
