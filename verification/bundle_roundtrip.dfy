// Export followed by import restores a campaign up to renaming of ids: the two directions of
// internal/bundle composed, over every well-formed stored campaign.
module BundleRoundTrip {
  import opened Common
  import opened BundleTypes
  import opened BundleSpec
  import opened BundleExport

  // ---- Stored campaigns ----------------------------------------------------------------

  ghost predicate In<R>(t: Table<R>, cid: Id, id: Id) {
    id in t && t[id].campaign == cid
  }

  ghost predicate RefIn<R>(r: Option<Id>, t: Table<R>, cid: Id) {
    r.Some? ==> In(t, cid, r.value)
  }

  // One Butler, and every voice parses.
  ghost predicate AgentsSound(t: Table<AgentRow>, cid: Id) {
    && (exists i :: In(t, cid, i) && t[i].row.role == Butler)
    && (forall i, j :: In(t, cid, i) && In(t, cid, j) && t[i].row.role == Butler == t[j].row.role ==> i == j)
    && (forall i :: In(t, cid, i) ==> t[i].row.voice != Garbage)
  }

  ghost predicate MapSound(db: Db, cid: Id, id: Id, row: MapRow) {
    && RefIn(row.parent, db.maps, cid) && row.parent != Some(id) && RefIn(row.anchor, db.nodes, cid)
    && forall k :: 0 <= k < |row.pins| ==> In(db.nodes, cid, row.pins[k].node)
  }

  // Lines are stored under their own replay key; an appearance names a stored entry and line.
  ghost predicate SessionSound(nodes: Table<NodeRow>, cid: Id, row: SessionRow) {
    && (forall k :: k in row.lines ==> row.lines[k].lineId == k)
    && (forall k :: k in row.appearances ==> In(nodes, cid, k.0) && k.1 in row.lines)
  }

  // What the schema's foreign keys and checks keep of a stored campaign.
  ghost predicate WellFormed(db: Db, cid: Id) {
    && cid in db.campaigns
    && AgentsSound(db.agents, cid)
    && (forall i :: In(db.nodes, cid, i) ==> RefIn(db.nodes[i].row.agent, db.agents, cid))
    && (forall i :: In(db.edges, cid, i) ==> In(db.nodes, cid, db.edges[i].row.from) && In(db.nodes, cid, db.edges[i].row.to))
    && (forall i :: In(db.maps, cid, i) ==> MapSound(db, cid, i, db.maps[i].row))
    && (forall i :: In(db.boards, cid, i) ==> forall k :: 0 <= k < |db.boards[i].row.nodes| ==> In(db.nodes, cid, db.boards[i].row.nodes[k]))
    && (forall i :: In(db.threads, cid, i) ==> ThreadOk(db.threads[i].row))
    && (forall i :: In(db.sessions, cid, i) ==> SessionSound(db.nodes, cid, db.sessions[i].row))
  }

  // Uploads accept raster images only.
  ghost predicate RasterBlobs(blobs: map<Id, Image>) {
    forall k :: k in blobs ==> RasterImageType(blobs[k].contentType)
  }

  // ---- Renamings -------------------------------------------------------------------------

  function Pairing(xs: seq<Id>, ys: seq<Id>): map<Id, Id> {
    if |xs| == 0 || |ys| == 0 then map[]
    else Pairing(xs[..|xs| - 1], ys[..|ys| - 1])[xs[|xs| - 1] := ys[|ys| - 1]]
  }

  lemma {:induction false} PairingAt(xs: seq<Id>, ys: seq<Id>)
    requires |xs| == |ys| && Distinct(xs)
    ensures forall k :: 0 <= k < |xs| ==> xs[k] in Pairing(xs, ys) && Pairing(xs, ys)[xs[k]] == ys[k]
    ensures forall i :: i in Pairing(xs, ys) <==> i in xs
  {
    if xs != [] {
      var n := |xs| - 1;
      PairingAt(xs[..n], ys[..n]);
      assert xs == xs[..n] + [xs[n]];
      forall k | 0 <= k < |xs| ensures xs[k] in Pairing(xs, ys) && Pairing(xs, ys)[xs[k]] == ys[k] {
        if k < n { assert xs[..n][k] == xs[k] && ys[..n][k] == ys[k]; }
      }
    }
  }

  // f pairs the rows of one campaign with the rows of another, one to one and onto.
  ghost predicate Bijection<R, S>(f: map<Id, Id>, t: Table<R>, cid: Id, t': Table<S>, cid': Id) {
    && (forall i :: i in f <==> In(t, cid, i))
    && (forall i :: i in f ==> In(t', cid', f[i]))
    && Injective(f)
    && (forall j :: In(t', cid', j) ==> exists i :: i in f && f[i] == j)
  }

  lemma ListsBijection<R, S>(t: Table<R>, cid: Id, order: seq<Id>, t': Table<S>, cid': Id, ids: seq<Id>)
    requires Lists(t, cid, order) && Lists(t', cid', ids) && |order| == |ids|
    ensures Bijection(Pairing(order, ids), t, cid, t', cid')
    ensures forall k :: 0 <= k < |ids| ==> order[k] in Pairing(order, ids) && Pairing(order, ids)[order[k]] == ids[k]
  {
    hide Pairing;
    PairingAt(order, ids);
    var f := Pairing(order, ids);
    forall j | In(t', cid', j) ensures exists i :: i in f && f[i] == j {
      var k :| 0 <= k < |ids| && ids[k] == j;
      assert f[order[k]] == j;
    }
  }

  // The rows an import added are the rows of its campaign.
  lemma AddedLists<S>(before: Table<S>, after: Table<S>, cid: Id, ids: seq<Id>, rows: seq<S>, lo: Id, hi: Id)
    requires Added(before, after, cid, ids, rows, lo, hi) && Fresh(before, lo) && lo <= cid
    ensures Lists(after, cid, ids) && |ids| == |rows|
    ensures forall k :: 0 <= k < |ids| ==> ids[k] in after && after[ids[k]].row == rows[k]
  {
  }

  lemma AgentsLists(before: Table<AgentRow>, after: Table<AgentRow>, cid: Id, butler: Id, xs: seq<Agent>, ids: seq<Id>,
                    defaults: map<string, Option<string>>, lo: Id, hi: Id)
    requires AgentsAdded(before, after, cid, butler, xs, ids, defaults, lo, hi) && Fresh(before, lo) && lo <= cid && |ids| == |xs|
    requires exists k :: 0 <= k < |xs| && IsButler(xs[k])
    ensures Lists(after, cid, ids)
    ensures forall k :: 0 <= k < |ids| ==> ids[k] in after && after[ids[k]].row == AgentRowOf(xs[k])
  {
    hide AgentRowOf, DefaultButler, IsButler;
    var b :| 0 <= b < |xs| && IsButler(xs[b]);
    assert ids[b] == butler;
  }

  ghost predicate RendersAll<R>(refs: seq<string>, t: Table<R>, cid: Id, order: seq<Id>, render: Render) {
    Lists(t, cid, order) && |refs| == |order| && forall k :: 0 <= k < |order| ==> refs[k] == render(order[k])
  }

  // The reference map the importer built answers a rendered source id exactly where f is
  // defined, and with f's value.
  ghost predicate Agrees(m: map<string, Id>, f: map<Id, Id>, render: Render) {
    && (forall i :: render(i) in m <==> i in f)
    && (forall i :: i in f ==> render(i) in m && m[render(i)] == f[i])
  }

  lemma AgreesByPosition<R>(t: Table<R>, cid: Id, m: map<string, Id>, refs: seq<string>, order: seq<Id>, ids: seq<Id>, render: Render)
    requires Indexes(m, refs, ids) && RendersAll(refs, t, cid, order, render) && |order| == |ids| && Faithful(render)
    ensures Agrees(m, Pairing(order, ids), render)
  {
    PairingAt(order, ids);
    hide Pairing;
  }

  // ---- The copy of a row -------------------------------------------------------------------

  function To(i: Id, f: map<Id, Id>): Id {
    if i in f then f[i] else 0
  }

  function Renamed(r: Option<Id>, f: map<Id, Id>): Option<Id> {
    if r.Some? then Some(To(r.value, f)) else None
  }

  function Kept(ids: seq<Id>, f: map<Id, Id>): seq<Id> {
    if ids == [] then []
    else Kept(ids[..|ids| - 1], f) + (if ids[|ids| - 1] in f then [f[ids[|ids| - 1]]] else [])
  }

  function CanonicalVoice(raw: VoiceJson): VoiceJson {
    if ExportVoice(raw).Some? then ExportVoice(raw).value else raw
  }

  // A canonical voice decodes to the same voice, and is its own canonical form.
  lemma CanonicalVoiceIsSame(raw: VoiceJson)
    requires raw != Garbage
    ensures VoiceFromJson(CanonicalVoice(raw)) == VoiceFromJson(raw)
    ensures CanonicalVoice(CanonicalVoice(raw)) == CanonicalVoice(raw)
    ensures if VoiceFromJson(raw) == Some(Voice("", "", "", "", "", map[])) then CanonicalVoice(raw) == Absent
            else CanonicalVoice(raw).Json? && CanonicalVoice(raw).v.settings != ""
  {
  }

  function AgentCopy(row: AgentRow): AgentRow {
    row.(voice := CanonicalVoice(row.voice), addressOnly := row.role == Butler || row.addressOnly)
  }

  function NodeCopy(row: NodeRow, agents: map<Id, Id>): NodeRow {
    row.(agent := Renamed(row.agent, agents))
  }

  function EdgeCopy(row: EdgeRow, nodes: map<Id, Id>): EdgeRow {
    row.(from := To(row.from, nodes), to := To(row.to, nodes))
  }

  function PinCopies(pins: seq<PinRow>, nodes: map<Id, Id>): seq<PinRow> {
    seq(|pins|, k requires 0 <= k < |pins| => pins[k].(node := To(pins[k].node, nodes)))
  }

  function MapCopy(row: MapRow, nodes: map<Id, Id>, maps: map<Id, Id>, key: Option<Id>): MapRow {
    row.(parent := Renamed(row.parent, maps), anchor := Renamed(row.anchor, nodes), pins := PinCopies(row.pins, nodes), blobKey := key)
  }

  // The copy of an image that was exported with its bytes, and no key otherwise.
  ghost predicate ImageCopied(image: Option<Image>, key: Option<Id>, blobs: map<Id, Image>) {
    if image.Some? && image.value.data != [] then key.Some? && key.value in blobs && blobs[key.value] == image.value
    else key == None
  }

  // With images asked for, a map whose bytes exist and are not empty has a copy of them under its
  // new key; any other map has no key.
  ghost predicate ImageKept(row: MapRow, srcBlobs: map<Id, Image>, withImages: bool, key: Option<Id>, dstBlobs: map<Id, Image>) {
    if withImages && row.blobKey.Some? && row.blobKey.value in srcBlobs && srcBlobs[row.blobKey.value].data != []
    then key.Some? && key.value in dstBlobs && dstBlobs[key.value] == srcBlobs[row.blobKey.value]
    else key == None
  }

  function BoardCopy(row: BoardRow, nodes: map<Id, Id>): BoardRow {
    row.(nodes := seq(|row.nodes|, k requires 0 <= k < |row.nodes| => To(row.nodes[k], nodes)))
  }

  function ChunkCopy(row: ChunkRow, agents: map<Id, Id>): ChunkRow {
    row.(participants := Kept(row.participants, agents))
  }

  function TerminalStatus(s: Status): Status {
    if s == Failed then Failed else Ended
  }

  ghost predicate AppearancesCopied(m: map<(Id, string), Time>, m': map<(Id, string), Time>, nodes: map<Id, Id>) {
    && (forall k :: k in m ==> (To(k.0, nodes), k.1) in m' && m'[(To(k.0, nodes), k.1)] == m[k])
    && (forall k' :: k' in m' ==> exists k :: k in m && (To(k.0, nodes), k.1) == k')
  }

  // Terminal, ended, with the participants that are agents of the campaign.
  ghost predicate SessionCopied(row: SessionRow, row': SessionRow, agents: map<Id, Id>, nodes: map<Id, Id>) {
    && row'.startedAt == row.startedAt && row'.lineCount == row.lineCount && row'.endReason == row.endReason
    && row'.endedAt == Some(if row.endedAt.Some? then row.endedAt.value else row.startedAt)
    && row'.status == TerminalStatus(row.status)
    && row'.lines == row.lines
    && row'.chunks == seq(|row.chunks|, k requires 0 <= k < |row.chunks| => ChunkCopy(row.chunks[k], agents))
    && AppearancesCopied(row.appearances, row'.appearances, nodes)
  }

  datatype Renaming = Renaming(agents: map<Id, Id>, nodes: map<Id, Id>, edges: map<Id, Id>, characters: map<Id, Id>,
                               maps: map<Id, Id>, boards: map<Id, Id>, threads: map<Id, Id>, sessions: map<Id, Id>)

  ghost predicate AgentsCopied(f: Renaming, src: Db, cid: Id, dst: Db, cid': Id) {
    && Bijection(f.agents, src.agents, cid, dst.agents, cid')
    && forall i :: i in f.agents ==> dst.agents[f.agents[i]].row == AgentCopy(src.agents[i].row)
  }

  ghost predicate NodesCopied(f: Renaming, src: Db, cid: Id, dst: Db, cid': Id) {
    && Bijection(f.nodes, src.nodes, cid, dst.nodes, cid')
    && forall i :: i in f.nodes ==> dst.nodes[f.nodes[i]].row == NodeCopy(src.nodes[i].row, f.agents)
  }

  ghost predicate EdgesCopied(f: Renaming, src: Db, cid: Id, dst: Db, cid': Id) {
    && Bijection(f.edges, src.edges, cid, dst.edges, cid')
    && forall i :: i in f.edges ==> dst.edges[f.edges[i]].row == EdgeCopy(src.edges[i].row, f.nodes)
  }

  ghost predicate SameRows<R>(f: map<Id, Id>, t: Table<R>, cid: Id, t': Table<R>, cid': Id) {
    && Bijection(f, t, cid, t', cid')
    && forall i :: i in f ==> t'[f[i]].row == t[i].row
  }

  ghost predicate MapsCopied(f: Renaming, src: Db, srcBlobs: map<Id, Image>, cid: Id, dst: Db, dstBlobs: map<Id, Image>, cid': Id, withImages: bool) {
    && Bijection(f.maps, src.maps, cid, dst.maps, cid')
    && forall i :: i in f.maps ==>
         var row, row' := src.maps[i].row, dst.maps[f.maps[i]].row;
         && row' == MapCopy(row, f.nodes, f.maps, row'.blobKey)
         && ImageKept(row, srcBlobs, withImages, row'.blobKey, dstBlobs)
  }

  ghost predicate BoardsCopied(f: Renaming, src: Db, cid: Id, dst: Db, cid': Id) {
    && Bijection(f.boards, src.boards, cid, dst.boards, cid')
    && forall i :: i in f.boards ==> dst.boards[f.boards[i]].row == BoardCopy(src.boards[i].row, f.nodes)
  }

  ghost predicate HistoryCopied(f: Renaming, src: Db, cid: Id, dst: Db, cid': Id) {
    && Bijection(f.sessions, src.sessions, cid, dst.sessions, cid')
    && forall i :: i in f.sessions ==> SessionCopied(src.sessions[i].row, dst.sessions[f.sessions[i]].row, f.agents, f.nodes)
  }

  // The two campaigns are the same up to the renaming f and the stated normalisations.
  ghost predicate Isomorphic(f: Renaming, src: Db, srcBlobs: map<Id, Image>, cid: Id, dst: Db, dstBlobs: map<Id, Image>, cid': Id,
                             withHistory: bool, withImages: bool)
  {
    && cid in src.campaigns && cid' in dst.campaigns && dst.campaigns[cid'] == src.campaigns[cid]
    && AgentsCopied(f, src, cid, dst, cid') && NodesCopied(f, src, cid, dst, cid') && EdgesCopied(f, src, cid, dst, cid')
    && SameRows(f.characters, src.characters, cid, dst.characters, cid')
    && MapsCopied(f, src, srcBlobs, cid, dst, dstBlobs, cid', withImages)
    && BoardsCopied(f, src, cid, dst, cid')
    && SameRows(f.threads, src.threads, cid, dst.threads, cid')
    && if withHistory then HistoryCopied(f, src, cid, dst, cid') else forall i :: !In(dst.sessions, cid', i)
  }

  function RenamingOf(o: Order, m: Minted): Renaming {
    Renaming(Pairing(o.agents, m.agentIds), Pairing(o.nodes, m.nodeIds), Pairing(o.edges, m.edges),
             Pairing(o.characters, m.characters), Pairing(o.maps, m.mapIds), Pairing(o.boards, m.boards),
             Pairing(o.threads, m.threads), Pairing(o.sessions, m.sessions))
  }

  // ---- Reading back what was written -------------------------------------------------------

  lemma ReadRef(r: Option<Id>, m: map<string, Id>, f: map<Id, Id>, render: Render)
    requires Agrees(m, f, render) && Faithful(render) && (r.Some? ==> r.value in f)
    ensures Ref(RefText(r, render), m) == Renamed(r, f)
  {
  }

  lemma {:induction false} ReadParticipants(ids: seq<Id>, m: map<string, Id>, f: map<Id, Id>, render: Render)
    requires Agrees(m, f, render)
    ensures KnownParticipants(Texts(ids, render), m) == Kept(ids, f)
  {
    if ids != [] {
      var front := ids[..|ids| - 1];
      ReadParticipants(front, m, f, render);
      assert Texts(ids, render)[..|ids| - 1] == Texts(front, render);
    }
  }

  ghost predicate RecordedAt(r: map<(Id, string), Time>, keys: seq<(Id, string)>, m: map<(Id, string), Time>, f: map<Id, Id>) {
    && (forall k :: 0 <= k < |keys| ==>
          keys[k] in m && (To(keys[k].0, f), keys[k].1) in r && r[(To(keys[k].0, f), keys[k].1)] == m[keys[k]])
    && (forall k' :: k' in r ==> exists k :: 0 <= k < |keys| && (To(keys[k].0, f), keys[k].1) == k')
  }

  ghost predicate Injective(f: map<Id, Id>) {
    forall i, j :: i in f && j in f && f[i] == f[j] ==> i == j
  }

  ghost predicate RefsKnown(m: map<(Id, string), Time>, f: map<Id, Id>, lines: set<string>) {
    forall k :: k in m ==> k.0 in f && k.1 in lines
  }

  // Distinct appearances stay distinct under an injective renaming, so each is recorded.
  lemma {:induction false} ReadAppearances(xs: seq<Appearance>, keys: seq<(Id, string)>, m: map<(Id, string), Time>, nodes: map<string, Id>,
                                           f: map<Id, Id>, lines: set<string>, render: Render)
    requires AppearancesAt(xs, keys, m, render) && Agrees(nodes, f, render) && RefsKnown(m, f, lines) && Injective(f)
    requires forall i, j :: 0 <= i < j < |keys| ==> keys[i] != keys[j]
    ensures RecordedAt(AppearanceMap(xs, nodes, lines), keys, m, f)
  {
    if xs != [] {
      var n := |xs| - 1;
      ReadAppearances(xs[..n], keys[..n], m, nodes, f, lines, render);
      var was, id, line := AppearanceMap(xs[..n], nodes, lines), To(keys[n].0, f), keys[n].1;
      assert xs[n].nodeId in nodes && nodes[xs[n].nodeId] == id && line in lines;
      NewRecord(was, keys, n, m, f);
      assert AppearanceMap(xs, nodes, lines) == was[(id, line) := m[keys[n]]];
    }
  }

  lemma NewRecord(was: map<(Id, string), Time>, keys: seq<(Id, string)>, n: nat, m: map<(Id, string), Time>, f: map<Id, Id>)
    requires n + 1 == |keys| && RecordedAt(was, keys[..n], m, f) && Injective(f)
    requires forall k :: 0 <= k < |keys| ==> keys[k] in m && keys[k].0 in f
    requires forall i, j :: 0 <= i < j < |keys| ==> keys[i] != keys[j]
    ensures (To(keys[n].0, f), keys[n].1) !in was
    ensures RecordedAt(was[(To(keys[n].0, f), keys[n].1) := m[keys[n]]], keys, m, f)
  {
    var key := (To(keys[n].0, f), keys[n].1);
    var r := was[key := m[keys[n]]];
    assert forall k :: 0 <= k < n ==> keys[..n][k] == keys[k];
    forall k | 0 <= k < n ensures (To(keys[k].0, f), keys[k].1) != key {
      assert keys[k] != keys[n];
    }
    forall k' | k' in r ensures exists k :: 0 <= k < |keys| && (To(keys[k].0, f), keys[k].1) == k' {
      if k' != key {
        var k :| 0 <= k < n && (To(keys[..n][k].0, f), keys[..n][k].1) == k';
        assert (To(keys[k].0, f), keys[k].1) == k';
      } else {
        assert (To(keys[n].0, f), keys[n].1) == k';
      }
    }
  }

  lemma ReadAllAppearances(xs: seq<Appearance>, m: map<(Id, string), Time>, nodes: map<string, Id>, f: map<Id, Id>, lines: set<string>, render: Render)
    requires AppearancesDescribed(xs, m, render) && Agrees(nodes, f, render) && RefsKnown(m, f, lines) && Injective(f)
    ensures AppearancesCopied(m, AppearanceMap(xs, nodes, lines), f)
  {
    var keys: seq<(Id, string)> :| ListsKeys(keys, m) && AppearancesAt(xs, keys, m, render);
    ReadAppearances(xs, keys, m, nodes, f, lines, render);
    AppearancesFromKeys(m, AppearanceMap(xs, nodes, lines), keys, f);
  }

  lemma ReadSession(s: Session, id: Id, row: SessionRow, agentIds: map<string, Id>, nodeIds: map<string, Id>,
                    agents: map<Id, Id>, nodes: map<Id, Id>, render: Render)
    requires SessionDescribed(s, id, row, render) && Agrees(agentIds, agents, render) && Agrees(nodeIds, nodes, render)
    requires RefsKnown(row.appearances, nodes, row.lines.Keys) && Injective(nodes)
    ensures SessionCopied(row, SessionRowOf(s, agentIds, nodeIds), agents, nodes)
  {
    hide LineMap, AppearanceMap, KnownParticipants, Kept, AppearancesDescribed, AppearancesCopied, Agrees, Injective, RefsKnown, DistinctLines;
    hide ChunkRows, ChunkEntries;
    ReadAllAppearances(s.appearances, row.appearances, nodeIds, nodes, row.lines.Keys, render);
    ReadChunks(row.chunks, agentIds, agents, render);
  }

  lemma AppearancesFromKeys(m: map<(Id, string), Time>, r: map<(Id, string), Time>, keys: seq<(Id, string)>, f: map<Id, Id>)
    requires ListsKeys(keys, m) && RecordedAt(r, keys, m, f)
    ensures AppearancesCopied(m, r, f)
  {
    forall k | k in m ensures (To(k.0, f), k.1) in r && r[(To(k.0, f), k.1)] == m[k] {
      var j :| 0 <= j < |keys| && keys[j] == k;
    }
    forall k' | k' in r ensures exists k :: k in m && (To(k.0, f), k.1) == k' {
      var j :| 0 <= j < |keys| && (To(keys[j].0, f), keys[j].1) == k';
      assert keys[j] in m;
    }
  }

  lemma ReadChunks(rows: seq<ChunkRow>, m: map<string, Id>, f: map<Id, Id>, render: Render)
    requires Agrees(m, f, render)
    ensures ChunkRows(ChunkEntries(rows, render), m) == seq(|rows|, k requires 0 <= k < |rows| => ChunkCopy(rows[k], f))
  {
    hide KnownParticipants, Kept;
    forall k | 0 <= k < |rows| ensures ChunkRowOf(ChunkEntry(rows[k], render), m) == ChunkCopy(rows[k], f) {
      ReadParticipants(rows[k].participants, m, f, render);
    }
  }

  // ---- The exported document is importable ------------------------------------------------

  lemma DescribedRefs<R>(t: Table<R>, cid: Id, order: seq<Id>, refs: seq<string>, render: Render)
    requires RendersAll(refs, t, cid, order, render) && Faithful(render)
    ensures forall i, j :: 0 <= i < j < |refs| ==> refs[i] != refs[j]
    ensures forall i :: In(t, cid, i) <==> render(i) in refs
  {
    forall i | In(t, cid, i) ensures render(i) in refs {
      var k :| 0 <= k < |order| && order[k] == i;
      assert refs[k] == render(i);
    }
  }

  lemma AgentRefsSeq(xs: seq<Agent>)
    ensures AgentRefs(xs) == set r | r in AgentRefSeq(xs)
  {
    forall k | 0 <= k < |xs| ensures xs[k].id in AgentRefSeq(xs) { assert AgentRefSeq(xs)[k] == xs[k].id; }
  }

  lemma NodeRefsSeq(xs: seq<Node>)
    ensures NodeRefs(xs) == set r | r in NodeRefSeq(xs)
  {
    forall k | 0 <= k < |xs| ensures xs[k].id in NodeRefSeq(xs) { assert NodeRefSeq(xs)[k] == xs[k].id; }
  }

  lemma MapRefsSeq(xs: seq<Map>)
    ensures MapRefs(xs) == set r | r in MapRefSeq(xs)
  {
    forall k | 0 <= k < |xs| ensures xs[k].id in MapRefSeq(xs) { assert MapRefSeq(xs)[k] == xs[k].id; }
  }

  lemma AgentsImportable(xs: seq<Agent>, t: Table<AgentRow>, cid: Id, order: seq<Id>, render: Render)
    requires AgentsDescribed(xs, t, cid, order, render) && AgentsSound(t, cid) && Faithful(render)
    ensures AgentsOk(xs, |xs|) && (exists k :: 0 <= k < |xs| && IsButler(xs[k]))
    ensures forall i :: In(t, cid, i) <==> render(i) in AgentRefs(xs)
    ensures RendersAll(AgentRefSeq(xs), t, cid, order, render) && |xs| == |order| && Lists(t, cid, order)
  {
    hide GrantMap, AgentOk, IsButler, AgentDescribed;
    forall k | 0 <= k < |xs|
      ensures AgentOk(xs[k]) && (IsButler(xs[k]) <==> t[order[k]].row.role == Butler) && xs[k].id == render(order[k]) && In(t, cid, order[k])
    {
      assert In(t, cid, order[k]);
      AgentImportable(xs[k], order[k], t[order[k]].row, render);
    }
    assert forall k :: 0 <= k < |xs| ==> AgentRefSeq(xs)[k] == xs[k].id;
    DescribedRefs(t, cid, order, AgentRefSeq(xs), render);
    AgentRefsSeq(xs);
    var b :| In(t, cid, b) && t[b].row.role == Butler;
    var k :| 0 <= k < |order| && order[k] == b;
    assert IsButler(xs[k]);
  }

  lemma AgentImportable(a: Agent, id: Id, row: AgentRow, render: Render)
    requires AgentDescribed(a, id, row, render) && row.voice != Garbage
    ensures AgentOk(a) && (IsButler(a) <==> row.role == Butler) && a.id == render(id)
  {
    hide GrantMap;
    CanonicalVoiceIsSame(row.voice);
  }

  lemma NodesImportable(xs: seq<Node>, t: Table<NodeRow>, cid: Id, order: seq<Id>, agents: Table<AgentRow>, refs: set<string>, render: Render)
    requires NodesDescribed(xs, t, cid, order, render) && Faithful(render)
    requires forall i :: In(t, cid, i) ==> RefIn(t[i].row.agent, agents, cid)
    requires forall i :: In(agents, cid, i) <==> render(i) in refs
    ensures NodesOk(xs, |xs|, refs)
    ensures forall i :: In(t, cid, i) <==> render(i) in NodeRefs(xs)
  {
    assert forall k :: 0 <= k < |xs| ==> NodeRefSeq(xs)[k] == xs[k].id;
    DescribedRefs(t, cid, order, NodeRefSeq(xs), render);
    NodeRefsSeq(xs);
    forall k | 0 <= k < |xs| ensures xs[k].agentId == "" || xs[k].agentId in refs {
      assert In(t, cid, order[k]);
    }
  }

  lemma MapsImportable(xs: seq<Map>, db: Db, cid: Id, order: seq<Id>, blobs: map<Id, Image>, withImages: bool, refs: set<string>,
                       hasBlobs: bool, render: Render)
    requires MapsDescribed(xs, db.maps, cid, order, blobs, withImages, render) && Faithful(render) && RasterBlobs(blobs)
    requires forall i :: In(db.maps, cid, i) ==> MapSound(db, cid, i, db.maps[i].row)
    requires forall i :: In(db.nodes, cid, i) <==> render(i) in refs
    ensures MapsOk(xs, refs, hasBlobs) <==> (hasBlobs || forall k :: 0 <= k < |xs| ==> xs[k].image == Empty)
    ensures forall i :: In(db.maps, cid, i) <==> render(i) in MapRefs(xs)
  {
    assert forall k :: 0 <= k < |xs| ==> MapRefSeq(xs)[k] == xs[k].id;
    DescribedRefs(db.maps, cid, order, MapRefSeq(xs), render);
    MapRefsSeq(xs);
    forall k | 0 <= k < |xs|
      ensures FlatMapOk(xs[k], refs, hasBlobs) <==> (hasBlobs || xs[k].image == Empty)
      ensures xs[k].parentMapId == "" || (xs[k].parentMapId in MapRefs(xs) && xs[k].parentMapId != xs[k].id)
      ensures PinsOk(xs[k].pins, refs)
    {
      MapImportable(xs[k], db, cid, order[k], blobs, withImages, refs, hasBlobs, render);
    }
    hide FlatMapOk, PinsOk;
  }

  lemma MapImportable(m: Map, db: Db, cid: Id, id: Id, blobs: map<Id, Image>, withImages: bool, refs: set<string>, hasBlobs: bool, render: Render)
    requires In(db.maps, cid, id) && m == MapEntry(id, db.maps[id].row, ImageFor(db.maps[id].row, blobs, withImages), render)
    requires MapSound(db, cid, id, db.maps[id].row) && Faithful(render) && RasterBlobs(blobs)
    requires forall i :: In(db.nodes, cid, i) <==> render(i) in refs
    ensures FlatMapOk(m, refs, hasBlobs) <==> (hasBlobs || m.image == Empty)
    ensures m.parentMapId == "" || (exists p :: In(db.maps, cid, p) && m.parentMapId == render(p) && m.parentMapId != m.id)
    ensures PinsOk(m.pins, refs)
  {
    var row := db.maps[id].row;
    if row.parent.Some? { assert In(db.maps, cid, row.parent.value) && m.parentMapId == render(row.parent.value); }
  }

  // The export of a well-formed campaign is importable exactly where its images can be stored.
  lemma ExportIsImportable(b: Bundle, db: Db, blobs: map<Id, Image>, cid: Id, o: Order, withHistory: bool, withImages: bool,
                           render: Render, hasBlobs: bool)
    requires WellFormed(db, cid) && RasterBlobs(blobs) && Faithful(render)
    requires Describes(b, db, blobs, cid, o, withHistory, withImages, render)
    ensures Importable(b, hasBlobs) <==> (hasBlobs || forall k :: 0 <= k < |b.maps| ==> b.maps[k].image == Empty)
  {
    hide AgentsOk, AgentsDescribed, NodesDescribed, NodesOk, MapsOk, MapsDescribed, SessionsDescribed, SessionSound, AgentsSound, MapSound, ThreadOk;
    AgentsImportable(b.agents, db.agents, cid, o.agents, render);
    NodesImportable(b.nodes, db.nodes, cid, o.nodes, db.agents, AgentRefs(b.agents), render);
    MapsImportable(b.maps, db, cid, o.maps, blobs, withImages, NodeRefs(b.nodes), hasBlobs, render);
    forall k | 0 <= k < |b.edges| ensures b.edges[k].from in NodeRefs(b.nodes) && b.edges[k].to in NodeRefs(b.nodes) {
      assert In(db.edges, cid, o.edges[k]);
    }
    forall k | 0 <= k < |b.boards| ensures BoardOk(b.boards[k], NodeRefs(b.nodes)) {
      assert In(db.boards, cid, o.boards[k]);
    }
    forall k | 0 <= k < |b.threads| ensures ThreadOk(b.threads[k]) {
      assert In(db.threads, cid, o.threads[k]);
    }
  }

  // ---- The copies --------------------------------------------------------------------------

  // A pair of rows sits at one position of the two lists.
  lemma PairedRows<R, S>(t: Table<R>, cid: Id, t': Table<S>, cid': Id, order: seq<Id>, ids: seq<Id>)
    requires Lists(t, cid, order) && Lists(t', cid', ids) && |order| == |ids|
    ensures forall i :: i in Pairing(order, ids) ==> i in t && Pairing(order, ids)[i] in t'
    ensures forall i :: i in Pairing(order, ids) ==> exists k :: 0 <= k < |order| && order[k] == i && Pairing(order, ids)[i] == ids[k]
  {
    hide Pairing;
    PairingAt(order, ids);
    forall i | i in Pairing(order, ids)
      ensures exists k :: 0 <= k < |order| && order[k] == i && Pairing(order, ids)[i] == ids[k]
    {
      var k :| 0 <= k < |order| && order[k] == i;
      assert Pairing(order, ids)[i] == ids[k];
    }
  }

  lemma AgentRead(a: Agent, id: Id, row: AgentRow, render: Render)
    requires AgentDescribed(a, id, row, render)
    ensures AgentRowOf(a) == AgentCopy(row)
  {
    hide GrantMap, DistinctTools, VoiceFromJson, VoiceToJson;
  }

  lemma AgentCopies(f: map<Id, Id>, t: Table<AgentRow>, cid: Id, order: seq<Id>, xs: seq<Agent>, t': Table<AgentRow>, cid': Id, ids: seq<Id>, render: Render)
    requires AgentsDescribed(xs, t, cid, order, render) && Lists(t', cid', ids) && |order| == |ids| && f == Pairing(order, ids)
    requires forall k :: 0 <= k < |ids| ==> ids[k] in t' && k < |xs| && t'[ids[k]].row == AgentRowOf(xs[k])
    ensures forall i :: i in f ==> i in t && f[i] in t' && t'[f[i]].row == AgentCopy(t[i].row)
  {
    hide AgentDescribed, AgentRowOf, AgentCopy, Pairing;
    PairedRows(t, cid, t', cid', order, ids);
    forall i | i in f ensures t'[f[i]].row == AgentCopy(t[i].row) {
      var k :| 0 <= k < |order| && order[k] == i && f[i] == ids[k];
      AgentRead(xs[k], i, t[i].row, render);
    }
  }

  lemma AgentsRead(f: Renaming, src: Db, cid: Id, order: seq<Id>, xs: seq<Agent>, before: Db, dst: Db, m: Minted,
                   defaults: map<string, Option<string>>, render: Render)
    requires AgentsDescribed(xs, src.agents, cid, order, render) && AgentsSound(src.agents, cid) && Faithful(render)
    requires AgentsAdded(before.agents, dst.agents, m.campaign, m.butler, xs, m.agentIds, defaults, before.next, dst.next)
    requires Fresh(before.agents, before.next) && before.next <= m.campaign && |m.agentIds| == |xs|
    requires Indexes(m.agents, AgentRefSeq(xs), m.agentIds)
    requires f.agents == Pairing(order, m.agentIds)
    ensures AgentsCopied(f, src, cid, dst, m.campaign) && Agrees(m.agents, f.agents, render)
  {
    hide Agrees, Indexes, AgentsAdded, AgentsDescribed, AgentsSound, Pairing, AgentsOk, Fresh, Bijection, AgentRowOf, AgentCopy, Faithful, IsButler;
    hide Lists, AgentRefSeq, AgentRefs;
    AgentsImportable(xs, src.agents, cid, order, render);
    AgentsLists(before.agents, dst.agents, m.campaign, m.butler, xs, m.agentIds, defaults, before.next, dst.next);
    ListsBijection(src.agents, cid, order, dst.agents, m.campaign, m.agentIds);
    AgreesByPosition(src.agents, cid, m.agents, AgentRefSeq(xs), order, m.agentIds, render);
    AgentCopies(f.agents, src.agents, cid, order, xs, dst.agents, m.campaign, m.agentIds, render);
  }

  lemma NodeCopies(f: map<Id, Id>, t: Table<NodeRow>, cid: Id, order: seq<Id>, xs: seq<Node>, t': Table<NodeRow>, cid': Id, ids: seq<Id>,
                   m: map<string, Id>, agents: map<Id, Id>, render: Render)
    requires NodesDescribed(xs, t, cid, order, render) && Lists(t', cid', ids) && |order| == |ids| && f == Pairing(order, ids)
    requires forall k :: 0 <= k < |ids| ==> ids[k] in t' && k < |xs| && t'[ids[k]].row == NodeRows(xs, |xs|, m)[k]
    requires Agrees(m, agents, render) && Faithful(render)
    requires forall i :: In(t, cid, i) && t[i].row.agent.Some? ==> t[i].row.agent.value in agents
    ensures forall i :: i in f ==> i in t && f[i] in t' && t'[f[i]].row == NodeCopy(t[i].row, agents)
  {
    hide Pairing, Agrees, Faithful;
    PairedRows(t, cid, t', cid', order, ids);
    forall i | i in f ensures t'[f[i]].row == NodeCopy(t[i].row, agents) {
      var k :| 0 <= k < |order| && order[k] == i && f[i] == ids[k];
      assert In(t, cid, i);
      ReadRef(t[i].row.agent, m, agents, render);
    }
  }

  lemma NodesRead(f: Renaming, src: Db, cid: Id, order: seq<Id>, xs: seq<Node>, before: Db, dst: Db, m: Minted, render: Render)
    requires NodesDescribed(xs, src.nodes, cid, order, render) && Faithful(render)
    requires Added(before.nodes, dst.nodes, m.campaign, m.nodeIds, NodeRows(xs, |xs|, m.agents), before.next, dst.next)
    requires Fresh(before.nodes, before.next) && before.next <= m.campaign && Indexes(m.nodes, NodeRefSeq(xs), m.nodeIds)
    requires f.nodes == Pairing(order, m.nodeIds) && Agrees(m.agents, f.agents, render)
    requires forall i :: In(src.nodes, cid, i) && src.nodes[i].row.agent.Some? ==> src.nodes[i].row.agent.value in f.agents
    ensures NodesCopied(f, src, cid, dst, m.campaign) && Agrees(m.nodes, f.nodes, render)
  {
    hide Added, Agrees, Indexes, Pairing, Fresh, Bijection, NodeCopy, NodeRowOf, Faithful, In;
    AddedLists(before.nodes, dst.nodes, m.campaign, m.nodeIds, NodeRows(xs, |xs|, m.agents), before.next, dst.next);
    ListsBijection(src.nodes, cid, order, dst.nodes, m.campaign, m.nodeIds);
    assert RendersAll(NodeRefSeq(xs), src.nodes, cid, order, render);
    AgreesByPosition(src.nodes, cid, m.nodes, NodeRefSeq(xs), order, m.nodeIds, render);
    NodeCopies(f.nodes, src.nodes, cid, order, xs, dst.nodes, m.campaign, m.nodeIds, m.agents, f.agents, render);
  }

  lemma ReadEdge(row: EdgeRow, m: map<string, Id>, f: map<Id, Id>, render: Render)
    requires Agrees(m, f, render) && row.from in f && row.to in f
    ensures EdgeRowOf(EdgeEntry(row, render), m) == EdgeCopy(row, f)
  {
  }

  lemma ReadBoard(row: BoardRow, m: map<string, Id>, f: map<Id, Id>, render: Render)
    requires Agrees(m, f, render) && forall k :: 0 <= k < |row.nodes| ==> row.nodes[k] in f
    ensures BoardRowOf(Board(row.name, Texts(row.nodes, render)), m) == BoardCopy(row, f)
  {
    assert BoardRowOf(Board(row.name, Texts(row.nodes, render)), m).nodes == BoardCopy(row, f).nodes;
  }

  lemma EdgesRead(f: Renaming, src: Db, cid: Id, order: seq<Id>, xs: seq<Edge>, before: Db, dst: Db, m: Minted, render: Render)
    requires EdgesDescribed(xs, src.edges, cid, order, render)
    requires Added(before.edges, dst.edges, m.campaign, m.edges, EdgeRows(xs, |xs|, m.nodes), before.next, dst.next)
    requires Fresh(before.edges, before.next) && before.next <= m.campaign
    requires f.edges == Pairing(order, m.edges) && Agrees(m.nodes, f.nodes, render)
    requires forall i :: In(src.edges, cid, i) ==> src.edges[i].row.from in f.nodes && src.edges[i].row.to in f.nodes
    ensures EdgesCopied(f, src, cid, dst, m.campaign)
  {
    hide Added, Pairing, Fresh, Bijection, Agrees, EdgeRowOf, EdgeCopy, EdgeEntry;
    AddedLists(before.edges, dst.edges, m.campaign, m.edges, EdgeRows(xs, |xs|, m.nodes), before.next, dst.next);
    ListsBijection(src.edges, cid, order, dst.edges, m.campaign, m.edges);
    PairedRows(src.edges, cid, dst.edges, m.campaign, order, m.edges);
    forall i | i in f.edges ensures dst.edges[f.edges[i]].row == EdgeCopy(src.edges[i].row, f.nodes) {
      var k :| 0 <= k < |order| && order[k] == i && f.edges[i] == m.edges[k];
      assert In(src.edges, cid, i) && dst.edges[m.edges[k]].row == EdgeRowOf(xs[k], m.nodes);
      ReadEdge(src.edges[i].row, m.nodes, f.nodes, render);
    }
  }

  lemma RowsRead<R>(f: map<Id, Id>, t: Table<R>, cid: Id, order: seq<Id>, xs: seq<R>, before: Table<R>, after: Table<R>, cid': Id,
                    ids: seq<Id>, lo: Id, hi: Id)
    requires Copied(xs, t, cid, order) && Added(before, after, cid', ids, xs, lo, hi) && Fresh(before, lo) && lo <= cid'
    requires f == Pairing(order, ids)
    ensures SameRows(f, t, cid, after, cid')
  {
    hide Added, Pairing, Fresh, Bijection;
    AddedLists(before, after, cid', ids, xs, lo, hi);
    ListsBijection(t, cid, order, after, cid', ids);
    PairedRows(t, cid, after, cid', order, ids);
    forall i | i in f ensures after[f[i]].row == t[i].row {
      var k :| 0 <= k < |order| && order[k] == i && f[i] == ids[k];
    }
  }

  lemma BoardsRead(f: Renaming, src: Db, cid: Id, order: seq<Id>, xs: seq<Board>, before: Db, dst: Db, m: Minted, render: Render)
    requires BoardsDescribed(xs, src.boards, cid, order, render)
    requires Added(before.boards, dst.boards, m.campaign, m.boards, BoardRows(xs, |xs|, m.nodes), before.next, dst.next)
    requires Fresh(before.boards, before.next) && before.next <= m.campaign
    requires f.boards == Pairing(order, m.boards) && Agrees(m.nodes, f.nodes, render)
    requires forall i :: In(src.boards, cid, i) ==> forall k :: 0 <= k < |src.boards[i].row.nodes| ==> src.boards[i].row.nodes[k] in f.nodes
    ensures BoardsCopied(f, src, cid, dst, m.campaign)
  {
    hide Added, Pairing, Fresh, Bijection, Agrees, BoardRowOf, BoardCopy, Texts;
    AddedLists(before.boards, dst.boards, m.campaign, m.boards, BoardRows(xs, |xs|, m.nodes), before.next, dst.next);
    ListsBijection(src.boards, cid, order, dst.boards, m.campaign, m.boards);
    PairedRows(src.boards, cid, dst.boards, m.campaign, order, m.boards);
    forall i | i in f.boards ensures dst.boards[f.boards[i]].row == BoardCopy(src.boards[i].row, f.nodes) {
      var k :| 0 <= k < |order| && order[k] == i && f.boards[i] == m.boards[k];
      assert In(src.boards, cid, i) && dst.boards[m.boards[k]].row == BoardRowOf(xs[k], m.nodes);
      ReadBoard(src.boards[i].row, m.nodes, f.nodes, render);
    }
  }

  lemma SessionsRead(f: Renaming, src: Db, cid: Id, order: seq<Id>, xs: seq<Session>, before: Db, dst: Db, m: Minted, render: Render)
    requires SessionsDescribed(xs, src.sessions, cid, order, render)
    requires Added(before.sessions, dst.sessions, m.campaign, m.sessions, SessionRows(xs, |xs|, m.agents, m.nodes), before.next, dst.next)
    requires Fresh(before.sessions, before.next) && before.next <= m.campaign
    requires f.sessions == Pairing(order, m.sessions) && Agrees(m.nodes, f.nodes, render) && Agrees(m.agents, f.agents, render)
    requires Injective(f.nodes)
    requires forall i :: In(src.sessions, cid, i) ==> RefsKnown(src.sessions[i].row.appearances, f.nodes, src.sessions[i].row.lines.Keys)
    ensures HistoryCopied(f, src, cid, dst, m.campaign)
  {
    hide Added, Pairing, Fresh, Bijection, Agrees, Injective, RefsKnown, SessionRowOf, SessionDescribed, SessionCopied;
    AddedLists(before.sessions, dst.sessions, m.campaign, m.sessions, SessionRows(xs, |xs|, m.agents, m.nodes), before.next, dst.next);
    ListsBijection(src.sessions, cid, order, dst.sessions, m.campaign, m.sessions);
    PairedRows(src.sessions, cid, dst.sessions, m.campaign, order, m.sessions);
    forall i | i in f.sessions ensures SessionCopied(src.sessions[i].row, dst.sessions[f.sessions[i]].row, f.agents, f.nodes) {
      var k :| 0 <= k < |order| && order[k] == i && f.sessions[i] == m.sessions[k];
      assert In(src.sessions, cid, i) && dst.sessions[m.sessions[k]].row == SessionRowOf(xs[k], m.agents, m.nodes);
      ReadSession(xs[k], i, src.sessions[i].row, m.agents, m.nodes, f.agents, f.nodes, render);
    }
  }

  // One map: its references renamed, its image under the key minted for it.
  lemma ReadMap(id: Id, row: MapRow, image: Option<Image>, nodeIds: map<string, Id>, mapIds: map<string, Id>,
                nodes: map<Id, Id>, maps: map<Id, Id>, key: Option<Id>, blobs: map<Id, Image>, lo: Id, hi: Id, render: Render)
    requires Agrees(nodeIds, nodes, render) && Agrees(mapIds, maps, render) && Faithful(render)
    requires (row.parent.Some? ==> row.parent.value in maps) && (row.anchor.Some? ==> row.anchor.value in nodes)
    requires forall k :: 0 <= k < |row.pins| ==> row.pins[k].node in nodes
    requires image.Some? ==> RasterImageType(image.value.contentType)
    requires ImageAt(blobs, MapEntry(id, row, image, render), key, lo, hi)
    ensures MapRowOf(MapEntry(id, row, image, render), nodeIds, mapIds, key) == MapCopy(row, nodes, maps, key)
    ensures ImageCopied(image, key, blobs)
  {
    var m := MapEntry(id, row, image, render);
    ReadRef(row.parent, mapIds, maps, render);
    ReadRef(row.anchor, nodeIds, nodes, render);
    assert PinRows(m.pins, nodeIds) == PinCopies(row.pins, nodes);
  }

  ghost predicate MapRefsKnown(row: MapRow, nodes: map<Id, Id>, maps: map<Id, Id>) {
    && (row.parent.Some? ==> row.parent.value in maps) && (row.anchor.Some? ==> row.anchor.value in nodes)
    && forall k :: 0 <= k < |row.pins| ==> row.pins[k].node in nodes
  }

  lemma MapsRead(f: Renaming, src: Db, srcBlobs: map<Id, Image>, cid: Id, order: seq<Id>, xs: seq<Map>, before: Db, dst: Db,
                 beforeBlobs: map<Id, Image>, dstBlobs: map<Id, Image>, m: Minted, loKey: Id, hiKey: Id, withImages: bool, render: Render)
    requires MapsDescribed(xs, src.maps, cid, order, srcBlobs, withImages, render) && Faithful(render) && RasterBlobs(srcBlobs)
    requires |m.keys| == |xs|
    requires Added(before.maps, dst.maps, m.campaign, m.mapIds, MapRows(xs, m.nodes, m.maps, m.keys, |xs|, |xs|), before.next, dst.next)
    requires ImagesStored(beforeBlobs, dstBlobs, xs, m.keys, loKey, hiKey)
    requires Fresh(before.maps, before.next) && before.next <= m.campaign && Indexes(m.maps, MapRefSeq(xs), m.mapIds)
    requires f.maps == Pairing(order, m.mapIds) && Agrees(m.nodes, f.nodes, render)
    requires forall i :: In(src.maps, cid, i) ==> MapRefsKnown(src.maps[i].row, f.nodes, f.maps)
    ensures MapsCopied(f, src, srcBlobs, cid, dst, dstBlobs, m.campaign, withImages)
  {
    hide Added, Pairing, Fresh, Bijection, Agrees, Indexes, Faithful, MapCopy, MapRowOf, MapEntry, ImageCopied, ImageKept, ImageAt, RasterImageType, ImageFor;
    hide MapRefsKnown, ImagesStored, RasterBlobs, MapRefSeq;
    var ids := m.mapIds;
    AddedLists(before.maps, dst.maps, m.campaign, ids, MapRows(xs, m.nodes, m.maps, m.keys, |xs|, |xs|), before.next, dst.next);
    ListsBijection(src.maps, cid, order, dst.maps, m.campaign, ids);
    MapsAgree(src.maps, cid, order, xs, srcBlobs, withImages, m.maps, ids, render);
    forall k | 0 <= k < |xs| ensures MapCopiedAt(f, src, srcBlobs, dst, dstBlobs, order[k], ids[k], withImages) {
      assert order[k] in order && In(src.maps, cid, order[k]);
      assert dst.maps[ids[k]].row == MapRowOf(xs[k], m.nodes, m.maps, m.keys[k]);
      StoredImage(beforeBlobs, dstBlobs, xs, m.keys, loKey, hiKey, k);
      MapIsCopied(f, src, srcBlobs, order[k], dst, dstBlobs, ids[k], m, m.keys[k], loKey, hiKey, withImages, render);
    }
    MapsPaired(f, src, srcBlobs, cid, order, dst, dstBlobs, m.campaign, ids, withImages);
  }

  ghost predicate MapCopiedAt(f: Renaming, src: Db, srcBlobs: map<Id, Image>, dst: Db, dstBlobs: map<Id, Image>, i: Id, j: Id, withImages: bool) {
    i in src.maps && j in dst.maps &&
    var row, row' := src.maps[i].row, dst.maps[j].row;
    && row' == MapCopy(row, f.nodes, f.maps, row'.blobKey)
    && ImageKept(row, srcBlobs, withImages, row'.blobKey, dstBlobs)
  }

  lemma MapsPaired(f: Renaming, src: Db, srcBlobs: map<Id, Image>, cid: Id, order: seq<Id>, dst: Db, dstBlobs: map<Id, Image>, cid': Id,
                   ids: seq<Id>, withImages: bool)
    requires Lists(src.maps, cid, order) && Lists(dst.maps, cid', ids) && |order| == |ids| && f.maps == Pairing(order, ids)
    requires forall k :: 0 <= k < |ids| ==> MapCopiedAt(f, src, srcBlobs, dst, dstBlobs, order[k], ids[k], withImages)
    ensures forall i :: i in f.maps ==> MapCopiedAt(f, src, srcBlobs, dst, dstBlobs, i, f.maps[i], withImages)
  {
    hide MapCopiedAt, Pairing;
    PairedRows(src.maps, cid, dst.maps, cid', order, ids);
  }

  lemma MapIsCopied(f: Renaming, src: Db, srcBlobs: map<Id, Image>, i: Id, dst: Db, dstBlobs: map<Id, Image>, j: Id, m: Minted,
                    key: Option<Id>, loKey: Id, hiKey: Id, withImages: bool, render: Render)
    requires i in src.maps && j in dst.maps && Agrees(m.nodes, f.nodes, render) && Agrees(m.maps, f.maps, render) && Faithful(render)
    requires MapRefsKnown(src.maps[i].row, f.nodes, f.maps) && RasterBlobs(srcBlobs)
    requires var x := MapEntry(i, src.maps[i].row, ImageFor(src.maps[i].row, srcBlobs, withImages), render);
             dst.maps[j].row == MapRowOf(x, m.nodes, m.maps, key) && ImageAt(dstBlobs, x, key, loKey, hiKey)
    ensures MapCopiedAt(f, src, srcBlobs, dst, dstBlobs, i, j, withImages)
  {
    hide Agrees, Faithful, MapEntry, ImageAt;
    var row := src.maps[i].row;
    ReadMap(i, row, ImageFor(row, srcBlobs, withImages), m.nodes, m.maps, f.nodes, f.maps, key, dstBlobs, loKey, hiKey, render);
  }

  lemma StoredImage(before: map<Id, Image>, after: map<Id, Image>, xs: seq<Map>, keys: seq<Option<Id>>, lo: Id, hi: Id, k: nat)
    requires ImagesStored(before, after, xs, keys, lo, hi) && k < |keys| <= |xs|
    ensures ImageAt(after, xs[k], keys[k], lo, hi)
  {
  }

  lemma MapsAgree(t: Table<MapRow>, cid: Id, order: seq<Id>, xs: seq<Map>, blobs: map<Id, Image>, withImages: bool, m: map<string, Id>, ids: seq<Id>, render: Render)
    requires MapsDescribed(xs, t, cid, order, blobs, withImages, render) && Faithful(render)
    requires Indexes(m, MapRefSeq(xs), ids) && |ids| == |xs|
    ensures Agrees(m, Pairing(order, ids), render)
  {
    hide Agrees, Indexes, Pairing, Faithful, ImageFor;
    assert RendersAll(MapRefSeq(xs), t, cid, order, render);
    AgreesByPosition(t, cid, m, MapRefSeq(xs), order, ids, render);
  }

  // ---- The round trip ------------------------------------------------------------------------

  // In a well-formed campaign every reference is renamed: the keys of f are the campaign's rows.
  lemma RefsRenamed(src: Db, cid: Id, f: Renaming)
    requires WellFormed(src, cid)
    requires forall i :: In(src.agents, cid, i) ==> i in f.agents
    ensures forall i :: In(src.nodes, cid, i) && src.nodes[i].row.agent.Some? ==> src.nodes[i].row.agent.value in f.agents
  {
  }

  lemma NodeRefsRenamed(src: Db, cid: Id, f: Renaming)
    requires WellFormed(src, cid)
    requires forall i :: In(src.nodes, cid, i) ==> i in f.nodes
    requires forall i :: In(src.maps, cid, i) ==> i in f.maps
    ensures forall i :: In(src.edges, cid, i) ==> src.edges[i].row.from in f.nodes && src.edges[i].row.to in f.nodes
    ensures forall i :: In(src.boards, cid, i) ==> forall k :: 0 <= k < |src.boards[i].row.nodes| ==> src.boards[i].row.nodes[k] in f.nodes
    ensures forall i :: In(src.maps, cid, i) ==> MapRefsKnown(src.maps[i].row, f.nodes, f.maps)
    ensures forall i :: In(src.sessions, cid, i) ==> RefsKnown(src.sessions[i].row.appearances, f.nodes, src.sessions[i].row.lines.Keys)
  {
    forall i | In(src.sessions, cid, i)
      ensures RefsKnown(src.sessions[i].row.appearances, f.nodes, src.sessions[i].row.lines.Keys)
    {
      assert SessionSound(src.nodes, cid, src.sessions[i].row);
    }
    forall i | In(src.maps, cid, i) ensures MapRefsKnown(src.maps[i].row, f.nodes, f.maps) {
      assert MapSound(src, cid, i, src.maps[i].row);
    }
  }

  lemma BijectionDomain<R, S>(f: map<Id, Id>, t: Table<R>, cid: Id, t': Table<S>, cid': Id)
    requires Bijection(f, t, cid, t', cid')
    ensures Injective(f) && forall i :: In(t, cid, i) ==> i in f
  {
  }

  lemma MapsDomain(t: Table<MapRow>, cid: Id, order: seq<Id>, ids: seq<Id>, xs: seq<Map>, blobs: map<Id, Image>, withImages: bool, render: Render)
    requires MapsDescribed(xs, t, cid, order, blobs, withImages, render) && |xs| == |ids|
    ensures forall i :: In(t, cid, i) ==> i in Pairing(order, ids)
  {
    hide Pairing;
    PairingAt(order, ids);
  }

  lemma NoSessions(before: Db, dst: Db, m: Minted)
    requires Added(before.sessions, dst.sessions, m.campaign, m.sessions, SessionRows([], 0, m.agents, m.nodes), before.next, dst.next)
    requires Fresh(before.sessions, before.next) && before.next <= m.campaign
    ensures forall i :: !In(dst.sessions, m.campaign, i)
  {
  }

  // Importing the export of a well-formed campaign yields that campaign, up to the renaming.
  lemma RoundTrip(src: Db, srcBlobs: map<Id, Image>, cid: Id, b: Bundle, o: Order, withHistory: bool, withImages: bool, render: Render,
                  before: Db, dst: Db, beforeBlobs: map<Id, Image>, dstBlobs: map<Id, Image>, defaults: map<string, Option<string>>,
                  m: Minted, loKey: Id, hiKey: Id)
    requires WellFormed(src, cid) && RasterBlobs(srcBlobs) && Faithful(render)
    requires Describes(b, src, srcBlobs, cid, o, withHistory, withImages, render)
    requires before.Valid() && Restored(before, dst, b, defaults, m) && ImagesStored(beforeBlobs, dstBlobs, b.maps, m.keys, loKey, hiKey)
    ensures Isomorphic(RenamingOf(o, m), src, srcBlobs, cid, dst, dstBlobs, m.campaign, withHistory, withImages)
  {
    hide Added, AgentsAdded, Indexes, Agrees, Pairing, Bijection, Injective, Fresh, Faithful, AgentsDescribed, NodesDescribed, EdgesDescribed,
      Copied, MapsDescribed, BoardsDescribed, SessionsDescribed, AgentsSound, ImagesStored, RasterBlobs, WellFormed, MapRefsKnown, RefsKnown,
      In, SameRows, MapsCopied, BoardsCopied, EdgesCopied, HistoryCopied, NodeRows, EdgeRows, MapRows, BoardRows, SessionRows,
      AgentRefSeq, NodeRefSeq, MapRefSeq;
    var f := RenamingOf(o, m);
    assert AgentsSound(src.agents, cid) by { SoundAgents(src, cid); }
    AgentsRead(f, src, cid, o.agents, b.agents, before, dst, m, defaults, render);
    BijectionDomain(f.agents, src.agents, cid, dst.agents, m.campaign);
    RefsRenamed(src, cid, f);
    NodesRead(f, src, cid, o.nodes, b.nodes, before, dst, m, render);
    BijectionDomain(f.nodes, src.nodes, cid, dst.nodes, m.campaign);
    SameLength(before.maps, dst.maps, m, b.maps, before.next, dst.next);
    MapsDomain(src.maps, cid, o.maps, m.mapIds, b.maps, srcBlobs, withImages, render);
    NodeRefsRenamed(src, cid, f);
    EdgesRead(f, src, cid, o.edges, b.edges, before, dst, m, render);
    RowsRead(f.characters, src.characters, cid, o.characters, b.characters, before.characters, dst.characters, m.campaign, m.characters, before.next, dst.next);
    MapsRead(f, src, srcBlobs, cid, o.maps, b.maps, before, dst, beforeBlobs, dstBlobs, m, loKey, hiKey, withImages, render);
    BoardsRead(f, src, cid, o.boards, b.boards, before, dst, m, render);
    RowsRead(f.threads, src.threads, cid, o.threads, b.threads, before.threads, dst.threads, m.campaign, m.threads, before.next, dst.next);
    if withHistory {
      SessionsRead(f, src, cid, o.sessions, b.history.value, before, dst, m, render);
    } else {
      NoSessions(before, dst, m);
    }
  }

  lemma SoundAgents(src: Db, cid: Id)
    requires WellFormed(src, cid)
    ensures AgentsSound(src.agents, cid)
  {
  }

  lemma SameLength(before: Table<MapRow>, after: Table<MapRow>, m: Minted, xs: seq<Map>, lo: Id, hi: Id)
    requires |m.keys| == |xs| && Added(before, after, m.campaign, m.mapIds, MapRows(xs, m.nodes, m.maps, m.keys, |xs|, |xs|), lo, hi)
    ensures |m.mapIds| == |xs|
  {
  }
}
