// What an import must leave behind (internal/bundle/import.go), stated on the document and on
// the database before and after, with no reference to the order in which rows are written.
module BundleSpec {
  import opened Common
  import opened BundleTypes

  // ---- Which documents are importable --------------------------------------------------
  // Each predicate speaks of the first n entries.

  ghost predicate SupportedVersion(v: int) {
    MIN_SUPPORTED_VERSION <= v <= FORMAT_VERSION
  }

  predicate IsButler(a: Agent) { a.role == "butler" }

  ghost predicate DistinctTools(gs: seq<Grant>) {
    forall i, j :: 0 <= i < j < |gs| ==> gs[i].toolName != gs[j].toolName
  }

  ghost predicate AgentOk(a: Agent) {
    VoiceFromJson(a.voice).Some? && DistinctTools(a.grants)
  }

  ghost predicate AgentsOk(xs: seq<Agent>, n: nat) requires n <= |xs| {
    && (forall i, j :: 0 <= i < j < n ==> xs[i].id != xs[j].id)
    && (forall i, j :: 0 <= i < j < n ==> !(IsButler(xs[i]) && IsButler(xs[j])))
    && (forall i :: 0 <= i < n ==> AgentOk(xs[i]))
  }

  function AgentRefs(xs: seq<Agent>): set<string> { set i | 0 <= i < |xs| :: xs[i].id }
  function NodeRefs(xs: seq<Node>): set<string> { set i | 0 <= i < |xs| :: xs[i].id }
  function MapRefs(xs: seq<Map>): set<string> { set i | 0 <= i < |xs| :: xs[i].id }

  ghost predicate NodesOk(xs: seq<Node>, n: nat, agents: set<string>) requires n <= |xs| {
    && (forall i, j :: 0 <= i < j < n ==> xs[i].id != xs[j].id)
    && (forall i :: 0 <= i < n ==> xs[i].agentId == "" || xs[i].agentId in agents)
  }

  ghost predicate EdgesOk(xs: seq<Edge>, n: nat, nodes: set<string>) requires n <= |xs| {
    forall i :: 0 <= i < n ==> xs[i].from in nodes && xs[i].to in nodes
  }

  predicate RasterImageType(ct: string) {
    ct == "image/png" || ct == "image/jpeg" || ct == "image/webp" || ct == "image/gif"
  }

  function DeclaredType(m: Map): string {
    if m.contentType == "" then "image/png" else m.contentType
  }

  ghost predicate FlatMapOk(m: Map, nodes: set<string>, hasBlobs: bool) {
    && (m.anchorNodeId == "" || m.anchorNodeId in nodes)
    && (m.image == Empty || (hasBlobs && m.image.Encoded? && RasterImageType(DeclaredType(m))))
  }

  ghost predicate FlatMapsOk(xs: seq<Map>, n: nat, nodes: set<string>, hasBlobs: bool) requires n <= |xs| {
    && (forall i, j :: 0 <= i < j < n ==> xs[i].id != xs[j].id)
    && (forall i :: 0 <= i < n ==> FlatMapOk(xs[i], nodes, hasBlobs))
  }

  ghost predicate ParentsOk(xs: seq<Map>, n: nat) requires n <= |xs| {
    forall i :: 0 <= i < n ==>
      xs[i].parentMapId == "" || (xs[i].parentMapId in MapRefs(xs) && xs[i].parentMapId != xs[i].id)
  }

  ghost predicate PinsOk(pins: seq<Pin>, nodes: set<string>) {
    forall k :: 0 <= k < |pins| ==> pins[k].nodeId in nodes
  }

  ghost predicate AllPinsOk(xs: seq<Map>, n: nat, nodes: set<string>) requires n <= |xs| {
    forall i :: 0 <= i < n ==> PinsOk(xs[i].pins, nodes)
  }

  ghost predicate MapsOk(xs: seq<Map>, nodes: set<string>, hasBlobs: bool) {
    FlatMapsOk(xs, |xs|, nodes, hasBlobs) && ParentsOk(xs, |xs|) && AllPinsOk(xs, |xs|, nodes)
  }

  ghost predicate BoardOk(b: Board, nodes: set<string>) {
    forall k :: 0 <= k < |b.nodeIds| ==> b.nodeIds[k] in nodes
  }

  ghost predicate BoardsOk(xs: seq<Board>, n: nat, nodes: set<string>) requires n <= |xs| {
    forall i :: 0 <= i < n ==> BoardOk(xs[i], nodes)
  }

  predicate ValidMessageRole(role: string) { role == "user" || role == "assistant" }

  ghost predicate ThreadOk(t: Thread) {
    forall k :: 0 <= k < |t.messages| ==> ValidMessageRole(t.messages[k].role)
  }

  ghost predicate ThreadsOk(xs: seq<Thread>, n: nat) requires n <= |xs| {
    forall i :: 0 <= i < n ==> ThreadOk(xs[i])
  }

  ghost predicate Importable(b: Bundle, hasBlobs: bool) {
    && SupportedVersion(b.formatVersion)
    && AgentsOk(b.agents, |b.agents|)
    && NodesOk(b.nodes, |b.nodes|, AgentRefs(b.agents))
    && EdgesOk(b.edges, |b.edges|, NodeRefs(b.nodes))
    && MapsOk(b.maps, NodeRefs(b.nodes), hasBlobs)
    && BoardsOk(b.boards, |b.boards|, NodeRefs(b.nodes))
    && ThreadsOk(b.threads, |b.threads|)
  }

  // ---- The row each document entry becomes ---------------------------------------------

  function GrantMap(gs: seq<Grant>): map<string, Option<string>> {
    if gs == [] then map[]
    else GrantMap(gs[..|gs| - 1])[gs[|gs| - 1].toolName := gs[|gs| - 1].config]
  }

  // Every tool granted, with its last config; with distinct tools, with its own.
  lemma {:induction false} GrantMapEntries(gs: seq<Grant>)
    ensures forall i :: 0 <= i < |gs| ==> gs[i].toolName in GrantMap(gs)
    ensures forall t :: t in GrantMap(gs) ==> exists i :: 0 <= i < |gs| && gs[i].toolName == t && gs[i].config == GrantMap(gs)[t]
  {
    if gs != [] {
      var front := gs[..|gs| - 1];
      GrantMapEntries(front);
      forall t | t in GrantMap(gs)
        ensures exists i :: 0 <= i < |gs| && gs[i].toolName == t && gs[i].config == GrantMap(gs)[t]
      {
        if t == gs[|gs| - 1].toolName {
          assert gs[|gs| - 1].config == GrantMap(gs)[t];
        } else {
          var i :| 0 <= i < |front| && front[i].toolName == t && front[i].config == GrantMap(front)[t];
          assert gs[i] == front[i];
        }
      }
      forall i | 0 <= i < |gs| ensures gs[i].toolName in GrantMap(gs) {
        if i < |front| { assert front[i] == gs[i]; }
      }
    }
  }

  function AgentRowOf(a: Agent): AgentRow {
    AgentRow(if IsButler(a) then Butler else NonPlayer, a.name, a.title, a.persona, a.voice,
             IsButler(a) || a.addressOnly, a.aliases, GrantMap(a.grants))
  }

  // The row the campaign-creation trigger inserts.
  function DefaultButler(grants: map<string, Option<string>>): AgentRow {
    AgentRow(Butler, "Glyphoxa", "", "", Absent, true, [], grants)
  }

  // An optional reference, and one the importable document resolves.
  function Ref(r: string, ids: map<string, Id>): Option<Id> {
    if r != "" && r in ids then Some(ids[r]) else None
  }

  function Known(r: string, ids: map<string, Id>): Id {
    if r in ids then ids[r] else 0
  }

  function NodeRowOf(n: Node, agents: map<string, Id>): NodeRow {
    NodeRow(n.kind, n.name, n.body, n.gmPrivate, Ref(n.agentId, agents), n.aspects, n.tags)
  }

  function EdgeRowOf(e: Edge, nodes: map<string, Id>): EdgeRow {
    EdgeRow(Known(e.from, nodes), Known(e.to, nodes), e.kind, e.note, e.disposition)
  }

  function PinRowOf(p: Pin, nodes: map<string, Id>): PinRow {
    PinRow(Known(p.nodeId, nodes), p.x, p.y, p.labelOverride, p.gmPrivate)
  }

  function PinRows(pins: seq<Pin>, nodes: map<string, Id>): seq<PinRow> {
    seq(|pins|, k requires 0 <= k < |pins| => PinRowOf(pins[k], nodes))
  }

  function MapRowOf(m: Map, nodes: map<string, Id>, maps: map<string, Id>, key: Option<Id>): MapRow {
    MapRow(m.name, key, m.widthPx, m.heightPx, Ref(m.parentMapId, maps), Ref(m.anchorNodeId, nodes),
           m.gmPrivate, PinRows(m.pins, nodes))
  }

  function BoardRowOf(b: Board, nodes: map<string, Id>): BoardRow {
    BoardRow(b.name, seq(|b.nodeIds|, k requires 0 <= k < |b.nodeIds| => Known(b.nodeIds[k], nodes)))
  }

  // A failed session stays failed, everything else is ended.
  function CoerceTerminalStatus(status: string): Status {
    if status == "failed" then Failed else Ended
  }

  // Upsert on the replay key: the first seq number stays, the rest is overwritten.
  function UpsertLine(lines: map<string, Line>, l: Line): map<string, Line> {
    lines[l.lineId := if l.lineId in lines then l.(seqNo := lines[l.lineId].seqNo) else l]
  }

  function LineMap(ls: seq<Line>): map<string, Line> {
    if ls == [] then map[] else UpsertLine(LineMap(ls[..|ls| - 1]), ls[|ls| - 1])
  }

  lemma {:induction false} LineMapKeys(ls: seq<Line>)
    ensures LineMap(ls).Keys == set i | 0 <= i < |ls| :: ls[i].lineId
  {
    if ls != [] {
      var front := ls[..|ls| - 1];
      LineMapKeys(front);
      assert forall i :: 0 <= i < |ls| ==> ls[i] == (if i < |front| then front[i] else ls[|ls| - 1]);
    }
  }

  // An appearance of an unknown entry or line is dropped; a repeat changes nothing.
  function RecordAppearance(m: map<(Id, string), Time>, a: Appearance, nodes: map<string, Id>, lines: set<string>)
    : map<(Id, string), Time>
  {
    if a.nodeId !in nodes || a.lineId !in lines || (nodes[a.nodeId], a.lineId) in m then m
    else m[(nodes[a.nodeId], a.lineId) := a.at]
  }

  function AppearanceMap(xs: seq<Appearance>, nodes: map<string, Id>, lines: set<string>): map<(Id, string), Time> {
    if xs == [] then map[]
    else RecordAppearance(AppearanceMap(xs[..|xs| - 1], nodes, lines), xs[|xs| - 1], nodes, lines)
  }

  // A participant that is no imported agent is dropped, and counted.
  function KnownParticipants(refs: seq<string>, agents: map<string, Id>): seq<Id> {
    if refs == [] then []
    else
      KnownParticipants(refs[..|refs| - 1], agents)
      + (if refs[|refs| - 1] in agents then [agents[refs[|refs| - 1]]] else [])
  }

  function ChunkRowOf(c: Chunk, agents: map<string, Id>): ChunkRow {
    ChunkRow(c.content, c.speakers, KnownParticipants(c.participants, agents), c.startedAt)
  }

  function ChunkRows(cs: seq<Chunk>, agents: map<string, Id>): seq<ChunkRow> {
    seq(|cs|, k requires 0 <= k < |cs| => ChunkRowOf(cs[k], agents))
  }

  function SessionRowOf(s: Session, agents: map<string, Id>, nodes: map<string, Id>): SessionRow {
    SessionRow(s.startedAt, Some(if s.endedAt.Some? then s.endedAt.value else s.startedAt),
               CoerceTerminalStatus(s.status), s.lineCount, s.endReason, LineMap(s.lines),
               ChunkRows(s.chunks, agents), AppearanceMap(s.appearances, nodes, LineMap(s.lines).Keys))
  }

  // The participant references of a document that no agent of it answers to.
  function DroppedRefs(xs: seq<Session>, n: nat, agents: map<string, Id>): nat
    requires n <= |xs|
  {
    if n == 0 then 0 else DroppedRefs(xs, n - 1, agents) + DroppedInChunks(xs[n - 1].chunks, agents)
  }

  function DroppedInChunks(cs: seq<Chunk>, agents: map<string, Id>): nat {
    if cs == [] then 0
    else DroppedInChunks(cs[..|cs| - 1], agents) + Unknown(cs[|cs| - 1].participants, agents)
  }

  function Unknown(refs: seq<string>, agents: map<string, Id>): nat {
    if refs == [] then 0
    else Unknown(refs[..|refs| - 1], agents) + (if refs[|refs| - 1] in agents then 0 else 1)
  }

  // ---- Tables ----------------------------------------------------------------------------

  ghost predicate Distinct(ids: seq<Id>) {
    forall j, k :: 0 <= j < k < |ids| ==> ids[j] != ids[k]
  }

  // after is before plus exactly the rows, under distinct ids minted in [lo, hi).
  ghost predicate Added<R>(before: Table<R>, after: Table<R>, cid: Id, ids: seq<Id>, rows: seq<R>, lo: Id, hi: Id) {
    && |ids| == |rows| && Distinct(ids)
    && (forall k :: 0 <= k < |ids| ==>
          lo <= ids[k] < hi && ids[k] !in before && ids[k] in after && after[ids[k]] == Owned(cid, rows[k]))
    && (forall i :: i in before ==> i in after && after[i] == before[i])
    && (forall i :: i in after ==> i in before || i in ids)
  }

  // m maps each of the first |ids| references to the id at its position, and nothing else.
  ghost predicate Indexes(m: map<string, Id>, refs: seq<string>, ids: seq<Id>) {
    && |ids| <= |refs|
    && (forall k :: 0 <= k < |ids| ==> refs[k] in m && m[refs[k]] == ids[k])
    && (forall r :: r in m ==> exists k :: 0 <= k < |ids| && refs[k] == r)
  }

  lemma NothingAdded<R>(before: Table<R>, cid: Id, lo: Id, hi: Id)
    ensures Added(before, before, cid, [], [], lo, hi)
  {
  }

  lemma AddRow<R>(before: Table<R>, was: Table<R>, cid: Id, ids: seq<Id>, rows: seq<R>, lo: Id, hi: Id, id: Id, row: R)
    requires Added(before, was, cid, ids, rows, lo, hi) && lo <= hi <= id && Below(before, lo)
    ensures Added(before, was[id := Owned(cid, row)], cid, ids + [id], rows + [row], lo, id + 1)
  {
  }

  lemma SetRow<R>(before: Table<R>, was: Table<R>, cid: Id, ids: seq<Id>, rows: seq<R>, lo: Id, hi: Id, k: nat, row: R)
    requires Added(before, was, cid, ids, rows, lo, hi) && k < |ids|
    ensures Added(before, was[ids[k] := Owned(cid, row)], cid, ids, rows[k := row], lo, hi)
  {
  }

  lemma Index(m: map<string, Id>, refs: seq<string>, ids: seq<Id>, id: Id)
    requires Indexes(m, refs, ids) && |ids| < |refs| && refs[|ids|] !in m
    ensures Indexes(m[refs[|ids|] := id], refs, ids + [id])
  {
    var m', ids' := m[refs[|ids|] := id], ids + [id];
    forall r | r in m' ensures exists k :: 0 <= k < |ids'| && refs[k] == r {
      if r != refs[|ids|] {
        var k :| 0 <= k < |ids| && refs[k] == r;
        assert refs[k] == r && k < |ids'|;
      } else {
        assert refs[|ids|] == r;
      }
    }
  }

  lemma AddedStaysFresh<R>(before: Table<R>, after: Table<R>, cid: Id, ids: seq<Id>, rows: seq<R>, lo: Id, hi: Id)
    requires Added(before, after, cid, ids, rows, lo, hi) && Fresh(before, lo) && lo <= cid < hi
    ensures Fresh(after, hi)
  {
    forall i | i in after ensures i < hi && after[i].campaign < hi {
      if i in ids && i !in before {
        var k :| 0 <= k < |ids| && ids[k] == i;
      }
    }
  }

  // ---- What a finished import leaves behind ----------------------------------------------

  // The ids one import minted, by position in the document, and the reference maps built from
  // them. keys[i] is the blob key minted for map i.
  datatype Minted = Minted(campaign: Id, butler: Id, agentIds: seq<Id>, agents: map<string, Id>,
                           nodeIds: seq<Id>, nodes: map<string, Id>, mapIds: seq<Id>, maps: map<string, Id>,
                           keys: seq<Option<Id>>, edges: seq<Id>, characters: seq<Id>, boards: seq<Id>,
                           threads: seq<Id>, sessions: seq<Id>)

  function AgentRefSeq(xs: seq<Agent>): seq<string> { seq(|xs|, i requires 0 <= i < |xs| => xs[i].id) }
  function NodeRefSeq(xs: seq<Node>): seq<string> { seq(|xs|, i requires 0 <= i < |xs| => xs[i].id) }
  function MapRefSeq(xs: seq<Map>): seq<string> { seq(|xs|, i requires 0 <= i < |xs| => xs[i].id) }

  // The first |ids| agents: the document's Butler is the trigger-created row, rewritten; each
  // other agent is a new row; without a Butler in the document the trigger's row stands.
  ghost predicate AgentsAdded(before: Table<AgentRow>, after: Table<AgentRow>, cid: Id, butler: Id, xs: seq<Agent>,
                              ids: seq<Id>, defaults: map<string, Option<string>>, lo: Id, hi: Id)
  {
    && |ids| <= |xs| && Distinct(ids) && lo <= butler < hi && butler !in before && butler in after
    && (forall k :: 0 <= k < |ids| ==>
          && (IsButler(xs[k]) <==> ids[k] == butler)
          && lo <= ids[k] < hi && ids[k] !in before && ids[k] in after && after[ids[k]] == Owned(cid, AgentRowOf(xs[k])))
    && ((forall k :: 0 <= k < |ids| ==> !IsButler(xs[k])) ==> after[butler] == Owned(cid, DefaultButler(defaults)))
    && (forall i :: i in before ==> i in after && after[i] == before[i])
    && (forall i :: i in after ==> i in before || i == butler || i in ids)
  }

  function NodeRows(xs: seq<Node>, n: nat, agents: map<string, Id>): seq<NodeRow>
    requires n <= |xs|
  {
    seq(n, i requires 0 <= i < n => NodeRowOf(xs[i], agents))
  }

  function EdgeRows(xs: seq<Edge>, n: nat, nodes: map<string, Id>): seq<EdgeRow>
    requires n <= |xs|
  {
    seq(n, i requires 0 <= i < n => EdgeRowOf(xs[i], nodes))
  }

  // The maps' rows when the first n are nested and the first p of them have their pins.
  function MapRows(xs: seq<Map>, nodes: map<string, Id>, maps: map<string, Id>, keys: seq<Option<Id>>, n: nat, p: nat): seq<MapRow>
    requires |keys| <= |xs|
  {
    seq(|keys|, i requires 0 <= i < |keys| =>
      if i < p then MapRowOf(xs[i], nodes, maps, keys[i])
      else if i < n then NestedRow(xs[i], nodes, maps, keys[i])
      else FlatRow(xs[i], nodes, keys[i]))
  }

  // A map's row after the first pass, and after the second.
  function FlatRow(m: Map, nodes: map<string, Id>, key: Option<Id>): MapRow {
    MapRow(m.name, key, m.widthPx, m.heightPx, None, Ref(m.anchorNodeId, nodes), m.gmPrivate, [])
  }

  function NestedRow(m: Map, nodes: map<string, Id>, maps: map<string, Id>, key: Option<Id>): MapRow {
    FlatRow(m, nodes, key).(parent := Ref(m.parentMapId, maps))
  }

  function BoardRows(xs: seq<Board>, n: nat, nodes: map<string, Id>): seq<BoardRow>
    requires n <= |xs|
  {
    seq(n, i requires 0 <= i < n => BoardRowOf(xs[i], nodes))
  }

  function SessionRows(xs: seq<Session>, n: nat, agents: map<string, Id>, nodes: map<string, Id>): seq<SessionRow>
    requires n <= |xs|
  {
    seq(n, i requires 0 <= i < n => SessionRowOf(xs[i], agents, nodes))
  }

  function SessionsOf(b: Bundle): seq<Session> {
    if b.history.Some? then b.history.value else []
  }

  // Every image in the document is stored under its own fresh key; a map without one has no key.
  ghost predicate ImagesStored(before: map<Id, Image>, after: map<Id, Image>, xs: seq<Map>, keys: seq<Option<Id>>, lo: Id, hi: Id) {
    && |keys| <= |xs|
    && (forall i :: 0 <= i < |keys| ==> ImageAt(after, xs[i], keys[i], lo, hi))
    && (forall i, j :: 0 <= i < j < |keys| && keys[i].Some? ==> keys[i] != keys[j])
    && (forall k :: k in before ==> k in after && after[k] == before[k])
    && (forall k :: k in after ==> k in before || Some(k) in keys)
  }

  ghost predicate ImageAt(after: map<Id, Image>, m: Map, key: Option<Id>, lo: Id, hi: Id) {
    match key
    case None => m.image == Empty
    case Some(k) => lo <= k < hi && m.image.Encoded? && k in after && after[k] == Image(DeclaredType(m), m.image.data)
  }

  ghost predicate Restored(before: Db, after: Db, b: Bundle, defaults: map<string, Option<string>>, m: Minted) {
    var cid, lo, hi := m.campaign, before.next, after.next;
    && lo <= cid < hi
    && after.campaigns == before.campaigns[cid := CampaignRow(b.name, b.system, b.language)]
    && |m.agentIds| == |b.agents| && |m.keys| == |b.maps|
    && Indexes(m.agents, AgentRefSeq(b.agents), m.agentIds)
    && Indexes(m.nodes, NodeRefSeq(b.nodes), m.nodeIds)
    && Indexes(m.maps, MapRefSeq(b.maps), m.mapIds)
    && AgentsAdded(before.agents, after.agents, cid, m.butler, b.agents, m.agentIds, defaults, lo, hi)
    && Added(before.nodes, after.nodes, cid, m.nodeIds, NodeRows(b.nodes, |b.nodes|, m.agents), lo, hi)
    && Added(before.edges, after.edges, cid, m.edges, EdgeRows(b.edges, |b.edges|, m.nodes), lo, hi)
    && Added(before.characters, after.characters, cid, m.characters, b.characters, lo, hi)
    && Added(before.maps, after.maps, cid, m.mapIds, MapRows(b.maps, m.nodes, m.maps, m.keys, |b.maps|, |b.maps|), lo, hi)
    && Added(before.boards, after.boards, cid, m.boards, BoardRows(b.boards, |b.boards|, m.nodes), lo, hi)
    && Added(before.threads, after.threads, cid, m.threads, b.threads, lo, hi)
    && Added(before.sessions, after.sessions, cid, m.sessions, SessionRows(SessionsOf(b), |SessionsOf(b)|, m.agents, m.nodes), lo, hi)
  }
}
