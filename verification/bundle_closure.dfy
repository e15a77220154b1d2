// What an import leaves behind, for any document including a hand-written one: a well-formed
// campaign whose every reference stays inside it, sharing no row with any other campaign.
module BundleClosure {
  import opened Common
  import opened BundleTypes
  import opened BundleSpec
  import opened BundleExport
  import opened BundleRoundTrip

  lemma {:induction false} LinesKeyed(ls: seq<Line>)
    ensures forall k :: k in LineMap(ls) ==> LineMap(ls)[k].lineId == k
  {
    if ls != [] { LinesKeyed(ls[..|ls| - 1]); }
  }

  lemma {:induction false} AppearancesKnown(xs: seq<Appearance>, nodes: map<string, Id>, lines: set<string>)
    ensures forall k :: k in AppearanceMap(xs, nodes, lines) ==> k.0 in nodes.Values && k.1 in lines
  {
    if xs != [] { AppearancesKnown(xs[..|xs| - 1], nodes, lines); }
  }

  lemma {:induction false} ParticipantsKnown(refs: seq<string>, agents: map<string, Id>)
    ensures forall k :: 0 <= k < |KnownParticipants(refs, agents)| ==> KnownParticipants(refs, agents)[k] in agents.Values
  {
    if refs != [] { ParticipantsKnown(refs[..|refs| - 1], agents); }
  }

  ghost predicate ParticipantsSound(agents: Table<AgentRow>, cid: Id, row: SessionRow) {
    forall c, k :: 0 <= c < |row.chunks| && 0 <= k < |row.chunks[c].participants| ==> In(agents, cid, row.chunks[c].participants[k])
  }

  // Every id the reference map answers with is a row of the campaign.
  ghost predicate AnswersRows<R>(m: map<string, Id>, t: Table<R>, cid: Id) {
    forall r :: r in m ==> In(t, cid, m[r])
  }

  // Rows of the new campaign are new, and every other row is as it was.
  ghost predicate AllMinted<R>(before: Table<R>, after: Table<R>, cid: Id, lo: Id, hi: Id) {
    && (forall i: Id :: In(after, cid, i) ==> lo <= i < hi && i !in before)
    && (forall i: Id :: i in after && i !in before ==> In(after, cid, i))
    && (forall i: Id :: i in before ==> i in after && after[i] == before[i])
  }

  lemma AddedAllMinted<R>(before: Table<R>, after: Table<R>, cid: Id, ids: seq<Id>, rows: seq<R>, lo: Id, hi: Id)
    requires Added(before, after, cid, ids, rows, lo, hi) && Fresh(before, lo) && lo <= cid
    ensures AllMinted(before, after, cid, lo, hi)
  {
  }

  lemma AgentsAllMinted(before: Table<AgentRow>, after: Table<AgentRow>, cid: Id, butler: Id, xs: seq<Agent>, ids: seq<Id>,
                        defaults: map<string, Option<string>>, lo: Id, hi: Id)
    requires AgentsAdded(before, after, cid, butler, xs, ids, defaults, lo, hi) && Fresh(before, lo) && lo <= cid && |ids| == |xs|
    ensures AllMinted(before, after, cid, lo, hi)
    ensures In(after, cid, butler) && forall k :: 0 <= k < |ids| ==> In(after, cid, ids[k])
  {
    hide AgentRowOf, DefaultButler, IsButler;
    if b :| 0 <= b < |xs| && IsButler(xs[b]) { assert ids[b] == butler; }
  }

  lemma AgentsAddedSound(before: Table<AgentRow>, after: Table<AgentRow>, cid: Id, butler: Id, xs: seq<Agent>, ids: seq<Id>,
                         defaults: map<string, Option<string>>, lo: Id, hi: Id)
    requires AgentsAdded(before, after, cid, butler, xs, ids, defaults, lo, hi) && Fresh(before, lo) && lo <= cid && |ids| == |xs|
    requires AgentsOk(xs, |xs|)
    ensures AgentsSound(after, cid)
  {
    hide GrantMap, DistinctTools;
    AgentsAllMinted(before, after, cid, butler, xs, ids, defaults, lo, hi);
    forall i | In(after, cid, i)
      ensures after[i].row.role == Butler ==> i == butler
      ensures after[i].row.voice != Garbage
    {
      assert i !in before;
      if k :| 0 <= k < |ids| && ids[k] == i { assert after[i].row == AgentRowOf(xs[k]) && AgentOk(xs[k]); }
    }
    if b :| 0 <= b < |xs| && IsButler(xs[b]) { assert after[ids[b]].row == AgentRowOf(xs[b]); }
    assert after[butler].row.role == Butler;
  }

  lemma AnswersIndexed<R>(m: map<string, Id>, refs: seq<string>, before: Table<R>, after: Table<R>, cid: Id, ids: seq<Id>, rows: seq<R>, lo: Id, hi: Id)
    requires Indexes(m, refs, ids) && Added(before, after, cid, ids, rows, lo, hi)
    ensures AnswersRows(m, after, cid)
  {
    forall r | r in m ensures In(after, cid, m[r]) {
      var k :| 0 <= k < |ids| && refs[k] == r;
    }
  }

  lemma AgentsAnswer(m: map<string, Id>, refs: seq<string>, after: Table<AgentRow>, cid: Id, ids: seq<Id>)
    requires Indexes(m, refs, ids) && forall k :: 0 <= k < |ids| ==> In(after, cid, ids[k])
    ensures AnswersRows(m, after, cid)
  {
    forall r | r in m ensures In(after, cid, m[r]) {
      var k :| 0 <= k < |ids| && refs[k] == r;
    }
  }

  // A row of the new campaign is the row of some document entry.
  lemma RowOfEntry<R>(before: Table<R>, after: Table<R>, cid: Id, ids: seq<Id>, rows: seq<R>, lo: Id, hi: Id)
    requires Added(before, after, cid, ids, rows, lo, hi) && Fresh(before, lo) && lo <= cid
    ensures |ids| == |rows|
    ensures forall i :: In(after, cid, i) ==> exists k :: 0 <= k < |ids| && ids[k] == i && after[i].row == rows[k]
  {
    forall i | In(after, cid, i) ensures exists k :: 0 <= k < |ids| && ids[k] == i && after[i].row == rows[k] {
      assert i !in before;
      var k :| 0 <= k < |ids| && ids[k] == i;
      assert after[i].row == rows[k];
    }
  }

  lemma MapEntrySound(x: Map, id: Id, db: Db, cid: Id, m: Minted, key: Option<Id>, hasBlobs: bool)
    requires FlatMapOk(x, m.nodes.Keys, hasBlobs) && PinsOk(x.pins, m.nodes.Keys)
    requires x.parentMapId == "" || (x.parentMapId in m.maps && m.maps[x.parentMapId] != id)
    requires AnswersRows(m.nodes, db.nodes, cid) && AnswersRows(m.maps, db.maps, cid)
    ensures MapSound(db, cid, id, MapRowOf(x, m.nodes, m.maps, key))
  {
  }

  lemma SessionEntrySound(s: Session, db: Db, cid: Id, m: Minted)
    requires AnswersRows(m.nodes, db.nodes, cid) && AnswersRows(m.agents, db.agents, cid)
    ensures SessionSound(db.nodes, cid, SessionRowOf(s, m.agents, m.nodes))
    ensures ParticipantsSound(db.agents, cid, SessionRowOf(s, m.agents, m.nodes))
  {
    hide LineMap, AppearanceMap, KnownParticipants;
    LinesKeyed(s.lines);
    AppearancesKnown(s.appearances, m.nodes, LineMap(s.lines).Keys);
    forall c | 0 <= c < |s.chunks|
      ensures forall k :: 0 <= k < |KnownParticipants(s.chunks[c].participants, m.agents)| ==>
                In(db.agents, cid, KnownParticipants(s.chunks[c].participants, m.agents)[k])
    {
      ParticipantsKnown(s.chunks[c].participants, m.agents);
    }
  }

  ghost predicate Imported(before: Db, after: Db, b: Bundle, defaults: map<string, Option<string>>, m: Minted, hasBlobs: bool) {
    before.Valid() && Restored(before, after, b, defaults, m) && Importable(b, hasBlobs)
  }

  // No table of the new campaign holds an old row, and no old row changed.
  lemma ImportedIsNew(before: Db, after: Db, b: Bundle, defaults: map<string, Option<string>>, m: Minted, hasBlobs: bool)
    requires Imported(before, after, b, defaults, m, hasBlobs)
    ensures AllMinted(before.agents, after.agents, m.campaign, before.next, after.next)
    ensures AllMinted(before.nodes, after.nodes, m.campaign, before.next, after.next)
    ensures AllMinted(before.edges, after.edges, m.campaign, before.next, after.next)
    ensures AllMinted(before.characters, after.characters, m.campaign, before.next, after.next)
    ensures AllMinted(before.maps, after.maps, m.campaign, before.next, after.next)
    ensures AllMinted(before.boards, after.boards, m.campaign, before.next, after.next)
    ensures AllMinted(before.threads, after.threads, m.campaign, before.next, after.next)
    ensures AllMinted(before.sessions, after.sessions, m.campaign, before.next, after.next)
  {
    hide Added, AgentsAdded, Indexes, Fresh, AllMinted, Importable, NodeRows, EdgeRows, MapRows, BoardRows, SessionRows, SessionsOf;
    var cid, lo, hi := m.campaign, before.next, after.next;
    AgentsAllMinted(before.agents, after.agents, cid, m.butler, b.agents, m.agentIds, defaults, lo, hi);
    AddedAllMinted(before.nodes, after.nodes, cid, m.nodeIds, NodeRows(b.nodes, |b.nodes|, m.agents), lo, hi);
    AddedAllMinted(before.edges, after.edges, cid, m.edges, EdgeRows(b.edges, |b.edges|, m.nodes), lo, hi);
    AddedAllMinted(before.characters, after.characters, cid, m.characters, b.characters, lo, hi);
    AddedAllMinted(before.maps, after.maps, cid, m.mapIds, MapRows(b.maps, m.nodes, m.maps, m.keys, |b.maps|, |b.maps|), lo, hi);
    AddedAllMinted(before.boards, after.boards, cid, m.boards, BoardRows(b.boards, |b.boards|, m.nodes), lo, hi);
    AddedAllMinted(before.threads, after.threads, cid, m.threads, b.threads, lo, hi);
    AddedAllMinted(before.sessions, after.sessions, cid, m.sessions, SessionRows(SessionsOf(b), |SessionsOf(b)|, m.agents, m.nodes), lo, hi);
  }

  // The reference maps answer with rows of the new campaign only.
  lemma ImportedAnswers(before: Db, after: Db, b: Bundle, defaults: map<string, Option<string>>, m: Minted, hasBlobs: bool)
    requires Imported(before, after, b, defaults, m, hasBlobs)
    ensures AnswersRows(m.agents, after.agents, m.campaign) && m.agents.Keys == AgentRefs(b.agents)
    ensures AnswersRows(m.nodes, after.nodes, m.campaign) && m.nodes.Keys == NodeRefs(b.nodes)
    ensures AnswersRows(m.maps, after.maps, m.campaign) && m.maps.Keys == MapRefs(b.maps)
    ensures AgentsSound(after.agents, m.campaign)
  {
    hide Added, AgentsAdded, Indexes, Fresh, AllMinted, AgentsOk, NodesOk, EdgesOk, MapsOk, BoardsOk, ThreadsOk,
      NodeRows, EdgeRows, MapRows, BoardRows, SessionRows, SessionsOf, AgentRefs, NodeRefs, MapRefs, AgentsSound, AnswersRows, In;
    var cid, lo, hi := m.campaign, before.next, after.next;
    AgentsAllMinted(before.agents, after.agents, cid, m.butler, b.agents, m.agentIds, defaults, lo, hi);
    AgentsAnswer(m.agents, AgentRefSeq(b.agents), after.agents, cid, m.agentIds);
    AgentsAddedSound(before.agents, after.agents, cid, m.butler, b.agents, m.agentIds, defaults, lo, hi);
    AnswersIndexed(m.nodes, NodeRefSeq(b.nodes), before.nodes, after.nodes, cid, m.nodeIds, NodeRows(b.nodes, |b.nodes|, m.agents), lo, hi);
    AnswersIndexed(m.maps, MapRefSeq(b.maps), before.maps, after.maps, cid, m.mapIds, MapRows(b.maps, m.nodes, m.maps, m.keys, |b.maps|, |b.maps|), lo, hi);
    NodeCount(before.nodes, after.nodes, cid, m.nodeIds, NodeRows(b.nodes, |b.nodes|, m.agents), lo, hi);
    NodeCount(before.maps, after.maps, cid, m.mapIds, MapRows(b.maps, m.nodes, m.maps, m.keys, |b.maps|, |b.maps|), lo, hi);
    RowCounts(b, m);
    AgentRefsSeq(b.agents);
    NodeRefsSeq(b.nodes);
    MapRefsSeq(b.maps);
    IndexKeys(m.agents, AgentRefSeq(b.agents), m.agentIds);
    IndexKeys(m.nodes, NodeRefSeq(b.nodes), m.nodeIds);
    IndexKeys(m.maps, MapRefSeq(b.maps), m.mapIds);
  }

  lemma RowCounts(b: Bundle, m: Minted)
    requires |m.keys| == |b.maps|
    ensures |NodeRows(b.nodes, |b.nodes|, m.agents)| == |b.nodes|
    ensures |MapRows(b.maps, m.nodes, m.maps, m.keys, |b.maps|, |b.maps|)| == |b.maps|
  {
  }

  lemma NodeCount<R>(before: Table<R>, after: Table<R>, cid: Id, ids: seq<Id>, rows: seq<R>, lo: Id, hi: Id)
    requires Added(before, after, cid, ids, rows, lo, hi)
    ensures |ids| == |rows|
  {
  }

  lemma IndexKeys(m: map<string, Id>, refs: seq<string>, ids: seq<Id>)
    requires Indexes(m, refs, ids) && |refs| == |ids|
    ensures m.Keys == set r | r in refs
  {
  }

  lemma NodesClosed(before: Db, after: Db, b: Bundle, defaults: map<string, Option<string>>, m: Minted, hasBlobs: bool)
    requires Imported(before, after, b, defaults, m, hasBlobs)
    ensures forall i :: In(after.nodes, m.campaign, i) ==> RefIn(after.nodes[i].row.agent, after.agents, m.campaign)
    ensures forall i :: In(after.edges, m.campaign, i) ==>
              In(after.nodes, m.campaign, after.edges[i].row.from) && In(after.nodes, m.campaign, after.edges[i].row.to)
  {
    hide Added, AgentsAdded, Indexes, Fresh, AgentsOk, MapsOk, BoardsOk, ThreadsOk, AgentRefs, NodeRefs, MapRows, BoardRows, SessionRows, SessionsOf;
    var cid, lo, hi := m.campaign, before.next, after.next;
    ImportedAnswers(before, after, b, defaults, m, hasBlobs);
    RowOfEntry(before.nodes, after.nodes, cid, m.nodeIds, NodeRows(b.nodes, |b.nodes|, m.agents), lo, hi);
    RowOfEntry(before.edges, after.edges, cid, m.edges, EdgeRows(b.edges, |b.edges|, m.nodes), lo, hi);
    forall i | In(after.nodes, cid, i) ensures RefIn(after.nodes[i].row.agent, after.agents, cid) {
      var k :| 0 <= k < |m.nodeIds| && m.nodeIds[k] == i && after.nodes[i].row == NodeRows(b.nodes, |b.nodes|, m.agents)[k];
    }
    forall i | In(after.edges, cid, i)
      ensures In(after.nodes, cid, after.edges[i].row.from) && In(after.nodes, cid, after.edges[i].row.to)
    {
      var k :| 0 <= k < |m.edges| && m.edges[k] == i && after.edges[i].row == EdgeRows(b.edges, |b.edges|, m.nodes)[k];
    }
  }

  lemma MapsClosed(before: Db, after: Db, b: Bundle, defaults: map<string, Option<string>>, m: Minted, hasBlobs: bool)
    requires Imported(before, after, b, defaults, m, hasBlobs)
    ensures forall i :: In(after.maps, m.campaign, i) ==> MapSound(after, m.campaign, i, after.maps[i].row)
  {
    hide AgentsAdded, Fresh, AgentsOk, NodesOk, EdgesOk, BoardsOk, ThreadsOk, AgentRefs, NodeRefs, NodeRows, EdgeRows, BoardRows, SessionRows, SessionsOf;
    hide MapSound, FlatMapOk, PinsOk, AnswersRows, MapRowOf, Added, Indexes;
    var cid, lo, hi := m.campaign, before.next, after.next;
    var rows := MapRows(b.maps, m.nodes, m.maps, m.keys, |b.maps|, |b.maps|);
    ImportedAnswers(before, after, b, defaults, m, hasBlobs);
    RowOfEntry(before.maps, after.maps, cid, m.mapIds, rows, lo, hi);
    forall i | In(after.maps, cid, i) ensures MapSound(after, cid, i, after.maps[i].row) {
      var k :| 0 <= k < |m.mapIds| && m.mapIds[k] == i && after.maps[i].row == rows[k];
      OtherMap(m.maps, b.maps, before.maps, after.maps, cid, m.mapIds, rows, lo, hi, k);
      MapEntrySound(b.maps[k], i, after, cid, m, m.keys[k], hasBlobs);
    }
  }

  // A parent reference that differs from the map's own answers with a different row.
  lemma OtherMap(ids: map<string, Id>, xs: seq<Map>, before: Table<MapRow>, after: Table<MapRow>, cid: Id, order: seq<Id>, rows: seq<MapRow>,
                 lo: Id, hi: Id, k: nat)
    requires Indexes(ids, MapRefSeq(xs), order) && Added(before, after, cid, order, rows, lo, hi) && |order| == |xs| && k < |xs|
    requires ParentsOk(xs, |xs|) && ids.Keys == MapRefs(xs)
    ensures xs[k].parentMapId == "" || (xs[k].parentMapId in ids && ids[xs[k].parentMapId] != order[k])
  {
    var p := xs[k].parentMapId;
    if p != "" {
      var q :| 0 <= q < |order| && MapRefSeq(xs)[q] == p;
      assert xs[q].id == p && ids[p] == order[q];
    }
  }

  lemma RecordsClosed(before: Db, after: Db, b: Bundle, defaults: map<string, Option<string>>, m: Minted, hasBlobs: bool)
    requires Imported(before, after, b, defaults, m, hasBlobs)
    ensures forall i :: In(after.boards, m.campaign, i) ==>
              forall k :: 0 <= k < |after.boards[i].row.nodes| ==> In(after.nodes, m.campaign, after.boards[i].row.nodes[k])
    ensures forall i :: In(after.threads, m.campaign, i) ==> ThreadOk(after.threads[i].row)
    ensures forall i :: In(after.sessions, m.campaign, i) ==>
              SessionSound(after.nodes, m.campaign, after.sessions[i].row) && ParticipantsSound(after.agents, m.campaign, after.sessions[i].row)
  {
    hide AgentsAdded, Fresh, AgentsOk, NodesOk, EdgesOk, MapsOk, AgentRefs, NodeRefs, MapRefs, NodeRows, EdgeRows, MapRows, Added, Indexes,
      SessionSound, ParticipantsSound, SessionRowOf, ThreadOk;
    var cid, lo, hi := m.campaign, before.next, after.next;
    var boards, sessions := BoardRows(b.boards, |b.boards|, m.nodes), SessionRows(SessionsOf(b), |SessionsOf(b)|, m.agents, m.nodes);
    ImportedAnswers(before, after, b, defaults, m, hasBlobs);
    RowOfEntry(before.boards, after.boards, cid, m.boards, boards, lo, hi);
    RowOfEntry(before.threads, after.threads, cid, m.threads, b.threads, lo, hi);
    RowOfEntry(before.sessions, after.sessions, cid, m.sessions, sessions, lo, hi);
    forall i, j | In(after.boards, cid, i) && 0 <= j < |after.boards[i].row.nodes|
      ensures In(after.nodes, cid, after.boards[i].row.nodes[j])
    {
      var k :| 0 <= k < |m.boards| && m.boards[k] == i && after.boards[i].row == boards[k];
      assert BoardOk(b.boards[k], NodeRefs(b.nodes)) && b.boards[k].nodeIds[j] in m.nodes;
    }
    forall i | In(after.sessions, cid, i)
      ensures SessionSound(after.nodes, cid, after.sessions[i].row) && ParticipantsSound(after.agents, cid, after.sessions[i].row)
    {
      var k :| 0 <= k < |m.sessions| && m.sessions[k] == i && after.sessions[i].row == sessions[k];
      SessionEntrySound(SessionsOf(b)[k], after, cid, m);
    }
  }

  // Whatever the document, the imported campaign is well-formed: every reference of every one
  // of its rows is to a row of the same campaign, and so it can be exported again.
  lemma ImportedIsWellFormed(before: Db, after: Db, b: Bundle, defaults: map<string, Option<string>>, m: Minted, hasBlobs: bool)
    requires Imported(before, after, b, defaults, m, hasBlobs)
    ensures WellFormed(after, m.campaign)
    ensures forall i :: In(after.sessions, m.campaign, i) ==> ParticipantsSound(after.agents, m.campaign, after.sessions[i].row)
  {
    hide AgentsAdded, Added, Indexes, Fresh, Importable, SessionSound, ParticipantsSound, MapSound, ThreadOk, RefIn, AgentsSound,
      NodeRows, EdgeRows, MapRows, BoardRows, SessionRows, SessionsOf, AgentRefs, NodeRefs, MapRefs, AnswersRows, In;
    ImportedAnswers(before, after, b, defaults, m, hasBlobs);
    NodesClosed(before, after, b, defaults, m, hasBlobs);
    MapsClosed(before, after, b, defaults, m, hasBlobs);
    RecordsClosed(before, after, b, defaults, m, hasBlobs);
  }

  // So is a campaign just created, with the Butler the store gives it.
  lemma NewCampaignIsWellFormed(before: Db, after: Db, row: CampaignRow, grants: map<string, Option<string>>)
    requires before.Valid()
    requires var cid := before.next;
             after == before.(next := cid + 2, campaigns := before.campaigns[cid := row],
                              agents := before.agents[cid + 1 := Owned(cid, DefaultButler(grants))])
    ensures WellFormed(after, before.next)
  {
    assert In(after.agents, before.next, before.next + 1);
  }

  // Two imports of any two documents, the same one included, share no row of any table.
  lemma TwoImportsAreDisjoint(d0: Db, d1: Db, b: Bundle, m: Minted, d2: Db, d3: Db, b': Bundle, m': Minted,
                              defaults: map<string, Option<string>>, hasBlobs: bool)
    requires Imported(d0, d1, b, defaults, m, hasBlobs) && d1.next <= d2.next && Imported(d2, d3, b', defaults, m', hasBlobs)
    ensures m.campaign != m'.campaign
    ensures forall i :: In(d1.agents, m.campaign, i) ==> !In(d3.agents, m'.campaign, i)
    ensures forall i :: In(d1.nodes, m.campaign, i) ==> !In(d3.nodes, m'.campaign, i)
    ensures forall i :: In(d1.maps, m.campaign, i) ==> !In(d3.maps, m'.campaign, i)
    ensures forall i :: In(d1.edges, m.campaign, i) ==> !In(d3.edges, m'.campaign, i)
    ensures forall i :: In(d1.characters, m.campaign, i) ==> !In(d3.characters, m'.campaign, i)
    ensures forall i :: In(d1.boards, m.campaign, i) ==> !In(d3.boards, m'.campaign, i)
    ensures forall i :: In(d1.threads, m.campaign, i) ==> !In(d3.threads, m'.campaign, i)
    ensures forall i :: In(d1.sessions, m.campaign, i) ==> !In(d3.sessions, m'.campaign, i)
  {
    hide AgentsAdded, Added, Indexes, Fresh, Importable, In, NodeRows, EdgeRows, MapRows, BoardRows, SessionRows, SessionsOf;
    ImportedIsNew(d0, d1, b, defaults, m, hasBlobs);
    ImportedIsNew(d2, d3, b', defaults, m', hasBlobs);
  }
}
