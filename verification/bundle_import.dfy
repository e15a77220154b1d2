// Import (internal/bundle/import.go): one transaction over the database, with map images
// written to a blob store that the transaction does not cover.
module BundleImport {
  import opened Common
  import opened BundleTypes
  import opened BundleSpec
  import opened BundleImportSteps

  // Done; Bad: the document itself is refused; Refused: a store call failed.
  datatype Outcome = Done | Bad | Refused

  class Store {
    var next: Id
    var campaigns: map<Id, CampaignRow>
    var agents: Table<AgentRow>
    var nodes: Table<NodeRow>
    var edges: Table<EdgeRow>
    var characters: Table<Character>
    var maps: Table<MapRow>
    var boards: Table<BoardRow>
    var threads: Table<Thread>
    var sessions: Table<SessionRow>

    var blobs: map<Id, Image>
    var nextKey: Id

    // The calls made so far; fails(n) says whether the n-th one is refused by the store.
    var calls: nat
    const fails: nat -> bool
    // Whether a write under a key that reports failure has stored its bytes all the same.
    const strays: Id -> bool
    // Whether the post-failure sweep's delete of a key fails.
    const sweepFails: Id -> bool
    const hasBlobs: bool
    const defaultGrants: map<string, Option<string>>

    constructor (fails: nat -> bool, strays: Id -> bool, sweepFails: Id -> bool, hasBlobs: bool, defaultGrants: map<string, Option<string>>)
      ensures Valid() && blobs == map[] && calls == 0
      ensures Snapshot() == Db(0, map[], map[], map[], map[], map[], map[], map[], map[], map[])
      ensures this.fails == fails && this.strays == strays && this.sweepFails == sweepFails
      ensures this.hasBlobs == hasBlobs && this.defaultGrants == defaultGrants
    {
      next, campaigns, agents, nodes, edges, characters := 0, map[], map[], map[], map[], map[];
      maps, boards, threads, sessions := map[], map[], map[], map[];
      blobs, nextKey, calls := map[], 0, 0;
      this.fails, this.strays, this.sweepFails := fails, strays, sweepFails;
      this.hasBlobs, this.defaultGrants := hasBlobs, defaultGrants;
    }

    function Snapshot(): Db reads this {
      Db(next, campaigns, agents, nodes, edges, characters, maps, boards, threads, sessions)
    }

    ghost predicate Valid() reads this {
      Snapshot().Valid() && Below(blobs, nextKey)
    }

    lemma View(db: Db)
      requires db == Snapshot()
      ensures db == Db(next, campaigns, agents, nodes, edges, characters, maps, boards, threads, sessions)
      ensures Valid() ==> db.Valid() && Below(blobs, nextKey)
    {
    }

    // No store call is ever refused.
    ghost predicate Quiet() {
      forall k: nat :: !fails(k)
    }

    method Call() returns (ok: bool)
      modifies `calls
      ensures calls == old(calls) + 1 && (ok <==> !fails(old(calls)))
      ensures !ok ==> !Quiet()
    {
      ok := !fails(calls);
      calls := calls + 1;
    }

    // Creating a campaign also creates its Butler, with the default grants.
    method CreateCampaign(name: string, system: string, language: string) returns (o: Outcome, cid: Id, butler: Id)
      requires Below(agents, next)
      modifies `calls, `next, `campaigns, `agents
      ensures old(next) <= next
      ensures o == Done || (o == Refused && !Quiet())
      ensures calls == old(calls) + 1 && (o == Done <==> !fails(old(calls)))
      ensures o == Done ==>
        && cid == old(next) && butler == cid + 1 && next == cid + 2
        && campaigns == old(campaigns)[cid := CampaignRow(name, system, language)]
        && agents == old(agents)[butler := Owned(cid, DefaultButler(defaultGrants))]
    {
      cid, butler := next, next + 1;
      var ok := Call();
      if !ok { return Refused, cid, butler; }
      next := cid + 2;
      campaigns := campaigns[cid := CampaignRow(name, system, language)];
      agents := agents[butler := Owned(cid, DefaultButler(defaultGrants))];
      o := Done;
    }

    // createGrants: one grant per document grant, a repeated tool refused.
    method CreateGrants(id: Id, gs: seq<Grant>) returns (o: Outcome)
      requires id in agents && agents[id].row.grants == map[]
      modifies `calls, `agents
      ensures o == Done ==>
        && DistinctTools(gs)
        && agents == old(agents)[id := Owned(old(agents)[id].campaign, old(agents)[id].row.(grants := GrantMap(gs)))]
      ensures o == Bad ==> !DistinctTools(gs)
      ensures o == Refused ==> !Quiet()
    {
      var was := agents[id];
      assert GrantMap(gs[..0]) == map[];
      hide GrantMap;
      for i := 0 to |gs|
        invariant forall p, q :: 0 <= p < q < i ==> gs[p].toolName != gs[q].toolName
        invariant agents == old(agents)[id := Owned(was.campaign, was.row.(grants := GrantMap(gs[..i])))]
      {
        GrantStep(gs, i);
        var grants := agents[id].row.grants;
        if gs[i].toolName in grants { return Bad; }
        var ok := Call();
        if !ok { return Refused; }
        agents := agents[id := Owned(was.campaign, agents[id].row.(grants := grants[gs[i].toolName := gs[i].config]))];
      }
      assert gs[..|gs|] == gs;
      o := Done;
    }

    // Delete every grant an agent has, in any order.
    method DeleteGrants(id: Id) returns (ok: bool)
      requires id in agents
      modifies `calls, `agents
      ensures !ok ==> !Quiet()
      ensures ok ==> agents == old(agents)[id := Owned(old(agents)[id].campaign, old(agents)[id].row.(grants := map[]))]
    {
      ok := true;
      var was := agents[id];
      var existing := was.row.grants;
      while existing.Keys != {}
        invariant agents == old(agents)[id := Owned(was.campaign, was.row.(grants := existing))]
        decreases existing.Keys
      {
        var tool :| tool in existing.Keys;
        ok := Call();
        if !ok { return; }
        existing := existing - {tool};
        agents := agents[id := Owned(was.campaign, was.row.(grants := existing))];
      }
      assert existing == map[];
    }

    // mergeButler: rewrite the trigger-created row and replace its grants exactly.
    method MergeButler(butler: Id, a: Agent) returns (o: Outcome)
      requires butler in agents && agents[butler].row.role == Butler && IsButler(a)
      modifies `calls, `agents
      ensures o == Done ==> AgentOk(a) && agents == old(agents)[butler := Owned(old(agents)[butler].campaign, AgentRowOf(a))]
      ensures o == Bad ==> !AgentOk(a)
      ensures o == Refused ==> !Quiet()
    {
      var ok := Call();
      if !ok { return Refused; }
      if VoiceFromJson(a.voice).None? { return Bad; }
      ok := Call();
      if !ok { return Refused; }
      var was := agents[butler];
      // UpdateAgent keeps the role and forces a Butler's address_only.
      agents := agents[butler := Owned(was.campaign, AgentRow(was.row.role, a.name, a.title, a.persona, a.voice,
                       was.row.role == Butler || a.addressOnly, a.aliases, was.row.grants))];
      ok := DeleteGrants(butler);
      if !ok { return Refused; }
      o := CreateGrants(butler, a.grants);
    }

    // createCharacterAgent: a new row with its grants.
    method CreateCharacterAgent(cid: Id, a: Agent) returns (o: Outcome, id: Id)
      requires !IsButler(a)
      modifies `calls, `next, `agents
      ensures old(next) <= next
      ensures o == Done ==>
        && id == old(next) && next == id + 1
        && AgentOk(a) && agents == old(agents)[id := Owned(cid, AgentRowOf(a))]
      ensures o == Bad ==> !AgentOk(a)
      ensures o == Refused ==> !Quiet()
    {
      id := next;
      if VoiceFromJson(a.voice).None? { return Bad, id; }
      var ok := Call();
      if !ok { return Refused, id; }
      next := id + 1;
      agents := agents[id := Owned(cid, AgentRow(NonPlayer, a.name, a.title, a.persona, a.voice, a.addressOnly, a.aliases, map[]))];
      o := CreateGrants(id, a.grants);
    }

    // One agent: merged into the trigger-created Butler, which may happen once, or a new row.
    method ImportAgent(cid: Id, butler: Id, a: Agent, butlerSeen: bool, ghost before: Table<AgentRow>, ghost xs: seq<Agent>,
                       ghost ids: map<string, Id>, ghost order: seq<Id>, ghost i: nat, ghost lo: Id)
      returns (o: Outcome, id: Id)
      requires i < |xs| && a == xs[i] && (butlerSeen <==> exists j :: 0 <= j < i && IsButler(xs[j]))
      requires AgentsDone(before, agents, cid, butler, xs, ids, order, i, defaultGrants, lo, next)
      modifies `calls, `next, `agents
      ensures old(next) <= next
      ensures o == Done ==>
        && AgentOk(a) && agents == old(agents)[id := Owned(cid, AgentRowOf(a))]
        && (if IsButler(a) then !butlerSeen && id == butler && next == old(next) else id == old(next) && next == id + 1)
      ensures o == Bad ==> !AgentsOk(xs, |xs|)
      ensures o == Refused ==> !Quiet()
    {
      hide AgentsDone, AgentsOk, AgentRowOf, AgentOk;
      id := butler;
      if IsButler(a) {
        if butlerSeen {
          TwoButlers(xs, i);
          return Bad, id;
        }
        StandingButler(before, agents, cid, butler, xs, ids, order, i, defaultGrants, lo, next);
        o := MergeButler(butler, a);
      } else {
        o, id := CreateCharacterAgent(cid, a);
      }
      if o == Bad { BadAgent(xs, i); }
    }

    method ImportAgents(cid: Id, butler: Id, xs: seq<Agent>, ghost before: Table<AgentRow>, ghost lo: Id)
      returns (o: Outcome, ids: map<string, Id>, order: seq<Id>)
      requires Below(before, lo) && lo <= butler < next
      requires agents == before[butler := Owned(cid, DefaultButler(defaultGrants))]
      modifies `calls, `next, `agents
      ensures old(next) <= next
      ensures o == Done ==> AgentsDone(before, agents, cid, butler, xs, ids, order, |xs|, defaultGrants, lo, next)
      ensures o == Bad ==> !AgentsOk(xs, |xs|)
      ensures o == Refused ==> !Quiet()
      ensures xs == [] ==> o == Done && calls == old(calls)
    {
      hide AgentsDone, AgentsOk, AgentRowOf, AgentOk;
      o, ids, order := Done, map[], [];
      var butlerSeen := false;
      AgentsStart(before, agents, cid, butler, xs, defaultGrants, lo, next);
      for i: nat := 0 to |xs|
        invariant o == Done && old(next) <= next && (i == 0 ==> calls == old(calls))
        invariant butlerSeen <==> exists j :: 0 <= j < i && IsButler(xs[j])
        invariant AgentsDone(before, agents, cid, butler, xs, ids, order, i, defaultGrants, lo, next)
      {
        var a := xs[i];
        if a.id in ids {
          AgentsClash(before, agents, cid, butler, xs, ids, order, i, defaultGrants, lo, next);
          o := Bad;
          break;
        }
        ghost var was, hi := agents, next;
        var id;
        o, id := ImportAgent(cid, butler, a, butlerSeen, before, xs, ids, order, i, lo);
        if o != Done { break; }
        butlerSeen := butlerSeen || IsButler(a);
        AgentsStep(before, was, cid, butler, xs, ids, order, i, id, defaultGrants, lo, hi, next);
        ids, order := ids[a.id := id], order + [id];
      }
    }

    // One entry: its row, then its aspects, tags and agent link where it has them.
    method CreateNode(cid: Id, n: Node, agentIds: map<string, Id>) returns (o: Outcome, id: Id)
      modifies `calls, `next, `nodes
      ensures old(next) <= next
      ensures o == Done ==>
        && id == old(next) && next == id + 1 && (n.agentId == "" || n.agentId in agentIds)
        && nodes == old(nodes)[id := Owned(cid, NodeRowOf(n, agentIds))]
      ensures o == Bad ==> n.agentId != "" && n.agentId !in agentIds
      ensures o == Refused ==> !Quiet()
    {
      id := next;
      var ok := Call();
      if !ok { return Refused, id; }
      next := id + 1;
      var was := nodes;
      var row := NodeRow(n.kind, n.name, n.body, n.gmPrivate, None, [], []);
      nodes := was[id := Owned(cid, row)];
      if |n.aspects| > 0 {
        ok := Call();
        if !ok { return Refused, id; }
        row := row.(aspects := n.aspects);
        nodes := was[id := Owned(cid, row)];
      }
      if |n.tags| > 0 {
        ok := Call();
        if !ok { return Refused, id; }
        row := row.(tags := n.tags);
        nodes := was[id := Owned(cid, row)];
      }
      if n.agentId != "" {
        if n.agentId !in agentIds { return Bad, id; }
        ok := Call();
        if !ok { return Refused, id; }
        row := row.(agent := Some(agentIds[n.agentId]));
        nodes := was[id := Owned(cid, row)];
      }
      assert row == NodeRowOf(n, agentIds);
      o := Done;
    }

    method ImportNodes(cid: Id, xs: seq<Node>, agentIds: map<string, Id>, ghost lo: Id)
      returns (o: Outcome, ids: map<string, Id>, order: seq<Id>)
      requires Below(nodes, lo) && lo <= next
      modifies `calls, `next, `nodes
      ensures old(next) <= next
      ensures o == Done ==> NodesDone(old(nodes), nodes, cid, xs, agentIds, ids, order, |xs|, lo, next)
      ensures o == Bad ==> !NodesOk(xs, |xs|, agentIds.Keys)
      ensures o == Refused ==> !Quiet()
      ensures xs == [] ==> o == Done && calls == old(calls)
    {
      o, ids, order := Done, map[], [];
      hide *;
      NodesStart(nodes, cid, xs, agentIds, lo, next);
      for i: nat := 0 to |xs|
        invariant o == Done && old(next) <= next && (i == 0 ==> calls == old(calls))
        invariant NodesDone(old(nodes), nodes, cid, xs, agentIds, ids, order, i, lo, next)
      {
        var n := xs[i];
        if n.id in ids {
          NodesClash(old(nodes), nodes, cid, xs, agentIds, ids, order, i, lo, next);
          o := Bad;
          break;
        }
        ghost var was := nodes;
        var id;
        o, id := CreateNode(cid, n, agentIds);
        if o == Bad { BadNode(xs, i, agentIds.Keys); }
        if o != Done { break; }
        NodesStep(old(nodes), was, cid, xs, agentIds, ids, order, i, id, lo);
        ids, order := ids[n.id := id], order + [id];
      }
    }

    method CreateEdge(cid: Id, e: Edge, nodeIds: map<string, Id>) returns (o: Outcome, id: Id)
      modifies `calls, `next, `edges
      ensures old(next) <= next
      ensures o == Done ==>
        && id == old(next) && next == id + 1 && e.from in nodeIds && e.to in nodeIds
        && edges == old(edges)[id := Owned(cid, EdgeRowOf(e, nodeIds))]
      ensures o == Bad ==> e.from !in nodeIds || e.to !in nodeIds
      ensures o == Refused ==> !Quiet()
    {
      id := next;
      if e.from !in nodeIds || e.to !in nodeIds { return Bad, id; }
      var ok := Call();
      if !ok { return Refused, id; }
      next := id + 1;
      var was := edges;
      var row := EdgeRow(nodeIds[e.from], nodeIds[e.to], e.kind, "", 0);
      edges := was[id := Owned(cid, row)];
      // CreateEdge takes only the type; the relation's texture is a second write.
      if e.note != "" || e.disposition != 0 {
        ok := Call();
        if !ok { return Refused, id; }
        row := row.(note := e.note, disposition := e.disposition);
        edges := was[id := Owned(cid, row)];
      }
      assert row == EdgeRowOf(e, nodeIds);
      o := Done;
    }

    method ImportEdges(cid: Id, xs: seq<Edge>, nodeIds: map<string, Id>, ghost lo: Id) returns (o: Outcome, order: seq<Id>)
      requires Below(edges, lo) && lo <= next
      modifies `calls, `next, `edges
      ensures old(next) <= next
      ensures o == Done ==>
        && EdgesOk(xs, |xs|, nodeIds.Keys)
        && Added(old(edges), edges, cid, order, EdgeRows(xs, |xs|, nodeIds), lo, next)
      ensures o == Bad ==> !EdgesOk(xs, |xs|, nodeIds.Keys)
      ensures o == Refused ==> !Quiet()
      ensures xs == [] ==> o == Done && calls == old(calls)
    {
      hide Added, EdgeRowOf;
      order := [];
      NothingAdded(edges, cid, lo, next);
      assert EdgeRows(xs, 0, nodeIds) == [];
      for i := 0 to |xs|
        invariant old(next) <= next && (i == 0 ==> calls == old(calls))
        invariant EdgesOk(xs, i, nodeIds.Keys)
        invariant Added(old(edges), edges, cid, order, EdgeRows(xs, i, nodeIds), lo, next)
      {
        var e := xs[i];
        ghost var was := edges;
        var id;
        o, id := CreateEdge(cid, e, nodeIds);
        if o != Done { return; }
        AddRow(old(edges), was, cid, order, EdgeRows(xs, i, nodeIds), lo, id, id, EdgeRowOf(e, nodeIds));
        assert EdgeRows(xs, i + 1, nodeIds) == EdgeRows(xs, i, nodeIds) + [EdgeRowOf(e, nodeIds)];
        order := order + [id];
      }
      o := Done;
    }

    method ImportCharacters(cid: Id, xs: seq<Character>, ghost lo: Id) returns (o: Outcome, order: seq<Id>)
      requires Below(characters, lo) && lo <= next
      modifies `calls, `next, `characters
      ensures old(next) <= next
      ensures o == Done ==> Added(old(characters), characters, cid, order, xs, lo, next)
      ensures o == Done || (o == Refused && !Quiet())
      ensures xs == [] ==> o == Done && calls == old(calls)
    {
      hide Added;
      order := [];
      NothingAdded(characters, cid, lo, next);
      for i := 0 to |xs|
        invariant old(next) <= next && (i == 0 ==> calls == old(calls))
        invariant Added(old(characters), characters, cid, order, xs[..i], lo, next)
      {
        var ok := Call();
        if !ok { return Refused, order; }
        AddRow(old(characters), characters, cid, order, xs[..i], lo, next, next, xs[i]);
        assert xs[..i + 1] == xs[..i] + [xs[i]];
        characters := characters[next := Owned(cid, xs[i])];
        order := order + [next];
        next := next + 1;
      }
      assert xs[..|xs|] == xs;
      o := Done;
    }

    // What a write that reported failure leaves: nothing, or its bytes all the same.
    ghost predicate AfterFailedWrite(before: map<Id, Image>, key: Id, m: Map) reads this {
      nextKey == key + 1 && blobs == if strays(key) && m.image.Encoded? then before[key := Image(DeclaredType(m), m.image.data)] else before
    }

    // The bytes of one map, stored before its row: the key is minted only when there are bytes.
    // failed is the key of a write that reported failure.
    method StoreImage(m: Map) returns (o: Outcome, key: Option<Id>, ghost failed: Option<Id>)
      requires Below(blobs, nextKey)
      modifies `calls, `blobs, `nextKey
      ensures Below(blobs, nextKey) && old(nextKey) <= nextKey
      ensures o == Done ==>
        && (m.image == Empty || (hasBlobs && m.image.Encoded? && RasterImageType(DeclaredType(m))))
        && (if m.image == Empty then key == None && blobs == old(blobs)
            else key == Some(old(nextKey)) && nextKey == old(nextKey) + 1
                 && blobs == old(blobs)[old(nextKey) := Image(DeclaredType(m), m.image.data)])
      ensures o == Bad ==> !(m.image == Empty || (hasBlobs && m.image.Encoded? && RasterImageType(DeclaredType(m))))
      ensures o == Bad ==> blobs == old(blobs)
      ensures o == Refused ==> !Quiet()
      ensures StoresImage(m, hasBlobs) && fails(old(calls)) ==> o == Refused
      ensures failed == if o == Refused then Some(old(nextKey)) else None
      ensures o == Refused ==> m.image.Encoded? && AfterFailedWrite(old(blobs), old(nextKey), m)
    {
      key, failed := None, None;
      if m.image == Empty { return Done, key, failed; }
      if !hasBlobs { return Bad, key, failed; }
      var data := DecodeBase64(m.image);
      if data.None? { return Bad, key, failed; }
      if !RasterImageType(DeclaredType(m)) { return Bad, key, failed; }
      var minted := nextKey;
      nextKey := minted + 1;
      var put := Call();
      if put || strays(minted) { blobs := blobs[minted := Image(DeclaredType(m), data.value)]; }
      if !put { return Refused, key, Some(minted); }
      key := Some(minted);
      o := Done;
    }

    method CreateFlatMap(cid: Id, m: Map, nodeIds: map<string, Id>) returns (o: Outcome, key: Option<Id>, id: Id, ghost failed: Option<Id>)
      requires Below(blobs, nextKey)
      modifies `calls, `next, `maps, `blobs, `nextKey
      ensures old(next) <= next && Below(blobs, nextKey) && old(nextKey) <= nextKey
      ensures if failed.Some? then o == Refused && key.None? && failed == Some(old(nextKey)) && AfterFailedWrite(old(blobs), old(nextKey), m)
              else if key.None? then blobs == old(blobs)
              else key == Some(old(nextKey)) && nextKey == old(nextKey) + 1 && m.image.Encoded?
                   && blobs == old(blobs)[old(nextKey) := Image(DeclaredType(m), m.image.data)]
      ensures failed.Some? ==> m.image.Encoded?
      ensures StoresImage(m, hasBlobs) && fails(old(calls)) ==> failed.Some?
      ensures o == Done ==>
        && FlatMapOk(m, nodeIds.Keys, hasBlobs) && (key.None? <==> m.image.Empty?)
        && id == old(next) && next == id + 1
        && maps == old(maps)[id := Owned(cid, FlatRow(m, nodeIds, key))]
      ensures o == Bad ==> !FlatMapOk(m, nodeIds.Keys, hasBlobs)
      ensures o == Refused ==> !Quiet()
    {
      id, key, failed := next, None, None;
      if m.anchorNodeId != "" && m.anchorNodeId !in nodeIds { return Bad, key, id, failed; }
      o, key, failed := StoreImage(m);
      if o != Done { return o, None, id, failed; }
      var ok := Call();
      if !ok { return Refused, key, id, failed; }
      next := id + 1;
      maps := maps[id := Owned(cid, FlatRow(m, nodeIds, key))];
    }

    // importMaps pass 1: every map flat, its image stored first.
    method CreateFlatMaps(cid: Id, xs: seq<Map>, nodeIds: map<string, Id>, ghost lo: Id)
      returns (o: Outcome, ids: map<string, Id>, order: seq<Id>, keys: seq<Option<Id>>, written: set<Id>, ghost failed: Option<Id>)
      requires Below(maps, lo) && lo <= next && Below(blobs, nextKey)
      modifies `calls, `next, `maps, `blobs, `nextKey
      ensures old(next) <= next && Below(blobs, nextKey) && old(nextKey) <= nextKey
      ensures BlobsGrew(old(blobs), blobs, written, failed, strays)
      ensures o == Done ==>
        && FlatDone(old(maps), maps, cid, xs, nodeIds, ids, order, keys, |xs|, hasBlobs, lo, next)
        && ImagesStored(old(blobs), blobs, xs, keys, old(nextKey), nextKey)
      ensures o == Bad ==> !FlatMapsOk(xs, |xs|, nodeIds.Keys, hasBlobs)
      ensures o == Refused ==> !Quiet()
      ensures failed.Some? ==> o == Refused
      ensures StoresFirst(xs, hasBlobs) && fails(old(calls)) ==> failed == Some(old(nextKey))
    {
      hide FlatDone, ImagesStored, BlobsGrew, Below, FlatRow, FlatMapOk, FlatMapsOk, DeclaredType, StoresImage, Quiet;
      o, ids, order, keys, written, failed := Done, map[], [], [], {}, None;
      FlatStart(maps, blobs, cid, xs, nodeIds, hasBlobs, lo, next, nextKey, strays);
      for i: nat := 0 to |xs|
        invariant o == Done && old(next) <= next && Below(blobs, nextKey) && old(nextKey) <= nextKey && |keys| == i && failed == None
        invariant i == 0 ==> ids == map[] && calls == old(calls) && nextKey == old(nextKey)
        invariant StoresFirst(xs, hasBlobs) && fails(old(calls)) ==> i == 0
        invariant BlobsGrew(old(blobs), blobs, written, failed, strays)
        invariant FlatDone(old(maps), maps, cid, xs, nodeIds, ids, order, keys, i, hasBlobs, lo, next)
        invariant ImagesStored(old(blobs), blobs, xs, keys, old(nextKey), nextKey)
      {
        var m := xs[i];
        if m.id in ids {
          FlatClash(old(maps), maps, cid, xs, nodeIds, ids, order, keys, i, hasBlobs, lo, next);
          o := Bad;
          break;
        }
        ghost var bwas, kwas, was := blobs, nextKey, maps;
        var key, id;
        o, key, id, failed := CreateFlatMap(cid, m, nodeIds);
        BlobsStep(old(blobs), bwas, blobs, written, key, failed, strays, kwas);
        if key.Some? { written := written + {key.value}; }
        if o == Bad { BadFlatMap(xs, i, nodeIds.Keys, hasBlobs); }
        if o != Done { break; }
        AddImage(old(blobs), bwas, blobs, xs, keys, key, old(nextKey), kwas, nextKey);
        FlatStep(old(maps), was, cid, xs, nodeIds, ids, order, keys, i, id, key, hasBlobs, lo);
        ids, order, keys := ids[m.id := id], order + [id], keys + [key];
      }
    }

    method NestMap(cid: Id, id: Id, m: Map, nodeIds: map<string, Id>, ids: map<string, Id>) returns (o: Outcome)
      requires id in maps
      modifies `calls, `maps
      ensures o == Done ==> NestedAs(old(maps), maps, cid, id, m, nodeIds, ids)
      ensures o == Bad ==> m.parentMapId != "" && (m.parentMapId !in ids || ids[m.parentMapId] == id)
      ensures o == Refused ==> !Quiet()
    {
      if m.parentMapId == "" { return Done; }
      if m.parentMapId !in ids { return Bad; }
      var parent := ids[m.parentMapId];
      // UpdateMap refuses a map as its own parent.
      if parent == id { return Bad; }
      var ok := Call();
      if !ok { return Refused; }
      maps := maps[id := Owned(cid, Nest(maps[id].row, m, nodeIds, parent))];
      o := Done;
    }

    // importMaps pass 2: the nesting. At no point is there a cycle the document does not have.
    method NestMaps(cid: Id, xs: seq<Map>, nodeIds: map<string, Id>, ids: map<string, Id>, order: seq<Id>, keys: seq<Option<Id>>,
                    ghost before: Table<MapRow>, ghost lo: Id)
      returns (o: Outcome)
      requires FlatDone(before, maps, cid, xs, nodeIds, ids, order, keys, |xs|, hasBlobs, lo, next)
      modifies `calls, `maps
      ensures o == Done ==> MapsDone(before, maps, cid, xs, nodeIds, ids, order, keys, |xs|, 0, lo, next)
      ensures o == Bad ==> !ParentsOk(xs, |xs|)
      ensures o == Refused ==> !Quiet()
    {
      hide *;
      NestStart(before, maps, cid, xs, nodeIds, ids, order, keys, hasBlobs, lo, next);
      o := Done;
      for i: nat := 0 to |xs|
        invariant o == Done
        invariant MapsDone(before, maps, cid, xs, nodeIds, ids, order, keys, i, 0, lo, next)
        invariant DocumentForest(xs) ==> RowForest(maps, order)
      {
        MapsView(before, maps, cid, xs, nodeIds, ids, order, keys, i, 0, lo, next, i);
        var m := xs[i];
        ghost var was := maps;
        o := NestMap(cid, ids[m.id], m, nodeIds, ids);
        if o == Bad { BadParent(xs, ids, order, i); }
        if o != Done { break; }
        NestStep(before, was, maps, cid, xs, nodeIds, ids, order, keys, i, lo, next);
        NestedPrefixIsForest(before, maps, cid, xs, nodeIds, ids, order, keys, i + 1, lo, next);
      }
    }

    method PlacePins(cid: Id, id: Id, pins: seq<Pin>, nodeIds: map<string, Id>) returns (o: Outcome)
      requires id in maps && maps[id].campaign == cid && maps[id].row.pins == []
      modifies `calls, `maps
      ensures o == Done ==>
        && PinsOk(pins, nodeIds.Keys)
        && maps == old(maps)[id := Owned(cid, old(maps)[id].row.(pins := PinRows(pins, nodeIds)))]
      ensures o == Bad ==> !PinsOk(pins, nodeIds.Keys)
      ensures o == Refused ==> !Quiet()
    {
      var was := maps[id].row;
      var placed: seq<PinRow> := [];
      for k := 0 to |pins|
        invariant |placed| == k && forall q :: 0 <= q < k ==> pins[q].nodeId in nodeIds && placed[q] == PinRowOf(pins[q], nodeIds)
        invariant maps == old(maps)[id := Owned(cid, was.(pins := placed))]
      {
        if pins[k].nodeId !in nodeIds { return Bad; }
        var ok := Call();
        if !ok { return Refused; }
        placed := placed + [PinRowOf(pins[k], nodeIds)];
        maps := maps[id := Owned(cid, was.(pins := placed))];
      }
      assert placed == PinRows(pins, nodeIds);
      o := Done;
    }

    // importMaps, last: the pins, since they need both a map and a node.
    method CreatePins(cid: Id, xs: seq<Map>, nodeIds: map<string, Id>, ids: map<string, Id>, order: seq<Id>, keys: seq<Option<Id>>,
                      ghost before: Table<MapRow>, ghost lo: Id)
      returns (o: Outcome)
      requires MapsDone(before, maps, cid, xs, nodeIds, ids, order, keys, |xs|, 0, lo, next)
      modifies `calls, `maps
      ensures o == Done ==>
        && AllPinsOk(xs, |xs|, nodeIds.Keys)
        && MapsDone(before, maps, cid, xs, nodeIds, ids, order, keys, |xs|, |xs|, lo, next)
      ensures o == Bad ==> !AllPinsOk(xs, |xs|, nodeIds.Keys)
      ensures o == Refused ==> !Quiet()
    {
      hide MapsDone, PinsOk, MapRows, Indexes;
      for i := 0 to |xs|
        invariant AllPinsOk(xs, i, nodeIds.Keys)
        invariant MapsDone(before, maps, cid, xs, nodeIds, ids, order, keys, |xs|, i, lo, next)
      {
        MapsView(before, maps, cid, xs, nodeIds, ids, order, keys, |xs|, i, lo, next, i);
        PinnedRowsStep(xs, nodeIds, ids, keys, i);
        ghost var was := maps;
        o := PlacePins(cid, ids[xs[i].id], xs[i].pins, nodeIds);
        if o != Done { return; }
        PinStep(before, was, maps, cid, xs, nodeIds, ids, order, keys, i, lo, next);
      }
      o := Done;
    }

    method ImportMaps(cid: Id, xs: seq<Map>, nodeIds: map<string, Id>, ghost lo: Id)
      returns (o: Outcome, ids: map<string, Id>, order: seq<Id>, keys: seq<Option<Id>>, written: set<Id>, ghost failed: Option<Id>)
      requires Below(maps, lo) && lo <= next && Below(blobs, nextKey)
      modifies `calls, `next, `maps, `blobs, `nextKey
      ensures old(next) <= next && Below(blobs, nextKey) && old(nextKey) <= nextKey
      ensures BlobsGrew(old(blobs), blobs, written, failed, strays)
      ensures o == Done ==>
        && MapsOk(xs, nodeIds.Keys, hasBlobs)
        && MapsDone(old(maps), maps, cid, xs, nodeIds, ids, order, keys, |xs|, |xs|, lo, next)
        && ImagesStored(old(blobs), blobs, xs, keys, old(nextKey), nextKey)
      ensures o == Bad ==> !MapsOk(xs, nodeIds.Keys, hasBlobs)
      ensures o == Refused ==> !Quiet()
      ensures failed.Some? ==> o == Refused
      ensures StoresFirst(xs, hasBlobs) && fails(old(calls)) ==> failed == Some(old(nextKey))
    {
      hide MapsDone, FlatDone, ImagesStored, BlobsGrew, FlatMapsOk, ParentsOk, AllPinsOk, Below, Quiet, StoresFirst;
      o, ids, order, keys, written, failed := CreateFlatMaps(cid, xs, nodeIds, lo);
      if o != Done { return; }
      FlatOk(old(maps), maps, cid, xs, nodeIds, ids, order, keys, hasBlobs, lo, next);
      o := NestMaps(cid, xs, nodeIds, ids, order, keys, old(maps), lo);
      if o != Done { return; }
      MapsParents(old(maps), maps, cid, xs, nodeIds, ids, order, keys, lo, next);
      o := CreatePins(cid, xs, nodeIds, ids, order, keys, old(maps), lo);
    }

    // A board and its entries, which are renamed and set in one call.
    method RestoreBoard(cid: Id, b: Board, nodeIds: map<string, Id>) returns (o: Outcome, id: Id)
      modifies `calls, `next, `boards
      ensures old(next) <= next
      ensures o == Done ==>
        && id == old(next) && next == id + 1 && BoardOk(b, nodeIds.Keys)
        && boards == old(boards)[id := Owned(cid, BoardRowOf(b, nodeIds))]
      ensures o == Bad ==> !BoardOk(b, nodeIds.Keys)
      ensures o == Refused ==> !Quiet()
    {
      id := next;
      var ok := Call();
      if !ok { return Refused, id; }
      next := id + 1;
      var was := boards;
      boards := was[id := Owned(cid, BoardRow(b.name, []))];
      var entries := [];
      for k := 0 to |b.nodeIds|
        invariant |entries| == k && forall q :: 0 <= q < k ==> b.nodeIds[q] in nodeIds && entries[q] == nodeIds[b.nodeIds[q]]
      {
        if b.nodeIds[k] !in nodeIds { return Bad, id; }
        entries := entries + [nodeIds[b.nodeIds[k]]];
      }
      ok := Call();
      if !ok { return Refused, id; }
      boards := was[id := Owned(cid, BoardRow(b.name, entries))];
      assert BoardRow(b.name, entries) == BoardRowOf(b, nodeIds);
      o := Done;
    }

    method ImportBoards(cid: Id, xs: seq<Board>, nodeIds: map<string, Id>, ghost lo: Id) returns (o: Outcome, order: seq<Id>)
      requires Below(boards, lo) && lo <= next
      modifies `calls, `next, `boards
      ensures old(next) <= next
      ensures o == Done ==>
        && BoardsOk(xs, |xs|, nodeIds.Keys)
        && Added(old(boards), boards, cid, order, BoardRows(xs, |xs|, nodeIds), lo, next)
      ensures o == Bad ==> !BoardsOk(xs, |xs|, nodeIds.Keys)
      ensures o == Refused ==> !Quiet()
    {
      hide Added, BoardRowOf, BoardOk;
      order := [];
      NothingAdded(boards, cid, lo, next);
      assert BoardRows(xs, 0, nodeIds) == [];
      for i := 0 to |xs|
        invariant old(next) <= next
        invariant BoardsOk(xs, i, nodeIds.Keys)
        invariant Added(old(boards), boards, cid, order, BoardRows(xs, i, nodeIds), lo, next)
      {
        var b := xs[i];
        ghost var was := boards;
        var id;
        o, id := RestoreBoard(cid, b, nodeIds);
        if o != Done { return; }
        AddRow(old(boards), was, cid, order, BoardRows(xs, i, nodeIds), lo, id, id, BoardRowOf(b, nodeIds));
        assert BoardRows(xs, i + 1, nodeIds) == BoardRows(xs, i, nodeIds) + [BoardRowOf(b, nodeIds)];
        order := order + [id];
      }
      o := Done;
    }

    method ImportThreads(cid: Id, xs: seq<Thread>, ghost lo: Id) returns (o: Outcome, order: seq<Id>)
      requires Below(threads, lo) && lo <= next
      modifies `calls, `next, `threads
      ensures old(next) <= next
      ensures o == Done ==> ThreadsOk(xs, |xs|) && Added(old(threads), threads, cid, order, xs, lo, next)
      ensures o == Bad ==> !ThreadsOk(xs, |xs|)
      ensures o == Refused ==> !Quiet()
    {
      hide Added;
      order := [];
      NothingAdded(threads, cid, lo, next);
      for i := 0 to |xs|
        invariant old(next) <= next
        invariant ThreadsOk(xs, i)
        invariant Added(old(threads), threads, cid, order, xs[..i], lo, next)
      {
        var t := xs[i];
        ghost var was := threads;
        var ok := Call();
        if !ok { return Refused, order; }
        var id := next;
        next := id + 1;
        threads := threads[id := Owned(cid, Thread(t.title, []))];
        // Appended in order: the store derives the sequence numbers.
        for k := 0 to |t.messages|
          invariant forall q :: 0 <= q < k ==> ValidMessageRole(t.messages[q].role)
          invariant next == id + 1
          invariant threads == was[id := Owned(cid, Thread(t.title, t.messages[..k]))]
        {
          if !ValidMessageRole(t.messages[k].role) {
            assert !ThreadOk(xs[i]);
            return Bad, order;
          }
          ok := Call();
          if !ok { return Refused, order; }
          assert t.messages[..k + 1] == t.messages[..k] + [t.messages[k]];
          threads := threads[id := Owned(cid, Thread(t.title, threads[id].row.messages + [t.messages[k]]))];
        }
        assert t.messages[..|t.messages|] == t.messages;
        AddRow(old(threads), was, cid, order, xs[..i], lo, id, id, t);
        assert xs[..i + 1] == xs[..i] + [t];
        order := order + [id];
      }
      assert xs[..|xs|] == xs;
      o := Done;
    }

    method UpsertLines(cid: Id, id: Id, ls: seq<Line>) returns (ok: bool)
      requires id in sessions && sessions[id].campaign == cid && sessions[id].row.lines == map[]
      modifies `calls, `sessions
      ensures !ok ==> !Quiet()
      ensures ok ==> sessions == old(sessions)[id := Owned(cid, old(sessions)[id].row.(lines := LineMap(ls)))]
    {
      ok := true;
      var was := sessions[id].row;
      for j := 0 to |ls|
        invariant ok && sessions == old(sessions)[id := Owned(cid, was.(lines := LineMap(ls[..j])))]
      {
        ok := Call();
        if !ok { return; }
        assert ls[..j + 1][..j] == ls[..j];
        sessions := sessions[id := Owned(cid, was.(lines := UpsertLine(sessions[id].row.lines, ls[j])))];
      }
      assert ls[..|ls|] == ls;
    }

    // The rows that survive the reference checks, recorded in one batch.
    method RecordAppearances(cid: Id, id: Id, s: Session, nodeIds: map<string, Id>) returns (ok: bool)
      requires id in sessions && sessions[id].campaign == cid && sessions[id].row.appearances == map[]
      modifies `calls, `sessions
      ensures !ok ==> !Quiet()
      ensures ok ==> sessions == old(sessions)[id := Owned(cid,
        old(sessions)[id].row.(appearances := AppearanceMap(s.appearances, nodeIds, LineMap(s.lines).Keys)))]
    {
      ok := true;
      var imported := set j | 0 <= j < |s.lines| :: s.lines[j].lineId;
      LineMapKeys(s.lines);
      var recorded: map<(Id, string), Time> := map[];
      var survivors := 0;
      for j := 0 to |s.appearances|
        invariant recorded == AppearanceMap(s.appearances[..j], nodeIds, imported)
        invariant survivors == 0 ==> recorded == map[]
      {
        assert s.appearances[..j + 1][..j] == s.appearances[..j];
        var a := s.appearances[j];
        if a.nodeId in nodeIds && a.lineId in imported { survivors := survivors + 1; }
        recorded := RecordAppearance(recorded, a, nodeIds, imported);
      }
      assert s.appearances[..|s.appearances|] == s.appearances;
      if survivors > 0 {
        ok := Call();
        if !ok { return; }
        sessions := sessions[id := Owned(cid, sessions[id].row.(appearances := recorded))];
      }
    }

    // Each participant that is an imported agent, and how many are not.
    method RemapParticipants(refs: seq<string>, agentIds: map<string, Id>) returns (participated: seq<Id>, lost: nat)
      ensures participated == KnownParticipants(refs, agentIds) && lost == Unknown(refs, agentIds)
    {
      participated, lost := [], 0;
      for k := 0 to |refs|
        invariant participated == KnownParticipants(refs[..k], agentIds) && lost == Unknown(refs[..k], agentIds)
      {
        assert refs[..k + 1][..k] == refs[..k];
        if refs[k] in agentIds {
          participated := participated + [agentIds[refs[k]]];
        } else {
          lost := lost + 1;
        }
      }
      assert refs[..|refs|] == refs;
    }

    method InsertChunks(cid: Id, id: Id, cs: seq<Chunk>, agentIds: map<string, Id>) returns (ok: bool, dropped: nat)
      requires id in sessions && sessions[id].campaign == cid && sessions[id].row.chunks == []
      modifies `calls, `sessions
      ensures !ok ==> !Quiet()
      ensures ok ==>
        && sessions == old(sessions)[id := Owned(cid, old(sessions)[id].row.(chunks := ChunkRows(cs, agentIds)))]
        && dropped == DroppedInChunks(cs, agentIds)
    {
      ok, dropped := true, 0;
      var was := sessions;
      var stored: seq<ChunkRow> := [];
      for j := 0 to |cs|
        invariant ok && |stored| == j && forall q :: 0 <= q < j ==> stored[q] == ChunkRowOf(cs[q], agentIds)
        invariant sessions == was[id := Owned(cid, was[id].row.(chunks := stored))]
        invariant dropped == DroppedInChunks(cs[..j], agentIds)
      {
        var participated, lost := RemapParticipants(cs[j].participants, agentIds);
        ok := Call();
        if !ok { return; }
        assert cs[..j + 1][..j] == cs[..j];
        stored := stored + [ChunkRow(cs[j].content, cs[j].speakers, participated, cs[j].startedAt)];
        sessions := was[id := Owned(cid, was[id].row.(chunks := stored))];
        dropped := dropped + lost;
      }
      assert cs[..|cs|] == cs;
      assert stored == ChunkRows(cs, agentIds);
    }

    // One session: its row, then its lines, appearances and chunks.
    method ImportSession(cid: Id, s: Session, agentIds: map<string, Id>, nodeIds: map<string, Id>)
      returns (ok: bool, id: Id, dropped: nat)
      modifies `calls, `next, `sessions
      ensures old(next) <= next
      ensures !ok ==> !Quiet()
      ensures ok ==>
        && id == old(next) && next == id + 1
        && sessions == old(sessions)[id := Owned(cid, SessionRowOf(s, agentIds, nodeIds))]
        && dropped == DroppedInChunks(s.chunks, agentIds)
    {
      hide LineMap, AppearanceMap, ChunkRows, DroppedInChunks;
      id, dropped := next, 0;
      // A terminal session always has an end; a missing one defaults to the start.
      var endedAt := s.endedAt;
      if endedAt.None? { endedAt := Some(s.startedAt); }
      ok := Call();
      if !ok { return; }
      next := id + 1;
      sessions := sessions[id := Owned(cid, SessionRow(
        s.startedAt, endedAt, CoerceTerminalStatus(s.status), s.lineCount, s.endReason, map[], [], map[]))];
      ok := UpsertLines(cid, id, s.lines);
      if !ok { return; }
      ok := RecordAppearances(cid, id, s, nodeIds);
      if !ok { return; }
      ok, dropped := InsertChunks(cid, id, s.chunks, agentIds);
    }

    method ImportHistory(cid: Id, xs: seq<Session>, agentIds: map<string, Id>, nodeIds: map<string, Id>, ghost lo: Id)
      returns (o: Outcome, order: seq<Id>, dropped: nat)
      requires Below(sessions, lo) && lo <= next
      modifies `calls, `next, `sessions
      ensures old(next) <= next
      ensures o == Done ==> SessionsDone(old(sessions), sessions, cid, xs, agentIds, nodeIds, order, |xs|, dropped, lo, next)
      ensures o == Done || (o == Refused && !Quiet())
    {
      hide *;
      o, order, dropped := Done, [], 0;
      SessionsStart(sessions, cid, xs, agentIds, nodeIds, lo, next);
      for i: nat := 0 to |xs|
        invariant o == Done && old(next) <= next
        invariant SessionsDone(old(sessions), sessions, cid, xs, agentIds, nodeIds, order, i, dropped, lo, next)
      {
        ghost var was := sessions;
        var s := xs[i];
        var ok, id, lost := ImportSession(cid, s, agentIds, nodeIds);
        if !ok {
          o := Refused;
          break;
        }
        SessionsStep(old(sessions), was, cid, xs, agentIds, nodeIds, order, i, dropped, id, lo);
        order, dropped := order + [id], dropped + lost;
      }
    }

    // The campaign, its agents, entries, relations and characters.
    method ImportGraph(b: Bundle) returns (o: Outcome, m: Minted)
      requires Snapshot().Valid()
      modifies `calls, `next, `campaigns, `agents, `nodes, `edges, `characters
      ensures old(next) <= next
      ensures o == Done ==> GraphOk(b)
      ensures o == Done ==> GraphDone(old(Snapshot()), Snapshot(), b, defaultGrants, m)
      ensures o == Bad ==> !GraphOk(b)
      ensures o == Refused ==> !Quiet()
      ensures NoGraph(b) ==> calls == old(calls) + 1 && (o == Done <==> !fails(old(calls)))
    {
      hide Added, AgentsAdded, Indexes, GraphDone, AgentsDone, NodesDone, GraphOk, AgentsOk, NodesOk, EdgesOk, Below, Fresh, Quiet;
      hide AgentRefs, NodeRefs, AgentRefSeq, NodeRefSeq, NodeRows, EdgeRows, DefaultButler;
      ghost var before := Snapshot();
      FreshIsBelow(before);
      m := NOTHING_MINTED;
      label body: {
        var cid, butler, agentIds, agentOrder, nodeIds, nodeOrder, edgeOrder, characterOrder;
        o, cid, butler := CreateCampaign(b.name, b.system, b.language);
        if o != Done { break body; }
        o, agentIds, agentOrder := ImportAgents(cid, butler, b.agents, before.agents, before.next);
        if o == Bad { BadGraph(b); }
        if o != Done { break body; }
        ghost var h1 := next;
        AgentsFinish(before.agents, agents, cid, butler, b.agents, agentIds, agentOrder, defaultGrants, before.next, h1);
        o, nodeIds, nodeOrder := ImportNodes(cid, b.nodes, agentIds, before.next);
        if o == Bad { BadGraph(b); }
        if o != Done { break body; }
        ghost var h2 := next;
        NodesFinish(before.nodes, nodes, cid, b.nodes, agentIds, nodeIds, nodeOrder, before.next, h2);
        o, edgeOrder := ImportEdges(cid, b.edges, nodeIds, before.next);
        if o == Bad { BadGraph(b); }
        if o != Done { break body; }
        ghost var h3 := next;
        o, characterOrder := ImportCharacters(cid, b.characters, before.next);
        if o != Done { break body; }
        m := Minted(cid, butler, agentOrder, agentIds, nodeOrder, nodeIds, [], map[], [], edgeOrder, characterOrder, [], [], []);
        GoodGraph(b);
        AssembleGraph(before, Snapshot(), b, defaultGrants, m, h1, h2, h3);
      }
    }

    // The boards, planning threads and voice history.
    method ImportRecords(b: Bundle, cid: Id, agentIds: map<string, Id>, nodeIds: map<string, Id>, ghost lo: Id)
      returns (o: Outcome, r: Records)
      requires Below(boards, lo) && Below(threads, lo) && Below(sessions, lo) && lo <= next
      modifies `calls, `next, `boards, `threads, `sessions
      ensures old(next) <= next
      ensures o == Done ==> BoardsOk(b.boards, |b.boards|, nodeIds.Keys) && ThreadsOk(b.threads, |b.threads|)
      ensures o == Done ==> RecordsDone(old(Snapshot()), Snapshot(), cid, b, agentIds, nodeIds, r, lo, next)
      ensures o == Bad ==> !(BoardsOk(b.boards, |b.boards|, nodeIds.Keys) && ThreadsOk(b.threads, |b.threads|))
      ensures o == Refused ==> !Quiet()
    {
      hide Added, SessionsDone, RecordsDone, BoardsOk, ThreadsOk, Below, Quiet, SessionsOf, BoardRows, SessionRows, DroppedRefs;
      ghost var before := Snapshot();
      r := Records([], [], [], 0);
      label body: {
        var boardOrder, threadOrder, sessionOrder, dropped;
        o, boardOrder := ImportBoards(cid, b.boards, nodeIds, lo);
        if o != Done { break body; }
        ghost var h6 := next;
        o, threadOrder := ImportThreads(cid, b.threads, lo);
        if o != Done { break body; }
        ghost var h7 := next;
        o, sessionOrder, dropped := ImportHistory(cid, SessionsOf(b), agentIds, nodeIds, lo);
        if o != Done { break body; }
        r := Records(boardOrder, threadOrder, sessionOrder, dropped);
        AssembleRecords(before, Snapshot(), cid, b, agentIds, nodeIds, r, lo, h6, h7, next);
      }
    }

    // What follows the graph: the maps, then the records. h is the next id between the two.
    method ImportRest(b: Bundle, cid: Id, agentIds: map<string, Id>, nodeIds: map<string, Id>, ghost lo: Id)
      returns (o: Outcome, ids: map<string, Id>, order: seq<Id>, keys: seq<Option<Id>>, r: Records, written: set<Id>,
               ghost failed: Option<Id>, ghost h: Id)
      requires Below(maps, lo) && Below(boards, lo) && Below(threads, lo) && Below(sessions, lo) && lo <= next && Below(blobs, nextKey)
      modifies `calls, `next, `maps, `boards, `threads, `sessions, `blobs, `nextKey
      ensures old(next) <= h <= next && Below(blobs, nextKey)
      ensures BlobsGrew(old(blobs), blobs, written, failed, strays)
      ensures o == Bad ==> !RestOk(b, nodeIds.Keys, hasBlobs)
      ensures o == Refused ==> !Quiet()
      ensures failed.Some? ==> o == Refused
      ensures StoresFirst(b.maps, hasBlobs) && fails(old(calls)) ==> failed == Some(old(nextKey))
      ensures o == Done ==> RestOk(b, nodeIds.Keys, hasBlobs)
      ensures o == Done ==> ImagesStored(old(blobs), blobs, b.maps, keys, old(nextKey), nextKey)
      ensures o == Done ==> MapsDone(old(maps), maps, cid, b.maps, nodeIds, ids, order, keys, |b.maps|, |b.maps|, lo, h)
      ensures o == Done ==> RecordsDone(old(Snapshot()), Snapshot(), cid, b, agentIds, nodeIds, r, lo, next)
    {
      hide *;
      ghost var was := Snapshot();
      View(was);
      r := Records([], [], [], 0);
      o, ids, order, keys, written, failed := ImportMaps(cid, b.maps, nodeIds, lo);
      h := next;
      if o == Done {
        ghost var mapped := Snapshot();
        View(mapped);
        o, r := ImportRecords(b, cid, agentIds, nodeIds, lo);
        if o == Done {
          SameRecords(mapped, was, Snapshot(), cid, b, agentIds, nodeIds, r, lo, next);
          GoodRest(b, nodeIds.Keys, hasBlobs);
        }
      }
      if o == Bad { BadRest(b, nodeIds.Keys, hasBlobs); }
    }

    // importInTx: the transaction body. written is what must be swept if it fails.
    method ImportInTx(b: Bundle) returns (o: Outcome, written: set<Id>, m: Minted, dropped: nat, ghost failed: Option<Id>)
      requires Valid() && SupportedVersion(b.formatVersion)
      modifies this
      ensures Below(blobs, nextKey)
      ensures BlobsGrew(old(blobs), blobs, written, failed, strays)
      ensures o == Bad ==> !Importable(b, hasBlobs)
      ensures o == Refused ==> !Quiet()
      ensures failed.Some? ==> o == Refused
      ensures NoGraph(b) && StoresFirst(b.maps, hasBlobs) && !fails(old(calls)) && fails(old(calls) + 1) ==> failed == Some(old(nextKey))
      ensures o == Done ==> dropped == DroppedRefs(SessionsOf(b), |SessionsOf(b)|, m.agents)
      ensures o == Done ==> ImagesStored(old(blobs), blobs, b.maps, m.keys, old(nextKey), nextKey)
      ensures o == Done ==> Importable(b, hasBlobs)
      ensures o == Done ==> Restored(old(Snapshot()), Snapshot(), b, defaultGrants, m)
    {
      hide *;
      ghost var before := Snapshot();
      View(before);
      FreshIsBelow(before);
      NoBlobs(blobs, strays);
      written, dropped, failed := {}, 0, None;
      label body: {
        o, m := ImportGraph(b);
        if o != Done { break body; }
        var cid, agentIds, nodeIds := m.campaign, m.agents, m.nodes;
        ghost var graph := Snapshot();
        View(graph);
        GraphView(before, graph, b, defaultGrants, m);
        var mapIds, mapOrder, keys, r;
        ghost var h;
        o, mapIds, mapOrder, keys, r, written, failed, h := ImportRest(b, cid, agentIds, nodeIds, before.next);
        if o != Done { break body; }
        MapsFinish(before.maps, maps, cid, b.maps, nodeIds, mapIds, mapOrder, keys, before.next, h);
        dropped := r.dropped;
        ghost var m0 := m;
        m := m.(mapIds := mapOrder, maps := mapIds, keys := keys, boards := r.boards, threads := r.threads, sessions := r.sessions);
        ghost var after, mapped := Snapshot(), graph.(next := h, maps := maps);
        View(after);
        SameRecords(graph, mapped, after, cid, b, agentIds, nodeIds, r, before.next, after.next);
        Assemble(before, graph, mapped, after, b, defaultGrants, m0, m, r);
        GoodImport(b, hasBlobs);
      }
      if o == Bad { BadImport(b, hasBlobs); }
    }

    // Delete the images a failed import wrote, one by one; a delete that fails leaves its image.
    method Sweep(written: set<Id>)
      modifies `blobs
      ensures forall k :: k in blobs <==> k in old(blobs) && (k in written ==> sweepFails(k))
      ensures forall k :: k in blobs ==> blobs[k] == old(blobs)[k]
    {
      var left := written;
      while left != {}
        invariant left <= written
        invariant forall k :: k in blobs <==> k in old(blobs) && (k in written - left ==> sweepFails(k))
        invariant forall k :: k in blobs ==> blobs[k] == old(blobs)[k]
        decreases left
      {
        var key :| key in left;
        if !sweepFails(key) { blobs := blobs - {key}; }
        left := left - {key};
      }
    }

    method Rollback(saved: Db)
      modifies `next, `campaigns, `agents, `nodes, `edges, `characters, `maps, `boards, `threads, `sessions
      ensures Snapshot() == saved
    {
      next, campaigns, agents, nodes, edges := saved.next, saved.campaigns, saved.agents, saved.nodes, saved.edges;
      characters, maps, boards, threads, sessions := saved.characters, saved.maps, saved.boards, saved.threads, saved.sessions;
    }

    // Import: gate on the version, run the body, and on failure roll the database back and
    // sweep the images by hand.
    // written holds the keys it knows it stored; failed is the key of a write that reported failure.
    method Import(b: Bundle) returns (o: Outcome, m: Minted, dropped: nat, ghost written: set<Id>, ghost failed: Option<Id>)
      requires Valid()
      modifies this
      ensures Valid()
      ensures o == Bad ==> !Importable(b, hasBlobs)
      ensures o == Refused ==> !Quiet()
      // With nothing to write before the maps, a refused write of the first image is the one that fails.
      ensures SupportedVersion(b.formatVersion) && NoGraph(b) && StoresFirst(b.maps, hasBlobs) && !fails(old(calls)) && fails(old(calls) + 1) ==>
        o == Refused && failed == Some(old(nextKey))
      // All or nothing: the database always, the blob store except for keys whose delete failed
      // and bytes stored by a write that said it failed, which the sweep is not told of.
      ensures o != Done ==> Snapshot() == old(Snapshot())
      ensures o != Done ==> forall k :: k !in old(blobs) ==> (k in blobs <==> Remains(k, written, failed, strays, sweepFails))
      ensures o != Done ==> forall k :: k in old(blobs) ==> k in blobs && blobs[k] == old(blobs)[k]
      ensures o == Done ==> dropped == DroppedRefs(SessionsOf(b), |SessionsOf(b)|, m.agents)
      ensures o == Done ==> ImagesStored(old(blobs), blobs, b.maps, m.keys, old(nextKey), nextKey)
      ensures o == Done ==> Importable(b, hasBlobs)
      ensures o == Done ==> Restored(old(Snapshot()), Snapshot(), b, defaultGrants, m)
    {
      hide Db.Valid, BlobsGrew, ImagesStored, DroppedRefs, SessionsOf, Restored, Below, Quiet, NoGraph, StoresFirst;
      m, dropped, written, failed := NOTHING_MINTED, 0, {}, None;
      if b.formatVersion < MIN_SUPPORTED_VERSION || b.formatVersion > FORMAT_VERSION { return Bad, m, dropped, written, failed; }
      var saved := Snapshot();
      var sweep;
      o, sweep, m, dropped, failed := ImportInTx(b);
      written := sweep;
      if o == Done {
        var committed := Call();
        if !committed { o := Refused; }
      }
      if o == Done {
        RestoredIsValid(saved, Snapshot(), b, defaultGrants, m);
        return;
      }
      Rollback(saved);
      ghost var wrote := blobs;
      Sweep(sweep);
      Swept(old(blobs), wrote, blobs, written, failed, strays, sweepFails, nextKey);
    }
  }

  // An image left behind: it is the first thing written after the campaign, the write stores it
  // and reports failure, and no delete ever fails. The database is empty as before; the image
  // stays under a key no row names.
  method StrandedImage(m: Map) returns (store: Store, key: Id)
    requires StoresImage(m, true)
    ensures fresh(store) && key in store.blobs && (forall k :: !store.sweepFails(k))
    ensures store.Snapshot() == Db(0, map[], map[], map[], map[], map[], map[], map[], map[], map[])
  {
    store := new Store((n: nat) => n == 1, (k: Id) => true, (k: Id) => false, true, map[]);
    key := store.nextKey;
    var b := Bundle(FORMAT_VERSION, "", "", "", [], [], [], [], [m], [], [], None);
    var o, minted, dropped;
    ghost var written, failed;
    o, minted, dropped, written, failed := store.Import(b);
    assert Remains(key, written, failed, store.strays, store.sweepFails);
  }
}
