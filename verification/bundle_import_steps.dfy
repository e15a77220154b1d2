// The invariants of the import loops, one predicate per table, and the lemmas that carry each
// of them over one iteration.
module BundleImportSteps {
  import opened Common
  import opened BundleTypes
  import opened BundleSpec

  // What was there stays; what is new was written, or was stored by the one write that reported
  // failure.
  ghost predicate BlobsGrew(before: map<Id, Image>, after: map<Id, Image>, written: set<Id>, failed: Option<Id>, strays: Id -> bool) {
    && (forall k :: k in before ==> k in after && after[k] == before[k])
    && (forall k :: k in after <==> k in before || k in written || (failed == Some(k) && strays(k)))
    && written !! before.Keys
    && (failed.Some? ==> failed.value !in before && failed.value !in written)
  }

  // One map's image: none, stored under the next key, or refused under it.
  lemma BlobsStep(before: map<Id, Image>, was: map<Id, Image>, after: map<Id, Image>, written: set<Id>, key: Option<Id>,
                  failed: Option<Id>, strays: Id -> bool, hi: Id)
    requires BlobsGrew(before, was, written, None, strays) && Below(was, hi)
    requires key.None? || failed.None?
    requires key.None? && failed.None? ==> after == was
    requires key.Some? ==> key.value == hi && hi in after && after == was[hi := after[hi]]
    requires failed.Some? ==> failed.value == hi && if strays(hi) then hi in after && after == was[hi := after[hi]] else after == was
    ensures BlobsGrew(before, after, if key.Some? then written + {key.value} else written, failed, strays)
  {
  }

  // After the sweep: what was there before, the written images whose delete failed, and what
  // the failed write stored.
  lemma Swept(before: map<Id, Image>, was: map<Id, Image>, now: map<Id, Image>, written: set<Id>, failed: Option<Id>, strays: Id -> bool,
              fails: Id -> bool, bound: Id)
    requires BlobsGrew(before, was, written, failed, strays) && Below(was, bound)
    requires forall k :: k in now <==> k in was && (k in written ==> fails(k))
    requires forall k :: k in now ==> now[k] == was[k]
    ensures Below(now, bound)
    ensures forall k :: k in before ==> k in now && now[k] == before[k]
    ensures forall k :: k !in before ==> (k in now <==> Remains(k, written, failed, strays, fails))
  {
  }

  // A written image whose delete failed, or the one the failed write stored.
  ghost predicate Remains(k: Id, written: set<Id>, failed: Option<Id>, strays: Id -> bool, fails: Id -> bool) {
    (k in written && fails(k)) || (failed == Some(k) && strays(k))
  }

  // Nothing but the campaign row is written before the maps.
  predicate NoGraph(b: Bundle) {
    b.agents == [] && b.nodes == [] && b.edges == [] && b.characters == []
  }

  // A map whose bytes are written before anything else of it can fail.
  predicate StoresImage(m: Map, hasBlobs: bool) {
    m.anchorNodeId == "" && hasBlobs && m.image.Encoded? && RasterImageType(DeclaredType(m))
  }

  predicate StoresFirst(xs: seq<Map>, hasBlobs: bool) {
    xs != [] && StoresImage(xs[0], hasBlobs)
  }

  lemma AddImage(before: map<Id, Image>, was: map<Id, Image>, after: map<Id, Image>, xs: seq<Map>, keys: seq<Option<Id>>,
                 key: Option<Id>, lo: Id, hi: Id, hi': Id)
    requires ImagesStored(before, was, xs, keys, lo, hi) && |keys| < |xs| && Below(was, hi) && lo <= hi <= hi'
    requires ImageAt(after, xs[|keys|], key, hi, hi') && (key.None? ==> after == was)
    requires key.Some? ==> key.value == hi && after == was[hi := after[hi]]
    ensures ImagesStored(before, after, xs, keys + [key], lo, hi')
  {
    hide DeclaredType;
    var keys' := keys + [key];
    forall i | 0 <= i < |keys'| ensures ImageAt(after, xs[i], keys'[i], lo, hi') {
      if i < |keys| { assert ImageAt(was, xs[i], keys[i], lo, hi); }
    }
    hide ImageAt;
    forall k | k in after ensures k in before || Some(k) in keys' {
      if k in was {
        if k !in before { assert Some(k) in keys; }
      } else {
        assert keys'[|keys|] == Some(k);
      }
    }
    forall i, j | 0 <= i < j < |keys'| && keys'[i].Some? ensures keys'[i] != keys'[j] {
      assert ImageAt(was, xs[i], keys[i], lo, hi);
      OldKey(was, xs[i], keys[i], lo, hi);
    }
  }

  lemma OldKey(after: map<Id, Image>, m: Map, key: Option<Id>, lo: Id, hi: Id)
    requires ImageAt(after, m, key, lo, hi) && key.Some?
    ensures key.value < hi
  {
  }

  // ---- Agents -----------------------------------------------------------------------------

  ghost predicate AgentsDone(before: Table<AgentRow>, now: Table<AgentRow>, cid: Id, butler: Id, xs: seq<Agent>, ids: map<string, Id>,
                             order: seq<Id>, i: nat, defaults: map<string, Option<string>>, lo: Id, hi: Id)
  {
    && i <= |xs| && |order| == i && AgentsOk(xs, i) && Indexes(ids, AgentRefSeq(xs), order)
    && AgentsAdded(before, now, cid, butler, xs, order, defaults, lo, hi)
  }

  lemma AgentsStart(before: Table<AgentRow>, now: Table<AgentRow>, cid: Id, butler: Id, xs: seq<Agent>,
                    defaults: map<string, Option<string>>, lo: Id, hi: Id)
    requires now == before[butler := Owned(cid, DefaultButler(defaults))] && Below(before, lo) && lo <= butler < hi
    ensures AgentsDone(before, now, cid, butler, xs, map[], [], 0, defaults, lo, hi)
  {
    assert butler !in before;
    hide DefaultButler;
    assert AgentsAdded(before, now, cid, butler, xs, [], defaults, lo, hi);
  }

  lemma AgentsClash(before: Table<AgentRow>, now: Table<AgentRow>, cid: Id, butler: Id, xs: seq<Agent>, ids: map<string, Id>,
                    order: seq<Id>, i: nat, defaults: map<string, Option<string>>, lo: Id, hi: Id)
    requires AgentsDone(before, now, cid, butler, xs, ids, order, i, defaults, lo, hi) && i < |xs| && xs[i].id in ids
    ensures !AgentsOk(xs, |xs|)
  {
    var k :| 0 <= k < i && AgentRefSeq(xs)[k] == xs[i].id;
    assert xs[k].id == xs[i].id;
  }

  lemma TwoButlers(xs: seq<Agent>, i: nat)
    requires i < |xs| && IsButler(xs[i]) && exists j :: 0 <= j < i && IsButler(xs[j])
    ensures !AgentsOk(xs, |xs|)
  {
  }

  lemma BadAgent(xs: seq<Agent>, i: nat)
    requires i < |xs| && !AgentOk(xs[i])
    ensures !AgentsOk(xs, |xs|)
  {
  }

  lemma StandingButler(before: Table<AgentRow>, now: Table<AgentRow>, cid: Id, butler: Id, xs: seq<Agent>, ids: map<string, Id>,
                       order: seq<Id>, i: nat, defaults: map<string, Option<string>>, lo: Id, hi: Id)
    requires AgentsDone(before, now, cid, butler, xs, ids, order, i, defaults, lo, hi)
    requires forall j :: 0 <= j < i ==> !IsButler(xs[j])
    ensures butler in now && now[butler] == Owned(cid, DefaultButler(defaults))
  {
  }

  lemma AgentsStep(before: Table<AgentRow>, was: Table<AgentRow>, cid: Id, butler: Id, xs: seq<Agent>, ids: map<string, Id>,
                   order: seq<Id>, i: nat, id: Id, defaults: map<string, Option<string>>, lo: Id, hi: Id, hi': Id)
    requires AgentsDone(before, was, cid, butler, xs, ids, order, i, defaults, lo, hi) && Below(before, lo)
    requires i < |xs| && xs[i].id !in ids && AgentOk(xs[i])
    requires if IsButler(xs[i]) then id == butler && hi' == hi && forall j :: 0 <= j < i ==> !IsButler(xs[j])
             else id == hi && hi' == hi + 1
    ensures AgentsDone(before, was[id := Owned(cid, AgentRowOf(xs[i]))], cid, butler, xs, ids[xs[i].id := id],
                       order + [id], i + 1, defaults, lo, hi')
  {
    assert forall k :: 0 <= k < |xs| ==> AgentRefSeq(xs)[k] == xs[k].id;
    hide AgentsAdded, AgentRowOf, AgentOk, Indexes, AgentRefSeq, AgentsOk, IsButler;
    Index(ids, AgentRefSeq(xs), order, id);
    AddAgent(before, was, cid, butler, xs, order, id, defaults, lo, hi, hi');
    FreshReference(ids, AgentRefSeq(xs), order);
    AgentsOkStep(xs, i);
  }

  lemma AgentsOkStep(xs: seq<Agent>, i: nat)
    requires i < |xs| && AgentsOk(xs, i) && AgentOk(xs[i])
    requires forall k :: 0 <= k < i ==> xs[k].id != xs[i].id
    requires IsButler(xs[i]) ==> forall k :: 0 <= k < i ==> !IsButler(xs[k])
    ensures AgentsOk(xs, i + 1)
  {
    hide AgentOk;
  }

  lemma AddAgent(before: Table<AgentRow>, was: Table<AgentRow>, cid: Id, butler: Id, xs: seq<Agent>, ids: seq<Id>, id: Id,
                 defaults: map<string, Option<string>>, lo: Id, hi: Id, hi': Id)
    requires AgentsAdded(before, was, cid, butler, xs, ids, defaults, lo, hi) && |ids| < |xs| && Below(before, lo)
    requires if IsButler(xs[|ids|]) then id == butler && hi' == hi && forall j :: 0 <= j < |ids| ==> !IsButler(xs[j])
             else id == hi && hi' == hi + 1
    ensures AgentsAdded(before, was[id := Owned(cid, AgentRowOf(xs[|ids|]))], cid, butler, xs, ids + [id], defaults, lo, hi')
  {
    hide AgentRowOf;
  }

  lemma AgentsFinish(before: Table<AgentRow>, now: Table<AgentRow>, cid: Id, butler: Id, xs: seq<Agent>, ids: map<string, Id>,
                     order: seq<Id>, defaults: map<string, Option<string>>, lo: Id, hi: Id)
    requires AgentsDone(before, now, cid, butler, xs, ids, order, |xs|, defaults, lo, hi)
    ensures ids.Keys == AgentRefs(xs) && AgentsOk(xs, |xs|)
    ensures |order| == |xs| && Indexes(ids, AgentRefSeq(xs), order)
    ensures AgentsAdded(before, now, cid, butler, xs, order, defaults, lo, hi)
  {
    hide AgentsAdded, AgentsOk;
    assert forall k :: 0 <= k < |xs| ==> AgentRefSeq(xs)[k] == xs[k].id;
  }

  // ---- Entries ----------------------------------------------------------------------------

  lemma FreshReference(m: map<string, Id>, refs: seq<string>, ids: seq<Id>)
    requires Indexes(m, refs, ids) && |ids| < |refs| && refs[|ids|] !in m
    ensures forall k :: 0 <= k < |ids| ==> refs[k] != refs[|ids|]
  {
  }

  ghost predicate NodesDone(before: Table<NodeRow>, now: Table<NodeRow>, cid: Id, xs: seq<Node>, agentIds: map<string, Id>,
                            ids: map<string, Id>, order: seq<Id>, i: nat, lo: Id, hi: Id)
  {
    && i <= |xs| && |order| == i && NodesOk(xs, i, agentIds.Keys) && Indexes(ids, NodeRefSeq(xs), order)
    && Added(before, now, cid, order, NodeRows(xs, i, agentIds), lo, hi)
  }

  lemma NodesStart(nodes: Table<NodeRow>, cid: Id, xs: seq<Node>, agentIds: map<string, Id>, lo: Id, hi: Id)
    ensures NodesDone(nodes, nodes, cid, xs, agentIds, map[], [], 0, lo, hi)
  {
  }

  lemma NodesClash(before: Table<NodeRow>, now: Table<NodeRow>, cid: Id, xs: seq<Node>, agentIds: map<string, Id>,
                   ids: map<string, Id>, order: seq<Id>, i: nat, lo: Id, hi: Id)
    requires NodesDone(before, now, cid, xs, agentIds, ids, order, i, lo, hi) && i < |xs| && xs[i].id in ids
    ensures !NodesOk(xs, |xs|, agentIds.Keys)
  {
    var k :| 0 <= k < i && NodeRefSeq(xs)[k] == xs[i].id;
    assert xs[k].id == xs[i].id;
  }

  lemma BadNode(xs: seq<Node>, i: nat, agents: set<string>)
    requires i < |xs| && xs[i].agentId != "" && xs[i].agentId !in agents
    ensures !NodesOk(xs, |xs|, agents)
  {
  }

  lemma NodesStep(before: Table<NodeRow>, was: Table<NodeRow>, cid: Id, xs: seq<Node>, agentIds: map<string, Id>,
                  ids: map<string, Id>, order: seq<Id>, i: nat, id: Id, lo: Id)
    requires NodesDone(before, was, cid, xs, agentIds, ids, order, i, lo, id) && Below(before, lo) && lo <= id
    requires i < |xs| && xs[i].id !in ids && (xs[i].agentId == "" || xs[i].agentId in agentIds)
    ensures NodesDone(before, was[id := Owned(cid, NodeRowOf(xs[i], agentIds))], cid, xs, agentIds, ids[xs[i].id := id],
                      order + [id], i + 1, lo, id + 1)
  {
    assert forall k :: 0 <= k < |xs| ==> NodeRefSeq(xs)[k] == xs[k].id;
    assert NodeRows(xs, i + 1, agentIds) == NodeRows(xs, i, agentIds) + [NodeRowOf(xs[i], agentIds)];
    hide Added, Indexes, NodeRows, NodeRowOf, NodesOk, NodeRefSeq;
    Index(ids, NodeRefSeq(xs), order, id);
    AddRow(before, was, cid, order, NodeRows(xs, i, agentIds), lo, id, id, NodeRowOf(xs[i], agentIds));
    FreshReference(ids, NodeRefSeq(xs), order);
    NodesOkStep(xs, i, agentIds.Keys);
  }

  lemma NodesOkStep(xs: seq<Node>, i: nat, agents: set<string>)
    requires i < |xs| && NodesOk(xs, i, agents) && (xs[i].agentId == "" || xs[i].agentId in agents)
    requires forall k :: 0 <= k < i ==> xs[k].id != xs[i].id
    ensures NodesOk(xs, i + 1, agents)
  {
  }

  lemma NodesFinish(before: Table<NodeRow>, now: Table<NodeRow>, cid: Id, xs: seq<Node>, agentIds: map<string, Id>,
                    ids: map<string, Id>, order: seq<Id>, lo: Id, hi: Id)
    requires NodesDone(before, now, cid, xs, agentIds, ids, order, |xs|, lo, hi)
    ensures ids.Keys == NodeRefs(xs) && NodesOk(xs, |xs|, agentIds.Keys)
    ensures Indexes(ids, NodeRefSeq(xs), order)
    ensures Added(before, now, cid, order, NodeRows(xs, |xs|, agentIds), lo, hi)
  {
    hide Added, NodesOk, NodeRows;
    assert forall k :: 0 <= k < |xs| ==> NodeRefSeq(xs)[k] == xs[k].id;
  }

  // ---- Maps -------------------------------------------------------------------------------

  ghost predicate FlatDone(before: Table<MapRow>, now: Table<MapRow>, cid: Id, xs: seq<Map>, nodeIds: map<string, Id>,
                           ids: map<string, Id>, order: seq<Id>, keys: seq<Option<Id>>, i: nat, hasBlobs: bool, lo: Id, hi: Id)
  {
    && i <= |xs| && |order| == |keys| == i && FlatMapsOk(xs, i, nodeIds.Keys, hasBlobs) && Indexes(ids, MapRefSeq(xs), order)
    && Added(before, now, cid, order, MapRows(xs, nodeIds, ids, keys, 0, 0), lo, hi)
  }

  lemma FlatStart(maps: Table<MapRow>, blobs: map<Id, Image>, cid: Id, xs: seq<Map>, nodeIds: map<string, Id>, hasBlobs: bool, lo: Id, hi: Id, nextKey: Id,
                  strays: Id -> bool)
    ensures FlatDone(maps, maps, cid, xs, nodeIds, map[], [], [], 0, hasBlobs, lo, hi)
    ensures ImagesStored(blobs, blobs, xs, [], nextKey, nextKey) && BlobsGrew(blobs, blobs, {}, None, strays)
  {
  }

  lemma FlatOk(before: Table<MapRow>, now: Table<MapRow>, cid: Id, xs: seq<Map>, nodeIds: map<string, Id>,
               ids: map<string, Id>, order: seq<Id>, keys: seq<Option<Id>>, hasBlobs: bool, lo: Id, hi: Id)
    requires FlatDone(before, now, cid, xs, nodeIds, ids, order, keys, |xs|, hasBlobs, lo, hi)
    ensures FlatMapsOk(xs, |xs|, nodeIds.Keys, hasBlobs)
  {
  }

  lemma FlatClash(before: Table<MapRow>, now: Table<MapRow>, cid: Id, xs: seq<Map>, nodeIds: map<string, Id>,
                  ids: map<string, Id>, order: seq<Id>, keys: seq<Option<Id>>, i: nat, hasBlobs: bool, lo: Id, hi: Id)
    requires FlatDone(before, now, cid, xs, nodeIds, ids, order, keys, i, hasBlobs, lo, hi) && i < |xs| && xs[i].id in ids
    ensures !FlatMapsOk(xs, |xs|, nodeIds.Keys, hasBlobs)
  {
    var k :| 0 <= k < i && MapRefSeq(xs)[k] == xs[i].id;
    assert xs[k].id == xs[i].id;
  }

  lemma BadFlatMap(xs: seq<Map>, i: nat, nodes: set<string>, hasBlobs: bool)
    requires i < |xs| && !FlatMapOk(xs[i], nodes, hasBlobs)
    ensures !FlatMapsOk(xs, |xs|, nodes, hasBlobs)
  {
  }

  lemma FlatStep(before: Table<MapRow>, was: Table<MapRow>, cid: Id, xs: seq<Map>, nodeIds: map<string, Id>, ids: map<string, Id>,
                 order: seq<Id>, keys: seq<Option<Id>>, i: nat, id: Id, key: Option<Id>, hasBlobs: bool, lo: Id)
    requires FlatDone(before, was, cid, xs, nodeIds, ids, order, keys, i, hasBlobs, lo, id) && Below(before, lo) && lo <= id
    requires i < |xs| && xs[i].id !in ids && FlatMapOk(xs[i], nodeIds.Keys, hasBlobs)
    ensures FlatDone(before, was[id := Owned(cid, FlatRow(xs[i], nodeIds, key))], cid, xs, nodeIds, ids[xs[i].id := id],
                     order + [id], keys + [key], i + 1, hasBlobs, lo, id + 1)
  {
    assert forall k :: 0 <= k < |xs| ==> MapRefSeq(xs)[k] == xs[k].id;
    FlatRowsStep(xs, nodeIds, ids, ids[xs[i].id := id], keys, key);
    hide Added, Indexes, MapRows, FlatRow, FlatMapOk, FlatMapsOk, MapRefSeq;
    Index(ids, MapRefSeq(xs), order, id);
    AddRow(before, was, cid, order, MapRows(xs, nodeIds, ids, keys, 0, 0), lo, id, id, FlatRow(xs[i], nodeIds, key));
    FreshReference(ids, MapRefSeq(xs), order);
    FlatOkStep(xs, i, nodeIds.Keys, hasBlobs);
  }

  lemma FlatRowsStep(xs: seq<Map>, nodeIds: map<string, Id>, ids: map<string, Id>, ids': map<string, Id>, keys: seq<Option<Id>>, key: Option<Id>)
    requires |keys| < |xs|
    ensures MapRows(xs, nodeIds, ids', keys + [key], 0, 0) == MapRows(xs, nodeIds, ids, keys, 0, 0) + [FlatRow(xs[|keys|], nodeIds, key)]
  {
    hide FlatRow;
  }

  lemma FlatOkStep(xs: seq<Map>, i: nat, nodes: set<string>, hasBlobs: bool)
    requires i < |xs| && FlatMapsOk(xs, i, nodes, hasBlobs) && FlatMapOk(xs[i], nodes, hasBlobs)
    requires forall k :: 0 <= k < i ==> xs[k].id != xs[i].id
    ensures FlatMapsOk(xs, i + 1, nodes, hasBlobs)
  {
    hide FlatMapOk;
  }

  ghost predicate MapsDone(before: Table<MapRow>, now: Table<MapRow>, cid: Id, xs: seq<Map>, nodeIds: map<string, Id>,
                           ids: map<string, Id>, order: seq<Id>, keys: seq<Option<Id>>, n: nat, p: nat, lo: Id, hi: Id)
  {
    && n <= |xs| && p <= |xs| && |order| == |keys| == |xs| && ParentsOk(xs, n) && Indexes(ids, MapRefSeq(xs), order)
    && Added(before, now, cid, order, MapRows(xs, nodeIds, ids, keys, n, p), lo, hi)
  }

  lemma NestStart(before: Table<MapRow>, now: Table<MapRow>, cid: Id, xs: seq<Map>, nodeIds: map<string, Id>,
                  ids: map<string, Id>, order: seq<Id>, keys: seq<Option<Id>>, hasBlobs: bool, lo: Id, hi: Id)
    requires FlatDone(before, now, cid, xs, nodeIds, ids, order, keys, |xs|, hasBlobs, lo, hi)
    ensures MapsDone(before, now, cid, xs, nodeIds, ids, order, keys, 0, 0, lo, hi)
    ensures DocumentForest(xs) ==> RowForest(now, order)
  {
    NestedPrefixIsForest(before, now, cid, xs, nodeIds, ids, order, keys, 0, lo, hi);
  }

  lemma RefsAgree(xs: seq<Map>, ids: map<string, Id>, order: seq<Id>)
    requires |order| == |xs| && Indexes(ids, MapRefSeq(xs), order)
    ensures ids.Keys == MapRefs(xs)
    ensures forall j :: 0 <= j < |xs| ==> xs[j].id in ids && ids[xs[j].id] == order[j]
  {
    assert forall j :: 0 <= j < |xs| ==> MapRefSeq(xs)[j] == xs[j].id;
  }

  lemma SameReference(xs: seq<Map>, ids: map<string, Id>, order: seq<Id>, r: string, i: nat)
    requires |order| == |xs| && Indexes(ids, MapRefSeq(xs), order) && Distinct(order)
    requires i < |xs| && r in ids && xs[i].id in ids && ids[r] == ids[xs[i].id]
    ensures r == xs[i].id
  {
    RefsAgree(xs, ids, order);
    var k :| 0 <= k < |xs| && xs[k].id == r;
  }

  // What the invariant says about map j.
  lemma MapsView(before: Table<MapRow>, now: Table<MapRow>, cid: Id, xs: seq<Map>, nodeIds: map<string, Id>,
                 ids: map<string, Id>, order: seq<Id>, keys: seq<Option<Id>>, n: nat, p: nat, lo: Id, hi: Id, j: nat)
    requires MapsDone(before, now, cid, xs, nodeIds, ids, order, keys, n, p, lo, hi) && j < |xs|
    ensures |order| == |keys| == |xs| && Indexes(ids, MapRefSeq(xs), order) && Distinct(order)
    ensures ids.Keys == MapRefs(xs) && xs[j].id in ids && ids[xs[j].id] == order[j]
    ensures order[j] in now && now[order[j]] == Owned(cid, MapRows(xs, nodeIds, ids, keys, n, p)[j])
  {
    hide MapRows, ParentsOk;
    AddedRows(before, now, cid, order, MapRows(xs, nodeIds, ids, keys, n, p), lo, hi);
    hide Added;
    RefsAgree(xs, ids, order);
  }

  // UpdateMap's effect on one row: it replaces the whole editor field set, and nothing else.
  function Nest(row: MapRow, m: Map, nodeIds: map<string, Id>, parent: Id): MapRow {
    row.(name := m.name, parent := Some(parent), anchor := Ref(m.anchorNodeId, nodeIds), gmPrivate := m.gmPrivate)
  }

  ghost predicate NestedAs(was: Table<MapRow>, now: Table<MapRow>, cid: Id, id: Id, m: Map, nodeIds: map<string, Id>, ids: map<string, Id>) {
    if m.parentMapId == "" then now == was
    else m.parentMapId in ids && ids[m.parentMapId] != id && id in was
         && now == was[id := Owned(cid, Nest(was[id].row, m, nodeIds, ids[m.parentMapId]))]
  }

  lemma BadParent(xs: seq<Map>, ids: map<string, Id>, order: seq<Id>, i: nat)
    requires |order| == |xs| && Indexes(ids, MapRefSeq(xs), order) && Distinct(order) && i < |xs|
    requires xs[i].id in ids && xs[i].parentMapId != ""
    requires xs[i].parentMapId !in ids || ids[xs[i].parentMapId] == ids[xs[i].id]
    ensures !ParentsOk(xs, |xs|)
  {
    RefsAgree(xs, ids, order);
    if xs[i].parentMapId in ids { SameReference(xs, ids, order, xs[i].parentMapId, i); }
    hide Indexes, MapRefs;
  }

  lemma NestStep(before: Table<MapRow>, was: Table<MapRow>, now: Table<MapRow>, cid: Id, xs: seq<Map>, nodeIds: map<string, Id>,
                 ids: map<string, Id>, order: seq<Id>, keys: seq<Option<Id>>, i: nat, lo: Id, hi: Id)
    requires MapsDone(before, was, cid, xs, nodeIds, ids, order, keys, i, 0, lo, hi) && i < |xs|
    requires xs[i].id in ids && NestedAs(was, now, cid, ids[xs[i].id], xs[i], nodeIds, ids)
    ensures MapsDone(before, now, cid, xs, nodeIds, ids, order, keys, i + 1, 0, lo, hi)
  {
    hide Added, Indexes, MapRows, FlatRow, NestedRow, MapRefSeq;
    MapsView(before, was, cid, xs, nodeIds, ids, order, keys, i, 0, lo, hi, i);
    var rows, rows' := MapRows(xs, nodeIds, ids, keys, i, 0), MapRows(xs, nodeIds, ids, keys, i + 1, 0);
    NestedRowsStep(xs, nodeIds, ids, keys, i);
    SetRow(before, was, cid, order, rows, lo, hi, i, rows'[i]);
    if xs[i].parentMapId == "" { assert was == was[order[i] := was[order[i]]]; }
    assert now == was[order[i] := Owned(cid, rows'[i])];
  }

  lemma NestedRowsStep(xs: seq<Map>, nodeIds: map<string, Id>, ids: map<string, Id>, keys: seq<Option<Id>>, i: nat)
    requires i < |xs| == |keys|
    requires xs[i].parentMapId == "" || xs[i].parentMapId in ids
    ensures var rows, rows' := MapRows(xs, nodeIds, ids, keys, i, 0), MapRows(xs, nodeIds, ids, keys, i + 1, 0);
            && |rows| == |rows'| == |xs| && rows' == rows[i := rows'[i]]
            && rows'[i] == if xs[i].parentMapId == "" then rows[i] else Nest(rows[i], xs[i], nodeIds, ids[xs[i].parentMapId])
  {
    var rows, rows' := MapRows(xs, nodeIds, ids, keys, i, 0), MapRows(xs, nodeIds, ids, keys, i + 1, 0);
    assert rows'[i] == NestedRow(xs[i], nodeIds, ids, keys[i]) && rows[i] == FlatRow(xs[i], nodeIds, keys[i]);
    assert forall j :: 0 <= j < |xs| && j != i ==> rows'[j] == rows[j];
  }

  lemma PinStep(before: Table<MapRow>, was: Table<MapRow>, now: Table<MapRow>, cid: Id, xs: seq<Map>, nodeIds: map<string, Id>,
                ids: map<string, Id>, order: seq<Id>, keys: seq<Option<Id>>, i: nat, lo: Id, hi: Id)
    requires MapsDone(before, was, cid, xs, nodeIds, ids, order, keys, |xs|, i, lo, hi) && i < |xs|
    requires order[i] in was
    requires now == was[order[i] := Owned(cid, was[order[i]].row.(pins := PinRows(xs[i].pins, nodeIds)))]
    ensures MapsDone(before, now, cid, xs, nodeIds, ids, order, keys, |xs|, i + 1, lo, hi)
  {
    hide Added, Indexes, MapRows, PinRows, MapRefSeq;
    MapsView(before, was, cid, xs, nodeIds, ids, order, keys, |xs|, i, lo, hi, i);
    var rows, rows' := MapRows(xs, nodeIds, ids, keys, |xs|, i), MapRows(xs, nodeIds, ids, keys, |xs|, i + 1);
    PinnedRowsStep(xs, nodeIds, ids, keys, i);
    SetRow(before, was, cid, order, rows, lo, hi, i, rows'[i]);
  }

  lemma PinnedRowsStep(xs: seq<Map>, nodeIds: map<string, Id>, ids: map<string, Id>, keys: seq<Option<Id>>, i: nat)
    requires i < |xs| == |keys|
    ensures var rows, rows' := MapRows(xs, nodeIds, ids, keys, |xs|, i), MapRows(xs, nodeIds, ids, keys, |xs|, i + 1);
            && |rows| == |rows'| == |xs| && rows[i].pins == [] && rows' == rows[i := rows'[i]]
            && rows'[i] == rows[i].(pins := PinRows(xs[i].pins, nodeIds))
  {
    hide PinRows;
    var rows, rows' := MapRows(xs, nodeIds, ids, keys, |xs|, i), MapRows(xs, nodeIds, ids, keys, |xs|, i + 1);
    assert rows'[i] == MapRowOf(xs[i], nodeIds, ids, keys[i]) && rows[i] == NestedRow(xs[i], nodeIds, ids, keys[i]);
    hide MapRowOf, NestedRow, FlatRow;
    assert forall j :: 0 <= j < |xs| && j != i ==> rows'[j] == rows[j];
  }

  lemma MapsParents(before: Table<MapRow>, now: Table<MapRow>, cid: Id, xs: seq<Map>, nodeIds: map<string, Id>,
                    ids: map<string, Id>, order: seq<Id>, keys: seq<Option<Id>>, lo: Id, hi: Id)
    requires MapsDone(before, now, cid, xs, nodeIds, ids, order, keys, |xs|, 0, lo, hi)
    ensures ParentsOk(xs, |xs|)
  {
  }

  lemma MapsFinish(before: Table<MapRow>, now: Table<MapRow>, cid: Id, xs: seq<Map>, nodeIds: map<string, Id>,
                   ids: map<string, Id>, order: seq<Id>, keys: seq<Option<Id>>, lo: Id, hi: Id)
    requires MapsDone(before, now, cid, xs, nodeIds, ids, order, keys, |xs|, |xs|, lo, hi)
    ensures |keys| == |xs| && Indexes(ids, MapRefSeq(xs), order)
    ensures Added(before, now, cid, order, MapRows(xs, nodeIds, ids, keys, |xs|, |xs|), lo, hi)
  {
  }

  // ---- Nesting ----------------------------------------------------------------------------

  // A forest is a parent relation that some rank strictly increases along.
  ghost predicate DocumentForest(xs: seq<Map>) {
    exists rank: map<string, nat> :: DocumentRank(xs, rank)
  }

  ghost predicate DocumentRank(xs: seq<Map>, rank: map<string, nat>) {
    forall i :: 0 <= i < |xs| && xs[i].parentMapId != "" ==>
      xs[i].id in rank && xs[i].parentMapId in rank && rank[xs[i].parentMapId] < rank[xs[i].id]
  }

  ghost predicate RowForest(rows: Table<MapRow>, among: seq<Id>) {
    exists rank: map<Id, nat> :: RowRank(rows, among, rank)
  }

  ghost predicate RowRank(rows: Table<MapRow>, among: seq<Id>, rank: map<Id, nat>) {
    forall k :: 0 <= k < |among| && among[k] in rows && rows[among[k]].row.parent.Some? ==>
      RankedChild(rows[among[k]].row.parent.value, among[k], rank)
  }

  ghost predicate RankedChild(parent: Id, child: Id, rank: map<Id, nat>) {
    child in rank && parent in rank && rank[parent] < rank[child]
  }

  // Whatever order the maps arrive in, nesting only the first n of a forest is a forest.
  lemma NestedPrefixIsForest(before: Table<MapRow>, now: Table<MapRow>, cid: Id, xs: seq<Map>, nodeIds: map<string, Id>,
                             ids: map<string, Id>, order: seq<Id>, keys: seq<Option<Id>>, n: nat, lo: Id, hi: Id)
    requires MapsDone(before, now, cid, xs, nodeIds, ids, order, keys, n, 0, lo, hi)
    ensures DocumentForest(xs) ==> RowForest(now, order)
  {
    if DocumentForest(xs) {
      var rank: map<string, nat> :| DocumentRank(xs, rank);
      var rowRank: map<Id, nat> := map r | r in ids && r in rank :: ids[r] := rank[r] by {
        ReferencesDiffer(before, now, cid, xs, nodeIds, ids, order, keys, n, 0, lo, hi);
      }
      forall k | 0 <= k < |order| && order[k] in now && now[order[k]].row.parent.Some?
        ensures RankedChild(now[order[k]].row.parent.value, order[k], rowRank)
      {
        NestedChild(before, now, cid, xs, nodeIds, ids, order, keys, n, lo, hi, k);
        hide MapsDone;
        assert ids[xs[k].parentMapId] in rowRank && ids[xs[k].id] in rowRank;
      }
      hide MapsDone, RankedChild;
      assert RowRank(now, order, rowRank);
    }
  }

  lemma ReferencesDiffer(before: Table<MapRow>, now: Table<MapRow>, cid: Id, xs: seq<Map>, nodeIds: map<string, Id>,
                         ids: map<string, Id>, order: seq<Id>, keys: seq<Option<Id>>, n: nat, p: nat, lo: Id, hi: Id)
    requires MapsDone(before, now, cid, xs, nodeIds, ids, order, keys, n, p, lo, hi)
    ensures forall r, q :: r in ids && q in ids && ids[r] == ids[q] ==> r == q
  {
    hide Added, MapRows, Indexes, ParentsOk;
    AddedRows(before, now, cid, order, MapRows(xs, nodeIds, ids, keys, n, p), lo, hi);
    RefsInjective(xs, ids, order);
  }

  lemma RefsInjective(xs: seq<Map>, ids: map<string, Id>, order: seq<Id>)
    requires |order| == |xs| && Indexes(ids, MapRefSeq(xs), order) && Distinct(order)
    ensures forall r, q :: r in ids && q in ids && ids[r] == ids[q] ==> r == q
  {
    hide Indexes, Distinct;
    RefsAgree(xs, ids, order);
    forall r, q | r in ids && q in ids && ids[r] == ids[q] ensures r == q {
      assert q in MapRefs(xs);
      var i: nat :| i < |xs| && xs[i].id == q;
      SameReference(xs, ids, order, r, i);
    }
  }

  // A nested row's parent is the row of the map its document entry names.
  lemma NestedChild(before: Table<MapRow>, now: Table<MapRow>, cid: Id, xs: seq<Map>, nodeIds: map<string, Id>,
                    ids: map<string, Id>, order: seq<Id>, keys: seq<Option<Id>>, n: nat, lo: Id, hi: Id, k: nat)
    requires MapsDone(before, now, cid, xs, nodeIds, ids, order, keys, n, 0, lo, hi) && k < |xs|
    requires order[k] in now && now[order[k]].row.parent.Some?
    ensures xs[k].id in ids && ids[xs[k].id] == order[k] && xs[k].parentMapId != "" && xs[k].parentMapId in ids
    ensures now[order[k]].row.parent.value == ids[xs[k].parentMapId]
  {
    hide Added, Indexes;
    MapsView(before, now, cid, xs, nodeIds, ids, order, keys, n, 0, lo, hi, k);
  }

  // The parent of each map's row is the row of the map its document entry names.
  ghost predicate ParentsAre(xs: seq<Map>, ids: map<string, Id>, order: seq<Id>, now: Table<MapRow>) {
    |order| == |xs| && forall k :: 0 <= k < |xs| ==> ParentIs(xs[k], ids, order[k], now)
  }

  ghost predicate ParentIs(m: Map, ids: map<string, Id>, id: Id, now: Table<MapRow>) {
    && m.id in ids && ids[m.id] == id && id in now
    && if m.parentMapId == "" then now[id].row.parent == None
       else m.parentMapId in ids && now[id].row.parent == Some(ids[m.parentMapId])
  }

  lemma ForestOfRows(xs: seq<Map>, ids: map<string, Id>, order: seq<Id>, now: Table<MapRow>)
    requires ParentsAre(xs, ids, order, now) && DocumentForest(xs)
    requires forall r, q :: r in ids && q in ids && ids[r] == ids[q] ==> r == q
    ensures RowForest(now, order)
  {
    var rank: map<string, nat> :| DocumentRank(xs, rank);
    var rowRank: map<Id, nat> := map r | r in ids && r in rank :: ids[r] := rank[r];
    forall k | 0 <= k < |order| && order[k] in now && now[order[k]].row.parent.Some?
      ensures RankedChild(now[order[k]].row.parent.value, order[k], rowRank)
    {
      assert ParentIs(xs[k], ids, order[k], now);
      assert ids[xs[k].parentMapId] in rowRank && ids[xs[k].id] in rowRank;
    }
    assert RowRank(now, order, rowRank);
  }

  lemma ForestOfDocument(xs: seq<Map>, ids: map<string, Id>, order: seq<Id>, now: Table<MapRow>)
    requires ParentsAre(xs, ids, order, now) && RowForest(now, order)
    ensures DocumentForest(xs)
  {
    var rowRank: map<Id, nat> :| RowRank(now, order, rowRank);
    var rank: map<string, nat> := map r | r in ids && ids[r] in rowRank :: rowRank[ids[r]];
    forall i | 0 <= i < |xs| && xs[i].parentMapId != ""
      ensures xs[i].id in rank && xs[i].parentMapId in rank && rank[xs[i].parentMapId] < rank[xs[i].id]
    {
      assert ParentIs(xs[i], ids, order[i], now);
      assert RankedChild(now[order[i]].row.parent.value, order[i], rowRank);
    }
    assert DocumentRank(xs, rank);
  }

  // The imported maps are a forest if and only if the document's are: the importer refuses a map
  // as its own parent and no longer cycle.
  lemma ImportedForestExactly(before: Table<MapRow>, now: Table<MapRow>, cid: Id, xs: seq<Map>, nodeIds: map<string, Id>,
                              ids: map<string, Id>, order: seq<Id>, keys: seq<Option<Id>>, lo: Id, hi: Id)
    requires MapsDone(before, now, cid, xs, nodeIds, ids, order, keys, |xs|, |xs|, lo, hi)
    ensures RowForest(now, order) <==> DocumentForest(xs)
  {
    hide MapsDone, RowForest, DocumentForest, ParentIs;
    ReferencesDiffer(before, now, cid, xs, nodeIds, ids, order, keys, |xs|, |xs|, lo, hi);
    SameCount(before, now, cid, xs, nodeIds, ids, order, keys, lo, hi);
    forall k: nat | k < |xs| ensures ParentIs(xs[k], ids, order[k], now) {
      ImportedParent(before, now, cid, xs, nodeIds, ids, order, keys, lo, hi, k);
    }
    if DocumentForest(xs) { ForestOfRows(xs, ids, order, now); }
    if RowForest(now, order) { ForestOfDocument(xs, ids, order, now); }
  }

  lemma SameCount(before: Table<MapRow>, now: Table<MapRow>, cid: Id, xs: seq<Map>, nodeIds: map<string, Id>,
                  ids: map<string, Id>, order: seq<Id>, keys: seq<Option<Id>>, lo: Id, hi: Id)
    requires MapsDone(before, now, cid, xs, nodeIds, ids, order, keys, |xs|, |xs|, lo, hi)
    ensures |order| == |xs|
  {
  }

  lemma ImportedParent(before: Table<MapRow>, now: Table<MapRow>, cid: Id, xs: seq<Map>, nodeIds: map<string, Id>,
                       ids: map<string, Id>, order: seq<Id>, keys: seq<Option<Id>>, lo: Id, hi: Id, k: nat)
    requires MapsDone(before, now, cid, xs, nodeIds, ids, order, keys, |xs|, |xs|, lo, hi) && k < |xs|
    ensures |order| == |xs| && ParentIs(xs[k], ids, order[k], now)
  {
    hide Added, Indexes;
    MapsView(before, now, cid, xs, nodeIds, ids, order, keys, |xs|, |xs|, lo, hi, k);
  }

  // Two maps inside one another are accepted, and their import is no forest.
  lemma CyclicMapsAreImportable(a: Map, b: Map) returns (xs: seq<Map>)
    ensures MapsOk(xs, {}, false) && !DocumentForest(xs)
  {
    var x := a.(id := "a", parentMapId := "b", anchorNodeId := "", image := Empty, pins := []);
    var y := b.(id := "b", parentMapId := "a", anchorNodeId := "", image := Empty, pins := []);
    xs := [x, y];
    assert xs[0].id in MapRefs(xs) && xs[1].id in MapRefs(xs);
    forall rank: map<string, nat> ensures !DocumentRank(xs, rank) {
      assert xs[0].parentMapId == "b" && xs[1].parentMapId == "a";
    }
  }

  // ---- History ----------------------------------------------------------------------------

  ghost predicate SessionsDone(before: Table<SessionRow>, now: Table<SessionRow>, cid: Id, xs: seq<Session>,
                               agentIds: map<string, Id>, nodeIds: map<string, Id>, order: seq<Id>, i: nat, dropped: nat,
                               lo: Id, hi: Id)
  {
    && i <= |xs| && Added(before, now, cid, order, SessionRows(xs, i, agentIds, nodeIds), lo, hi)
    && dropped == DroppedRefs(xs, i, agentIds)
  }

  lemma SessionsStart(sessions: Table<SessionRow>, cid: Id, xs: seq<Session>, agentIds: map<string, Id>, nodeIds: map<string, Id>, lo: Id, hi: Id)
    ensures SessionsDone(sessions, sessions, cid, xs, agentIds, nodeIds, [], 0, 0, lo, hi)
  {
    assert SessionRows(xs, 0, agentIds, nodeIds) == [];
  }

  lemma SessionsStep(before: Table<SessionRow>, was: Table<SessionRow>, cid: Id, xs: seq<Session>,
                     agentIds: map<string, Id>, nodeIds: map<string, Id>, order: seq<Id>, i: nat, dropped: nat, id: Id, lo: Id)
    requires SessionsDone(before, was, cid, xs, agentIds, nodeIds, order, i, dropped, lo, id) && Below(before, lo) && lo <= id
    requires i < |xs|
    ensures SessionsDone(before, was[id := Owned(cid, SessionRowOf(xs[i], agentIds, nodeIds))], cid, xs, agentIds, nodeIds,
                         order + [id], i + 1, dropped + DroppedInChunks(xs[i].chunks, agentIds), lo, id + 1)
  {
    var row := SessionRowOf(xs[i], agentIds, nodeIds);
    assert SessionRows(xs, i + 1, agentIds, nodeIds) == SessionRows(xs, i, agentIds, nodeIds) + [row];
    hide Added, SessionRowOf, SessionRows, DroppedInChunks;
    AddRow(before, was, cid, order, SessionRows(xs, i, agentIds, nodeIds), lo, id, id, row);
  }

  // ---- Putting the tables together -----------------------------------------------------

  lemma AddedRows<R>(before: Table<R>, after: Table<R>, cid: Id, ids: seq<Id>, rows: seq<R>, lo: Id, hi: Id)
    requires Added(before, after, cid, ids, rows, lo, hi)
    ensures |ids| == |rows| && Distinct(ids)
    ensures forall k :: 0 <= k < |ids| ==> ids[k] in after && after[ids[k]] == Owned(cid, rows[k])
  {
  }

  lemma AddedWithin<R>(before: Table<R>, after: Table<R>, cid: Id, ids: seq<Id>, rows: seq<R>, lo: Id, hi: Id, hi': Id)
    requires Added(before, after, cid, ids, rows, lo, hi) && hi <= hi'
    ensures Added(before, after, cid, ids, rows, lo, hi')
  {
  }

  lemma AgentsWithin(before: Table<AgentRow>, was: Table<AgentRow>, cid: Id, butler: Id, xs: seq<Agent>, ids: seq<Id>,
                     defaults: map<string, Option<string>>, lo: Id, hi: Id, hi': Id)
    requires AgentsAdded(before, was, cid, butler, xs, ids, defaults, lo, hi) && hi <= hi'
    ensures AgentsAdded(before, was, cid, butler, xs, ids, defaults, lo, hi')
  {
    hide AgentRowOf, DefaultButler;
  }

  const NOTHING_MINTED := Minted(0, 0, [], map[], [], map[], [], map[], [], [], [], [], [], [])

  ghost predicate GraphOk(b: Bundle) {
    && AgentsOk(b.agents, |b.agents|)
    && NodesOk(b.nodes, |b.nodes|, AgentRefs(b.agents))
    && EdgesOk(b.edges, |b.edges|, NodeRefs(b.nodes))
  }

  // The tables of the campaign graph as an import leaves them; the other tables untouched.
  ghost predicate GraphDone(before: Db, now: Db, b: Bundle, defaults: map<string, Option<string>>, m: Minted) {
    var cid, lo, hi := m.campaign, before.next, now.next;
    && lo <= cid < hi
    && now.campaigns == before.campaigns[cid := CampaignRow(b.name, b.system, b.language)]
    && |m.agentIds| == |b.agents| && m.agents.Keys == AgentRefs(b.agents) && m.nodes.Keys == NodeRefs(b.nodes)
    && now.maps == before.maps && now.boards == before.boards && now.threads == before.threads && now.sessions == before.sessions
    && Indexes(m.agents, AgentRefSeq(b.agents), m.agentIds)
    && Indexes(m.nodes, NodeRefSeq(b.nodes), m.nodeIds)
    && AgentsAdded(before.agents, now.agents, cid, m.butler, b.agents, m.agentIds, defaults, lo, hi)
    && Added(before.nodes, now.nodes, cid, m.nodeIds, NodeRows(b.nodes, |b.nodes|, m.agents), lo, hi)
    && Added(before.edges, now.edges, cid, m.edges, EdgeRows(b.edges, |b.edges|, m.nodes), lo, hi)
    && Added(before.characters, now.characters, cid, m.characters, b.characters, lo, hi)
  }

  lemma GraphView(before: Db, now: Db, b: Bundle, defaults: map<string, Option<string>>, m: Minted)
    requires GraphDone(before, now, b, defaults, m)
    ensures before.next <= m.campaign < now.next
    ensures m.agents.Keys == AgentRefs(b.agents) && m.nodes.Keys == NodeRefs(b.nodes)
    ensures now.maps == before.maps && now.boards == before.boards && now.threads == before.threads && now.sessions == before.sessions
  {
  }

  lemma BadGraph(b: Bundle)
    requires !(AgentsOk(b.agents, |b.agents|) && NodesOk(b.nodes, |b.nodes|, AgentRefs(b.agents)) && EdgesOk(b.edges, |b.edges|, NodeRefs(b.nodes)))
    ensures !GraphOk(b)
  {
  }

  lemma GoodGraph(b: Bundle)
    requires AgentsOk(b.agents, |b.agents|) && NodesOk(b.nodes, |b.nodes|, AgentRefs(b.agents)) && EdgesOk(b.edges, |b.edges|, NodeRefs(b.nodes))
    ensures GraphOk(b)
  {
  }

  // Records depend on the tables they are in alone.
  lemma SameRecords(was: Db, mapped: Db, now: Db, cid: Id, b: Bundle, agentIds: map<string, Id>, nodeIds: map<string, Id>, r: Records, lo: Id, hi: Id)
    requires mapped.boards == was.boards && mapped.threads == was.threads && mapped.sessions == was.sessions
    requires RecordsDone(was, now, cid, b, agentIds, nodeIds, r, lo, hi)
    ensures RecordsDone(mapped, now, cid, b, agentIds, nodeIds, r, lo, hi)
  {
  }

  // What the maps and the records ask of a document, given its entries.
  ghost predicate RestOk(b: Bundle, nodes: set<string>, hasBlobs: bool) {
    MapsOk(b.maps, nodes, hasBlobs) && BoardsOk(b.boards, |b.boards|, nodes) && ThreadsOk(b.threads, |b.threads|)
  }

  lemma BadRest(b: Bundle, nodes: set<string>, hasBlobs: bool)
    requires !MapsOk(b.maps, nodes, hasBlobs) || !(BoardsOk(b.boards, |b.boards|, nodes) && ThreadsOk(b.threads, |b.threads|))
    ensures !RestOk(b, nodes, hasBlobs)
  {
  }

  lemma GoodRest(b: Bundle, nodes: set<string>, hasBlobs: bool)
    requires MapsOk(b.maps, nodes, hasBlobs) && BoardsOk(b.boards, |b.boards|, nodes) && ThreadsOk(b.threads, |b.threads|)
    ensures RestOk(b, nodes, hasBlobs)
  {
  }

  lemma BadImport(b: Bundle, hasBlobs: bool)
    requires !(GraphOk(b) && RestOk(b, NodeRefs(b.nodes), hasBlobs))
    ensures !Importable(b, hasBlobs)
  {
  }

  lemma GoodImport(b: Bundle, hasBlobs: bool)
    requires SupportedVersion(b.formatVersion) && GraphOk(b) && RestOk(b, NodeRefs(b.nodes), hasBlobs)
    ensures Importable(b, hasBlobs)
  {
  }

  lemma FreshIsBelow(db: Db)
    requires db.Valid()
    ensures Below(db.agents, db.next) && Below(db.nodes, db.next) && Below(db.edges, db.next) && Below(db.characters, db.next)
    ensures Below(db.maps, db.next) && Below(db.boards, db.next) && Below(db.threads, db.next) && Below(db.sessions, db.next)
  {
  }

  lemma NoBlobs(blobs: map<Id, Image>, strays: Id -> bool)
    ensures BlobsGrew(blobs, blobs, {}, None, strays)
  {
  }

  lemma AssembleGraph(before: Db, now: Db, b: Bundle, defaults: map<string, Option<string>>, m: Minted, h1: Id, h2: Id, h3: Id)
    requires before.next <= m.campaign < h1 <= h2 <= h3 <= now.next
    requires now.campaigns == before.campaigns[m.campaign := CampaignRow(b.name, b.system, b.language)]
    requires m.agents.Keys == AgentRefs(b.agents) && m.nodes.Keys == NodeRefs(b.nodes)
    requires now.maps == before.maps && now.boards == before.boards && now.threads == before.threads && now.sessions == before.sessions
    requires |m.agentIds| == |b.agents| && Indexes(m.agents, AgentRefSeq(b.agents), m.agentIds)
    requires Indexes(m.nodes, NodeRefSeq(b.nodes), m.nodeIds)
    requires AgentsAdded(before.agents, now.agents, m.campaign, m.butler, b.agents, m.agentIds, defaults, before.next, h1)
    requires Added(before.nodes, now.nodes, m.campaign, m.nodeIds, NodeRows(b.nodes, |b.nodes|, m.agents), before.next, h2)
    requires Added(before.edges, now.edges, m.campaign, m.edges, EdgeRows(b.edges, |b.edges|, m.nodes), before.next, h3)
    requires Added(before.characters, now.characters, m.campaign, m.characters, b.characters, before.next, now.next)
    ensures GraphDone(before, now, b, defaults, m)
  {
    hide Added, AgentsAdded, Indexes;
    var cid, lo, hi := m.campaign, before.next, now.next;
    AgentsWithin(before.agents, now.agents, cid, m.butler, b.agents, m.agentIds, defaults, lo, h1, hi);
    AddedWithin(before.nodes, now.nodes, cid, m.nodeIds, NodeRows(b.nodes, |b.nodes|, m.agents), lo, h2, hi);
    AddedWithin(before.edges, now.edges, cid, m.edges, EdgeRows(b.edges, |b.edges|, m.nodes), lo, h3, hi);
  }

  // The ids of the last three tables, by position, and the references dropped.
  datatype Records = Records(boards: seq<Id>, threads: seq<Id>, sessions: seq<Id>, dropped: nat)

  ghost predicate RecordsDone(before: Db, now: Db, cid: Id, b: Bundle, agentIds: map<string, Id>, nodeIds: map<string, Id>,
                              r: Records, lo: Id, hi: Id)
  {
    && Added(before.boards, now.boards, cid, r.boards, BoardRows(b.boards, |b.boards|, nodeIds), lo, hi)
    && Added(before.threads, now.threads, cid, r.threads, b.threads, lo, hi)
    && Added(before.sessions, now.sessions, cid, r.sessions, SessionRows(SessionsOf(b), |SessionsOf(b)|, agentIds, nodeIds), lo, hi)
    && r.dropped == DroppedRefs(SessionsOf(b), |SessionsOf(b)|, agentIds)
  }

  lemma AssembleRecords(before: Db, now: Db, cid: Id, b: Bundle, agentIds: map<string, Id>, nodeIds: map<string, Id>,
                        r: Records, lo: Id, h6: Id, h7: Id, hi: Id)
    requires h6 <= h7 <= hi
    requires Added(before.boards, now.boards, cid, r.boards, BoardRows(b.boards, |b.boards|, nodeIds), lo, h6)
    requires Added(before.threads, now.threads, cid, r.threads, b.threads, lo, h7)
    requires SessionsDone(before.sessions, now.sessions, cid, SessionsOf(b), agentIds, nodeIds, r.sessions, |SessionsOf(b)|, r.dropped, lo, hi)
    ensures RecordsDone(before, now, cid, b, agentIds, nodeIds, r, lo, hi)
  {
    hide Added, SessionsOf;
    AddedWithin(before.boards, now.boards, cid, r.boards, BoardRows(b.boards, |b.boards|, nodeIds), lo, h6, hi);
    AddedWithin(before.threads, now.threads, cid, r.threads, b.threads, lo, h7, hi);
  }

  // The ids of each table, bounded by where minting stood when that table was finished, are
  // bounded by where it stands at the end.
  lemma Assemble(before: Db, graph: Db, mapped: Db, after: Db, b: Bundle, defaults: map<string, Option<string>>,
                 m0: Minted, m: Minted, r: Records)
    requires GraphDone(before, graph, b, defaults, m0) && graph.next <= mapped.next <= after.next
    requires mapped == graph.(next := mapped.next, maps := mapped.maps)
    requires after == mapped.(next := after.next, boards := after.boards, threads := after.threads, sessions := after.sessions)
    requires m == m0.(mapIds := m.mapIds, maps := m.maps, keys := m.keys, boards := r.boards, threads := r.threads, sessions := r.sessions)
    requires |m.keys| == |b.maps| && Indexes(m.maps, MapRefSeq(b.maps), m.mapIds)
    requires Added(before.maps, after.maps, m.campaign, m.mapIds, MapRows(b.maps, m.nodes, m.maps, m.keys, |b.maps|, |b.maps|),
                   before.next, mapped.next)
    requires RecordsDone(mapped, after, m.campaign, b, m.agents, m.nodes, r, before.next, after.next)
    ensures Restored(before, after, b, defaults, m)
    ensures r.dropped == DroppedRefs(SessionsOf(b), |SessionsOf(b)|, m.agents)
  {
    hide Added, AgentsAdded, Indexes, SessionsOf, AgentRefs, NodeRefs;
    var cid, lo, hi := m.campaign, before.next, after.next;
    AgentsWithin(before.agents, after.agents, cid, m.butler, b.agents, m.agentIds, defaults, lo, graph.next, hi);
    AddedWithin(before.nodes, after.nodes, cid, m.nodeIds, NodeRows(b.nodes, |b.nodes|, m.agents), lo, graph.next, hi);
    AddedWithin(before.edges, after.edges, cid, m.edges, EdgeRows(b.edges, |b.edges|, m.nodes), lo, graph.next, hi);
    AddedWithin(before.characters, after.characters, cid, m.characters, b.characters, lo, graph.next, hi);
    AddedWithin(before.maps, after.maps, cid, m.mapIds, MapRows(b.maps, m.nodes, m.maps, m.keys, |b.maps|, |b.maps|), lo, mapped.next, hi);
  }

  lemma RestoredIsValid(before: Db, after: Db, b: Bundle, defaults: map<string, Option<string>>, m: Minted)
    requires before.Valid() && Restored(before, after, b, defaults, m)
    ensures after.Valid()
  {
    hide Added, Indexes, AgentRowOf, DefaultButler;
    var cid, lo, hi := m.campaign, before.next, after.next;
    AddedStaysFresh(before.nodes, after.nodes, cid, m.nodeIds, NodeRows(b.nodes, |b.nodes|, m.agents), lo, hi);
    AddedStaysFresh(before.edges, after.edges, cid, m.edges, EdgeRows(b.edges, |b.edges|, m.nodes), lo, hi);
    AddedStaysFresh(before.characters, after.characters, cid, m.characters, b.characters, lo, hi);
    AddedStaysFresh(before.maps, after.maps, cid, m.mapIds, MapRows(b.maps, m.nodes, m.maps, m.keys, |b.maps|, |b.maps|), lo, hi);
    AddedStaysFresh(before.boards, after.boards, cid, m.boards, BoardRows(b.boards, |b.boards|, m.nodes), lo, hi);
    AddedStaysFresh(before.threads, after.threads, cid, m.threads, b.threads, lo, hi);
    AddedStaysFresh(before.sessions, after.sessions, cid, m.sessions, SessionRows(SessionsOf(b), |SessionsOf(b)|, m.agents, m.nodes), lo, hi);
    AgentsStayFresh(before.agents, after.agents, cid, m.butler, b.agents, m.agentIds, defaults, lo, hi);
  }

  lemma AgentsStayFresh(before: Table<AgentRow>, now: Table<AgentRow>, cid: Id, butler: Id, xs: seq<Agent>, ids: seq<Id>,
                        defaults: map<string, Option<string>>, lo: Id, hi: Id)
    requires AgentsAdded(before, now, cid, butler, xs, ids, defaults, lo, hi) && Fresh(before, lo) && lo <= cid < hi && |ids| == |xs|
    ensures Fresh(now, hi)
    ensures forall i :: i in now && i !in before ==> lo <= i < hi && now[i].campaign == cid
  {
    hide AgentRowOf, DefaultButler;
    forall j | 0 <= j < |ids| && IsButler(xs[j]) ensures butler in ids { assert ids[j] == butler; }
    forall i | i in now && i !in before ensures lo <= i < hi && now[i].campaign == cid {
      if i in ids { var k :| 0 <= k < |ids| && ids[k] == i; }
    }
  }

  lemma {:induction false} GrantStep(gs: seq<Grant>, i: nat)
    requires i < |gs|
    ensures GrantMap(gs[..i + 1]) == GrantMap(gs[..i])[gs[i].toolName := gs[i].config]
    ensures gs[i].toolName in GrantMap(gs[..i]) <==> exists j :: 0 <= j < i && gs[j].toolName == gs[i].toolName
  {
    assert gs[..i + 1][..i] == gs[..i];
    GrantMapEntries(gs[..i]);
    if gs[i].toolName in GrantMap(gs[..i]) {
      var j :| 0 <= j < i && gs[..i][j].toolName == gs[i].toolName;
      assert gs[j].toolName == gs[i].toolName;
    } else {
      forall j | 0 <= j < i ensures gs[j].toolName != gs[i].toolName {
        assert gs[..i][j] == gs[j];
      }
    }
  }
}
