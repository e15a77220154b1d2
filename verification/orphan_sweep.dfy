// The boot sweep of row-less Highlight blobs (internal/highlight/enrich.go), against savers that
// put the bytes before they insert the row (internal/highlight/saver.go).
module OrphanSweep {
  import opened Common

  type Id = nat

  // A parsed blob key, or one the parser refuses.
  datatype Key = Key(ownerKind: string, owner: Id, name: string) | Unparsed(raw: string)

  // CreatedAt; an older backend does not report one.
  datatype Meta = Meta(createdAt: Option<Time>)

  const SAVE_TIMEOUT := 30 * SECOND
  const GRACE := 2 * SAVE_TIMEOUT

  predicate HighlightBlob(k: Key) {
    k.Key? && k.ownerKind == "highlight" && (k.name == "image" || k.name == "clip.wav" || k.name == "sound")
  }

  // inFlightSave, negated, for a blob that is still there.
  predicate PastGrace(m: Meta, now: Time, grace: Time) {
    m.createdAt.None? || now - m.createdAt.value >= grace
  }

  // ---- One sweep with nothing else running ---------------------------------------------

  predicate Orphan(k: Key, m: Meta, rows: set<Id>, now: Time) {
    HighlightBlob(k) && k.owner !in rows && PastGrace(m, now, GRACE)
  }

  lemma OrphanIs(k: Key, m: Meta, rows: set<Id>, now: Time)
    ensures Orphan(k, m, rows, now) <==> HighlightBlob(k) && k.Key? && k.owner !in rows && PastGrace(m, now, GRACE)
  {
  }

  // A Highlight's image, clip or sound of an id without a row, stored a minute ago or more, or at
  // no known time.
  lemma OrphansExactly(k: Key, m: Meta, rows: set<Id>, now: Time)
    ensures Orphan(k, m, rows, now) <==>
              && k.Key? && k.ownerKind == "highlight" && k.name in {"image", "clip.wav", "sound"} && k.owner !in rows
              && (m.createdAt.Some? ==> now >= m.createdAt.value + 60_000_000_000)
  {
  }

  class BlobStore {
    var blobs: map<Key, Meta>
    const getFails: Key -> bool
    const deleteFails: Key -> bool

    constructor (blobs: map<Key, Meta>, getFails: Key -> bool, deleteFails: Key -> bool)
      ensures this.blobs == blobs && this.getFails == getFails && this.deleteFails == deleteFails
    {
      this.blobs, this.getFails, this.deleteFails := blobs, getFails, deleteFails;
    }

    // Every key, in any order.
    method List() returns (keys: seq<Key>)
      ensures forall k :: k in keys <==> k in blobs
      ensures forall i, j :: 0 <= i < j < |keys| ==> keys[i] != keys[j]
    {
      keys := [];
      var left := blobs.Keys;
      while left != {}
        invariant left <= blobs.Keys
        invariant forall k :: k in keys <==> k in blobs && k !in left
        invariant forall i, j :: 0 <= i < j < |keys| ==> keys[i] != keys[j]
        decreases left
      {
        var k :| k in left;
        keys, left := keys + [k], left - {k};
      }
    }

    // The stored Highlight blobs, each once.
    method Candidates() returns (candidates: seq<Key>)
      ensures forall k :: k in candidates <==> k in blobs && HighlightBlob(k)
      ensures forall k :: k in candidates <==>
                k in blobs && k.Key? && k.ownerKind == "highlight" && k.name in {"image", "clip.wav", "sound"}
      ensures forall p, q :: 0 <= p < q < |candidates| ==> candidates[p] != candidates[q]
    {
      var all := List();
      candidates := [];
      for i := 0 to |all|
        invariant forall k :: k in candidates <==> k in all[..i] && HighlightBlob(k)
        invariant forall p, q :: 0 <= p < q < |candidates| ==> candidates[p] != candidates[q]
      {
        assert all[i] !in all[..i];
        assert all[..i + 1] == all[..i] + [all[i]];
        if HighlightBlob(all[i]) { candidates := candidates + [all[i]]; }
      }
      assert all[..|all|] == all;
    }

    lemma SweptExactly(was: map<Key, Meta>, left: map<Key, Meta>, rows: set<Id>, now: Time)
      requires forall k :: k in left <==> k in was && !(Orphan(k, was[k], rows, now) && !getFails(k) && !deleteFails(k))
      ensures forall k :: k in was && k !in left <==>
                && k in was && k.Key? && k.ownerKind == "highlight" && k.name in {"image", "clip.wav", "sound"} && k.owner !in rows
                && (was[k].createdAt.Some? ==> now >= was[k].createdAt.value + 60_000_000_000) && !getFails(k) && !deleteFails(k)
    {
      hide Orphan;
      forall k | k in was
        ensures k !in left <==>
                && k.Key? && k.ownerKind == "highlight" && k.name in {"image", "clip.wav", "sound"} && k.owner !in rows
                && (was[k].createdAt.Some? ==> now >= was[k].createdAt.value + 60_000_000_000) && !getFails(k) && !deleteFails(k)
      {
        OrphansExactly(k, was[k], rows, now);
      }
    }

    // What stays is everything but the orphans whose Get and Delete both succeed; an error on
    // one key leaves that key and goes on.
    method Sweep(rows: set<Id>, now: Time) returns (swept: nat)
      modifies `blobs
      ensures forall k :: k in blobs <==>
                k in old(blobs) && !(Orphan(k, old(blobs)[k], rows, now) && !getFails(k) && !deleteFails(k))
      ensures forall k :: k in old(blobs) && k !in blobs <==>
                && k in old(blobs) && k.Key? && k.ownerKind == "highlight" && k.name in {"image", "clip.wav", "sound"} && k.owner !in rows
                && (old(blobs)[k].createdAt.Some? ==> now >= old(blobs)[k].createdAt.value + 60_000_000_000)
                && !getFails(k) && !deleteFails(k)
      ensures forall k :: k in blobs ==> blobs[k] == old(blobs)[k]
      ensures swept == |old(blobs)| - |blobs|
    {
      hide Orphan, HighlightBlob, PastGrace;
      var candidates := Candidates();
      swept := 0;
      for i := 0 to |candidates|
        invariant forall k :: k in blobs <==>
          k in old(blobs) && !(k in candidates[..i] && Orphan(k, old(blobs)[k], rows, now) && !getFails(k) && !deleteFails(k))
        invariant forall k :: k in blobs ==> blobs[k] == old(blobs)[k]
        invariant swept == |old(blobs)| - |blobs|
        invariant forall j :: i <= j < |candidates| ==> candidates[j] in blobs
      {
        var k := candidates[i];
        assert k !in candidates[..i];
        assert candidates[..i + 1] == candidates[..i] + [k];
        OrphanIs(k, blobs[k], rows, now);
        if k.owner in rows { continue; }
        if getFails(k) || !PastGrace(blobs[k], now, GRACE) { continue; }
        if deleteFails(k) { continue; }
        blobs := blobs - {k};
        swept := swept + 1;
      }
      assert candidates[..|candidates|] == candidates;
      forall k | k in old(blobs) && Orphan(k, old(blobs)[k], rows, now) ensures HighlightBlob(k) {
        OrphanIs(k, old(blobs)[k], rows, now);
      }
      SweptExactly(old(blobs), blobs, rows, now);
    }
  }

  // ---- The sweep against savers mid-flight -----------------------------------------------

  // saveTimeout and grace as deployed or otherwise; check: how long the clock reading may come
  // after the row check.
  datatype Params = Params(saveTimeout: Time, grace: Time, check: Time) {
    ghost predicate Sane() { saveTimeout > 0 && grace >= 0 && check >= 0 }
  }

  datatype Save = NoSave | Encoding(id: Id, started: Time) | Put(id: Id, started: Time, at: Time)

  // The sweep's own progress: the listed candidates; those found row-less, and when; the clock
  // it compares ages with; and the one key inspected and about to be deleted.
  datatype Sweep = NotBegun | Listed(keys: set<Key>) | Checked(absent: set<Key>, at: Time)
                 | Sweeping(absent: set<Key>, at: Time, clock: Time, doomed: Option<Key>)

  // inserted[i]: when row i was inserted. begun: the ids of the saves begun in this run. reaped:
  // the ids of the blobs the sweep deleted.
  datatype State = State(now: Time, rows: set<Id>, inserted: map<Id, Time>, used: set<Id>, begun: set<Id>, blobs: map<Key, Meta>,
                         saves: seq<Save>, sweep: Sweep, reaped: set<Id>)

  datatype Action =
    | Tick(d: Time)
    | BeginSave(s: nat, id: Id)
    | PutClip(s: nat)
    | InsertRow(s: nat)
    | EndSave(s: nat)
    | PutMedia(id: Id, name: string)
    | DropBlob(k: Key)
    | DeleteRow(id: Id)
    | ListKeys
    | CheckRows
    | ReadClock
    | Inspect(k: Key)
    | Delete

  function Clip(id: Id): Key { Key("highlight", id, "clip.wav") }

  // A save is over when its budget is.
  predicate MayWait(p: Params, s: State, until: Time) {
    && (forall i :: 0 <= i < |s.saves| && s.saves[i] != NoSave ==> until <= s.saves[i].started + p.saveTimeout)
    && (s.sweep.Checked? ==> until <= s.sweep.at + p.check)
  }

  ghost predicate SaveActs(p: Params, s: State, a: Action, i: nat, s': State)
    requires i < |s.saves|
  {
    var me := s.saves[i];
    match a
    case BeginSave(_, id) => me == NoSave && id !in s.used
      && s' == s.(saves := s.saves[i := Encoding(id, s.now)], used := s.used + {id}, begun := s.begun + {id})
    case PutClip(_) => me.Encoding?
      && s' == s.(saves := s.saves[i := Save.Put(me.id, me.started, s.now)], blobs := s.blobs[Clip(me.id) := Meta(Some(s.now))])
    // An insert on an expired budget is refused.
    case InsertRow(_) => me.Put? && s.now < me.started + p.saveTimeout
      && s' == s.(saves := s.saves[i := NoSave], rows := s.rows + {me.id}, inserted := s.inserted[me.id := s.now])
    case EndSave(_) => s' == s.(saves := s.saves[i := NoSave])
    case _ => false
  }

  ghost predicate SweepActs(p: Params, s: State, a: Action, s': State) {
    match a
    case ListKeys => s.sweep == NotBegun && s' == s.(sweep := Listed(set k | k in s.blobs && HighlightBlob(k)))
    case CheckRows => s.sweep.Listed?
      && s' == s.(sweep := Checked((set k | k in s.sweep.keys && k.Key? && k.owner !in s.rows), s.now))
    case ReadClock => s.sweep.Checked? && s' == s.(sweep := Sweeping(s.sweep.absent, s.sweep.at, s.now, None))
    case Inspect(k) => s.sweep.Sweeping? && k in s.sweep.absent && k in s.blobs && PastGrace(s.blobs[k], s.sweep.clock, p.grace)
      && s' == s.(sweep := s.sweep.(doomed := Some(k)))
    case Delete => s.sweep.Sweeping? && s.sweep.doomed.Some? && s.sweep.doomed.value.Key?
      && s' == s.(blobs := s.blobs - {s.sweep.doomed.value}, sweep := s.sweep.(doomed := None), reaped := s.reaped + {s.sweep.doomed.value.owner})
    case _ => false
  }

  ghost predicate Acts(p: Params, s: State, a: Action, s': State) {
    match a
    case Tick(d) => d >= 0 && MayWait(p, s, s.now + d) && s' == s.(now := s.now + d)
    case BeginSave(i, _) => i < |s.saves| && SaveActs(p, s, a, i, s')
    case PutClip(i) => i < |s.saves| && SaveActs(p, s, a, i, s')
    case InsertRow(i) => i < |s.saves| && SaveActs(p, s, a, i, s')
    case EndSave(i) => i < |s.saves| && SaveActs(p, s, a, i, s')
    // Enrichment stores media for a row it read, which may be gone by then; it never makes a row.
    case PutMedia(id, name) => id in s.inserted && s' == s.(blobs := s.blobs[Key("highlight", id, name) := Meta(Some(s.now))])
    case DropBlob(k) => s' == s.(blobs := s.blobs - {k})
    case DeleteRow(id) => s' == s.(rows := s.rows - {id})
    case _ => SweepActs(p, s, a, s')
  }

  // Nothing in flight; every stored row and blob is of an id already used, and a row was
  // inserted within the save's budget of the blobs stored under its id.
  ghost predicate Init(p: Params, s: State) {
    && (forall i :: 0 <= i < |s.saves| ==> s.saves[i] == NoSave) && s.sweep == NotBegun && s.reaped == {} && s.begun == {}
    && s.rows <= s.inserted.Keys <= s.used && (forall i :: i in s.inserted ==> s.inserted[i] <= s.now)
    && forall k :: k in s.blobs ==> BlobOk(p, s, k, s.blobs[k])
  }

  ghost predicate BlobOk(p: Params, s: State, k: Key, m: Meta) {
    k.Key? ==>
      && k.owner in s.used && (m.createdAt.None? ==> k.owner !in s.begun)
      && (m.createdAt.Some? && k.owner in s.inserted ==> s.inserted[k.owner] < m.createdAt.value + p.saveTimeout)
  }

  ghost predicate Run(p: Params, run: seq<State>, acts: seq<Action>) {
    && |run| == |acts| + 1 && Init(p, run[0])
    && forall i :: 0 <= i < |acts| ==> Acts(p, run[i], acts[i], run[i + 1])
  }

  // No id whose blob was deleted has a row.
  ghost predicate Safe(s: State) {
    s.reaped !! s.rows
  }

  // ---- The invariant ---------------------------------------------------------------------

  // A save that can still insert its row.
  predicate CanInsert(p: Params, s: State, save: Save) {
    save != NoSave && s.now < save.started + p.saveTimeout
  }

  ghost predicate NoSaver(p: Params, s: State, id: Id) {
    forall i :: 0 <= i < |s.saves| && CanInsert(p, s, s.saves[i]) ==> s.saves[i].id != id
  }

  ghost predicate SaveOk(p: Params, s: State, save: Save) {
    save != NoSave ==>
      && save.id in s.begun && save.id !in s.inserted && save.started <= s.now
      && (forall k :: k in s.blobs && k.Key? && k.owner == save.id ==>
            s.blobs[k].createdAt.Some? && s.blobs[k].createdAt.value >= save.started)
  }

  // Row-less for good: no row, and no save that could still insert one.
  ghost predicate Gone(p: Params, s: State, id: Id) {
    id in s.used && id !in s.rows && NoSaver(p, s, id)
  }

  // A listed candidate that was row-less at the check: if it has a row now, it was inserted since.
  ghost predicate AbsentSince(s: State, absent: set<Key>, at: Time) {
    && at <= s.now
    && forall k :: k in absent ==>
         && k.Key? && k.owner in s.used
         && (k.owner in s.rows ==> k.owner in s.begun && k.owner in s.inserted && s.inserted[k.owner] >= at)
  }

  ghost predicate SweepOk(p: Params, s: State) {
    match s.sweep
    case NotBegun => true
    case Listed(keys) => forall k :: k in keys && k.Key? ==> k.owner in s.used
    case Checked(absent, at) => AbsentSince(s, absent, at) && s.now <= at + p.check
    case Sweeping(absent, at, clock, doomed) =>
      && AbsentSince(s, absent, at) && clock <= s.now && clock <= at + p.check
      && (doomed.Some? && doomed.value.Key? ==> Gone(p, s, doomed.value.owner))
  }

  ghost predicate Ids(s: State) {
    && s.rows <= s.inserted.Keys <= s.used && s.begun <= s.used
    && (forall i :: i in s.inserted ==> s.inserted[i] <= s.now)
    && (forall i, j :: 0 <= i < j < |s.saves| && s.saves[i] != NoSave && s.saves[j] != NoSave ==> s.saves[i].id != s.saves[j].id)
  }

  ghost predicate Inv(p: Params, s: State) {
    && Ids(s)
    && (forall i :: 0 <= i < |s.saves| ==> SaveOk(p, s, s.saves[i]))
    && (forall k :: k in s.blobs ==> BlobOk(p, s, k, s.blobs[k]))
    && SweepOk(p, s)
    && (forall id :: id in s.reaped ==> Gone(p, s, id))
  }

  lemma InitInv(p: Params, s: State)
    requires Init(p, s)
    ensures Inv(p, s)
  {
  }

  // A candidate past the grace is row-less for good: a save that could insert its row, or did
  // since the check, would have stored the blob too recently.
  lemma PastGraceIsGone(p: Params, s: State, k: Key)
    requires p.Sane() && p.check <= p.grace - p.saveTimeout && Inv(p, s)
    requires s.sweep.Sweeping? && k in s.sweep.absent && k in s.blobs && PastGrace(s.blobs[k], s.sweep.clock, p.grace)
    ensures k.Key? && Gone(p, s, k.owner)
  {
    assert BlobOk(p, s, k, s.blobs[k]);
    forall i | 0 <= i < |s.saves| && CanInsert(p, s, s.saves[i]) ensures s.saves[i].id != k.owner {
      assert SaveOk(p, s, s.saves[i]);
    }
  }

  lemma SaveStep(p: Params, s: State, a: Action, i: nat, s': State)
    requires p.Sane() && Inv(p, s) && i < |s.saves| && SaveActs(p, s, a, i, s')
    ensures Inv(p, s')
  {
    assert SaveOk(p, s, s.saves[i]);
    forall j | 0 <= j < |s.saves| ensures SaveOk(p, s', s'.saves[j]) { assert SaveOk(p, s, s.saves[j]); }
    forall k | k in s'.blobs ensures BlobOk(p, s', k, s'.blobs[k]) { if k in s.blobs { assert BlobOk(p, s, k, s.blobs[k]); } }
    forall id | Gone(p, s, id) ensures Gone(p, s', id) { GoneStays(p, s, a, i, s', id); }
  }

  lemma GoneStays(p: Params, s: State, a: Action, i: nat, s': State, id: Id)
    requires p.Sane() && i < |s.saves| && SaveActs(p, s, a, i, s') && Gone(p, s, id) && (s.saves[i] != NoSave ==> s.saves[i].id in s.used)
    ensures Gone(p, s', id)
  {
    forall j | 0 <= j < |s'.saves| && CanInsert(p, s', s'.saves[j]) ensures s'.saves[j].id != id {
      if j != i { assert s'.saves[j] == s.saves[j]; }
    }
  }

  lemma SweepStep(p: Params, s: State, a: Action, s': State)
    requires p.Sane() && p.check <= p.grace - p.saveTimeout && Inv(p, s) && SweepActs(p, s, a, s')
    ensures Inv(p, s')
  {
    forall j | 0 <= j < |s.saves| ensures SaveOk(p, s', s'.saves[j]) { assert SaveOk(p, s, s.saves[j]); }
    forall k | k in s'.blobs ensures BlobOk(p, s', k, s'.blobs[k]) { assert BlobOk(p, s, k, s.blobs[k]); }
    forall id | Gone(p, s, id) ensures Gone(p, s', id) {}
    match a
    case Inspect(k) => PastGraceIsGone(p, s, k);
    case ListKeys =>
      forall k | k in s'.sweep.keys && k.Key? ensures k.owner in s'.used { assert BlobOk(p, s, k, s.blobs[k]); }
    case _ =>
  }

  lemma OtherStep(p: Params, s: State, a: Action, s': State)
    requires p.Sane() && Inv(p, s) && (a.Tick? || a.PutMedia? || a.DropBlob? || a.DeleteRow?) && Acts(p, s, a, s')
    ensures Inv(p, s')
  {
    forall j | 0 <= j < |s.saves| ensures SaveOk(p, s', s'.saves[j]) { assert SaveOk(p, s, s.saves[j]); }
    forall k | k in s'.blobs ensures BlobOk(p, s', k, s'.blobs[k]) { if k in s.blobs { assert BlobOk(p, s, k, s.blobs[k]); } }
    forall id | Gone(p, s, id) ensures Gone(p, s', id) {}
  }

  lemma Step(p: Params, s: State, a: Action, s': State)
    requires p.Sane() && p.check <= p.grace - p.saveTimeout && Inv(p, s) && Acts(p, s, a, s')
    ensures Inv(p, s')
  {
    hide Inv, SaveActs, SweepActs, MayWait;
    match a
    case BeginSave(i, _) => SaveStep(p, s, a, i, s');
    case PutClip(i) => SaveStep(p, s, a, i, s');
    case InsertRow(i) => SaveStep(p, s, a, i, s');
    case EndSave(i) => SaveStep(p, s, a, i, s');
    case Tick(_) => OtherStep(p, s, a, s');
    case PutMedia(_, _) => OtherStep(p, s, a, s');
    case DropBlob(_) => OtherStep(p, s, a, s');
    case DeleteRow(_) => OtherStep(p, s, a, s');
    case _ => SweepStep(p, s, a, s');
  }

  lemma {:induction false} Always(p: Params, run: seq<State>, acts: seq<Action>, n: nat)
    requires p.Sane() && p.check <= p.grace - p.saveTimeout && Run(p, run, acts) && n < |run|
    ensures Inv(p, run[n])
  {
    if n == 0 {
      InitInv(p, run[0]);
    } else {
      Always(p, run, acts, n - 1);
      Step(p, run[n - 1], acts[n - 1], run[n]);
    }
  }

  lemma Then(p: Params, run: seq<State>, acts: seq<Action>, a: Action, s': State) returns (run': seq<State>, acts': seq<Action>)
    requires Run(p, run, acts) && Acts(p, run[|acts|], a, s')
    ensures Run(p, run', acts') && |acts'| == |acts| + 1 && run'[|acts'|] == s'
  {
    run', acts' := run + [s'], acts + [a];
  }

  const BLOBS := map[Clip(0) := Meta(Some(0))]

  function Saving(now: Time, save: Save, sweep: Sweep): State {
    State(now, {}, map[], {0}, {0}, BLOBS, [save], sweep, {})
  }

  function Saved(now: Time, at: Time, sweep: Sweep): State {
    State(now, {0}, map[0 := at], {0}, {0}, BLOBS, [NoSave], sweep, {})
  }

  // A save whose clip is listed, and checked for a row, at the last instant it could insert one.
  lemma CheckedInFlight(p: Params) returns (run: seq<State>, acts: seq<Action>)
    requires p.Sane()
    ensures Run(p, run, acts)
    ensures run[|acts|] == Saving(p.saveTimeout - 1, Save.Put(0, 0, 0), Checked({Clip(0)}, p.saveTimeout - 1))
  {
    var t, save, clip := p.saveTimeout - 1, Save.Put(0, 0, 0), {Clip(0)};
    var empty := State(0, {}, map[], {}, {}, map[], [NoSave], NotBegun, {});
    run, acts := [empty], [];
    run, acts := Then(p, run, acts, BeginSave(0, 0), Saving(0, Encoding(0, 0), NotBegun).(blobs := map[]));
    hide Run;
    run, acts := Then(p, run, acts, PutClip(0), Saving(0, save, NotBegun));
    run, acts := Then(p, run, acts, Tick(t), Saving(t, save, NotBegun));
    assert clip == set k | k in BLOBS && HighlightBlob(k);
    run, acts := Then(p, run, acts, ListKeys, Saving(t, save, Listed(clip)));
    assert clip == set k | k in clip && k.Key? && k.owner !in Saving(t, save, Listed(clip)).rows;
    run, acts := Then(p, run, acts, CheckRows, Saving(t, save, Checked(clip, t)));
  }

  // A slow row check lets the sweep reap a save that inserted its row just after the check.
  lemma SlowCheckReaps(p: Params) returns (run: seq<State>, acts: seq<Action>)
    requires p.Sane() && p.check > p.grace - p.saveTimeout
    ensures Run(p, run, acts) && !Safe(run[|acts|])
  {
    hide Run;
    var t, end, clip := p.saveTimeout - 1, p.saveTimeout - 1 + p.check, {Clip(0)};
    run, acts := CheckedInFlight(p);
    run, acts := Then(p, run, acts, InsertRow(0), Saved(t, t, Checked(clip, t)));
    run, acts := Then(p, run, acts, Tick(p.check), Saved(end, t, Checked(clip, t)));
    run, acts := Then(p, run, acts, ReadClock, Saved(end, t, Sweeping(clip, t, end, None)));
    run, acts := Then(p, run, acts, Inspect(Clip(0)), Saved(end, t, Sweeping(clip, t, end, Some(Clip(0)))));
    assert BLOBS - {Clip(0)} == map[];
    run, acts := Then(p, run, acts, Delete, Saved(end, t, Sweeping(clip, t, end, None)).(blobs := map[], reaped := {0}));
    assert 0 in run[|acts|].reaped && 0 in run[|acts|].rows;
  }

  // No deleted blob belongs to a row that exists then or later, on any run, if and only if the
  // clock is read soon enough after the row check: within the grace less the save's budget.
  lemma SweepIsSafeExactly(p: Params)
    requires p.Sane()
    ensures (forall run, acts :: Run(p, run, acts) ==> Safe(run[|acts|])) <==> p.check <= p.grace - p.saveTimeout
  {
    if p.check <= p.grace - p.saveTimeout {
      forall run, acts | Run(p, run, acts) ensures Safe(run[|acts|]) {
        Always(p, run, acts, |acts|);
      }
    } else {
      var run, acts := SlowCheckReaps(p);
    }
  }

  // As deployed, the row check may take as long as one save.
  lemma DeployedSweepIsSafe(run: seq<State>, acts: seq<Action>, check: Time)
    requires 0 <= check <= SAVE_TIMEOUT && Run(Params(SAVE_TIMEOUT, GRACE, check), run, acts)
    ensures Safe(run[|acts|])
  {
    SweepIsSafeExactly(Params(SAVE_TIMEOUT, GRACE, check));
  }
}
