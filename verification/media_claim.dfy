// The generation of one Highlight's shared media asset (internal/highlight/enrich_sound.go):
// workers that claim, generate, store and land; the GM, who re-requests or deletes
// (internal/rpc/highlight.go); and the storage calls, each one atomic step
// (internal/storage/highlight.go). Image enrichment (internal/highlight/enrich.go) is the case
// of one kind that never changes and a successful worker that stops without releasing.
module MediaClaim {
  import opened Common

  // lease: how long a handler may run; release: how long its final release may take;
  // ttl: how old a claim must be to be taken over.
  datatype Params = Params(lease: Time, release: Time, ttl: Time) {
    ghost predicate Sane() { lease >= 0 && release >= 0 && ttl >= 0 }
  }

  // The stored row: sound_kind, whether sound_key is set, and the claim stamp.
  datatype Row = Row(kind: string, landed: bool, claim: Option<Time>)

  datatype Pc = Idle | Loaded | Claimed | Generating | Generated | Stored | Missed | Orphaned | Releasing(since: Time)

  datatype Worker = Worker(pc: Pc, kind: string, started: Time, claimedAt: Time)

  // A GM call: it reads the row, drops the blob the row named, then updates or deletes the row,
  // or ends in an error without doing so.
  datatype Wish = Request(kind: string) | Remove
  datatype Call = NoCall | Read(wish: Wish, landed: bool) | Dropped(wish: Wish)

  // blob is the kind of the asset stored under the one shared name.
  datatype State = State(now: Time, row: Option<Row>, blob: Option<string>, workers: seq<Worker>, calls: seq<Call>)

  // ---- The storage calls --------------------------------------------------------------

  predicate Claimable(row: Option<Row>, now: Time, ttl: Time) {
    && row.Some? && row.value.kind != "" && !row.value.landed
    && (row.value.claim.None? || now - row.value.claim.value > ttl)
  }

  predicate Landable(row: Option<Row>, kind: string) {
    row.Some? && row.value.kind == kind
  }

  function Unclaimed(row: Option<Row>): Option<Row> {
    if row.Some? then Some(row.value.(claim := None)) else None
  }

  function Requested(row: Option<Row>, wish: Wish): Option<Row> {
    match wish
    case Remove => None
    case Request(kind) => if row.Some? then Some(row.value.(kind := kind, landed := false)) else None
  }

  function Put(s: State, kind: string): State {
    s.(blob := Some(kind))
  }

  // ---- The steps ----------------------------------------------------------------------

  datatype Action =
    | Tick(d: Time)
    | Start(w: nat, kind: string)
    | Claim(w: nat)
    | Advance(w: nat)              // the next state of an owner whose call succeeded
    | Fail(w: nat, stored: bool)   // the call failed; a failed Put may still have stored
    | Land(w: nat)
    | Reread(w: nat)
    | Compensate(w: nat)
    | Release(w: nat, ok: bool)
    | Crash(w: nat)
    | Open(g: nat, wish: Wish)
    | Drop(g: nat)
    | Update(g: nat)
    | Abandon(g: nat)              // an error before anything was changed
    | GiveUp(g: nat)               // an error after the drop: the row is not updated

  // The worker holds the claim it took, from the claim to the end of the release.
  predicate Owns(w: Worker) {
    w.pc != Idle && w.pc != Loaded
  }

  // Time does not pass a handler's lease while it runs, nor the release timeout while it releases.
  predicate MayWait(p: Params, w: Worker, until: Time) {
    match w.pc
    case Idle => true
    case Releasing(since) => until <= since + p.release
    case _ => until <= w.started + p.lease
  }

  function With(s: State, w: nat, pc: Pc): State
    requires w < |s.workers|
  {
    s.(workers := s.workers[w := s.workers[w].(pc := pc)])
  }

  function WithCall(s: State, g: nat, c: Call): State
    requires g < |s.calls|
  {
    s.(calls := s.calls[g := c])
  }

  // What the handler does after reading the row: stop, or go on to claim.
  function AfterLoad(row: Option<Row>, kind: string): Pc {
    if row.None? || row.value.kind != kind || row.value.landed then Idle else Loaded
  }

  ghost predicate WorkerActs(p: Params, s: State, a: Action, w: nat, s': State)
    requires w < |s.workers|
  {
    var me := s.workers[w];
    match a
    case Start(_, kind) => me.pc == Idle
      && s' == s.(workers := s.workers[w := Worker(AfterLoad(s.row, kind), kind, s.now, s.now)])
    case Claim(_) => me.pc == Loaded
      && s' == if Claimable(s.row, s.now, p.ttl)
               then s.(row := Some(s.row.value.(claim := Some(s.now))), workers := s.workers[w := me.(pc := Claimed, claimedAt := s.now)])
               else With(s, w, Idle)
    case Advance(_) =>
      || (me.pc == Claimed && s' == With(s, w, Generating))
      || (me.pc == Generating && s' == With(s, w, Generated))
      || (me.pc == Generated && s' == Put(With(s, w, Stored), me.kind))
    case Fail(_, stored) =>
      && (me.pc == Claimed || me.pc == Generating || me.pc == Generated || me.pc == Stored || me.pc == Missed)
      && (stored ==> me.pc == Generated)
      && s' == if stored then Put(With(s, w, Releasing(s.now)), me.kind)
               else With(s, w, Releasing(s.now))
    case Land(_) => me.pc == Stored
      && s' == if Landable(s.row, me.kind) then With(s, w, Releasing(s.now)).(row := Some(s.row.value.(landed := true)))
               else With(s, w, Missed)
    case Reread(_) => me.pc == Missed && s' == With(s, w, if s.row.None? then Orphaned else Releasing(s.now))
    case Compensate(_) => me.pc == Orphaned && s' == With(s, w, Idle).(blob := None)
    case Release(_, ok) => me.pc.Releasing? && s' == if ok then With(s, w, Idle).(row := Unclaimed(s.row)) else With(s, w, Idle)
    case Crash(_) => s' == With(s, w, Idle)
    case _ => false
  }

  ghost predicate CallActs(s: State, a: Action, g: nat, s': State)
    requires g < |s.calls|
  {
    var me := s.calls[g];
    match a
    case Open(_, wish) => (me == NoCall || (me.Read? && wish == Remove && me.wish == Remove))
      && s' == WithCall(s, g, if s.row.None? then NoCall else Read(wish, s.row.value.landed))
    case Drop(_) => me.Read?
      && s' == WithCall(s, g, Dropped(me.wish)).(blob := if me.landed then None else s.blob)
    case Update(_) => me.Dropped? && s' == WithCall(s, g, NoCall).(row := Requested(s.row, me.wish))
    case Abandon(_) => me.Read? && s' == WithCall(s, g, NoCall)
    case GiveUp(_) => me.Dropped? && s' == WithCall(s, g, NoCall)
    case _ => false
  }

  ghost predicate Acts(p: Params, s: State, a: Action, s': State) {
    match a
    case Tick(d) => d >= 0 && s' == s.(now := s.now + d)
      && forall w :: 0 <= w < |s.workers| ==> MayWait(p, s.workers[w], s.now + d)
    case Open(g, _) => g < |s.calls| && CallActs(s, a, g, s')
    case Drop(g) => g < |s.calls| && CallActs(s, a, g, s')
    case Update(g) => g < |s.calls| && CallActs(s, a, g, s')
    case Abandon(g) => g < |s.calls| && CallActs(s, a, g, s')
    case GiveUp(g) => g < |s.calls| && CallActs(s, a, g, s')
    case _ => a.w < |s.workers| && WorkerActs(p, s, a, a.w, s')
  }

  // A requested or unrequested row without an asset, no worker running, no call open.
  ghost predicate Init(s: State) {
    && s.row.Some? && !s.row.value.landed && s.row.value.claim.None? && s.blob.None?
    && (forall w :: 0 <= w < |s.workers| ==> s.workers[w].pc == Idle)
    && (forall g :: 0 <= g < |s.calls| ==> s.calls[g] == NoCall)
  }

  // A run: its states, and the action between each two of them.
  ghost predicate Run(p: Params, run: seq<State>, acts: seq<Action>) {
    && |run| == |acts| + 1 && Init(run[0])
    && forall i :: 0 <= i < |acts| ==> Acts(p, run[i], acts[i], run[i + 1])
  }

  // ---- One generation at a time ---------------------------------------------------------

  ghost predicate NoOverlap(s: State) {
    forall v, w :: 0 <= v < w < |s.workers| ==> !(s.workers[v].pc == Generating && s.workers[w].pc == Generating)
  }

  // An owner is within its time and holds the row's claim.
  ghost predicate OwnerOk(p: Params, s: State, w: Worker) {
    && (w.pc == Loaded ==> w.started <= s.now <= w.started + p.lease)
    && (Owns(w) ==>
          && w.started <= w.claimedAt <= s.now
          && (if w.pc.Releasing? then w.claimedAt <= w.pc.since <= w.started + p.lease && s.now <= w.pc.since + p.release
              else s.now <= w.started + p.lease)
          && (s.row.Some? ==> s.row.value.claim == Some(w.claimedAt)))
  }

  ghost predicate SingleOwner(p: Params, s: State) {
    && (forall w :: 0 <= w < |s.workers| ==> OwnerOk(p, s, s.workers[w]))
    && (forall v, w :: 0 <= v < |s.workers| && 0 <= w < |s.workers| && Owns(s.workers[v]) && Owns(s.workers[w]) ==> v == w)
  }

  // A claim cannot be taken while it has an owner: its age is at most lease + release <= ttl.
  lemma ClaimIsFree(p: Params, s: State, v: nat)
    requires p.Sane() && p.lease + p.release <= p.ttl && SingleOwner(p, s)
    requires v < |s.workers| && Claimable(s.row, s.now, p.ttl)
    ensures !Owns(s.workers[v])
  {
    assert OwnerOk(p, s, s.workers[v]);
  }

  lemma ClaimStep(p: Params, s: State, w: nat, s': State)
    requires p.Sane() && p.lease + p.release <= p.ttl && SingleOwner(p, s)
    requires w < |s.workers| && WorkerActs(p, s, Action.Claim(w), w, s')
    ensures SingleOwner(p, s')
  {
    if Claimable(s.row, s.now, p.ttl) {
      forall v | 0 <= v < |s.workers| ensures !Owns(s.workers[v]) { ClaimIsFree(p, s, v); }
      assert OwnerOk(p, s, s.workers[w]);
    }
  }

  lemma WorkerStep(p: Params, s: State, a: Action, w: nat, s': State)
    requires p.Sane() && SingleOwner(p, s) && !a.Claim? && w < |s.workers| && WorkerActs(p, s, a, w, s')
    ensures SingleOwner(p, s')
  {
    assert OwnerOk(p, s, s.workers[w]);
    assert forall v :: 0 <= v < |s.workers| && v != w ==> s'.workers[v] == s.workers[v];
    assert Owns(s'.workers[w]) ==> Owns(s.workers[w]) && s'.workers[w].claimedAt == s.workers[w].claimedAt;
    forall v | 0 <= v < |s.workers| ensures OwnerOk(p, s', s'.workers[v]) {
      assert OwnerOk(p, s, s.workers[v]);
    }
  }

  lemma SingleOwnerStep(p: Params, s: State, a: Action, s': State)
    requires p.Sane() && p.lease + p.release <= p.ttl && SingleOwner(p, s) && Acts(p, s, a, s')
    ensures SingleOwner(p, s')
  {
    hide WorkerActs;
    match a
    case Claim(w) => ClaimStep(p, s, w, s');
    case Tick(d) =>
      forall w | 0 <= w < |s.workers| ensures OwnerOk(p, s', s'.workers[w]) {
        assert OwnerOk(p, s, s.workers[w]) && MayWait(p, s.workers[w], s.now + d);
      }
    case Open(_, _) =>
    case Drop(_) =>
    case Update(_) =>
    case Abandon(_) =>
    case GiveUp(_) =>
    case _ => WorkerStep(p, s, a, a.w, s');
  }

  lemma {:induction false} SingleOwnerAlways(p: Params, run: seq<State>, acts: seq<Action>, n: nat)
    requires p.Sane() && p.lease + p.release <= p.ttl && Run(p, run, acts) && n < |run|
    ensures SingleOwner(p, run[n])
  {
    if n > 0 {
      SingleOwnerAlways(p, run, acts, n - 1);
      SingleOwnerStep(p, run[n - 1], acts[n - 1], run[n]);
    }
  }

  // ---- The landed asset -------------------------------------------------------------------

  predicate Landed(s: State) { s.row.Some? && s.row.value.landed }

  predicate BeforeLanding(pc: Pc) {
    pc == Claimed || pc == Generating || pc == Generated || pc == Stored
  }

  // The blob, when there is one, is of the kind the row names, or the storing worker made.
  ghost predicate AssetOk(s: State) {
    && (Landed(s) ==> s.blob.None? || s.blob == Some(s.row.value.kind))
    && (forall w :: 0 <= w < |s.workers| ==> WorkerAssetOk(s, s.workers[w]))
  }

  ghost predicate WorkerAssetOk(s: State, w: Worker) {
    && (BeforeLanding(w.pc) ==> !Landed(s))
    && (w.pc == Stored ==> s.blob.None? || s.blob == Some(w.kind))
    && (w.pc == Orphaned ==> s.row.None?)
  }

  lemma AssetStep(p: Params, s: State, a: Action, s': State)
    requires SingleOwner(p, s) && AssetOk(s) && Acts(p, s, a, s')
    ensures AssetOk(s')
  {
    hide WorkerActs, CallActs, MayWait;
    match a
    case Tick(_) =>
    case Open(g, _) => AssetCall(s, a, g, s');
    case Drop(g) => AssetCall(s, a, g, s');
    case Update(g) => AssetCall(s, a, g, s');
    case Abandon(g) => AssetCall(s, a, g, s');
    case GiveUp(g) => AssetCall(s, a, g, s');
    case _ => AssetWorker(p, s, a, a.w, s');
  }

  lemma AssetCall(s: State, a: Action, g: nat, s': State)
    requires AssetOk(s) && g < |s.calls| && CallActs(s, a, g, s')
    ensures AssetOk(s')
  {
    forall w | 0 <= w < |s'.workers| ensures WorkerAssetOk(s', s'.workers[w]) { assert WorkerAssetOk(s, s.workers[w]); }
  }

  lemma AssetWorker(p: Params, s: State, a: Action, w: nat, s': State)
    requires SingleOwner(p, s) && AssetOk(s) && w < |s.workers| && WorkerActs(p, s, a, w, s')
    ensures AssetOk(s')
  {
    hide OwnerOk;
    assert WorkerAssetOk(s, s.workers[w]);
    forall v | 0 <= v < |s'.workers| ensures WorkerAssetOk(s', s'.workers[v]) {
      assert WorkerAssetOk(s, s.workers[v]);
    }
  }

  lemma {:induction false} AssetAlways(p: Params, run: seq<State>, acts: seq<Action>, n: nat)
    requires p.Sane() && p.lease + p.release <= p.ttl && Run(p, run, acts) && n < |run|
    ensures AssetOk(run[n])
  {
    if n > 0 {
      AssetAlways(p, run, acts, n - 1);
      SingleOwnerAlways(p, run, acts, n - 1);
      AssetStep(p, run[n - 1], acts[n - 1], run[n]);
    }
  }

  // ---- When a landed asset is lost --------------------------------------------------------

  // A drop that deletes: its call read a landed row.
  predicate Drops(s: State, a: Action) {
    a.Drop? && a.g < |s.calls| && s.calls[a.g].Read? && s.calls[a.g].landed
  }

  predicate Stores(s: State, a: Action) {
    (a.Advance? && a.w < |s.workers| && s.workers[a.w].pc == Generated) || (a.Fail? && a.stored)
  }

  // Some worker has put its asset and not yet recorded it on the row.
  ghost predicate BeingLanded(s: State) {
    exists w :: 0 <= w < |s.workers| && s.workers[w].pc == Stored
  }

  // Action i is a drop, and nothing was stored since.
  ghost predicate DroppedAt(run: seq<State>, acts: seq<Action>, i: nat, n: nat)
    requires n < |run| == |acts| + 1
  {
    i < n && Drops(run[i], acts[i]) && forall k :: i < k < n ==> !Stores(run[k], acts[k])
  }

  // The call that dropped at i has not updated the row since: it is still open, or gave up.
  ghost predicate NotUpdated(acts: seq<Action>, i: nat, n: nat)
    requires i < n <= |acts| && acts[i].Drop?
  {
    forall k :: i < k < n ==> acts[k] != Update(acts[i].g)
  }

  // The two drops that lose an asset: under a worker about to land, or without a row update.
  ghost predicate LostAt(run: seq<State>, acts: seq<Action>, i: nat, n: nat)
    requires n < |run| == |acts| + 1
  {
    DroppedAt(run, acts, i, n) && (BeingLanded(run[i]) || NotUpdated(acts, i, n))
  }

  ghost predicate DroppedUnderWorker(run: seq<State>, acts: seq<Action>, n: nat)
    requires n < |run| == |acts| + 1
  {
    exists i: nat :: DroppedAt(run, acts, i, n) && BeingLanded(run[i])
  }

  ghost predicate Lost(run: seq<State>, acts: seq<Action>, n: nat)
    requires n < |run| == |acts| + 1
  {
    exists i: nat :: LostAt(run, acts, i, n)
  }

  ghost predicate LossOk(run: seq<State>, acts: seq<Action>, n: nat)
    requires n < |run| == |acts| + 1
  {
    && (Landed(run[n]) && run[n].blob.None? ==> Lost(run, acts, n))
    && (BeingLanded(run[n]) && run[n].blob.None? ==> DroppedUnderWorker(run, acts, n))
  }

  // What a step that is no drop does not change.
  lemma QuietStep(p: Params, s: State, a: Action, s': State)
    requires SingleOwner(p, s) && AssetOk(s) && Acts(p, s, a, s') && !Drops(s, a)
    ensures Stores(s, a) ==> s'.blob.Some?
    ensures !Stores(s, a) && BeingLanded(s') ==> BeingLanded(s) && s'.blob == s.blob
    ensures !Stores(s, a) && Landed(s') ==> s'.blob == s.blob && !a.Update? && (Landed(s) || (a.Land? && BeingLanded(s)))
    ensures !Stores(s, a) && s.blob.None? ==> s'.blob.None?
  {
    hide OwnerOk;
    if BeingLanded(s') {
      var w :| 0 <= w < |s'.workers| && s'.workers[w].pc == Stored;
      assert 0 <= w < |s.workers| && WorkerAssetOk(s, s.workers[w]);
    }
    if a.Compensate? { assert WorkerAssetOk(s, s.workers[a.w]); }
  }

  lemma DropStep(p: Params, s: State, a: Action, s': State)
    requires Acts(p, s, a, s') && Drops(s, a)
    ensures s'.blob.None? && s'.row == s.row && s'.workers == s.workers && !Stores(s, a)
  {
  }

  lemma {:induction false} LossAlways(p: Params, run: seq<State>, acts: seq<Action>, n: nat)
    requires p.Sane() && p.lease + p.release <= p.ttl && Run(p, run, acts) && n < |run|
    ensures LossOk(run, acts, n)
  {
    hide Acts, AssetOk, SingleOwner, Drops, Stores;
    if n > 0 {
      LossAlways(p, run, acts, n - 1);
      SingleOwnerAlways(p, run, acts, n - 1);
      AssetAlways(p, run, acts, n - 1);
      LossStep(p, run, acts, n - 1);
    }
  }

  lemma LossStep(p: Params, run: seq<State>, acts: seq<Action>, n: nat)
    requires Run(p, run, acts) && n < |acts| && SingleOwner(p, run[n]) && AssetOk(run[n]) && LossOk(run, acts, n)
    ensures LossOk(run, acts, n + 1)
  {
    hide SingleOwner, AssetOk, Acts, Stores;
    var s, a, s' := run[n], acts[n], run[n + 1];
    if Drops(s, a) {
      DropStep(p, s, a, s');
      assert LostAt(run, acts, n, n + 1);
    } else {
      QuietStep(p, s, a, s');
      if !Stores(s, a) {
        if DroppedUnderWorker(run, acts, n) {
          var i: nat :| DroppedAt(run, acts, i, n) && BeingLanded(run[i]);
          assert LostAt(run, acts, i, n + 1);
        }
        if Lost(run, acts, n) && !a.Update? {
          var i: nat :| LostAt(run, acts, i, n);
          assert LostAt(run, acts, i, n + 1);
        }
      }
    }
  }

  // Nothing but a store brings a dropped asset back.
  lemma {:induction false} DroppedStays(p: Params, run: seq<State>, acts: seq<Action>, i: nat, n: nat)
    requires p.Sane() && p.lease + p.release <= p.ttl && Run(p, run, acts) && n < |run| && DroppedAt(run, acts, i, n)
    ensures run[n].blob.None?
  {
    hide AssetOk, SingleOwner, Acts;
    if i == n - 1 {
      DropStep(p, run[i], acts[i], run[n]);
    } else {
      DroppedStays(p, run, acts, i, n - 1);
      SingleOwnerAlways(p, run, acts, n - 1);
      AssetAlways(p, run, acts, n - 1);
      if Drops(run[n - 1], acts[n - 1]) {
        DropStep(p, run[n - 1], acts[n - 1], run[n]);
      } else {
        QuietStep(p, run[n - 1], acts[n - 1], run[n]);
      }
    }
  }

  // In every run, a landed row's asset is there, and of the row's kind, unless since the last
  // store a call dropped it while a worker was between its put and its landing, or dropped it
  // and has not updated the row; and in exactly those runs it is gone.
  lemma LandedAssetExactly(p: Params, run: seq<State>, acts: seq<Action>, n: nat)
    requires p.Sane() && p.lease + p.release <= p.ttl && Run(p, run, acts) && n < |run| && Landed(run[n])
    ensures run[n].blob == Some(run[n].row.value.kind) <==> !Lost(run, acts, n)
    ensures run[n].blob.None? <==> Lost(run, acts, n)
  {
    hide Acts, SingleOwner, WorkerAssetOk;
    AssetAlways(p, run, acts, n);
    LossAlways(p, run, acts, n);
    if Lost(run, acts, n) {
      var i: nat :| LostAt(run, acts, i, n);
      DroppedStays(p, run, acts, i, n);
    }
  }

  // A careful drop: no worker is about to land, and the call goes on to update the row.
  ghost predicate Careful(run: seq<State>, acts: seq<Action>, i: nat, n: nat)
    requires i < n < |run| == |acts| + 1
  {
    Drops(run[i], acts[i]) ==> !BeingLanded(run[i]) && !NotUpdated(acts, i, n)
  }

  // Careful calls lose nothing.
  lemma CarefulDropsNeverLoseAnAsset(p: Params, run: seq<State>, acts: seq<Action>, n: nat)
    requires p.Sane() && p.lease + p.release <= p.ttl && Run(p, run, acts) && n < |run| && Landed(run[n])
    requires forall i :: 0 <= i < n ==> Careful(run, acts, i, n)
    ensures run[n].blob == Some(run[n].row.value.kind)
  {
    LandedAssetExactly(p, run, acts, n);
    forall i: nat | i < n ensures !LostAt(run, acts, i, n) { assert Careful(run, acts, i, n); }
  }

  // ---- What the row and the blob come from ------------------------------------------------

  // Worker w stored at i, nothing was stored since.
  ghost predicate StoredAt(run: seq<State>, acts: seq<Action>, i: nat, n: nat)
    requires n < |run| == |acts| + 1
  {
    i < n && Stores(run[i], acts[i]) && acts[i].w < |run[i].workers| && forall k :: i < k < n ==> !Stores(run[k], acts[k])
  }

  // An action that ends worker w's care for what it stored: a failure or a crash, a landing on a
  // row of its kind, or finding the row still there.
  ghost predicate LetsGo(s: State, a: Action, w: nat) {
    || a == Crash(w) || (a.Fail? && a.w == w)
    || (a == Land(w) && w < |s.workers| && s.row.Some? && s.row.value.kind == s.workers[w].kind)
    || (a == Reread(w) && s.row.Some?)
  }

  predicate InHand(pc: Pc) { pc == Stored || pc == Missed || pc == Orphaned }

  // The blob was put by the last store, and its worker still has it in hand, or let go of it.
  ghost predicate BlobFrom(run: seq<State>, acts: seq<Action>, i: nat, n: nat)
    requires n < |run| == |acts| + 1
  {
    && StoredAt(run, acts, i, n)
    && (|| (acts[i].w < |run[n].workers| && InHand(run[n].workers[acts[i].w].pc))
        || exists k :: i <= k < n && LetsGo(run[k], acts[k], acts[i].w))
  }

  lemma StoreStep(p: Params, s: State, a: Action, s': State)
    requires Acts(p, s, a, s') && Stores(s, a)
    ensures a.w < |s.workers| && (a.Fail? || (a.w < |s'.workers| && InHand(s'.workers[a.w].pc)))
    ensures LetsGo(s, a, a.w) <==> a.Fail?
  {
  }

  // A blob not stored now was there before, and its worker lets it go or keeps it in hand.
  lemma KeepStep(p: Params, s: State, a: Action, s': State, w: nat)
    requires Acts(p, s, a, s') && !Stores(s, a) && s'.blob.Some?
    ensures s.blob.Some?
    ensures w < |s.workers| && InHand(s.workers[w].pc) && !LetsGo(s, a, w) ==> w < |s'.workers| && InHand(s'.workers[w].pc)
  {
  }

  // A blob is there only while its worker has it in hand, or after it let go of it: what a worker
  // stored for a row deleted meanwhile is gone once the worker has found that out.
  lemma {:induction false} NoBlobIsForgotten(p: Params, run: seq<State>, acts: seq<Action>, n: nat) returns (i: nat)
    requires Run(p, run, acts) && n < |run| && run[n].blob.Some?
    ensures BlobFrom(run, acts, i, n)
  {
    hide Acts, LetsGo, InHand;
    var s, a, s' := run[n - 1], acts[n - 1], run[n];
    if Stores(s, a) {
      StoreStep(p, s, a, s');
      i := n - 1;
    } else {
      KeepStep(p, s, a, s', 0);
      i := NoBlobIsForgotten(p, run, acts, n - 1);
      KeepStep(p, s, a, s', acts[i].w);
    }
  }

  // Call a.g's update, and the worker's landing, as they find the row.
  predicate Updates(s: State, a: Action, wish: Wish) {
    a.Update? && a.g < |s.calls| && s.calls[a.g] == Dropped(wish)
  }

  predicate Lands(s: State, a: Action) {
    a.Land? && a.w < |s.workers| && s.row.Some? && s.row.value.kind == s.workers[a.w].kind
  }

  // A row is deleted by a delete, has the kind last asked for, and is landed from a landing until
  // the next request.
  lemma RowStep(p: Params, s: State, a: Action, s': State)
    requires Acts(p, s, a, s')
    ensures s'.row.Some? <==> s.row.Some? && !Updates(s, a, Remove)
    ensures s'.row.Some? ==>
              if a.Update? then Updates(s, a, Request(s'.row.value.kind)) && !s'.row.value.landed
              else s'.row.value.kind == s.row.value.kind && (s'.row.value.landed <==> s.row.value.landed || Lands(s, a))
  {
  }

  lemma {:induction false} RowGoneExactly(p: Params, run: seq<State>, acts: seq<Action>, n: nat)
    requires Run(p, run, acts) && n < |run|
    ensures run[n].row.None? <==> exists i :: 0 <= i < n && Updates(run[i], acts[i], Remove)
  {
    hide Acts, Updates;
    if n > 0 {
      RowGoneExactly(p, run, acts, n - 1);
      RowStep(p, run[n - 1], acts[n - 1], run[n]);
    }
  }

  lemma {:induction false} LandedExactly(p: Params, run: seq<State>, acts: seq<Action>, n: nat)
    requires Run(p, run, acts) && n < |run| && run[n].row.Some?
    ensures run[n].row.value.landed <==> exists i :: 0 <= i < n && Lands(run[i], acts[i]) && forall k :: i < k < n ==> !acts[k].Update?
    ensures if exists i :: 0 <= i < n && acts[i].Update?
            then exists i :: 0 <= i < n && Updates(run[i], acts[i], Request(run[n].row.value.kind)) && forall k :: i < k < n ==> !acts[k].Update?
            else run[n].row.value.kind == run[0].row.value.kind
  {
    hide Acts, Updates;
    if n > 0 {
      var a := acts[n - 1];
      RowStep(p, run[n - 1], a, run[n]);
      LandedExactly(p, run, acts, n - 1);
      if !a.Update? && run[n].row.value.landed {
        var i: int;
        if Lands(run[n - 1], a) {
          i := n - 1;
        } else {
          i :| 0 <= i < n - 1 && Lands(run[i], acts[i]) && forall k :: i < k < n - 1 ==> !acts[k].Update?;
        }
        assert Lands(run[i], acts[i]) && forall k :: i < k < n ==> !acts[k].Update?;
      }
    }
  }

  // A worker goes on to claim only when the row, as it finds it, asks for the kind it is to make
  // and has no sound yet.
  lemma StartsExactly(p: Params, s: State, w: nat, kind: string, s': State)
    requires Acts(p, s, Start(w, kind), s')
    ensures s'.row == s.row && s'.blob == s.blob && s'.workers[w].kind == kind && s'.workers[w].started == s.now
    ensures s'.workers[w].pc == Loaded <==> s.row.Some? && s.row.value.kind == kind && !s.row.value.landed
    ensures s'.workers[w].pc != Loaded ==> s'.workers[w].pc == Idle
  {
  }

  // A worker takes the claim exactly when there is a row asking for a sound that has not landed,
  // unclaimed or claimed longer ago than a claim lives.
  lemma ClaimsExactly(p: Params, s: State, w: nat, s': State)
    requires Acts(p, s, Action.Claim(w), s')
    ensures s'.workers[w].pc == Claimed <==>
              s.row.Some? && s.row.value.kind != "" && !s.row.value.landed && (s.row.value.claim.None? || s.now - s.row.value.claim.value > p.ttl)
    ensures if s'.workers[w].pc == Claimed then s'.row == Some(s.row.value.(claim := Some(s.now))) && s'.workers[w].claimedAt == s.now
            else s'.workers[w].pc == Idle && s'.row == s.row
  {
  }

  // ---- Where the claims stop holding ------------------------------------------------------

  const ASKED := Row("music", false, None)

  // A row asked for music, three idle workers, two GM calls that have not begun.
  function Fresh(): State {
    State(0, Some(ASKED), None, [IDLE, IDLE, IDLE], [NoCall, NoCall])
  }

  const IDLE := Worker(Idle, "", 0, 0)

  function At(now: Time, claim: Option<Time>, ws: seq<Worker>): State {
    State(now, Some(ASKED.(claim := claim)), None, ws, [NoCall, NoCall])
  }

  function Busy(pc: Pc, since: Time): Worker { Worker(pc, "music", since, since) }

  // A lease longer than the claim's life: the claim is taken over mid-generation.
  lemma LongLeaseOverlaps(p: Params) returns (run: seq<State>, acts: seq<Action>)
    requires p.Sane() && p.ttl < p.lease
    ensures Run(p, run, acts) && !NoOverlap(run[|acts|])
  {
    hide Run;
    var t := p.ttl + 1;
    var a, b := Busy(Generating, 0), Busy(Generating, t);
    run, acts := FirstClaim(p);
    run, acts := Then(p, run, acts, Advance(0), At(0, Some(0), [a, IDLE, IDLE]));
    run, acts := Then(p, run, acts, Tick(t), At(t, Some(0), [a, IDLE, IDLE]));
    run, acts := SecondClaim(p, run, acts, a);
    run, acts := Then(p, run, acts, Advance(1), At(t, Some(t), [a, b, IDLE]));
    assert run[|acts|].workers[0].pc == Generating && run[|acts|].workers[1].pc == Generating;
  }

  // One more action, from the last state of a run.
  lemma Then(p: Params, run: seq<State>, acts: seq<Action>, a: Action, s': State) returns (run': seq<State>, acts': seq<Action>)
    requires Run(p, run, acts) && Acts(p, run[|acts|], a, s')
    ensures Run(p, run', acts') && run' == run + [s'] && acts' == acts + [a]
  {
    run', acts' := run + [s'], acts + [a];
  }

  lemma FirstClaim(p: Params) returns (run: seq<State>, acts: seq<Action>)
    requires p.Sane()
    ensures Run(p, run, acts) && run[|acts|] == At(0, Some(0), [Busy(Claimed, 0), IDLE, IDLE])
  {
    run, acts := [Fresh()], [];
    run, acts := Then(p, run, acts, Start(0, "music"), At(0, None, [Busy(Loaded, 0), IDLE, IDLE]));
    hide Run;
    run, acts := Then(p, run, acts, Action.Claim(0), At(0, Some(0), [Busy(Claimed, 0), IDLE, IDLE]));
  }

  // A second worker takes over a claim whose life is over.
  lemma SecondClaim(p: Params, was: seq<State>, did: seq<Action>, w: Worker) returns (run: seq<State>, acts: seq<Action>)
    requires p.Sane() && Run(p, was, did) && was[|did|] == At(p.ttl + 1, Some(0), [w, IDLE, IDLE])
    ensures Run(p, run, acts) && run[|acts|] == At(p.ttl + 1, Some(p.ttl + 1), [w, Busy(Claimed, p.ttl + 1), IDLE])
  {
    hide Run;
    var t := p.ttl + 1;
    run, acts := Then(p, was, did, Start(1, "music"), At(t, Some(0), [w, Busy(Loaded, t), IDLE]));
    run, acts := Then(p, run, acts, Action.Claim(1), At(t, Some(t), [w, Busy(Claimed, t), IDLE]));
  }

  // A first worker whose generation failed at the end of its lease, its release under way when
  // its claim's life is over.
  lemma LateRelease(p: Params) returns (run: seq<State>, acts: seq<Action>)
    requires p.Sane() && p.lease <= p.ttl < p.lease + p.release
    ensures Run(p, run, acts)
    ensures run[|acts|] == At(p.ttl + 1, Some(0), [Worker(Releasing(p.lease), "music", 0, 0), IDLE, IDLE])
  {
    hide Run;
    var l, t := p.lease, p.ttl + 1;
    var out := Worker(Releasing(l), "music", 0, 0);
    run, acts := FirstClaim(p);
    run, acts := Then(p, run, acts, Tick(l), At(l, Some(0), [Busy(Claimed, 0), IDLE, IDLE]));
    run, acts := Then(p, run, acts, Fail(0, false), At(l, Some(0), [out, IDLE, IDLE]));
    run, acts := Then(p, run, acts, Tick(t - l), At(t, Some(0), [out, IDLE, IDLE]));
  }

  // The late release clears the claim of the worker that took over.
  lemma LateReleaseClears(p: Params) returns (run: seq<State>, acts: seq<Action>)
    requires p.Sane() && p.lease <= p.ttl < p.lease + p.release
    ensures Run(p, run, acts)
    ensures run[|acts|] == At(p.ttl + 1, None, [Worker(Idle, "music", 0, 0), Busy(Generating, p.ttl + 1), IDLE])
  {
    hide Run;
    var t := p.ttl + 1;
    var out, done, b := Worker(Releasing(p.lease), "music", 0, 0), Worker(Idle, "music", 0, 0), Busy(Generating, t);
    run, acts := LateRelease(p);
    run, acts := SecondClaim(p, run, acts, out);
    run, acts := Then(p, run, acts, Advance(1), At(t, Some(t), [out, b, IDLE]));
    run, acts := Then(p, run, acts, Release(0, true), At(t, None, [done, b, IDLE]));
  }

  // So a third worker generates beside the second.
  lemma LateReleaseOverlaps(p: Params) returns (run: seq<State>, acts: seq<Action>)
    requires p.Sane() && p.lease <= p.ttl < p.lease + p.release
    ensures Run(p, run, acts) && !NoOverlap(run[|acts|])
  {
    hide Run;
    var t := p.ttl + 1;
    var done, b := Worker(Idle, "music", 0, 0), Busy(Generating, t);
    run, acts := LateReleaseClears(p);
    run, acts := Then(p, run, acts, Start(2, "music"), At(t, None, [done, b, Busy(Loaded, t)]));
    run, acts := Then(p, run, acts, Action.Claim(2), At(t, Some(t), [done, b, Busy(Claimed, t)]));
    run, acts := Then(p, run, acts, Advance(2), At(t, Some(t), [done, b, b]));
    assert run[|acts|].workers[1].pc == Generating && run[|acts|].workers[2].pc == Generating;
  }

  // No two generations ever overlap, on any run, if and only if a claim outlives a lease
  // together with a release.
  lemma MutualExclusionExactly(p: Params)
    requires p.Sane()
    ensures (forall run, acts :: Run(p, run, acts) ==> NoOverlap(run[|acts|])) <==> p.lease + p.release <= p.ttl
  {
    if p.lease + p.release <= p.ttl {
      forall run, acts | Run(p, run, acts) ensures NoOverlap(run[|acts|]) {
        SingleOwnerAlways(p, run, acts, |acts|);
      }
    } else if p.ttl < p.lease {
      var run, acts := LongLeaseOverlaps(p);
    } else {
      var run, acts := LateReleaseOverlaps(p);
    }
  }

  // The deployed bounds: a five-minute lease, a ten-second release, a ten-minute claim.
  const DEPLOYED := Params(5 * MINUTE, 10 * SECOND, 10 * MINUTE)

  lemma DeployedBoundsAreSafe(run: seq<State>, acts: seq<Action>)
    requires Run(DEPLOYED, run, acts)
    ensures NoOverlap(run[|acts|])
  {
    MutualExclusionExactly(DEPLOYED);
  }

  // What the worker does from a request to a stored asset, and from there to a landed row.
  const TAKE := [Start(0, "music"), Action.Claim(0)]
  const STORE := TAKE + [Advance(0), Advance(0), Advance(0)]
  const LAND := [Land(0), Release(0, true)]
  const AGAIN := Request("music")

  function Solo(row: Row, blob: Option<string>, pc: Pc, calls: seq<Call>): State {
    State(0, Some(row), blob, [Busy(pc, 0)], calls)
  }

  // From a request to a claim.
  lemma Take(p: Params, was: seq<State>, did: seq<Action>, blob: Option<string>, calls: seq<Call>)
    returns (run: seq<State>, acts: seq<Action>)
    requires p.Sane() && Run(p, was, did) && was[|did|] == Solo(ASKED, blob, Idle, calls)
    ensures Run(p, run, acts) && run[|acts|] == Solo(ASKED.(claim := Some(0)), blob, Claimed, calls)
    ensures acts == did + TAKE
  {
    hide Run;
    run, acts := Then(p, was, did, Start(0, "music"), Solo(ASKED, blob, Loaded, calls));
    run, acts := Then(p, run, acts, Action.Claim(0), Solo(ASKED.(claim := Some(0)), blob, Claimed, calls));
  }

  // From a request to a stored asset.
  lemma Generate(p: Params, was: seq<State>, did: seq<Action>, blob: Option<string>, calls: seq<Call>)
    returns (run: seq<State>, acts: seq<Action>)
    requires p.Sane() && Run(p, was, did) && was[|did|] == Solo(ASKED, blob, Idle, calls)
    ensures Run(p, run, acts) && run[|acts|] == Solo(ASKED.(claim := Some(0)), Some("music"), Stored, calls)
    ensures acts == did + STORE
  {
    hide Run;
    var held := ASKED.(claim := Some(0));
    run, acts := Take(p, was, did, blob, calls);
    run, acts := Then(p, run, acts, Advance(0), Solo(held, blob, Generating, calls));
    run, acts := Then(p, run, acts, Advance(0), Solo(held, blob, Generated, calls));
    run, acts := Then(p, run, acts, Advance(0), Solo(held, Some("music"), Stored, calls));
  }

  // From a stored asset to a landed row and a free worker.
  lemma Finish(p: Params, was: seq<State>, did: seq<Action>, blob: Option<string>, calls: seq<Call>)
    returns (run: seq<State>, acts: seq<Action>)
    requires p.Sane() && Run(p, was, did) && was[|did|] == Solo(ASKED.(claim := Some(0)), blob, Stored, calls)
    ensures Run(p, run, acts) && run[|acts|] == Solo(ASKED.(landed := true), blob, Idle, calls)
    ensures acts == did + LAND
  {
    hide Run;
    run, acts := Then(p, was, did, Land(0), Solo(Row("music", true, Some(0)), blob, Releasing(0), calls));
    run, acts := Then(p, run, acts, Release(0, true), Solo(ASKED.(landed := true), blob, Idle, calls));
  }

  // A first request, served.
  lemma Served(p: Params) returns (run: seq<State>, acts: seq<Action>)
    requires p.Sane()
    ensures Run(p, run, acts) && run[|acts|] == Solo(ASKED.(landed := true), Some("music"), Idle, [NoCall, NoCall])
    ensures acts == STORE + LAND
  {
    var none := [NoCall, NoCall];
    run, acts := [Solo(ASKED, None, Idle, none)], [];
    run, acts := Generate(p, run, acts, None, none);
    run, acts := Finish(p, run, acts, Some("music"), none);
  }

  // An asset lost to one call: it drops what it read, and its row update fails.
  lemma FailedUpdateLosesTheAsset(p: Params) returns (run: seq<State>, acts: seq<Action>)
    requires p.Sane()
    ensures Run(p, run, acts)
    ensures run[|acts|] == Solo(ASKED.(landed := true), None, Idle, [NoCall, NoCall])
    ensures acts == STORE + LAND + [Open(0, AGAIN), Drop(0), GiveUp(0)] && run[|acts| - 2].workers == [Busy(Idle, 0)]
  {
    var again, landed := AGAIN, ASKED.(landed := true);
    run, acts := Served(p);
    run, acts := Then(p, run, acts, Open(0, again), Solo(landed, Some("music"), Idle, [Read(again, true), NoCall]));
    run, acts := Then(p, run, acts, Drop(0), Solo(landed, None, Idle, [Dropped(again), NoCall]));
    run, acts := Then(p, run, acts, GiveUp(0), Solo(landed, None, Idle, [NoCall, NoCall]));
  }

  // Two GM calls read one landed row; the first drops its asset and asks again.
  lemma AskAgain(p: Params, was: seq<State>, did: seq<Action>) returns (run: seq<State>, acts: seq<Action>)
    requires p.Sane() && Run(p, was, did)
    requires was[|did|] == Solo(ASKED.(landed := true), Some("music"), Idle, [NoCall, NoCall])
    ensures Run(p, run, acts) && run[|acts|] == Solo(ASKED, None, Idle, [NoCall, Read(AGAIN, true)])
    ensures acts == did + [Open(0, AGAIN), Open(1, AGAIN), Drop(0), Update(0)]
  {
    hide Run;
    var again, landed := AGAIN, ASKED.(landed := true);
    var read := Read(again, true);
    run, acts := Then(p, was, did, Open(0, again), Solo(landed, Some("music"), Idle, [read, NoCall]));
    run, acts := Then(p, run, acts, Open(1, again), Solo(landed, Some("music"), Idle, [read, read]));
    run, acts := Then(p, run, acts, Drop(0), Solo(landed, None, Idle, [Dropped(again), read]));
    run, acts := Then(p, run, acts, Update(0), Solo(ASKED, None, Idle, [NoCall, read]));
  }

  // An asset lost to two calls that both complete: both read the same landed row; the first
  // drops, asks again and is served again; the second then drops the new asset before it lands
  // and asks again, and the worker lands a row whose asset is gone.
  lemma UntimelyDropLosesTheAsset(p: Params) returns (run: seq<State>, acts: seq<Action>)
    requires p.Sane()
    ensures Run(p, run, acts)
    ensures run[|acts|] == Solo(ASKED.(landed := true), None, Idle, [NoCall, NoCall])
    ensures acts == STORE + LAND + [Open(0, AGAIN), Open(1, AGAIN), Drop(0), Update(0)] + STORE + [Drop(1), Update(1)] + LAND
  {
    var none, again, held := [NoCall, NoCall], AGAIN, ASKED.(claim := Some(0));
    var open := [NoCall, Read(again, true)];
    run, acts := Served(p);
    run, acts := AskAgain(p, run, acts);
    run, acts := Generate(p, run, acts, None, open);
    run, acts := Then(p, run, acts, Drop(1), Solo(held, None, Stored, [NoCall, Dropped(again)]));
    run, acts := Then(p, run, acts, Update(1), Solo(held, None, Stored, none));
    run, acts := Finish(p, run, acts, None, none);
  }
}
