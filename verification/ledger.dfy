// The usage ledger (internal/billing/ledger.go): buckets accumulated under a lock, swapped out by a
// flush, and merged back when the flush fails. Accumulations and flushes interleave at the
// locked sections.
module Ledgers {
  import opened Common

  // (day, component, provider, model).
  datatype Key = Key(day: string, component: string, provider: string, model: string)

  datatype Usage = Usage(llmInput: int, llmOutput: int, ttsCharacters: int, sttSeconds: real, usd: real)

  const ZERO := Usage(0, 0, 0, 0.0, 0.0)

  function Add(a: Usage, b: Usage): Usage {
    Usage(a.llmInput + b.llmInput, a.llmOutput + b.llmOutput, a.ttsCharacters + b.ttsCharacters, a.sttSeconds + b.sttSeconds, a.usd + b.usd)
  }

  // ---- Buffers as values -------------------------------------------------------------------

  type Buffer = map<Key, Usage>

  function Total(b: Buffer, k: Key): Usage { if k in b then b[k] else ZERO }

  function Recorded(b: Buffer, k: Key, u: Usage): Buffer { b[k := Add(Total(b, k), u)] }

  function Merged(a: Buffer, b: Buffer): Buffer {
    map k | k in a.Keys + b.Keys :: if k in a && k in b then Add(a[k], b[k]) else if k in a then a[k] else b[k]
  }

  // flights: the snapshots handed to a flush, emptied when it settles. persisted: what flushes
  // have stored.
  datatype State = State(live: Buffer, flights: seq<Buffer>, persisted: Buffer)

  datatype Op = Accumulate(k: Key, u: Usage) | Begin | Settle(f: nat, ok: bool)

  function Apply(s: State, op: Op): State {
    match op
    case Accumulate(k, u) => s.(live := Recorded(s.live, k, u))
    case Begin => if s.live == map[] then s else s.(live := map[], flights := s.flights + [s.live])
    case Settle(f, ok) =>
      if f >= |s.flights| then s
      else if ok then s.(flights := s.flights[f := map[]], persisted := Merged(s.persisted, s.flights[f]))
      else s.(flights := s.flights[f := map[]], live := Merged(s.live, s.flights[f]))
  }

  const EMPTY := State(map[], [], map[])

  function Run(ops: seq<Op>): State {
    if ops == [] then EMPTY else Apply(Run(ops[..|ops| - 1]), ops[|ops| - 1])
  }

  function InFlight(flights: seq<Buffer>, k: Key): Usage {
    if flights == [] then ZERO else Add(InFlight(flights[..|flights| - 1], k), Total(flights[|flights| - 1], k))
  }

  // What the accumulations among some operations add up to for a key, quantity by quantity.
  function Spent(ops: seq<Op>, k: Key): Usage {
    if ops == [] then Usage(0, 0, 0, 0.0, 0.0)
    else
      var last, before := ops[|ops| - 1], Spent(ops[..|ops| - 1], k);
      if last.Accumulate? && last.k == k then
        Usage(before.llmInput + last.u.llmInput, before.llmOutput + last.u.llmOutput, before.ttsCharacters + last.u.ttsCharacters,
              before.sttSeconds + last.u.sttSeconds, before.usd + last.u.usd)
      else before
  }

  ghost predicate IsSum(total: Usage, a: Usage, b: Usage, c: Usage) {
    && total.llmInput == a.llmInput + b.llmInput + c.llmInput
    && total.llmOutput == a.llmOutput + b.llmOutput + c.llmOutput
    && total.ttsCharacters == a.ttsCharacters + b.ttsCharacters + c.ttsCharacters
    && total.sttSeconds == a.sttSeconds + b.sttSeconds + c.sttSeconds
    && total.usd == a.usd + b.usd + c.usd
  }

  lemma MergedTotal(a: Buffer, b: Buffer, k: Key)
    ensures Total(Merged(a, b), k) == Add(Total(a, k), Total(b, k))
  {
  }

  lemma {:induction false} SettledFlight(flights: seq<Buffer>, f: nat, k: Key)
    requires f < |flights|
    ensures Add(InFlight(flights[f := map[]], k), Total(flights[f], k)) == InFlight(flights, k)
  {
    var front, settled := flights[..|flights| - 1], flights[f := map[]];
    if f < |flights| - 1 {
      SettledFlight(front, f, k);
      assert settled[..|flights| - 1] == front[f := map[]];
    } else {
      assert settled[..|flights| - 1] == front;
    }
  }

  lemma Regroup(p: Usage, l: Usage, f: Usage, x: Usage)
    ensures Add(Add(p, x), Add(l, f)) == Add(p, Add(l, Add(f, x)))
    ensures Add(p, Add(Add(l, x), f)) == Add(p, Add(l, Add(f, x)))
    ensures Add(Add(p, Add(l, f)), x) == Add(p, Add(Add(l, x), f))
    ensures Add(p, Add(ZERO, Add(f, l))) == Add(p, Add(l, f))
  {
  }

  function Everywhere(s: State, k: Key): Usage {
    Add(Total(s.persisted, k), Add(Total(s.live, k), InFlight(s.flights, k)))
  }

  lemma EverywhereStep(s: State, op: Op, k: Key)
    ensures Everywhere(Apply(s, op), k) == if op.Accumulate? && op.k == k then Add(Everywhere(s, k), op.u) else Everywhere(s, k)
  {
    hide Merged, Add;
    var p, l, f := Total(s.persisted, k), Total(s.live, k), InFlight(s.flights, k);
    match op
    case Accumulate(_, u) => Regroup(p, l, f, u);
    case Begin =>
      assert (s.flights + [s.live])[..|s.flights|] == s.flights;
      Regroup(p, l, f, ZERO);
    case Settle(i, ok) =>
      if i < |s.flights| {
        SettledFlight(s.flights, i, k);
        MergedTotal(s.persisted, s.flights[i], k);
        MergedTotal(s.live, s.flights[i], k);
        Regroup(p, l, InFlight(s.flights[i := map[]], k), Total(s.flights[i], k));
      }
  }

  // Whatever the interleaving and whichever flushes fail, for every key and quantity what was
  // accumulated is persisted, buffered, or in flight.
  lemma {:induction false} UsageIsConserved(ops: seq<Op>, k: Key)
    ensures var s := Run(ops); IsSum(Spent(ops, k), Total(s.persisted, k), Total(s.live, k), InFlight(s.flights, k))
  {
    if ops != [] {
      UsageIsConserved(ops[..|ops| - 1], k);
      EverywhereStep(Run(ops[..|ops| - 1]), ops[|ops| - 1], k);
    }
  }

  lemma AddSums(a: Usage, b: Usage)
    ensures IsSum(Add(a, b), a, b, Usage(0, 0, 0, 0.0, 0.0))
  {
  }

  // A flush moves the whole buffer into flight.
  lemma FlushTakesAll(s: State)
    ensures Apply(s, Begin).live == map[] && Apply(s, Begin).persisted == s.persisted
    ensures Apply(s, Begin).flights == if s.live == map[] then s.flights else s.flights + [s.live]
  {
  }

  // A settled flush moves its snapshot on, into the store or back into the buffer.
  lemma SettledMovesOn(s: State, f: nat, ok: bool, k: Key)
    requires f < |s.flights|
    ensures var t := Apply(s, Settle(f, ok));
            t.flights == s.flights[f := map[]] && if ok then t.live == s.live else t.persisted == s.persisted
    ensures var t := Apply(s, Settle(f, ok));
            IsSum(Total(if ok then t.persisted else t.live, k), Total(if ok then s.persisted else s.live, k),
                  Total(s.flights[f], k), Usage(0, 0, 0, 0.0, 0.0))
  {
    hide Merged, Add, IsSum, Total;
    MergedTotal(if ok then s.persisted else s.live, s.flights[f], k);
    AddSums(Total(if ok then s.persisted else s.live, k), Total(s.flights[f], k));
  }

  lemma MergeStep(a: Buffer, b: Buffer, k: Key, u: Usage)
    requires k !in b
    ensures Merged(a, b[k := u]) == Merged(a, b)[k := if k in Merged(a, b) then Add(Merged(a, b)[k], u) else u]
  {
  }

  lemma MergeNothing(a: Buffer)
    ensures Merged(a, map[]) == a
  {
  }

  // ---- The rows behind the buffers ------------------------------------------------------------

  class Row {
    const key: Key
    var use: Usage
    constructor (key: Key)
      ensures this.key == key && use == ZERO
    {
      this.key, use := key, ZERO;
    }
  }

  // The rows of m hold exactly the amounts of b.
  ghost predicate Holds(m: map<Key, Row>, b: Buffer)
    reads m.Values
  {
    m.Keys == b.Keys && forall k :: k in m ==> m[k].use == b[k]
  }

  class Ledger {
    var rows: map<Key, Row>
    // The snapshots in the hands of a flush, emptied when it settles, and where each row is: 0
    // in the live buffer, f + 1 in snapshot f.
    ghost var flights: seq<map<Key, Row>>
    ghost var owner: map<Row, nat>

    ghost predicate Held(m: map<Key, Row>, at: nat) reads this {
      forall k :: k in m ==> m[k] in owner && m[k].key == k && owner[m[k]] == at
    }

    // No row is in two buffers: a flush reads its snapshot outside the lock.
    ghost predicate Valid() reads this {
      Held(rows, 0) && forall f :: 0 <= f < |flights| ==> Held(flights[f], f + 1)
    }

    ghost predicate Is(s: State)
      requires Valid()
      reads this, owner.Keys
    {
      Holds(rows, s.live) && |flights| == |s.flights| && forall f :: 0 <= f < |flights| ==> Holds(flights[f], s.flights[f])
    }

    constructor ()
      ensures Valid() && Is(EMPTY)
    {
      rows, flights, owner := map[], [], map[];
    }

    // accumulate: fold an amount into its bucket, created on first use.
    method Accumulate(k: Key, u: Usage, ghost s: State)
      requires Valid() && Is(s)
      modifies this, owner.Keys
      ensures Valid() && Is(Apply(s, Op.Accumulate(k, u))) && fresh(owner.Keys - old(owner.Keys))
      ensures rows.Keys == old(rows.Keys) + {k}
      ensures IsSum(rows[k].use, if k in old(rows) then old(rows[k].use) else Usage(0, 0, 0, 0.0, 0.0), u, Usage(0, 0, 0, 0.0, 0.0))
      ensures forall j :: j in old(rows) && j != k ==> rows[j] == old(rows)[j] && rows[j].use == old(rows[j].use)
    {
      hide Add, Merged, IsSum, Valid, Is, Holds;
      var r := Bucket(k, s);
      AddSums(r.use, u);
      ghost var t := s.(live := s.live[k := Total(s.live, k)]);
      assert t.(live := t.live[k := Add(t.live[k], u)]) == Apply(s, Op.Accumulate(k, u));
      Fold(r, k, u, t);
    }

    method Fold(r: Row, k: Key, u: Usage, ghost s: State)
      requires Valid() && Is(s) && k in rows && r == rows[k]
      modifies r
      ensures Valid() && Is(s.(live := s.live[k := Add(s.live[k], u)])) && r.use == Add(old(r.use), u)
      ensures forall j :: j in rows && j != k ==> rows[j].use == old(rows[j].use)
    {
      hide Add;
      assert forall f, j :: 0 <= f < |flights| && j in flights[f] ==> flights[f][j] != r;
      r.use := Add(r.use, u);
    }

    method Bucket(k: Key, ghost s: State) returns (r: Row)
      requires Valid() && Is(s)
      modifies this
      ensures Valid() && fresh(owner.Keys - old(owner.Keys)) && old(owner.Keys) <= owner.Keys
      ensures if k in old(rows) then r == old(rows)[k] else r.use == ZERO
      ensures k in rows && r in owner && r == rows[k] && rows == old(rows)[k := r] && Is(s.(live := s.live[k := Total(s.live, k)]))
    {
      if k in rows {
        r := rows[k];
      } else {
        r := new Row(k);
        rows, owner := rows[k := r], owner[r := 0];
      }
    }

    // Flush, first section: take the buffer and leave an empty one.
    method Swap(ghost s: State) returns (snapshot: map<Key, Row>)
      requires Valid() && Is(s)
      modifies this
      ensures Valid() && Is(Apply(s, Begin)) && owner.Keys == old(owner.Keys)
      ensures snapshot == old(rows) && (snapshot != map[] ==> flights == old(flights) + [snapshot])
    {
      snapshot := rows;
      if |rows| == 0 {
        assert s.live == map[];
        return;
      }
      rows := map[];
      flights := flights + [snapshot];
      owner := map r | r in owner :: if owner[r] == 0 then |flights| else owner[r];
    }

    // Flush, between the sections: the rows as they are handed to the store.
    method CopyRows(snapshot: map<Key, Row>) returns (copies: Buffer)
      ensures Holds(snapshot, copies)
    {
      copies := map[];
      var left := snapshot.Keys;
      while left != {}
        invariant left <= snapshot.Keys
        invariant copies.Keys == snapshot.Keys - left && forall k :: k in copies ==> snapshot[k].use == copies[k]
        decreases left
      {
        var k :| k in left;
        left := left - {k};
        copies := copies[k := snapshot[k].use];
      }
    }

    // Flush, when the store took the rows.
    ghost method Stored(f: nat, s: State)
      requires Valid() && Is(s) && f < |flights|
      modifies `flights
      ensures Valid() && Is(Apply(s, Settle(f, true)))
    {
      flights := flights[f := map[]];
    }

    // What an accumulation writes, no flush is reading.
    lemma BuffersShareNoRow(f: nat, g: nat)
      requires Valid() && f < g < |flights|
      ensures rows.Values !! flights[f].Values && flights[f].Values !! flights[g].Values
      ensures forall k, l :: k in rows && l in rows && rows[k] == rows[l] ==> k == l
    {
      assert Held(rows, 0) && Held(flights[f], f + 1) && Held(flights[g], g + 1);
    }

    // The snapshots but f hold what they held.
    ghost predicate OthersHold(f: nat, s: State)
      requires Valid()
      reads this, owner.Keys
    {
      |flights| == |s.flights| && forall g :: 0 <= g < |flights| && g != f ==> Holds(flights[g], s.flights[g])
    }

    // The rows of snapshot f still to be merged.
    ghost predicate Pending(snapshot: map<Key, Row>, left: set<Key>, f: nat, flight: Buffer)
      reads this, snapshot.Values
    {
      forall k :: k in left ==> PendingRow(snapshot, k, f, flight)
    }

    ghost predicate PendingRow(snapshot: map<Key, Row>, k: Key, f: nat, flight: Buffer)
      reads this, snapshot.Values
    {
      k in snapshot && k in flight && snapshot[k] in owner && snapshot[k].key == k && owner[snapshot[k]] == f + 1 && snapshot[k].use == flight[k]
    }

    // Flush, last section on failure: merge the snapshot under the current buffer.
    method MergeBack(f: nat, snapshot: map<Key, Row>, ghost s: State)
      requires Valid() && Is(s) && f < |flights| && snapshot == flights[f]
      modifies this, owner.Keys
      ensures Valid() && Is(Apply(s, Settle(f, false))) && owner.Keys == old(owner.Keys)
    {
      hide Add, Merged;
      flights := flights[f := map[]];
      MergeAll(f, snapshot, s);
    }

    method MergeAll(ghost f: nat, snapshot: map<Key, Row>, ghost s: State)
      requires Valid() && f < |flights| == |s.flights| && flights[f] == map[] && Holds(rows, s.live) && OthersHold(f, s)
      requires snapshot.Keys == s.flights[f].Keys && Pending(snapshot, snapshot.Keys, f, s.flights[f])
      modifies this, owner.Keys
      ensures Valid() && owner.Keys == old(owner.Keys) && flights == old(flights)
      ensures OthersHold(f, s) && Holds(rows, Merged(s.live, s.flights[f]))
    {
      hide Add, Merged, Holds, Pending, OthersHold, Held;
      var left := snapshot.Keys;
      ghost var flight, done: Buffer := s.flights[f], map[];
      MergeNothing(s.live);
      while left != {}
        invariant left <= snapshot.Keys && Valid() && owner.Keys == old(owner.Keys) && flights == old(flights)
        invariant Pending(snapshot, left, f, flight) && OthersHold(f, s)
        invariant done.Keys == snapshot.Keys - left && forall k :: k in done ==> done[k] == flight[k]
        invariant Holds(rows, Merged(s.live, done))
        decreases left
      {
        var k :| k in left;
        MergeStep(s.live, done, k, flight[k]);
        MergeRow(f, k, snapshot, left, flight, s, Merged(s.live, done));
        left := left - {k};
        done := done[k := flight[k]];
      }
      assert done == flight;
    }

    method MergeRow(ghost f: nat, k: Key, snapshot: map<Key, Row>, ghost left: set<Key>, ghost flight: Buffer, ghost s: State, ghost live: Buffer)
      requires Valid() && Holds(rows, live) && OthersHold(f, s) && f < |flights| && flights[f] == map[]
      requires Pending(snapshot, left, f, flight) && k in left
      modifies this, owner.Keys
      ensures Valid() && owner.Keys == old(owner.Keys) && flights == old(flights)
      ensures OthersHold(f, s) && Pending(snapshot, left - {k}, f, flight)
      ensures Holds(rows, live[k := if k in live then Add(live[k], flight[k]) else flight[k]])
    {
      hide Add;
      assert PendingRow(snapshot, k, f, flight);
      if k in rows {
        var cur := rows[k];
        assert forall j :: j in left ==> PendingRow(snapshot, j, f, flight) && snapshot[j] != cur;
        assert forall g, j :: 0 <= g < |flights| && j in flights[g] ==> flights[g][j] != cur;
        cur.use := Add(cur.use, snapshot[k].use);
      } else {
        MoveRow(f, k, snapshot, left, flight, s, live);
      }
    }

    // A bucket the buffer does not have becomes the snapshot's row itself.
    method MoveRow(ghost f: nat, k: Key, snapshot: map<Key, Row>, ghost left: set<Key>, ghost flight: Buffer, ghost s: State, ghost live: Buffer)
      requires Valid() && Holds(rows, live) && OthersHold(f, s) && f < |flights| && flights[f] == map[]
      requires Pending(snapshot, left, f, flight) && k in left && k !in rows
      modifies `rows, `owner
      ensures Valid() && owner.Keys == old(owner.Keys) && flights == old(flights)
      ensures OthersHold(f, s) && Pending(snapshot, left - {k}, f, flight)
      ensures Holds(rows, live[k := flight[k]])
    {
      assert PendingRow(snapshot, k, f, flight);
      var r := snapshot[k];
      assert forall g, j :: 0 <= g < |flights| && j in flights[g] ==> flights[g][j] != r;
      rows, owner := rows[k := r], owner[r := 0];
      forall j | j in left - {k} ensures PendingRow(snapshot, j, f, flight) {
        assert old(PendingRow(snapshot, j, f, flight));
      }
    }
  }
}
