// The scaffold under the bus projections (internal/busproject/projection.go): one interleaved event
// stream folded into per-session, per-turn state, with bounded tombstones for closed sessions.
module Projections {
  import opened Common

  datatype Event = Event(session: string, turn: string, payload: string)
  datatype VoiceSession = VoiceSession(id: string, campaign: nat)

  // What a lookup answers for a session without an entry.
  const NO_SESSION := VoiceSession("", 0)

  const MAX_TOMBSTONES: nat := 1024

  // The calls made into the host, with what the host can look up about the session when a
  // session starts and when it is finished.
  datatype Hook = Start(session: string, vs: VoiceSession) | Fold(event: Event) | Finish(session: string, vs: VoiceSession)

  datatype Entry<T> = Entry(vs: VoiceSession, turns: map<string, T>)

  // The host's side: a new turn's state, the fold rule for one event, and how ids parse.
  datatype Host<!T> = Host(blank: T, fold: (T, Event) -> T, parses: string -> bool)

  // closed is in the order of closing.
  datatype State<T> = State(entries: map<string, Entry<T>>, closed: seq<string>, hooks: seq<Hook>)

  // What reaches the projection: an event, with what the registry would answer for its session
  // at that moment, or the end of a session.
  datatype Op = Deliver(event: Event, registry: Option<VoiceSession>) | Close(id: string)

  function Subject(op: Op): string {
    if op.Deliver? then op.event.session else op.id
  }

  function SubjectOfHook(h: Hook): string {
    if h.Fold? then h.event.session else h.session
  }

  // ---- The specification ---------------------------------------------------------------------

  function TurnOf<T>(host: Host<T>, e: Entry<T>, turn: string): T {
    if turn in e.turns then e.turns[turn] else host.blank
  }

  function Folded<T>(host: Host<T>, e: Entry<T>, ev: Event): Entry<T> {
    e.(turns := e.turns[ev.turn := host.fold(TurnOf(host, e, ev.turn), ev)])
  }

  function DeliverTo<T>(host: Host<T>, s: State<T>, ev: Event, registry: Option<VoiceSession>): State<T> {
    var id := ev.session;
    if id == "" || id in s.closed then s
    else if id in s.entries then s.(entries := s.entries[id := Folded(host, s.entries[id], ev)], hooks := s.hooks + [Fold(ev)])
    else if !host.parses(id) || registry.None? then s
    else s.(entries := s.entries[id := Folded(host, Entry(registry.value, map[]), ev)], hooks := s.hooks + [Start(id, registry.value), Fold(ev)])
  }

  // The tombstones after one more: the oldest goes when there are too many.
  function Bury(closed: seq<string>, id: string): seq<string> {
    if id in closed then closed
    else if |closed| + 1 > MAX_TOMBSTONES then (closed + [id])[1..]
    else closed + [id]
  }

  function CloseSession<T>(s: State<T>, id: string): State<T> {
    var t := s.(closed := Bury(s.closed, id));
    if id in s.entries then t.(entries := s.entries - {id}, hooks := s.hooks + [Finish(id, s.entries[id].vs)]) else t
  }

  function Apply<T>(host: Host<T>, s: State<T>, op: Op): State<T> {
    match op
    case Deliver(ev, registry) => DeliverTo(host, s, ev, registry)
    case Close(id) => CloseSession(s, id)
  }

  function Empty<T>(): State<T> { State(map[], [], []) }

  function Run<T>(host: Host<T>, s: State<T>, ops: seq<Op>): State<T> {
    if ops == [] then s else Apply(host, Run(host, s, ops[..|ops| - 1]), ops[|ops| - 1])
  }

  // ---- The scaffold ----------------------------------------------------------------------------

  class Projection<T> {
    const host: Host<T>
    var entries: map<string, Entry<T>>
    var closed: set<string>
    var closedOrder: seq<string>
    var hooks: seq<Hook>

    constructor (host: Host<T>)
      ensures Valid() && Now() == Empty() && this.host == host
    {
      this.host, entries, closed, closedOrder, hooks := host, map[], {}, [], [];
    }

    ghost function Now(): State<T> reads this { State(entries, closedOrder, hooks) }

    // The tombstone set is the duplicate-free queue that bounds it.
    ghost predicate Valid() reads this {
      && closed == (set id | id in closedOrder) && Unique(closedOrder) && |closedOrder| <= MAX_TOMBSTONES
    }

    // The session a host attributes its rows to, for as long as the entry is there.
    function Session(id: string): VoiceSession reads this {
      if id in entries then entries[id].vs else NO_SESSION
    }

    method Project(ev: Event, registry: Option<VoiceSession>)
      requires Valid()
      modifies this
      ensures Valid() && Now() == Apply(host, old(Now()), Deliver(ev, registry))
    {
      var id := ev.session;
      if id == "" { return; }
      if id in closed { return; }
      if id !in entries {
        if !host.parses(id) { return; }
        if registry.None? { return; }
        entries := entries[id := Entry(registry.value, map[])];
        hooks := hooks + [Start(id, Session(id))];
      }
      hooks := hooks + [Fold(ev)];
      ghost var known := entries;
      var turn := Turn(id, ev.turn);
      if turn.Some? {
        entries := entries[id := entries[id].(turns := entries[id].turns[ev.turn := host.fold(turn.value, ev)])];
        assert entries[id].turns == Folded(host, known[id], ev).turns;
        assert entries == old(entries)[id := Folded(host, known[id], ev)];
      }
    }

    method Close(id: string)
      requires Valid()
      modifies this
      ensures Valid() && Now() == Apply(host, old(Now()), Op.Close(id))
    {
      ghost var was := closedOrder;
      if id !in closed {
        closed := closed + {id};
        closedOrder := closedOrder + [id];
        if |closedOrder| > MAX_TOMBSTONES {
          BuriedUnique(was, id);
          closed := closed - {closedOrder[0]};
          closedOrder := closedOrder[1..];
        }
      }
      if id !in entries { return; }
      hooks := hooks + [Finish(id, Session(id))];
      entries := entries - {id};
    }

    // A turn of a known session, created on first sight.
    method Turn(id: string, turn: string) returns (t: Option<T>)
      requires Valid()
      modifies `entries
      ensures Valid() && (t.Some? <==> id in old(entries))
      ensures t.Some? ==> t.value == if turn in old(entries)[id].turns then old(entries)[id].turns[turn] else host.blank
      ensures t.Some? && turn in old(entries)[id].turns ==> entries == old(entries)
      ensures entries == if t.Some? then old(entries)[id := old(entries)[id].(turns := old(entries)[id].turns[turn := t.value])] else old(entries)
    {
      if id !in entries { return None; }
      var e := entries[id];
      if turn !in e.turns {
        e := e.(turns := e.turns[turn := host.blank]);
        entries := entries[id := e];
      }
      assert e.turns == e.turns[turn := e.turns[turn]] && entries == entries[id := e];
      assert turn in old(entries)[id].turns ==> entries == old(entries);
      t := Some(e.turns[turn]);
    }
  }

  ghost predicate Unique(ids: seq<string>) {
    forall i, j :: 0 <= i < j < |ids| ==> ids[i] != ids[j]
  }

  lemma BuriedUnique(ids: seq<string>, id: string)
    requires Unique(ids) && id !in ids && ids != []
    ensures Unique(ids + [id]) && Unique((ids + [id])[1..])
    ensures forall x :: x in (ids + [id])[1..] <==> (x in ids || x == id) && x != (ids + [id])[0]
  {
    var all := ids + [id];
    assert all == [all[0]] + all[1..];
    assert forall x :: x in all <==> x in ids || x == id;
    assert forall k :: 0 <= k < |all[1..]| ==> all[1..][k] == all[k + 1] && all[k + 1] != all[0];
  }

  // ---- The tombstones ----------------------------------------------------------------------------

  // The sessions newly tombstoned by a run, in order.
  function Tombstoned<T>(host: Host<T>, s: State<T>, ops: seq<Op>): seq<string> {
    if ops == [] then []
    else
      var before, op := ops[..|ops| - 1], ops[|ops| - 1];
      Tombstoned(host, s, before) + (if op.Close? && op.id !in Run(host, s, before).closed then [op.id] else [])
  }

  function Latest(ids: seq<string>, n: nat): seq<string> {
    if |ids| <= n then ids else ids[|ids| - n..]
  }

  // The tombstones are always the latest 1024 of all ever set.
  lemma {:induction false} TombstonesAreLatest<T>(host: Host<T>, s: State<T>, ops: seq<Op>)
    requires |s.closed| <= MAX_TOMBSTONES
    ensures Run(host, s, ops).closed == Latest(s.closed + Tombstoned(host, s, ops), MAX_TOMBSTONES)
  {
    if ops == [] {
      assert s.closed + Tombstoned(host, s, ops) == s.closed;
    } else {
      var before, op := ops[..|ops| - 1], ops[|ops| - 1];
      TombstonesAreLatest(host, s, before);
      var all := s.closed + Tombstoned(host, s, before);
      var r := Run(host, s, before);
      if op.Close? && op.id !in r.closed {
        assert s.closed + Tombstoned(host, s, ops) == all + [op.id];
        assert Bury(r.closed, op.id) == Latest(all + [op.id], MAX_TOMBSTONES);
      } else {
        assert Tombstoned(host, s, ops) == Tombstoned(host, s, before);
      }
    }
  }

  // A session just closed stays tombstoned exactly until 1024 more have been.
  lemma TombstoneLife<T>(host: Host<T>, s: State<T>, id: string, ops: seq<Op>)
    requires 0 < |s.closed| <= MAX_TOMBSTONES && s.closed[|s.closed| - 1] == id
    requires id !in Tombstoned(host, s, ops) && Unique(s.closed)
    ensures id in Run(host, s, ops).closed <==> |Tombstoned(host, s, ops)| < 1024
  {
    hide Run, Latest, Tombstoned, Unique;
    TombstonesAreLatest(host, s, ops);
    OccursOnce(s.closed, Tombstoned(host, s, ops));
    InLatest(s.closed + Tombstoned(host, s, ops), |s.closed| - 1, MAX_TOMBSTONES);
  }

  lemma OccursOnce(a: seq<string>, b: seq<string>)
    requires a != [] && Unique(a) && a[|a| - 1] !in b
    ensures (a + b)[|a| - 1] == a[|a| - 1] && forall i :: 0 <= i < |a + b| && i != |a| - 1 ==> (a + b)[i] != a[|a| - 1]
  {
    forall i | 0 <= i < |a + b| && i != |a| - 1 ensures (a + b)[i] != a[|a| - 1] {
      if i >= |a| { assert (a + b)[i] == b[i - |a|]; }
    }
  }

  // An id that occurs once is among the latest n exactly when fewer than n come after it.
  lemma InLatest(ids: seq<string>, at: nat, n: nat)
    requires at < |ids| && forall i :: 0 <= i < |ids| && i != at ==> ids[i] != ids[at]
    ensures ids[at] in Latest(ids, n) <==> |ids| - 1 - at < n
  {
    var kept := Latest(ids, n);
    var cut := |ids| - |kept|;
    assert forall j :: 0 <= j < |kept| ==> kept[j] == ids[cut + j];
    if at >= cut { assert kept[at - cut] == ids[at]; }
  }

  // No event reaches the host for a session while it is tombstoned.
  lemma TombstonedIsSilent<T>(host: Host<T>, s: State<T>, ev: Event, registry: Option<VoiceSession>)
    requires ev.session in s.closed
    ensures Apply(host, s, Deliver(ev, registry)) == s
  {
  }

  // ---- Isolation -----------------------------------------------------------------------------------

  function Mine(ops: seq<Op>, id: string): seq<Op> {
    if ops == [] then []
    else Mine(ops[..|ops| - 1], id) + (if Subject(ops[|ops| - 1]) == id then [ops[|ops| - 1]] else [])
  }

  function MyHooks(hooks: seq<Hook>, id: string): seq<Hook> {
    if hooks == [] then []
    else MyHooks(hooks[..|hooks| - 1], id) + (if SubjectOfHook(hooks[|hooks| - 1]) == id then [hooks[|hooks| - 1]] else [])
  }

  lemma {:induction false} MyHooksConcat(a: seq<Hook>, b: seq<Hook>, id: string)
    ensures MyHooks(a + b, id) == MyHooks(a, id) + MyHooks(b, id)
  {
    if b == [] {
      assert a + b == a;
    } else {
      MyHooksConcat(a, b[..|b| - 1], id);
      assert (a + b)[..|a + b| - 1] == a + b[..|b| - 1];
    }
  }

  // What a session sees of a state: its entry, its hook calls, and whether it is closed.
  ghost predicate Same<T>(s: State<T>, alone: State<T>, id: string) {
    && (id in s.entries <==> id in alone.entries) && (id in s.entries ==> s.entries[id] == alone.entries[id])
    && MyHooks(s.hooks, id) == MyHooks(alone.hooks, id)
    && (id in s.closed <==> id in alone.closed)
  }

  // Once closed, id is still tombstoned at every later point.
  ghost predicate StaysClosed<T>(host: Host<T>, ops: seq<Op>, id: string) {
    forall n :: 0 <= n < |ops| && Op.Close(id) in ops[..n] ==> id in Run(host, Empty<T>(), ops[..n + 1]).closed
  }

  predicate FirstClose(ops: seq<Op>, id: string, f: nat) {
    f < |ops| && ops[f] == Op.Close(id) && Op.Close(id) !in ops[..f]
  }

  // Fewer than 1024 sessions are tombstoned after id first is.
  ghost predicate Outlives<T>(host: Host<T>, ops: seq<Op>, id: string) {
    forall f: nat :: FirstClose(ops, id, f) ==> |Tombstoned(host, Run(host, Empty<T>(), ops[..f + 1]), ops[f + 1..])| < MAX_TOMBSTONES
  }

  // The calls one operation makes into the host, all about its own session.
  function NewHooks<T>(host: Host<T>, s: State<T>, op: Op): (hooks: seq<Hook>)
    ensures forall k :: 0 <= k < |hooks| ==> SubjectOfHook(hooks[k]) == Subject(op)
  {
    match op
    case Close(id) => if id in s.entries then [Finish(id, s.entries[id].vs)] else []
    case Deliver(ev, registry) =>
      if ev.session == "" || ev.session in s.closed then []
      else if ev.session in s.entries then [Fold(ev)]
      else if !host.parses(ev.session) || registry.None? then []
      else [Start(ev.session, registry.value), Fold(ev)]
  }

  lemma HooksAppended<T>(host: Host<T>, s: State<T>, op: Op)
    ensures Apply(host, s, op).hooks == s.hooks + NewHooks(host, s, op)
  {
    hide Folded, Bury;
  }

  lemma OtherHooks<T>(host: Host<T>, s: State<T>, op: Op, id: string)
    requires Subject(op) != id
    ensures MyHooks(Apply(host, s, op).hooks, id) == MyHooks(s.hooks, id)
  {
    hide Apply, MyHooks, NewHooks;
    HooksAppended(host, s, op);
    MyHooksConcat(s.hooks, NewHooks(host, s, op), id);
    NoHooks(NewHooks(host, s, op), id);
  }

  lemma {:induction false} NoHooks(hooks: seq<Hook>, id: string)
    requires forall k :: 0 <= k < |hooks| ==> SubjectOfHook(hooks[k]) != id
    ensures MyHooks(hooks, id) == []
  {
    if hooks != [] { NoHooks(hooks[..|hooks| - 1], id); }
  }

  lemma OtherSession<T>(host: Host<T>, s: State<T>, alone: State<T>, op: Op, id: string)
    requires Same(s, alone, id) && Subject(op) != id && (id in s.closed ==> id in Apply(host, s, op).closed)
    ensures Same(Apply(host, s, op), alone, id)
  {
    hide MyHooks, Folded;
    OtherHooks(host, s, op, id);
  }

  lemma OwnHooks<T>(host: Host<T>, s: State<T>, alone: State<T>, op: Op, id: string)
    requires Same(s, alone, id) && Subject(op) == id
    ensures MyHooks(Apply(host, s, op).hooks, id) == MyHooks(Apply(host, alone, op).hooks, id)
  {
    hide Apply, MyHooks;
    HooksAppended(host, s, op);
    HooksAppended(host, alone, op);
    var more := NewHooks(host, s, op);
    assert more == NewHooks(host, alone, op);
    MyHooksConcat(s.hooks, more, id);
    MyHooksConcat(alone.hooks, more, id);
  }

  lemma OwnSession<T>(host: Host<T>, s: State<T>, alone: State<T>, op: Op, id: string)
    requires Same(s, alone, id) && Subject(op) == id && (alone.closed == [] || alone.closed == [id])
    ensures Same(Apply(host, s, op), Apply(host, alone, op), id)
  {
    hide Folded, MyHooks;
    OwnHooks(host, s, alone, op, id);
    if op.Close? { BuriedIsClosed(s.closed, id); }
  }

  lemma BuriedIsClosed(closed: seq<string>, id: string)
    ensures id in Bury(closed, id)
  {
    if id !in closed { assert (closed + [id])[|closed|] == id; }
  }

  function Alone<T>(host: Host<T>, ops: seq<Op>, id: string): State<T> {
    Run(host, Empty<T>(), Mine(ops, id))
  }

  lemma AloneStep<T>(host: Host<T>, ops: seq<Op>, id: string)
    requires ops != []
    ensures var before, op := ops[..|ops| - 1], ops[|ops| - 1];
            Alone(host, ops, id) == if Subject(op) == id then Apply(host, Alone(host, before, id), op) else Alone(host, before, id)
  {
    hide Apply;
    var before := ops[..|ops| - 1];
    if Subject(ops[|ops| - 1]) == id {
      assert Mine(ops, id)[..|Mine(ops, id)| - 1] == Mine(before, id);
    } else {
      assert Mine(ops, id) == Mine(before, id);
    }
  }

  lemma {:induction false} AloneClosed<T>(host: Host<T>, ops: seq<Op>, id: string)
    ensures Alone(host, ops, id).closed == [] || Alone(host, ops, id).closed == [id]
  {
    if ops != [] {
      AloneClosed<T>(host, ops[..|ops| - 1], id);
      AloneStep<T>(host, ops, id);
      hide Alone;
    }
  }

  lemma {:induction false} ClosedOnlyByClose<T>(host: Host<T>, ops: seq<Op>, id: string)
    requires id in Run(host, Empty<T>(), ops).closed
    ensures Op.Close(id) in ops
  {
    var before, op := ops[..|ops| - 1], ops[|ops| - 1];
    if op != Op.Close(id) { ClosedOnlyByClose<T>(host, before, id); }
  }

  lemma {:induction false} IsolatedWhileClosed<T>(host: Host<T>, ops: seq<Op>, id: string)
    requires StaysClosed(host, ops, id)
    ensures Same(Run(host, Empty<T>(), ops), Alone(host, ops, id), id)
  {
    hide Apply, Alone, MyHooks;
    if ops == [] {
      NothingAlone<T>(host, id);
    } else {
      var before, op := ops[..|ops| - 1], ops[|ops| - 1];
      PrefixStaysClosed(host, ops, id, |ops| - 1);
      IsolatedWhileClosed<T>(host, before, id);
      AloneStep<T>(host, ops, id);
      var s, alone := Run(host, Empty<T>(), before), Alone(host, before, id);
      if Subject(op) == id {
        AloneClosed<T>(host, before, id);
        OwnSession(host, s, alone, op, id);
      } else {
        if id in s.closed {
          ClosedOnlyByClose<T>(host, before, id);
          assert ops[..|ops| - 1] == before && ops[..|ops|] == ops;
        }
        OtherSession(host, s, alone, op, id);
      }
    }
  }

  lemma PrefixStaysClosed<T>(host: Host<T>, ops: seq<Op>, id: string, m: nat)
    requires StaysClosed(host, ops, id) && m <= |ops|
    ensures StaysClosed(host, ops[..m], id)
  {
    hide Run;
    var before := ops[..m];
    forall n | 0 <= n < |before| && Op.Close(id) in before[..n] ensures id in Run(host, Empty<T>(), before[..n + 1]).closed {
      assert before[..n] == ops[..n] && before[..n + 1] == ops[..n + 1];
    }
  }

  // Run alone, a session once closed stays closed.
  lemma {:induction false} AloneStaysClosed<T>(host: Host<T>, ops: seq<Op>, id: string)
    requires Op.Close(id) in ops
    ensures id in Alone(host, ops, id).closed
  {
    hide Alone;
    var before, op := ops[..|ops| - 1], ops[|ops| - 1];
    assert ops == before + [op];
    AloneStep<T>(host, ops, id);
    AloneClosed<T>(host, ops, id);
    if op == Op.Close(id) {
      BuriedIsClosed(Alone(host, before, id).closed, id);
    } else {
      AloneStaysClosed<T>(host, before, id);
    }
  }

  lemma {:induction false} TombstonesSound<T>(host: Host<T>, ops: seq<Op>)
    ensures Unique(Run(host, Empty<T>(), ops).closed) && |Run(host, Empty<T>(), ops).closed| <= MAX_TOMBSTONES
  {
    if ops != [] {
      TombstonesSound<T>(host, ops[..|ops| - 1]);
      var was, op := Run(host, Empty<T>(), ops[..|ops| - 1]).closed, ops[|ops| - 1];
      if op.Close? && op.id !in was && was != [] { BuriedUnique(was, op.id); }
    }
  }

  lemma {:induction false} RunInTwo<T>(host: Host<T>, s: State<T>, a: seq<Op>, b: seq<Op>)
    ensures Run(host, s, a + b) == Run(host, Run(host, s, a), b)
  {
    hide Apply;
    if b == [] {
      assert a + b == a;
    } else {
      assert (a + b)[..|a + b| - 1] == a + b[..|b| - 1];
      RunInTwo(host, s, a, b[..|b| - 1]);
    }
  }

  // From its burial on, id stays tombstoned throughout exactly if fewer than 1024 others follow.
  lemma {:induction false} ThroughoutExactly<T>(host: Host<T>, s: State<T>, id: string, ops: seq<Op>)
    requires 0 < |s.closed| <= MAX_TOMBSTONES && s.closed[|s.closed| - 1] == id && Unique(s.closed)
    ensures (forall m :: 0 <= m <= |ops| ==> id in Run(host, s, ops[..m]).closed) <==> |Tombstoned(host, s, ops)| < MAX_TOMBSTONES
    ensures |Tombstoned(host, s, ops)| < MAX_TOMBSTONES ==> id !in Tombstoned(host, s, ops)
  {
    hide Apply, Unique;
    if ops == [] {
      assert ops[..0] == [];
    } else {
      var before, op := ops[..|ops| - 1], ops[|ops| - 1];
      ThroughoutExactly(host, s, id, before);
      assert ops[..|ops|] == ops && forall m :: 0 <= m <= |before| ==> before[..m] == ops[..m];
      assert before[..|before|] == before;
      if |Tombstoned(host, s, before)| < MAX_TOMBSTONES {
        assert id in Run(host, s, before[..|before|]).closed && id !in Tombstoned(host, s, ops);
        TombstoneLife(host, s, id, ops);
      } else {
        var m :| 0 <= m <= |before| && id !in Run(host, s, before[..m]).closed;
        assert id !in Run(host, s, ops[..m]).closed;
      }
    }
  }

  lemma StaysClosedExactly<T>(host: Host<T>, ops: seq<Op>, id: string)
    ensures StaysClosed(host, ops, id) <==> Outlives(host, ops, id)
  {
    hide Apply, Tombstoned, Unique, Run;
    if Op.Close(id) in ops {
      var f := Earliest(ops, id);
      var s, rest := Run(host, Empty<T>(), ops[..f + 1]), ops[f + 1..];
      JustClosed<T>(host, ops, id, f);
      TombstonesSound<T>(host, ops[..f + 1]);
      ThroughoutExactly(host, s, id, rest);
      forall m | 0 <= m <= |rest| ensures Run(host, s, rest[..m]) == Run(host, Empty<T>(), ops[..f + 1 + m]) {
        assert ops[..f + 1 + m] == ops[..f + 1] + rest[..m];
        RunInTwo<T>(host, Empty(), ops[..f + 1], rest[..m]);
      }
      if StaysClosed(host, ops, id) {
        forall m | 0 <= m <= |rest| ensures id in Run(host, s, rest[..m]).closed {
          assert m > 0 ==> ops[..f + m][f] == Op.Close(id);
          assert m == 0 ==> rest[..m] == [] && ops[..f + 1 + m] == ops[..f + 1];
        }
      }
      if Outlives(host, ops, id) {
        forall n | 0 <= n < |ops| && Op.Close(id) in ops[..n] ensures id in Run(host, Empty<T>(), ops[..n + 1]).closed {
          assert Run(host, s, rest[..n - f]) == Run(host, Empty<T>(), ops[..f + 1 + (n - f)]);
        }
      }
    }
  }

  lemma {:induction false} Earliest(ops: seq<Op>, id: string) returns (f: nat)
    requires Op.Close(id) in ops
    ensures FirstClose(ops, id, f)
    ensures forall g: nat :: FirstClose(ops, id, g) ==> g == f
  {
    var before := ops[..|ops| - 1];
    if Op.Close(id) in before {
      f := Earliest(before, id);
      assert ops[..f] == before[..f];
    } else {
      f := |ops| - 1;
    }
    assert forall g :: 0 <= g < f ==> ops[..f][g] == ops[g];
    assert forall g :: f < g <= |ops| ==> ops[..g][f] == Op.Close(id);
  }

  lemma JustClosed<T>(host: Host<T>, ops: seq<Op>, id: string, f: nat)
    requires FirstClose(ops, id, f)
    ensures var closed := Run(host, Empty<T>(), ops[..f + 1]).closed; closed != [] && closed[|closed| - 1] == id
  {
    assert ops[..f + 1][..f] == ops[..f];
    if id in Run(host, Empty<T>(), ops[..f]).closed { ClosedOnlyByClose<T>(host, ops[..f], id); }
  }

  // What id sees of the first m operations is what it would see alone.
  ghost predicate IsolatedAt<T>(host: Host<T>, ops: seq<Op>, id: string, m: nat)
    requires m <= |ops|
  {
    Same(Run(host, Empty<T>(), ops[..m]), Alone(host, ops[..m], id), id)
  }

  lemma ClosedIsIsolated<T>(host: Host<T>, ops: seq<Op>, id: string, m: nat)
    requires StaysClosed(host, ops, id) && m <= |ops|
    ensures IsolatedAt(host, ops, id, m)
  {
    hide Run, Alone, Same;
    PrefixStaysClosed(host, ops, id, m);
    IsolatedWhileClosed<T>(host, ops[..m], id);
  }

  lemma IsolatedIsClosed<T>(host: Host<T>, ops: seq<Op>, id: string, n: nat)
    requires n < |ops| && Op.Close(id) in ops[..n] && IsolatedAt(host, ops, id, n + 1)
    ensures id in Run(host, Empty<T>(), ops[..n + 1]).closed
  {
    hide Run, Alone, MyHooks;
    assert ops[..n + 1] == ops[..n] + [ops[n]];
    AloneStaysClosed<T>(host, ops[..n + 1], id);
  }

  // In any interleaving, at every moment of the stream, each session's entry, hook calls and
  // closedness are those of running its own events alone, if and only if fewer than 1024
  // sessions are tombstoned after it.
  lemma SessionsAreIsolated<T>(host: Host<T>, ops: seq<Op>, id: string)
    ensures (forall m :: 0 <= m <= |ops| ==> IsolatedAt(host, ops, id, m)) <==> Outlives(host, ops, id)
  {
    hide Run, Outlives, IsolatedAt;
    StaysClosedExactly<T>(host, ops, id);
    if StaysClosed(host, ops, id) {
      forall m | 0 <= m <= |ops| ensures IsolatedAt(host, ops, id, m) { ClosedIsIsolated<T>(host, ops, id, m); }
    } else {
      var n :| 0 <= n < |ops| && Op.Close(id) in ops[..n] && id !in Run(host, Empty<T>(), ops[..n + 1]).closed;
      if IsolatedAt(host, ops, id, n + 1) { IsolatedIsClosed<T>(host, ops, id, n); }
    }
  }

  // ---- What a session's entry holds ----------------------------------------------------------------

  // The events of a session among some operations, and those of one turn, in order.
  function EventsOf(ops: seq<Op>, id: string): seq<Event> {
    if ops == [] then []
    else
      var last := ops[|ops| - 1];
      EventsOf(ops[..|ops| - 1], id) + (if last.Deliver? && last.event.session == id then [last.event] else [])
  }

  function OfTurn(events: seq<Event>, turn: string): seq<Event> {
    if events == [] then []
    else
      var last := events[|events| - 1];
      OfTurn(events[..|events| - 1], turn) + (if last.turn == turn then [last] else [])
  }

  function FoldAll<T>(host: Host<T>, events: seq<Event>): T {
    if events == [] then host.blank else host.fold(FoldAll(host, events[..|events| - 1]), events[|events| - 1])
  }

  function Folds(events: seq<Event>): seq<Hook> { seq(|events|, k requires 0 <= k < |events| => Fold(events[k])) }

  // Every turn with an event among these, and no other, is the fold of its events from the
  // blank turn.
  ghost predicate TurnsFold<T>(host: Host<T>, turns: map<string, T>, events: seq<Event>) {
    forall t :: (t in turns <==> OfTurn(events, t) != []) && (t in turns ==> turns[t] == FoldAll(host, OfTurn(events, t)))
  }

  lemma FoldedOnce<T>(host: Host<T>, e: Entry<T>, events: seq<Event>, ev: Event)
    requires TurnsFold(host, e.turns, events)
    ensures TurnsFold(host, Folded(host, e, ev).turns, events + [ev]) && Folded(host, e, ev).vs == e.vs
  {
    forall t ensures OfTurn(events + [ev], t) == OfTurn(events, t) + (if ev.turn == t then [ev] else []) {
      assert (events + [ev])[..|events|] == events;
    }
    var turn := OfTurn(events, ev.turn);
    assert (turn + [ev])[..|turn|] == turn;
    assert TurnOf(host, e, ev.turn) == FoldAll(host, turn);
    assert FoldAll(host, turn + [ev]) == host.fold(FoldAll(host, turn), ev);
    var turns, all := Folded(host, e, ev).turns, events + [ev];
    forall t ensures (t in turns <==> OfTurn(all, t) != []) && (t in turns ==> turns[t] == FoldAll(host, OfTurn(all, t))) {
      assert t != ev.turn ==> OfTurn(all, t) == OfTurn(events, t);
    }
  }

  // The entry appeared at operation n, an event of the session with its registry answer, and
  // stayed; its turns are the folds of all its events since.
  ghost predicate SittingSince<T>(host: Host<T>, ops: seq<Op>, id: string, n: nat) {
    && n < |ops| && id in Run(host, Empty<T>(), ops).entries && id !in Run(host, Empty<T>(), ops[..n]).entries
    && ops[n].Deliver? && ops[n].event.session == id && Op.Close(id) !in ops[n..]
    && ops[n].registry == Some(Run(host, Empty<T>(), ops).entries[id].vs)
    && TurnsFold(host, Run(host, Empty<T>(), ops).entries[id].turns, EventsOf(ops[n..], id))
    && MyHooks(Run(host, Empty<T>(), ops).hooks, id) == MyHooks(Run(host, Empty<T>(), ops[..n]).hooks, id)
         + [Start(id, Run(host, Empty<T>(), ops).entries[id].vs)] + Folds(EventsOf(ops[n..], id))
  }

  lemma {:induction false} OpenIsNotClosed<T>(host: Host<T>, ops: seq<Op>, id: string)
    requires id in Run(host, Empty<T>(), ops).entries
    ensures id !in Run(host, Empty<T>(), ops).closed && id != ""
  {
    hide Folded;
    if ops != [] {
      var before, op := ops[..|ops| - 1], ops[|ops| - 1];
      if id in Run(host, Empty<T>(), before).entries { OpenIsNotClosed<T>(host, before, id); }
    }
  }

  // A session starts with the first event of its own that finds it unclosed, registered and
  // with a good id, and ends with its close; what is said to the host of it then is this.
  lemma StartsAndEnds<T>(host: Host<T>, s: State<T>, op: Op, id: string)
    ensures var t := Apply(host, s, op);
            if id in s.entries then
              (id in t.entries <==> op != Op.Close(id))
              && (op == Op.Close(id) ==> MyHooks(t.hooks, id) == MyHooks(s.hooks, id) + [Finish(id, s.entries[id].vs)])
            else
              (id in t.entries <==> op.Deliver? && op.event.session == id && id != "" && id !in s.closed && host.parses(id) && op.registry.Some?)
              && (id in t.entries ==> MyHooks(t.hooks, id) == MyHooks(s.hooks, id) + [Start(id, op.registry.value), Fold(op.event)])
              && (id !in t.entries ==> MyHooks(t.hooks, id) == MyHooks(s.hooks, id))
  {
    hide Folded, MyHooks, Bury;
    if Subject(op) != id {
      OtherHooks(host, s, op, id);
    } else {
      HooksAppended(host, s, op);
      MyHooksConcat(s.hooks, NewHooks(host, s, op), id);
      if id in s.entries && op.Close? {
        MyHooksOfOne(Finish(id, s.entries[id].vs), id);
      } else if id !in s.entries && op.Deliver? && op.registry.Some? {
        MyHooksOfTwo(Start(id, op.registry.value), Fold(op.event), id);
      }
      NoHooks([], id);
    }
  }

  lemma MyHooksOfOne(h: Hook, id: string)
    requires SubjectOfHook(h) == id
    ensures MyHooks([h], id) == [h]
  {
    assert [h][..0] == [] && MyHooks([], id) == [];
  }

  // While a session is open, each of its events is one fold.
  lemma EventFolds<T>(host: Host<T>, s: State<T>, op: Op, id: string)
    requires id in s.entries && id !in s.closed && id != "" && op != Op.Close(id)
    ensures id in Apply(host, s, op).entries
    ensures var t := Apply(host, s, op);
            if op.Deliver? && op.event.session == id then
              t.entries[id] == Folded(host, s.entries[id], op.event) && MyHooks(t.hooks, id) == MyHooks(s.hooks, id) + [Fold(op.event)]
            else
              t.entries[id] == s.entries[id] && MyHooks(t.hooks, id) == MyHooks(s.hooks, id)
  {
    hide Folded, MyHooks, Bury;
    if Subject(op) != id {
      OtherHooks(host, s, op, id);
    } else {
      MyHooksConcat(s.hooks, [Fold(op.event)], id);
      MyHooksOfOne(Fold(op.event), id);
    }
  }

  // An open session's turns are the folds of its events since it started, and the host was told
  // of exactly those, in order, after its start.
  lemma {:induction false} TurnsAreFolds<T>(host: Host<T>, ops: seq<Op>, id: string) returns (n: nat)
    requires id in Run(host, Empty<T>(), ops).entries
    ensures SittingSince(host, ops, id, n)
  {
    hide SittingSince, Apply, MyHooks;
    var before, op := ops[..|ops| - 1], ops[|ops| - 1];
    var s := Run(host, Empty<T>(), before);
    StartsAndEnds(host, s, op, id);
    if id in s.entries {
      n := TurnsAreFolds(host, before, id);
      OpenIsNotClosed<T>(host, before, id);
      SittingGoesOn(host, before, op, id, n);
      assert before + [op] == ops;
    } else {
      n := |before|;
      SittingBegins<T>(host, ops, id);
    }
  }

  lemma SittingGoesOn<T>(host: Host<T>, before: seq<Op>, op: Op, id: string, n: nat)
    requires SittingSince(host, before, id, n) && op != Op.Close(id)
    requires id !in Run(host, Empty<T>(), before).closed && id != ""
    ensures SittingSince(host, before + [op], id, n)
  {
    hide Apply, MyHooks, TurnsFold, Folded;
    var ops := before + [op];
    var s := Run(host, Empty<T>(), before);
    assert ops[..|before|] == before && ops[..n] == before[..n] && ops[n..] == before[n..] + [op];
    EventFolds(host, s, op, id);
    var events := EventsOf(before[n..], id);
    assert (before[n..] + [op])[..|before[n..]|] == before[n..];
    if op.Deliver? && op.event.session == id {
      FoldedOnce(host, s.entries[id], events, op.event);
      assert Folds(events + [op.event]) == Folds(events) + [Fold(op.event)];
    } else {
      assert EventsOf(ops[n..], id) == events;
    }
  }

  lemma SittingBegins<T>(host: Host<T>, ops: seq<Op>, id: string)
    requires ops != [] && id !in Run(host, Empty<T>(), ops[..|ops| - 1]).entries && id in Run(host, Empty<T>(), ops).entries
    ensures SittingSince(host, ops, id, |ops| - 1)
  {
    hide MyHooks, TurnsFold, Folded;
    var before, op := ops[..|ops| - 1], ops[|ops| - 1];
    var s := Run(host, Empty<T>(), before);
    hide Run;
    StartsAndEnds(host, s, op, id);
    assert ops[|before|..] == [op] && [op][..0] == [] && EventsOf([], id) == [];
    assert EventsOf([op], id) == [op.event];
    FoldedOnce(host, Entry(op.registry.value, map[]), [], op.event) by { NoTurns(host); }
    assert [] + [op.event] == [op.event];
    assert Folds([op.event]) == [Fold(op.event)];
  }

  lemma NoTurns<T>(host: Host<T>)
    ensures TurnsFold(host, map[], [])
  {
  }

  // ---- Where isolation ends ------------------------------------------------------------------------

  // Names other than id, each longer than the one before.
  function Name(id: string, k: nat): string { id + seq(k + 1, _ => 'x') }

  function Others(id: string, n: nat): seq<Op> { seq(n, k requires 0 <= k < n => Op.Close(Name(id, k))) }

  ghost predicate NoneLonger(ids: seq<string>, n: nat) {
    forall i :: 0 <= i < |ids| ==> |ids[i]| <= n
  }

  lemma NameBuried(closed: seq<string>, id: string, k: nat)
    requires NoneLonger(closed, |id| + k)
    ensures Name(id, k) !in closed && Name(id, k) != id && NoneLonger(Bury(closed, Name(id, k)), |id| + k + 1)
  {
    assert |Name(id, k)| == |id| + k + 1;
  }

  lemma {:induction false} OthersTombstoned<T>(host: Host<T>, s: State<T>, id: string, n: nat)
    requires s.closed == [id]
    ensures |Tombstoned(host, s, Others(id, n))| == n && id !in Tombstoned(host, s, Others(id, n))
    ensures NoneLonger(Run(host, s, Others(id, n)).closed, |id| + n)
  {
    hide Name, Bury, NoneLonger;
    if n == 0 {
      OneName(id);
    } else {
      OthersTombstoned(host, s, id, n - 1);
      assert Others(id, n)[..n - 1] == Others(id, n - 1);
      NameBuried(Run(host, s, Others(id, n - 1)).closed, id, n - 1);
    }
  }

  lemma OneName(id: string)
    ensures NoneLonger([id], |id|)
  {
  }

  // A closed session is started again: after 1024 further closes, an event of its own with a
  // registry answer reaches the host, though alone it would not.
  lemma EvictedSessionRestarts<T>(host: Host<T>, ev: Event, vs: VoiceSession) returns (ops: seq<Op>)
    requires ev.session != "" && host.parses(ev.session)
    ensures ops == [Op.Close(ev.session)] + Others(ev.session, MAX_TOMBSTONES) + [Deliver(ev, Some(vs))]
    ensures MyHooks(Run(host, Empty<T>(), ops).hooks, ev.session) == [Start(ev.session, vs), Fold(ev)]
    ensures MyHooks(Alone(host, ops, ev.session).hooks, ev.session) == []
  {
    hide Others, MyHooks, Alone;
    var id := ev.session;
    var first, others := [Op.Close(id)], Others(id, MAX_TOMBSTONES);
    ops := first + others + [Deliver(ev, Some(vs))];
    Evicted<T>(host, id);
    assert ops[..|ops| - 1] == first + others;
    assert Run(host, Empty<T>(), ops).hooks == [Start(id, vs), Fold(ev)];
    RestartAlone(host, ev, vs, ops);
    MyHooksOfTwo(Start(id, vs), Fold(ev), id);
  }

  lemma Evicted<T>(host: Host<T>, id: string)
    ensures var s := Run(host, Empty<T>(), [Op.Close(id)] + Others(id, MAX_TOMBSTONES));
            s.entries == map[] && s.hooks == [] && id !in s.closed
  {
    hide Others, Tombstoned, Apply;
    var first, others := [Op.Close(id)], Others(id, MAX_TOMBSTONES);
    OnlyClosed<T>(host, id);
    var s := Run(host, Empty<T>(), first);
    OthersTombstoned(host, s, id, MAX_TOMBSTONES);
    TombstoneLife(host, s, id, others);
    RunInTwo<T>(host, Empty(), first, others);
    OthersAreQuiet(host, s, id, MAX_TOMBSTONES);
  }

  lemma OnlyClosed<T>(host: Host<T>, id: string)
    ensures Run(host, Empty<T>(), [Op.Close(id)]) == State(map[], [id], [])
  {
    assert [Op.Close(id)][..0] == [];
  }

  lemma MyHooksOfTwo(a: Hook, b: Hook, id: string)
    requires SubjectOfHook(a) == SubjectOfHook(b) == id
    ensures MyHooks([a, b], id) == [a, b] && MyHooks([], id) == []
  {
    assert [a, b][..1] == [a] && [a][..0] == [] && MyHooks([], id) == [];
    assert MyHooks([a], id) == [a];
  }

  lemma {:induction false} OthersAreQuiet<T>(host: Host<T>, s: State<T>, id: string, n: nat)
    requires s.entries == map[] && s.hooks == []
    ensures Run(host, s, Others(id, n)).entries == map[] && Run(host, s, Others(id, n)).hooks == []
    ensures Mine(Others(id, n), id) == []
  {
    if n > 0 {
      OthersAreQuiet(host, s, id, n - 1);
      assert Others(id, n)[..n - 1] == Others(id, n - 1) && |Name(id, n - 1)| == |id| + n;
    }
  }

  lemma RestartAlone<T>(host: Host<T>, ev: Event, vs: VoiceSession, ops: seq<Op>)
    requires ops == [Op.Close(ev.session)] + Others(ev.session, MAX_TOMBSTONES) + [Deliver(ev, Some(vs))]
    ensures Alone(host, ops, ev.session).hooks == []
  {
    hide Others;
    var id := ev.session;
    var others := Others(id, MAX_TOMBSTONES);
    OthersAreQuiet<T>(host, Empty(), id, MAX_TOMBSTONES);
    MineConcat([Op.Close(id)], others, id);
    assert ops[..|ops| - 1] == [Op.Close(id)] + others;
    assert [Op.Close(id)][..0] == [];
    assert Mine(ops, id) == [Op.Close(id), Deliver(ev, Some(vs))];
    OnlyClosed<T>(host, id);
    assert Mine(ops, id)[..1] == [Op.Close(id)];
  }

  lemma {:induction false} MineConcat(a: seq<Op>, b: seq<Op>, id: string)
    ensures Mine(a + b, id) == Mine(a, id) + Mine(b, id)
  {
    if b == [] {
      assert a + b == a;
    } else {
      assert (a + b)[..|a + b| - 1] == a + b[..|b| - 1];
      MineConcat(a, b[..|b| - 1], id);
    }
  }

  lemma {:induction false} ClosedStays<T>(host: Host<T>, ops: seq<Op>, id: string)
    requires |Tombstoned(host, Empty<T>(), ops)| <= MAX_TOMBSTONES && Op.Close(id) in ops
    ensures id in Run(host, Empty<T>(), ops).closed
  {
    hide Apply;
    var before, op := ops[..|ops| - 1], ops[|ops| - 1];
    TombstonesAreLatest(host, Empty<T>(), ops);
    TombstonesAreLatest(host, Empty<T>(), before);
    assert Empty<T>().closed + Tombstoned(host, Empty<T>(), ops) == Tombstoned(host, Empty<T>(), ops);
    assert Empty<T>().closed + Tombstoned(host, Empty<T>(), before) == Tombstoned(host, Empty<T>(), before);
    assert ops == before + [op];
    if Op.Close(id) in before { ClosedStays<T>(host, before, id); }
  }

  // Up to 1024 closes, isolation holds for every session.
  lemma FewClosesIsolate<T>(host: Host<T>, ops: seq<Op>, id: string)
    requires |Tombstoned(host, Empty<T>(), ops)| <= MAX_TOMBSTONES
    ensures Same(Run(host, Empty<T>(), ops), Alone(host, ops, id), id)
  {
    hide Run, Tombstoned, Alone, Same;
    forall n | 0 <= n < |ops| && Op.Close(id) in ops[..n] ensures id in Run(host, Empty<T>(), ops[..n + 1]).closed {
      TombstonedGrow<T>(host, ops, n + 1);
      assert ops[..n + 1] == ops[..n] + [ops[n]];
      ClosedStays<T>(host, ops[..n + 1], id);
    }
    IsolatedWhileClosed(host, ops, id);
  }

  lemma {:induction false} TombstonedGrow<T>(host: Host<T>, ops: seq<Op>, n: nat)
    requires n <= |ops|
    ensures |Tombstoned(host, Empty<T>(), ops[..n])| <= |Tombstoned(host, Empty<T>(), ops)|
  {
    if n < |ops| {
      TombstonedGrow<T>(host, ops[..|ops| - 1], n);
      assert ops[..|ops| - 1][..n] == ops[..n];
    } else {
      assert ops[..n] == ops;
    }
  }

  lemma NothingAlone<T>(host: Host<T>, id: string)
    ensures Alone<T>(host, [], id) == Empty()
  {
  }
}
