// The Highlight saver (internal/highlight/saver.go): one bounded mailbox and one worker per live Voice
// Session. Begin, the sinks, Finalize and the workers interleave at the locked sections and at
// the channel operations.
module Saver {
  import opened Common

  const QUEUE: nat := 16

  datatype Outcome = Saved | ClipFailed | BlobFailed | RowFailed

  datatype Ids = Ids(session: string, campaign: string, tenant: string)

  datatype Worker<T> = Waiting | Saving(t: T) | Exited

  // One Begin's session: its ids, its channel, and how often the channel was closed. accepted
  // and outcomes are the histories of what its sink took and of what the worker counted.
  datatype Binding<T> = Binding(ids: Ids, queue: seq<T>, closes: nat, worker: Worker<T>, accepted: seq<T>, outcomes: seq<(T, Outcome)>)

  datatype Row<T> = Row(ids: Ids, t: T)

  // sessions maps a Voice Session to its current binding. unbound holds the bindings a Finalize
  // has unbound and not yet closed. finalized holds those whose Finalize saw the worker exit.
  datatype State<T> = State(bindings: seq<Binding<T>>, sessions: map<string, nat>, unbound: set<nat>, finalized: set<nat>,
                            handed: nat, dropped: nat, rows: seq<Row<T>>)

  datatype Action<T> =
    | Begin(ids: Ids)
    | HandleTrigger(b: nat, t: T)
    | Unbind(session: string)   // Finalize, under the lock
    | Close(b: nat)             // Finalize, after the lock
    | Drained(b: nat)           // Finalize saw done before its context ended
    | Receive(b: nat)
    | Count(b: nat, o: Outcome)
    | Exit(b: nat)

  function Closed<T>(b: Binding<T>): Binding<T> { b.(closes := b.closes + 1) }

  ghost predicate BindingActs<T>(s: State<T>, a: Action<T>, b: nat, s': State<T>)
    requires b < |s.bindings|
  {
    var me := s.bindings[b];
    match a
    // A sink whose binding is gone or replaced drops; a full mailbox drops.
    case HandleTrigger(_, t) =>
      s' == if me.ids.session !in s.sessions || s.sessions[me.ids.session] != b || |me.queue| >= QUEUE
            then s.(handed := s.handed + 1, dropped := s.dropped + 1)
            else s.(handed := s.handed + 1, bindings := s.bindings[b := me.(queue := me.queue + [t], accepted := me.accepted + [t])])
    case Close(_) => b in s.unbound && s' == s.(unbound := s.unbound - {b}, bindings := s.bindings[b := Closed(me)])
    case Drained(_) => me.worker == Exited && s' == s.(finalized := s.finalized + {b})
    case Receive(_) => me.worker == Waiting && me.queue != []
      && s' == s.(bindings := s.bindings[b := me.(queue := me.queue[1..], worker := Saving(me.queue[0]))])
    case Count(_, o) => me.worker.Saving?
      && s' == s.(bindings := s.bindings[b := me.(worker := Waiting, outcomes := me.outcomes + [(me.worker.t, o)])],
                  rows := if o == Saved then s.rows + [Row(me.ids, me.worker.t)] else s.rows)
    case Exit(_) => me.worker == Waiting && me.queue == [] && me.closes > 0
      && s' == s.(bindings := s.bindings[b := me.(worker := Exited)])
    case _ => false
  }

  ghost predicate Acts<T>(s: State<T>, a: Action<T>, s': State<T>) {
    match a
    // A session still bound is closed and replaced.
    case Begin(ids) =>
      var added := Binding(ids, [], 0, Waiting, [], []);
      var kept := if ids.session in s.sessions && s.sessions[ids.session] < |s.bindings|
                  then s.bindings[s.sessions[ids.session] := Closed(s.bindings[s.sessions[ids.session]])] else s.bindings;
      s' == s.(bindings := kept + [added], sessions := s.sessions[ids.session := |s.bindings|])
    case Unbind(session) =>
      s' == if session in s.sessions then s.(sessions := s.sessions - {session}, unbound := s.unbound + {s.sessions[session]}) else s
    case _ => a.b < |s.bindings| && BindingActs(s, a, a.b, s')
  }

  ghost predicate Init<T>(s: State<T>) {
    s == State([], map[], {}, {}, 0, 0, [])
  }

  ghost predicate Run<T>(run: seq<State<T>>, acts: seq<Action<T>>) {
    && |run| == |acts| + 1 && Init(run[0])
    && forall i :: 0 <= i < |acts| ==> Acts(run[i], acts[i], run[i + 1])
  }

  // ---- The invariant ------------------------------------------------------------------------

  function Taken<T>(outcomes: seq<(T, Outcome)>): seq<T> {
    seq(|outcomes|, i requires 0 <= i < |outcomes| => outcomes[i].0)
  }

  function InHand<T>(w: Worker<T>): seq<T> {
    if w.Saving? then [w.t] else []
  }

  // Every trigger accepted has been counted, is being saved, or is queued, in that order.
  ghost predicate BindingOk<T>(b: Binding<T>) {
    && b.accepted == Taken(b.outcomes) + InHand(b.worker) + b.queue && |b.queue| <= QUEUE
    && (b.worker == Exited ==> b.queue == [] && b.closes > 0)
  }

  // Open exactly while it is bound or its Finalize is about to close it.
  ghost predicate LifeOk<T>(s: State<T>, i: nat)
    requires i < |s.bindings|
  {
    var b := s.bindings[i];
    var bound := b.ids.session in s.sessions && s.sessions[b.ids.session] == i;
    && b.closes == (if bound || i in s.unbound then 0 else 1)
    && !(bound && i in s.unbound)
  }

  function Accepted<T>(bs: seq<Binding<T>>): nat {
    if bs == [] then 0 else Accepted(bs[..|bs| - 1]) + |bs[|bs| - 1].accepted|
  }

  // A saved row carries the ids of a binding whose sink accepted its trigger.
  ghost predicate RowOk<T>(s: State<T>, r: Row<T>) {
    exists i :: 0 <= i < |s.bindings| && s.bindings[i].ids == r.ids && (r.t, Saved) in s.bindings[i].outcomes && r.t in s.bindings[i].accepted
  }

  ghost predicate Inv<T>(s: State<T>) {
    && (forall i :: 0 <= i < |s.bindings| ==> BindingOk(s.bindings[i]) && LifeOk(s, i))
    && (forall x :: x in s.sessions ==> s.sessions[x] < |s.bindings| && s.bindings[s.sessions[x]].ids.session == x)
    && (forall i :: i in s.unbound ==> i < |s.bindings|)
    && (forall i :: i in s.finalized ==> i < |s.bindings| && s.bindings[i].worker == Exited)
    && s.handed == s.dropped + Accepted(s.bindings)
    && (forall k :: 0 <= k < |s.rows| ==> RowOk(s, s.rows[k]))
  }

  lemma {:induction false} AcceptedSet<T>(bs: seq<Binding<T>>, i: nat, b: Binding<T>)
    requires i < |bs|
    ensures Accepted(bs[i := b]) + |bs[i].accepted| == Accepted(bs) + |b.accepted|
  {
    if i < |bs| - 1 {
      AcceptedSet(bs[..|bs| - 1], i, b);
      assert bs[i := b][..|bs| - 1] == bs[..|bs| - 1][i := b];
    } else {
      assert bs[i := b][..|bs| - 1] == bs[..|bs| - 1];
    }
  }

  lemma RowsKept<T>(s: State<T>, s': State<T>, b: nat)
    requires b < |s.bindings| == |s'.bindings| && (forall i :: 0 <= i < |s.bindings| && i != b ==> s'.bindings[i] == s.bindings[i])
    requires s'.bindings[b].ids == s.bindings[b].ids && s.bindings[b].outcomes <= s'.bindings[b].outcomes
    requires s.bindings[b].accepted <= s'.bindings[b].accepted && s.rows <= s'.rows
    requires forall k :: 0 <= k < |s.rows| ==> RowOk(s, s.rows[k])
    ensures forall k :: 0 <= k < |s.rows| ==> RowOk(s', s.rows[k])
  {
    forall k | 0 <= k < |s.rows| ensures RowOk(s', s.rows[k]) {
      var r := s.rows[k];
      var i :| 0 <= i < |s.bindings| && s.bindings[i].ids == r.ids && (r.t, Saved) in s.bindings[i].outcomes && r.t in s.bindings[i].accepted;
      assert s'.bindings[i].ids == r.ids && (r.t, Saved) in s'.bindings[i].outcomes && r.t in s'.bindings[i].accepted;
    }
  }

  lemma BindingStep<T>(s: State<T>, a: Action<T>, b: nat, s': State<T>)
    requires b < |s.bindings| && BindingActs(s, a, b, s') && BindingOk(s.bindings[b]) && LifeOk(s, b)
    ensures |s'.bindings| == |s.bindings| && BindingOk(s'.bindings[b])
    ensures forall i :: 0 <= i < |s.bindings| && i != b ==> s'.bindings[i] == s.bindings[i]
    ensures var me, me' := s.bindings[b], s'.bindings[b];
            && me'.ids == me.ids && me.outcomes <= me'.outcomes && me.accepted <= me'.accepted && (me.worker == Exited ==> me'.worker == Exited)
            && |me'.accepted| + s'.dropped + s.handed == |me.accepted| + s.dropped + s'.handed
            && me'.closes == me.closes + (if a.Close? then 1 else 0)
            && s'.sessions == s.sessions && s'.unbound == (if a.Close? then s.unbound - {b} else s.unbound)
            && s.rows <= s'.rows && (s'.rows == s.rows || (s'.rows == s.rows + [Row(me.ids, me.worker.t)] && me.worker.Saving?
                                       && (me.worker.t, Saved) in me'.outcomes))
  {
    var me, me' := s.bindings[b], s'.bindings[b];
    if a.Count? {
      assert Taken(me'.outcomes) == Taken(me.outcomes) + [me.worker.t];
      assert (me.worker.t, a.o) == me'.outcomes[|me.outcomes|];
    } else {
      assert me'.outcomes == me.outcomes;
    }
  }

  lemma WorkerStep<T>(s: State<T>, a: Action<T>, b: nat, s': State<T>)
    requires Inv(s) && b < |s.bindings| && BindingActs(s, a, b, s') && (a.Close? ==> b in s.unbound)
    ensures Inv(s')
  {
    hide Accepted, BindingOk, LifeOk, RowOk;
    var me := s.bindings[b];
    BindingStep(s, a, b, s');
    RowsKept(s, s', b);
    AcceptedSet(s.bindings, b, s'.bindings[b]);
    assert s'.bindings == s.bindings[b := s'.bindings[b]];
    forall i | 0 <= i < |s'.bindings| ensures LifeOk(s', i) { LifeStep(s, a, b, s', i); }
    if s'.rows != s.rows { NewRow(s, a, b, s'); }
    assert s'.finalized == s.finalized || (s'.finalized == s.finalized + {b} && me.worker == Exited) by { OnlyDrained(s, a, b, s'); }
  }

  lemma OnlyDrained<T>(s: State<T>, a: Action<T>, b: nat, s': State<T>)
    requires b < |s.bindings| && BindingActs(s, a, b, s')
    ensures s'.finalized == s.finalized || (s'.finalized == s.finalized + {b} && s.bindings[b].worker == Exited)
  {
  }

  lemma LifeStep<T>(s: State<T>, a: Action<T>, b: nat, s': State<T>, i: nat)
    requires b < |s.bindings| == |s'.bindings| && i < |s.bindings| && LifeOk(s, i)
    requires i != b ==> s'.bindings[i] == s.bindings[i]
    requires s'.bindings[b].ids == s.bindings[b].ids && s'.bindings[b].closes == s.bindings[b].closes + (if a.Close? then 1 else 0)
    requires s'.sessions == s.sessions && s'.unbound == (if a.Close? then s.unbound - {b} else s.unbound) && (a.Close? ==> b in s.unbound)
    ensures LifeOk(s', i)
  {
  }

  lemma NewRow<T>(s: State<T>, a: Action<T>, b: nat, s': State<T>)
    requires b < |s.bindings| && BindingOk(s.bindings[b]) && LifeOk(s, b) && BindingActs(s, a, b, s') && s'.rows != s.rows
    ensures s'.rows == s.rows + [Row(s.bindings[b].ids, s.bindings[b].worker.t)] && RowOk(s', s'.rows[|s.rows|])
  {
    BindingStep(s, a, b, s');
    var me, me' := s.bindings[b], s'.bindings[b];
    assert me.accepted[|me.outcomes|] == me.worker.t;
    assert me'.ids == me.ids && (me.worker.t, Saved) in me'.outcomes && me.worker.t in me'.accepted;
  }

  lemma BeginStep<T>(s: State<T>, ids: Ids, s': State<T>)
    requires Inv(s) && Acts(s, Begin(ids), s')
    ensures Inv(s')
  {
    hide BindingOk, LifeOk, RowOk, Accepted;
    var n := |s.bindings|;
    assert s'.bindings == s'.bindings[..n] + [s'.bindings[n]];
    BeginCounts(s, ids, s');
    forall i | 0 <= i < |s'.bindings| ensures BindingOk(s'.bindings[i]) && LifeOk(s', i) { BeginBinding(s, ids, s', i); }
    forall k | 0 <= k < |s.rows| ensures RowOk(s', s.rows[k]) { BeginRow(s, ids, s', s.rows[k]); }
    assert s'.rows == s.rows;
  }

  lemma BeginCounts<T>(s: State<T>, ids: Ids, s': State<T>)
    requires Acts(s, Begin(ids), s')
    ensures Accepted(s'.bindings) == Accepted(s.bindings)
  {
    var n := |s.bindings|;
    assert s'.bindings == s'.bindings[..n] + [s'.bindings[n]];
    if ids.session in s.sessions && s.sessions[ids.session] < n {
      var i := s.sessions[ids.session];
      AcceptedSet(s.bindings, i, Closed(s.bindings[i]));
    }
  }

  lemma BeginBinding<T>(s: State<T>, ids: Ids, s': State<T>, i: nat)
    requires Acts(s, Begin(ids), s') && i < |s'.bindings|
    requires forall x :: x in s.sessions ==> s.sessions[x] < |s.bindings| && s.bindings[s.sessions[x]].ids.session == x
    requires forall i :: i in s.unbound ==> i < |s.bindings|
    requires i < |s.bindings| ==> BindingOk(s.bindings[i]) && LifeOk(s, i)
    ensures BindingOk(s'.bindings[i]) && LifeOk(s', i)
  {
  }

  lemma BeginRow<T>(s: State<T>, ids: Ids, s': State<T>, r: Row<T>)
    requires Acts(s, Begin(ids), s') && RowOk(s, r)
    ensures RowOk(s', r)
  {
    var i :| 0 <= i < |s.bindings| && s.bindings[i].ids == r.ids && (r.t, Saved) in s.bindings[i].outcomes && r.t in s.bindings[i].accepted;
    assert s'.bindings[i].ids == r.ids && (r.t, Saved) in s'.bindings[i].outcomes && r.t in s'.bindings[i].accepted;
  }

  lemma UnbindStep<T>(s: State<T>, session: string, s': State<T>)
    requires Inv(s) && Acts(s, Unbind(session), s')
    ensures Inv(s')
  {
    forall i | 0 <= i < |s.bindings| ensures LifeOk(s', i) { assert LifeOk(s, i); }
    forall k | 0 <= k < |s.rows| ensures RowOk(s', s.rows[k]) { assert RowOk(s, s.rows[k]); }
  }

  lemma {:induction false} Always<T>(run: seq<State<T>>, acts: seq<Action<T>>, n: nat)
    requires Run(run, acts) && n < |run|
    ensures Inv(run[n])
  {
    hide Inv, BindingActs;
    if n == 0 {
      InitInv(run[0]);
    } else {
      Always(run, acts, n - 1);
      var s, a, s' := run[n - 1], acts[n - 1], run[n];
      match a
      case Begin(ids) => BeginStep(s, ids, s');
      case Unbind(session) => UnbindStep(s, session, s');
      case _ => OtherStep(s, a, s');
    }
  }

  lemma InitInv<T>(s: State<T>)
    requires Init(s)
    ensures Inv(s)
  {
  }

  lemma OtherStep<T>(s: State<T>, a: Action<T>, s': State<T>)
    requires Inv(s) && !a.Begin? && !a.Unbind? && Acts(s, a, s')
    ensures Inv(s')
  {
    hide Inv;
    WorkerStep(s, a, a.b, s');
  }

  // ---- The promises ---------------------------------------------------------------------------

  function Counted<T>(bs: seq<Binding<T>>): nat {
    if bs == [] then 0 else Counted(bs[..|bs| - 1]) + |bs[|bs| - 1].outcomes|
  }

  function Held<T>(bs: seq<Binding<T>>): nat {
    if bs == [] then 0 else Held(bs[..|bs| - 1]) + |InHand(bs[|bs| - 1].worker)| + |bs[|bs| - 1].queue|
  }

  lemma {:induction false} AcceptedIsCountedOrHeld<T>(bs: seq<Binding<T>>)
    requires forall i :: 0 <= i < |bs| ==> BindingOk(bs[i])
    ensures Accepted(bs) == Counted(bs) + Held(bs)
  {
    if bs != [] {
      AcceptedIsCountedOrHeld(bs[..|bs| - 1]);
      assert BindingOk(bs[|bs| - 1]);
    }
  }

  // At every moment, the triggers handed in are the outcomes counted, dropped ones included, and
  // those queued or being saved.
  lemma TriggersAreConserved<T>(run: seq<State<T>>, acts: seq<Action<T>>, n: nat)
    requires Run(run, acts) && n < |run|
    ensures run[n].handed == run[n].dropped + Counted(run[n].bindings) + Held(run[n].bindings)
  {
    Always(run, acts, n);
    AcceptedIsCountedOrHeld(run[n].bindings);
  }

  // No queue is closed twice, and none is sent to after it was closed.
  lemma QueuesCloseOnce<T>(run: seq<State<T>>, acts: seq<Action<T>>, n: nat, b: nat)
    requires Run(run, acts) && n < |acts| && b < |run[n].bindings|
    ensures run[n].bindings[b].closes <= 1
    ensures b < |run[n + 1].bindings| && (run[n].bindings[b].closes > 0 ==> run[n + 1].bindings[b].accepted == run[n].bindings[b].accepted)
  {
    Always(run, acts, n);
    assert LifeOk(run[n], b) && Acts(run[n], acts[n], run[n + 1]);
  }

  // A Finalize that was not cut short leaves nothing behind: every trigger its session's sink
  // accepted has an outcome.
  lemma FinalizeDrains<T>(run: seq<State<T>>, acts: seq<Action<T>>, n: nat, b: nat)
    requires Run(run, acts) && n < |run| && b in run[n].finalized
    ensures b < |run[n].bindings| && run[n].bindings[b].accepted == Taken(run[n].bindings[b].outcomes)
  {
    Always(run, acts, n);
    assert BindingOk(run[n].bindings[b]);
  }

  // Every saved row carries the ids of a session whose own sink accepted its trigger.
  lemma RowsBelongToTheirSession<T>(run: seq<State<T>>, acts: seq<Action<T>>, n: nat, k: nat)
    requires Run(run, acts) && n < |run| && k < |run[n].rows|
    ensures RowOk(run[n], run[n].rows[k])
  {
    Always(run, acts, n);
  }

  // A trigger is taken exactly when its session is still bound to the sink it was handed to and
  // fewer than sixteen wait; otherwise it is counted as dropped.
  lemma TakenExactly<T>(s: State<T>, b: nat, t: T, s': State<T>)
    requires Acts(s, HandleTrigger(b, t), s')
    ensures s'.handed == s.handed + 1 && s'.rows == s.rows && b < |s.bindings| == |s'.bindings|
    ensures var me, me' := s.bindings[b], s'.bindings[b];
            if me.ids.session in s.sessions && s.sessions[me.ids.session] == b && |me.queue| < 16
            then me'.accepted == me.accepted + [t] && me'.queue == me.queue + [t] && s'.dropped == s.dropped
            else s'.bindings == s.bindings && s'.dropped == s.dropped + 1
  {
  }

  function Saves<T>(outcomes: seq<(T, Outcome)>): nat {
    if outcomes == [] then 0 else Saves(outcomes[..|outcomes| - 1]) + (if outcomes[|outcomes| - 1].1 == Saved then 1 else 0)
  }

  function AllSaves<T>(bs: seq<Binding<T>>): nat {
    if bs == [] then 0 else AllSaves(bs[..|bs| - 1]) + Saves(bs[|bs| - 1].outcomes)
  }

  lemma {:induction false} SavesSet<T>(bs: seq<Binding<T>>, i: nat, b: Binding<T>)
    requires i < |bs|
    ensures AllSaves(bs[i := b]) + Saves(bs[i].outcomes) == AllSaves(bs) + Saves(b.outcomes)
  {
    if i < |bs| - 1 {
      SavesSet(bs[..|bs| - 1], i, b);
      assert bs[i := b][..|bs| - 1] == bs[..|bs| - 1][i := b];
    } else {
      assert bs[i := b][..|bs| - 1] == bs[..|bs| - 1];
    }
  }

  lemma SaveStep<T>(s: State<T>, a: Action<T>, s': State<T>)
    requires Acts(s, a, s') && |s.rows| == AllSaves(s.bindings)
    ensures |s'.rows| == AllSaves(s'.bindings)
  {
    hide Saves, AllSaves;
    match a
    case Begin(ids) => BeginSaves(s, ids, s');
    case Unbind(_) =>
    case Count(b, o) =>
      SavesSet(s.bindings, b, s'.bindings[b]);
      OneMoreSave(s.bindings[b].outcomes, (s.bindings[b].worker.t, o));
    case _ =>
      SavesSet(s.bindings, a.b, s'.bindings[a.b]);
      assert s'.bindings == s.bindings[a.b := s'.bindings[a.b]];
  }

  lemma OneMoreSave<T>(outcomes: seq<(T, Outcome)>, o: (T, Outcome))
    ensures Saves(outcomes + [o]) == Saves(outcomes) + if o.1 == Saved then 1 else 0
  {
    assert (outcomes + [o])[..|outcomes|] == outcomes;
  }

  lemma BeginSaves<T>(s: State<T>, ids: Ids, s': State<T>)
    requires Acts(s, Begin(ids), s')
    ensures AllSaves(s'.bindings) == AllSaves(s.bindings)
  {
    var n := |s.bindings|;
    assert s'.bindings == s'.bindings[..n] + [s'.bindings[n]];
    if ids.session in s.sessions && s.sessions[ids.session] < n {
      var i := s.sessions[ids.session];
      SavesSet(s.bindings, i, Closed(s.bindings[i]));
    }
  }

  // There is a row for every save counted, and no other.
  lemma {:induction false} EverySaveHasARow<T>(run: seq<State<T>>, acts: seq<Action<T>>, n: nat)
    requires Run(run, acts) && n < |run|
    ensures |run[n].rows| == AllSaves(run[n].bindings)
  {
    hide Acts, AllSaves;
    if n > 0 {
      EverySaveHasARow(run, acts, n - 1);
      SaveStep(run[n - 1], acts[n - 1], run[n]);
    } else {
      NoSaves<T>();
    }
  }

  lemma NoSaves<T>()
    ensures AllSaves<T>([]) == 0
  {
  }
}
