// The write queue of the bus projections (internal/busproject/queue.go): any number of producers and
// flushers, one bounded channel, one writer.
module WriteQueue {
  import opened Common

  datatype Op<T> = Item(item: T) | Barrier(flush: nat)

  datatype Writer<T> = Parked | Writing(item: T) | Running(flush: nat)

  // mark: how many items had been accepted when Flush was called.
  datatype Flush = NotCalled | Sending(mark: nat) | Waiting(mark: nat) | Returned(mark: nat, ok: bool)

  // accepted and written are the histories of Enqueue's true results and of completed writes;
  // ran records, for each flush whose fn ran, how many writes had completed by then.
  datatype State<T> = State(capacity: nat, channel: seq<Op<T>>, writer: Writer<T>, flushes: seq<Flush>,
                            accepted: seq<T>, written: seq<T>, ran: map<nat, nat>, closed: set<nat>)

  datatype Action<T> =
    | Enqueue(item: T)
    | Overflow(item: T)
    | Call(f: nat)
    | Send(f: nat)
    | Expire(f: nat)
    | Return(f: nat)
    | Receive
    | Finish

  // Room in the buffer, or, without a buffer, a writer waiting to receive.
  predicate HasRoom<T(==)>(s: State<T>) {
    |s.channel| < s.capacity || (s.capacity == 0 && s.channel == [] && s.writer == Parked)
  }

  ghost predicate FlushActs<T>(s: State<T>, a: Action<T>, f: nat, s': State<T>)
    requires f < |s.flushes|
  {
    var me := s.flushes[f];
    match a
    case Call(_) => me == NotCalled && s' == s.(flushes := s.flushes[f := Sending(|s.accepted|)])
    case Send(_) => me.Sending? && HasRoom(s) && s' == s.(channel := s.channel + [Barrier(f)], flushes := s.flushes[f := Waiting(me.mark)])
    // The context may end before the barrier is queued, or while it waits; a queued barrier stays.
    case Expire(_) => (me.Sending? || me.Waiting?) && s' == s.(flushes := s.flushes[f := Returned(me.mark, false)])
    case Return(_) => me.Waiting? && f in s.closed && s' == s.(flushes := s.flushes[f := Returned(me.mark, true)])
    case _ => false
  }

  ghost predicate Acts<T>(s: State<T>, a: Action<T>, s': State<T>) {
    match a
    case Enqueue(item) => HasRoom(s) && s' == s.(channel := s.channel + [Item(item)], accepted := s.accepted + [item])
    case Overflow(_) => |s.channel| >= s.capacity && s' == s
    case Receive => s.writer.Parked? && s.channel != []
      && s' == s.(channel := s.channel[1..],
                  writer := if s.channel[0].Item? then Writing(s.channel[0].item) else Running(s.channel[0].flush))
    // A completed write; or a barrier's fn, run once, and its done channel closed.
    case Finish =>
      if s.writer.Writing? then s' == s.(writer := Parked, written := s.written + [s.writer.item])
      else s.writer.Running?
           && s' == s.(writer := Parked, ran := s.ran[s.writer.flush := |s.written|], closed := s.closed + {s.writer.flush})
    case _ => a.f < |s.flushes| && FlushActs(s, a, a.f, s')
  }

  ghost predicate Init<T>(s: State<T>) {
    && s.channel == [] && s.writer == Parked && s.accepted == [] && s.written == [] && s.ran == map[] && s.closed == {}
    && forall f :: 0 <= f < |s.flushes| ==> s.flushes[f] == NotCalled
  }

  ghost predicate Run<T>(run: seq<State<T>>, acts: seq<Action<T>>) {
    && |run| == |acts| + 1 && Init(run[0])
    && forall i :: 0 <= i < |acts| ==> Acts(run[i], acts[i], run[i + 1])
  }

  // ---- The invariant ---------------------------------------------------------------------------

  function Items<T>(ops: seq<Op<T>>): seq<T> {
    if ops == [] then [] else (if ops[0].Item? then [ops[0].item] else []) + Items(ops[1..])
  }

  function InProgress<T>(w: Writer<T>): seq<T> {
    if w.Writing? then [w.item] else []
  }

  // Nothing lost, nothing invented, nothing reordered.
  ghost predicate Conserved<T>(s: State<T>) {
    s.accepted == s.written + InProgress(s.writer) + Items(s.channel)
  }

  function Mark(f: Flush): nat {
    if f.NotCalled? then 0 else f.mark
  }

  // A queued barrier has behind it only items accepted after its call.
  ghost predicate BarrierOk<T>(s: State<T>, i: nat)
    requires i < |s.channel|
  {
    s.channel[i].Barrier? ==>
      var f := s.channel[i].flush;
      && f < |s.flushes| && (s.flushes[f].Waiting? || s.flushes[f].Returned?) && f !in s.ran
      && Mark(s.flushes[f]) + |Items(s.channel[i..])| <= |s.accepted|
  }

  ghost predicate Inv<T>(s: State<T>) {
    && Conserved(s)
    && (forall i :: 0 <= i < |s.channel| ==> BarrierOk(s, i))
    && (forall i, j :: 0 <= i < j < |s.channel| && s.channel[i].Barrier? ==> s.channel[i] != s.channel[j])
    && (s.writer.Running? ==>
          var f := s.writer.flush;
          && f < |s.flushes| && (s.flushes[f].Waiting? || s.flushes[f].Returned?) && f !in s.ran
          && Mark(s.flushes[f]) <= |s.written| && Barrier(f) !in s.channel)
    && s.closed == s.ran.Keys
    && (forall f :: f in s.ran ==>
          f < |s.flushes| && (s.flushes[f].Waiting? || s.flushes[f].Returned?) && Mark(s.flushes[f]) <= s.ran[f] <= |s.written|)
    && (forall f :: 0 <= f < |s.flushes| ==>
          Mark(s.flushes[f]) <= |s.accepted| && (s.flushes[f].Returned? && s.flushes[f].ok ==> f in s.ran))
  }

  lemma {:induction false} ItemsConcat<T>(a: seq<Op<T>>, b: seq<Op<T>>)
    ensures Items(a + b) == Items(a) + Items(b)
  {
    if a == [] {
      assert a + b == b;
    } else {
      ItemsConcat(a[1..], b);
      assert (a + b)[1..] == a[1..] + b;
    }
  }

  lemma AppendStep<T>(s: State<T>, op: Op<T>, s': State<T>)
    requires Inv(s) && s'.channel == s.channel + [op] && s'.written == s.written && s'.writer == s.writer && s'.ran == s.ran && s'.closed == s.closed
    requires if op.Item? then s'.accepted == s.accepted + [op.item] && s'.flushes == s.flushes
             else s'.accepted == s.accepted && op.flush < |s.flushes| && s.flushes[op.flush].Sending?
                  && s'.flushes == s.flushes[op.flush := Waiting(s.flushes[op.flush].mark)]
    ensures Inv(s')
  {
    ItemsConcat(s.channel, [op]);
    assert Items([op]) == if op.Item? then [op.item] else [];
    hide Items;
    forall i | 0 <= i < |s'.channel| ensures BarrierOk(s', i) { AppendedBarrier(s, op, s', i); }
    forall i | 0 <= i < |s.channel| && s.channel[i].Barrier? ensures s.channel[i] != op { assert BarrierOk(s, i); }
  }

  lemma AppendedBarrier<T>(s: State<T>, op: Op<T>, s': State<T>, i: nat)
    requires s'.channel == s.channel + [op] && s'.ran == s.ran && i < |s'.channel| && (i < |s.channel| ==> BarrierOk(s, i))
    requires if op.Item? then s'.accepted == s.accepted + [op.item] && s'.flushes == s.flushes
             else s'.accepted == s.accepted && op.flush < |s.flushes| && s.flushes[op.flush].Sending? && op.flush !in s.ran
                  && s.flushes[op.flush].mark <= |s.accepted| && s'.flushes == s.flushes[op.flush := Waiting(s.flushes[op.flush].mark)]
    ensures BarrierOk(s', i)
  {
    assert Items([op]) == if op.Item? then [op.item] else [];
    if i < |s.channel| {
      assert s'.channel[i..] == s.channel[i..] + [op];
      ItemsConcat(s.channel[i..], [op]);
    } else {
      assert s'.channel[i..] == [op];
    }
  }

  lemma ReceiveStep<T>(s: State<T>, s': State<T>)
    requires Inv(s) && Acts(s, Receive, s')
    ensures Inv(s')
  {
    assert Items(s.channel) == InProgress(s'.writer) + Items(s'.channel);
    assert BarrierOk(s, 0) && s.channel[0..] == s.channel;
    forall i | 0 <= i < |s'.channel| ensures BarrierOk(s', i) {
      assert BarrierOk(s, i + 1) && s.channel[i + 1..] == s'.channel[i..];
    }
  }

  lemma FinishStep<T>(s: State<T>, s': State<T>)
    requires Inv(s) && Acts(s, Finish, s')
    ensures Inv(s')
  {
    forall i | 0 <= i < |s'.channel| ensures BarrierOk(s', i) { assert BarrierOk(s, i); }
  }

  lemma FlushStep<T>(s: State<T>, a: Action<T>, s': State<T>)
    requires Inv(s) && (a.Call? || a.Expire? || a.Return?) && Acts(s, a, s')
    ensures Inv(s')
  {
    hide Items;
    forall i | 0 <= i < |s'.channel| ensures BarrierOk(s', i) { assert BarrierOk(s, i); }
  }

  lemma Step<T>(s: State<T>, a: Action<T>, s': State<T>)
    requires Inv(s) && Acts(s, a, s')
    ensures Inv(s')
  {
    hide Inv;
    match a
    case Enqueue(item) => AppendStep(s, Item(item), s');
    case Send(f) => AppendStep(s, Barrier(f), s');
    case Receive => ReceiveStep(s, s');
    case Finish => FinishStep(s, s');
    case Overflow(_) =>
    case _ => FlushStep(s, a, s');
  }

  lemma {:induction false} Always<T>(run: seq<State<T>>, acts: seq<Action<T>>, n: nat)
    requires Run(run, acts) && n < |run|
    ensures Inv(run[n])
  {
    if n > 0 {
      Always(run, acts, n - 1);
      Step(run[n - 1], acts[n - 1], run[n]);
    }
  }

  // ---- The promises ------------------------------------------------------------------------------

  // At every moment of every run, the writes completed, the one in progress and the channel are
  // the accepted items, in order.
  lemma EveryAcceptedItemIsAccountedFor<T>(run: seq<State<T>>, acts: seq<Action<T>>, n: nat)
    requires Run(run, acts) && n < |run|
    ensures run[n].accepted == run[n].written + InProgress(run[n].writer) + Items(run[n].channel)
  {
    Always(run, acts, n);
  }

  // What happens once is in every later history.
  lemma {:induction false} HistoriesGrow<T>(run: seq<State<T>>, acts: seq<Action<T>>, m: nat, n: nat)
    requires Run(run, acts) && m <= n < |run|
    ensures run[m].accepted <= run[n].accepted && run[m].written <= run[n].written
    ensures |run[m].flushes| == |run[n].flushes|
    ensures forall f :: 0 <= f < |run[m].flushes| && run[m].flushes[f] != NotCalled ==>
              run[n].flushes[f] != NotCalled && Mark(run[n].flushes[f]) == Mark(run[m].flushes[f])
    ensures forall f :: f in run[m].ran ==> f in run[n].ran
  {
    if m < n {
      HistoriesGrow(run, acts, m, n - 1);
      assert Acts(run[n - 1], acts[n - 1], run[n]);
    }
  }

  // The barrier: a Flush called at step m that has returned nil by step n has run its fn, once,
  // after every item accepted before the call was written; and those items, in order, lead
  // what is written.
  lemma FlushIsABarrier<T>(run: seq<State<T>>, acts: seq<Action<T>>, m: nat, n: nat, f: nat)
    requires Run(run, acts) && m < n < |run| && acts[m] == Call(f) && f < |run[n].flushes|
    requires run[n].flushes[f].Returned? && run[n].flushes[f].ok
    ensures f in run[n].ran && |run[m].accepted| <= run[n].ran[f] <= |run[n].written|
    ensures run[n].written[..|run[m].accepted|] == run[m].accepted
  {
    assert Acts(run[m], acts[m], run[m + 1]);
    HistoriesGrow(run, acts, m + 1, n);
    HistoriesGrow(run, acts, m, n);
    Always(run, acts, n);
    var s := run[n];
    assert s.written <= s.accepted;
  }

  // fn runs at most once for a flush: once it has, the writer never serves that flush again, and
  // its barrier is never queued again.
  lemma {:induction false} FnRunsOnce<T>(run: seq<State<T>>, acts: seq<Action<T>>, m: nat, n: nat, f: nat)
    requires Run(run, acts) && m <= n < |run| && f in run[m].ran
    ensures f in run[n].ran && run[n].ran[f] == run[m].ran[f]
    ensures run[n].writer != Running(f) && Barrier(f) !in run[n].channel
  {
    if m < n {
      FnRunsOnce(run, acts, m, n - 1, f);
      assert Acts(run[n - 1], acts[n - 1], run[n]);
    }
    Always(run, acts, n);
    ServedOnce(run[n], f);
  }

  lemma ServedOnce<T>(s: State<T>, f: nat)
    requires Inv(s) && f in s.ran
    ensures s.writer != Running(f) && Barrier(f) !in s.channel
  {
    forall i | 0 <= i < |s.channel| ensures s.channel[i] != Barrier(f) { assert BarrierOk(s, i); }
  }

  // An item is accepted while the buffer has room, without a buffer while the writer waits for
  // one, and refused only when the buffer is full.
  lemma AcceptedExactly<T>(s: State<T>, item: T)
    ensures (exists s' :: Acts(s, Enqueue(item), s')) <==>
              |s.channel| < s.capacity || (s.capacity == 0 && |s.channel| == 0 && s.writer.Parked?)
    ensures (exists s' :: Acts(s, Overflow(item), s')) <==> |s.channel| >= s.capacity
    ensures forall s' :: Acts(s, Overflow(item), s') ==> s' == s
  {
    if |s.channel| < s.capacity || (s.capacity == 0 && |s.channel| == 0 && s.writer.Parked?) {
      assert Acts(s, Enqueue(item), s.(channel := s.channel + [Item(item)], accepted := s.accepted + [item]));
    }
    if |s.channel| >= s.capacity { assert Acts(s, Overflow(item), s); }
  }

  // The channel never holds more than its buffer; without one, only what the waiting writer takes.
  lemma {:induction false} ChannelIsBounded<T>(run: seq<State<T>>, acts: seq<Action<T>>, n: nat)
    requires Run(run, acts) && n < |run|
    ensures run[n].capacity == run[0].capacity
    ensures |run[n].channel| <= run[n].capacity || (run[n].capacity == 0 && |run[n].channel| == 1 && run[n].writer.Parked?)
  {
    if n > 0 {
      ChannelIsBounded(run, acts, n - 1);
      assert Acts(run[n - 1], acts[n - 1], run[n]);
    }
  }
}
