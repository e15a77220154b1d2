// The Idle Close watchdog (internal/idleclose/idleclose.go): activity counters sampled by a periodic
// sweep that closes sessions on their own limits, or sheds the quietest one for the process's.
module IdleClose {
  import opened Common

  type Id = nat

  const DEFAULT_SWEEP := 30 * SECOND
  const MIN_SWEEP_DIVISOR := 2

  datatype Policy = Policy(window: Time, sweep: Time, heapCeiling: nat, goroutineCeiling: nat, maxCycles: nat)
  datatype Usage = Usage(heap: nat, goroutines: nat)
  datatype Reason = Idle | MediaDead | Churn | Resource

  // marks, cycles, live and suspect are the lock-free counters and flags; the rest is the guard's.
  datatype Session = Session(marks: nat, cycles: nat, live: bool, suspect: bool, seen: nat, lastActive: Time, closed: bool)

  // One call of a session's close callback.
  datatype Closing = Closing(id: Id, reason: Reason, at: Time)

  // order: the enrolled sessions, first enrolled first. swept: the time of the last sweep.
  datatype State = State(order: seq<Id>, sessions: map<Id, Session>, next: Id, closings: seq<Closing>, swept: Time)

  datatype Op = Enroll | Mark(id: Id) | Activate(id: Id) | MediaSuspect(id: Id) | CycleStarted(id: Id) | Release(id: Id) | Sweep(usage: Usage)
  datatype Event = Event(at: Time, op: Op)

  // The cadence: positive, and within half of a positive window unless that is nothing.
  function SweepInterval(p: Policy): (d: Time)
    ensures d > 0
    ensures p.window >= MIN_SWEEP_DIVISOR ==> d <= p.window / MIN_SWEEP_DIVISOR
    ensures p.sweep > 0 && (p.window <= 0 || p.sweep <= p.window / MIN_SWEEP_DIVISOR) ==> d == p.sweep
    ensures p.window >= 2 && 2 * p.sweep > p.window ==> d == p.window / 2
    ensures p.sweep <= 0 && (p.window <= 0 || p.window >= 60_000_000_000) ==> d == 30_000_000_000
  {
    var d := if p.sweep <= 0 then DEFAULT_SWEEP else p.sweep;
    var capped := if p.window > 0 && d > p.window / MIN_SWEEP_DIVISOR then p.window / MIN_SWEEP_DIVISOR else d;
    if capped <= 0 then MILLISECOND else capped
  }

  // ---- The specification ----------------------------------------------------------------------

  // Moved marks are the evidence of audio, and retire a standing media verdict.
  function Refreshed(s: Session, now: Time): Session {
    if s.marks != s.seen then s.(seen := s.marks, lastActive := now, suspect := false) else s
  }

  // A session's own limit, churn before silence.
  function Breach(p: Policy, s: Session, now: Time): Option<Reason> {
    if s.closed || !s.live then None
    else if p.maxCycles > 0 && s.cycles > p.maxCycles then Some(Churn)
    else if p.window > 0 && now - s.lastActive >= p.window then Some(if s.suspect then MediaDead else Idle)
    else None
  }

  function Judged(p: Policy, s: Session, now: Time): Session {
    var r := Refreshed(s, now);
    if Breach(p, r, now).Some? then r.(closed := true) else r
  }

  // The breaches among the first n enrolled, in order.
  function Breaches(p: Policy, order: seq<Id>, ss: map<Id, Session>, now: Time): seq<Closing> {
    if order == [] then []
    else
      var id, rest := order[|order| - 1], Breaches(p, order[..|order| - 1], ss, now);
      if id in ss && Breach(p, Refreshed(ss[id], now), now).Some?
      then rest + [Closing(id, Breach(p, Refreshed(ss[id], now), now).value, now)] else rest
  }

  function JudgedAll(p: Policy, order: seq<Id>, ss: map<Id, Session>, now: Time): map<Id, Session> {
    map id | id in ss :: if id in order then Judged(p, ss[id], now) else ss[id]
  }

  predicate OverCeiling(p: Policy, u: Usage) {
    (p.heapCeiling > 0 && u.heap > p.heapCeiling) || (p.goroutineCeiling > 0 && u.goroutines > p.goroutineCeiling)
  }

  predicate Open(ss: map<Id, Session>, id: Id) {
    id in ss && !ss[id].closed && ss[id].live
  }

  // The open session heard from longest ago, the first enrolled of several.
  ghost predicate Quietest(order: seq<Id>, ss: map<Id, Session>, victim: Option<Id>) {
    match victim
    case None => forall i :: 0 <= i < |order| ==> !Open(ss, order[i])
    case Some(id) => exists k :: 0 <= k < |order| && order[k] == id && QuietestAt(order, ss, k)
  }

  ghost predicate QuietestAt(order: seq<Id>, ss: map<Id, Session>, k: nat)
    requires k < |order|
  {
    && Open(ss, order[k])
    && (forall i :: 0 <= i < |order| && Open(ss, order[i]) ==> ss[order[k]].lastActive <= ss[order[i]].lastActive)
    && (forall i :: 0 <= i < k && Open(ss, order[i]) ==> ss[order[k]].lastActive < ss[order[i]].lastActive)
  }

  function QuietestOf(order: seq<Id>, ss: map<Id, Session>): (v: Option<Id>)
    ensures v.Some? ==> Open(ss, v.value)
  {
    if order == [] then None
    else
      var best, id := QuietestOf(order[..|order| - 1], ss), order[|order| - 1];
      if !Open(ss, id) then best
      else if best.None? || ss[id].lastActive < ss[best.value].lastActive then Some(id)
      else best
  }

  lemma {:induction false} QuietestIsQuietest(order: seq<Id>, ss: map<Id, Session>)
    ensures Quietest(order, ss, QuietestOf(order, ss))
  {
    if order != [] {
      var front, n := order[..|order| - 1], |order| - 1;
      QuietestIsQuietest(front, ss);
      var best, id := QuietestOf(front, ss), order[n];
      assert forall i :: 0 <= i < n ==> front[i] == order[i];
      if best.Some? && QuietestOf(order, ss) == best {
        var k :| 0 <= k < |front| && front[k] == best.value && QuietestAt(front, ss, k);
        assert order[k] == best.value && QuietestAt(order, ss, k);
      } else if QuietestOf(order, ss).Some? {
        assert order[n] == id && QuietestAt(order, ss, n);
      }
    }
  }

  function Swept(p: Policy, s: State, u: Usage, now: Time): State {
    var judged, breaches := JudgedAll(p, s.order, s.sessions, now), Breaches(p, s.order, s.sessions, now);
    var victim := if breaches == [] && OverCeiling(p, u) then QuietestOf(s.order, judged) else None;
    s.(swept := now,
       sessions := if victim.Some? then judged[victim.value := judged[victim.value].(closed := true)] else judged,
       closings := s.closings + breaches + (if victim.Some? then [Closing(victim.value, Resource, now)] else []))
  }

  function Update(s: State, id: Id, f: Session -> Session): State {
    if id in s.sessions then s.(sessions := s.sessions[id := f(s.sessions[id])]) else s
  }

  function Without(ids: seq<Id>, id: Id): seq<Id> {
    if ids == [] then [] else Without(ids[..|ids| - 1], id) + (if ids[|ids| - 1] == id then [] else [ids[|ids| - 1]])
  }

  function Apply(p: Policy, s: State, e: Event): State {
    match e.op
    case Enroll => s.(order := s.order + [s.next], next := s.next + 1,
                      sessions := s.sessions[s.next := Session(0, 0, false, false, 0, e.at, false)])
    case Mark(id) => Update(s, id, (x: Session) => x.(marks := x.marks + 1))
    case Activate(id) => Update(s, id, (x: Session) => x.(live := true))
    case MediaSuspect(id) => Update(s, id, (x: Session) => x.(suspect := true))
    case CycleStarted(id) => Update(s, id, (x: Session) => x.(cycles := x.cycles + 1))
    case Release(id) => s.(order := Without(s.order, id))
    case Sweep(u) => Swept(p, s, u, e.at)
  }

  function Empty(start: Time): State { State([], map[], 0, [], start) }

  function Run(p: Policy, start: Time, events: seq<Event>): State {
    if events == [] then Empty(start) else Apply(p, Run(p, start, events[..|events| - 1]), events[|events| - 1])
  }

  // ---- The guard ---------------------------------------------------------------------------------

  class Guard {
    const policy: Policy
    var order: seq<Id>
    var sessions: map<Id, Session>
    var next: Id
    var closings: seq<Closing>
    ghost var swept: Time

    constructor (policy: Policy, start: Time)
      ensures Now() == Empty(start) && this.policy == policy && Valid()
    {
      this.policy, order, sessions, next, closings, swept := policy, [], map[], 0, [], start;
    }

    ghost function Now(): State reads this { State(order, sessions, next, closings, swept) }

    ghost predicate Valid() reads this { Sound(Now()) }

    method Enroll(at: Time) returns (id: Id)
      requires Valid()
      modifies this
      ensures Valid() && id == old(next) && Now() == Apply(policy, old(Now()), Event(at, Op.Enroll))
    {
      id := next;
      assert id !in order;
      sessions := sessions[id := Session(0, 0, false, false, 0, at, false)];
      order, next := order + [id], id + 1;
    }

    method Mark(id: Id, at: Time)
      requires Valid() && id in sessions
      modifies `sessions
      ensures Valid() && Now() == Apply(policy, old(Now()), Event(at, Op.Mark(id)))
    {
      sessions := sessions[id := sessions[id].(marks := sessions[id].marks + 1)];
    }

    method Activate(id: Id, at: Time)
      requires Valid() && id in sessions
      modifies `sessions
      ensures Valid() && Now() == Apply(policy, old(Now()), Event(at, Op.Activate(id)))
    {
      sessions := sessions[id := sessions[id].(live := true)];
    }

    method MediaSuspect(id: Id, at: Time)
      requires Valid() && id in sessions
      modifies `sessions
      ensures Valid() && Now() == Apply(policy, old(Now()), Event(at, Op.MediaSuspect(id)))
    {
      sessions := sessions[id := sessions[id].(suspect := true)];
    }

    method CycleStarted(id: Id, at: Time)
      requires Valid() && id in sessions
      modifies `sessions
      ensures Valid() && Now() == Apply(policy, old(Now()), Event(at, Op.CycleStarted(id)))
    {
      sessions := sessions[id := sessions[id].(cycles := sessions[id].cycles + 1)];
    }

    // Deregister, in place; an id already gone changes nothing.
    method Release(id: Id, at: Time)
      requires Valid()
      modifies `order
      ensures Valid() && Now() == Apply(policy, old(Now()), Event(at, Op.Release(id)))
    {
      WithoutSound(order, id);
      for i := 0 to |order|
        invariant order == old(order) && forall j :: 0 <= j < i ==> order[j] != id
      {
        if order[i] == id {
          WithoutOne(order, i);
          order := order[..i] + order[i + 1..];
          return;
        }
      }
      WithoutNone(order, id);
    }

    // One pass: refresh and judge every session, then shed at most one for the process.
    method SweepOnce(usage: Usage, now: Time)
      requires Valid()
      modifies this
      ensures Valid() && Now() == Apply(policy, old(Now()), Event(now, Sweep(usage)))
    {
      var breached := JudgeSessions(now);
      var victim: Option<Id> := None;
      if |breached| == 0 { victim := ShedQuietest(usage); }
      closings := closings + breached + (if victim.Some? then [Closing(victim.value, Resource, now)] else []);
      swept := now;
    }

    method JudgeSessions(now: Time) returns (breached: seq<Closing>)
      requires Valid()
      modifies `sessions
      ensures sessions == JudgedAll(policy, order, old(sessions), now) && breached == Breaches(policy, order, old(sessions), now)
    {
      hide Judged, Breach, Refreshed, JudgedAll, Breaches;
      breached := [];
      NoneJudged(policy, sessions, now);
      for i := 0 to |order|
        invariant sessions == JudgedAll(policy, order[..i], old(sessions), now)
        invariant breached == Breaches(policy, order[..i], old(sessions), now)
      {
        OneMoreJudged(policy, order, i, old(sessions), now);
        var reason := JudgeSession(order[i], now);
        if reason.Some? { breached := breached + [Closing(order[i], reason.value, now)]; }
      }
      assert order[..|order|] == order;
    }

    // Refresh one session's activity and mark it closed when it breached a limit of its own.
    method JudgeSession(id: Id, now: Time) returns (reason: Option<Reason>)
      requires id in sessions
      modifies `sessions
      ensures reason == Breach(policy, Refreshed(old(sessions)[id], now), now)
      ensures sessions == old(sessions)[id := Judged(policy, old(sessions)[id], now)]
    {
      var s := sessions[id];
      if s.marks != s.seen { s := s.(seen := s.marks, lastActive := now, suspect := false); }
      reason := None;
      if !(s.closed || !s.live) {
        if policy.maxCycles > 0 && s.cycles > policy.maxCycles {
          s, reason := s.(closed := true), Some(Churn);
        } else if policy.window > 0 && now - s.lastActive >= policy.window {
          s, reason := s.(closed := true), Some(if s.suspect then MediaDead else Idle);
        }
      }
      sessions := sessions[id := s];
    }

    // quietestLocked: over a ceiling, the quietest open session, marked closed.
    method ShedQuietest(usage: Usage) returns (victim: Option<Id>)
      modifies `sessions
      ensures victim == if OverCeiling(policy, usage) then QuietestOf(order, old(sessions)) else None
      ensures sessions == if victim.Some? then old(sessions)[victim.value := old(sessions)[victim.value].(closed := true)] else old(sessions)
    {
      victim := None;
      if !OverCeiling(policy, usage) { return; }
      for i := 0 to |order|
        invariant victim == QuietestOf(order[..i], sessions)
      {
        assert order[..i + 1][..i] == order[..i];
        var id := order[i];
        if !Open(sessions, id) { continue; }
        if victim.None? || sessions[id].lastActive < sessions[victim.value].lastActive { victim := Some(id); }
      }
      assert order[..|order|] == order;
      if victim.Some? { sessions := sessions[victim.value := sessions[victim.value].(closed := true)]; }
    }
  }

  lemma NoneJudged(p: Policy, ss: map<Id, Session>, now: Time)
    ensures JudgedAll(p, [], ss, now) == ss && Breaches(p, [], ss, now) == []
  {
  }

  // Judging the next enrolled session changes it alone, and adds at most its own breach.
  lemma OneMoreJudged(p: Policy, order: seq<Id>, i: nat, ss: map<Id, Session>, now: Time)
    requires i < |order| && order[i] in ss && forall j :: 0 <= j < i ==> order[j] != order[i]
    ensures order[i] in JudgedAll(p, order[..i], ss, now) && JudgedAll(p, order[..i], ss, now)[order[i]] == ss[order[i]]
    ensures JudgedAll(p, order[..i + 1], ss, now) == JudgedAll(p, order[..i], ss, now)[order[i] := Judged(p, ss[order[i]], now)]
    ensures var reason := Breach(p, Refreshed(ss[order[i]], now), now);
            Breaches(p, order[..i + 1], ss, now)
            == Breaches(p, order[..i], ss, now) + (if reason.Some? then [Closing(order[i], reason.value, now)] else [])
  {
    hide Judged, Breach, Refreshed;
    assert order[..i + 1] == order[..i] + [order[i]] && order[..i + 1][..i] == order[..i];
  }

  ghost predicate Sound(s: State) {
    && (forall i, j :: 0 <= i < j < |s.order| ==> s.order[i] != s.order[j])
    && (forall id :: id in s.order ==> id in s.sessions) && (forall id :: id in s.sessions ==> id < s.next)
  }

  lemma {:induction false} WithoutSound(ids: seq<Id>, id: Id)
    requires forall i, j :: 0 <= i < j < |ids| ==> ids[i] != ids[j]
    ensures forall x :: x in Without(ids, id) <==> x in ids && x != id
    ensures forall i, j :: 0 <= i < j < |Without(ids, id)| ==> Without(ids, id)[i] != Without(ids, id)[j]
  {
    if ids != [] {
      var front, last := ids[..|ids| - 1], ids[|ids| - 1];
      WithoutSound(front, id);
      assert ids == front + [last] && last !in front;
    }
  }

  lemma {:induction false} WithoutNone(ids: seq<Id>, id: Id)
    requires id !in ids
    ensures Without(ids, id) == ids
  {
    if ids != [] { WithoutNone(ids[..|ids| - 1], id); }
  }

  lemma {:induction false} WithoutOne(ids: seq<Id>, i: nat)
    requires i < |ids| && forall j, k :: 0 <= j < k < |ids| ==> ids[j] != ids[k]
    ensures Without(ids, ids[i]) == ids[..i] + ids[i + 1..]
  {
    var front := ids[..|ids| - 1];
    if i == |ids| - 1 {
      WithoutNone(front, ids[i]);
    } else {
      WithoutOne(front, i);
      assert ids[i + 1..] == front[i + 1..] + [ids[|ids| - 1]];
    }
  }

  // ---- Runs ----------------------------------------------------------------------------------------

  // Time does not run backwards.
  ghost predicate Timed(start: Time, events: seq<Event>) {
    && (forall i :: 0 <= i < |events| ==> start <= events[i].at)
    && (forall i, j :: 0 <= i <= j < |events| ==> events[i].at <= events[j].at)
  }

  lemma StepSound(p: Policy, s: State, e: Event)
    requires Sound(s)
    ensures Sound(Apply(p, s, e))
  {
    if e.op.Release? { WithoutSound(s.order, e.op.id); }
    if e.op.Enroll? { assert s.next !in s.order; }
  }

  lemma {:induction false} RunSound(p: Policy, start: Time, events: seq<Event>)
    ensures Sound(Run(p, start, events))
  {
    if events != [] {
      RunSound(p, start, events[..|events| - 1]);
      StepSound(p, Run(p, start, events[..|events| - 1]), events[|events| - 1]);
    }
  }

  lemma {:induction false} BreachesAre(p: Policy, order: seq<Id>, ss: map<Id, Session>, now: Time)
    ensures forall c :: c in Breaches(p, order, ss, now) <==>
              c.id in order && c.id in ss && c.at == now && Breach(p, Refreshed(ss[c.id], now), now) == Some(c.reason)
    ensures Breaches(p, order, ss, now) == [] ==> forall id :: id in order && id in ss ==> Breach(p, Refreshed(ss[id], now), now) == None
    ensures (forall i, j :: 0 <= i < j < |order| ==> order[i] != order[j]) ==>
              forall i, j :: 0 <= i < j < |Breaches(p, order, ss, now)| ==> Breaches(p, order, ss, now)[i].id != Breaches(p, order, ss, now)[j].id
  {
    if order != [] {
      var front, last := order[..|order| - 1], order[|order| - 1];
      BreachesAre(p, front, ss, now);
      assert order == front + [last];
      if forall i, j :: 0 <= i < j < |order| ==> order[i] != order[j] {
        assert last !in front;
        var rest := Breaches(p, front, ss, now);
        assert forall i :: 0 <= i < |rest| ==> rest[i] in rest;
      }
    }
  }

  // What one sweep adds to the closings.
  function News(p: Policy, s: State, u: Usage, now: Time): seq<Closing> {
    Swept(p, s, u, now).closings[|s.closings|..]
  }

  // A sweep sheds for the process at most once, only over a ceiling and with no session over a
  // limit of its own, and then the quietest open session, first enrolled first.
  lemma ShedsAtMostTheQuietest(p: Policy, s: State, u: Usage, now: Time)
    requires Sound(s) && exists c :: c in News(p, s, u, now) && c.reason == Resource
    ensures OverCeiling(p, u) && |News(p, s, u, now)| == 1 && News(p, s, u, now)[0].reason == Resource
    ensures forall id :: id in s.order ==> Breach(p, Refreshed(s.sessions[id], now), now) == None
    ensures Quietest(s.order, JudgedAll(p, s.order, s.sessions, now), Some(News(p, s, u, now)[0].id))
  {
    var breaches, judged := Breaches(p, s.order, s.sessions, now), JudgedAll(p, s.order, s.sessions, now);
    BreachesAre(p, s.order, s.sessions, now);
    QuietestIsQuietest(s.order, judged);
  }

  // ---- No session is closed twice ---------------------------------------------------------------

  ghost predicate ClosedOk(s: State) {
    && (forall i, j :: 0 <= i < j < |s.closings| ==> s.closings[i].id != s.closings[j].id)
    && (forall c :: c in s.closings ==> c.id in s.sessions && s.sessions[c.id].closed)
  }

  // Every closing of a sweep is of a session enrolled, activated and not closed before it.
  lemma ClosedWhileLive(p: Policy, s: State, u: Usage, now: Time)
    requires Sound(s)
    ensures forall c :: c in News(p, s, u, now) ==>
              c.id in s.order && s.sessions[c.id].live && !s.sessions[c.id].closed && Swept(p, s, u, now).sessions[c.id].closed
    ensures forall i, j :: 0 <= i < j < |News(p, s, u, now)| ==> News(p, s, u, now)[i].id != News(p, s, u, now)[j].id
  {
    BreachesAre(p, s.order, s.sessions, now);
    var judged := JudgedAll(p, s.order, s.sessions, now);
    if Breaches(p, s.order, s.sessions, now) == [] && OverCeiling(p, u) {
      QuietestIsQuietest(s.order, judged);
    } else {
      assert News(p, s, u, now) == Breaches(p, s.order, s.sessions, now);
    }
  }

  // On every run no session is closed twice, and one whose close was called is marked closed.
  lemma {:induction false} ClosedAtMostOnce(p: Policy, start: Time, events: seq<Event>)
    ensures ClosedOk(Run(p, start, events))
  {
    hide ClosedOk, Sound, Apply;
    NothingClosed(start);
    if events != [] {
      var before, e := events[..|events| - 1], events[|events| - 1];
      ClosedAtMostOnce(p, start, before);
      RunSound(p, start, before);
      ClosedStep(p, Run(p, start, before), e);
    }
  }

  lemma NothingClosed(start: Time)
    ensures ClosedOk(Empty(start))
  {
  }

  lemma ClosedStep(p: Policy, s: State, e: Event)
    requires Sound(s) && ClosedOk(s)
    ensures ClosedOk(Apply(p, s, e))
  {
    hide Swept, News;
    if e.op.Sweep? {
      ClosedWhileLive(p, s, e.op.usage, e.at);
      SweepKeepsClosed(p, s, e.op.usage, e.at);
      MoreClosings(s, Swept(p, s, e.op.usage, e.at), News(p, s, e.op.usage, e.at));
    }
  }

  // Closings of sessions not closed before, and closed now.
  lemma MoreClosings(s: State, t: State, news: seq<Closing>)
    requires ClosedOk(s) && t.closings == s.closings + news
    requires forall id :: id in s.sessions && s.sessions[id].closed ==> id in t.sessions && t.sessions[id].closed
    requires forall c :: c in news ==> c.id in s.sessions && !s.sessions[c.id].closed && c.id in t.sessions && t.sessions[c.id].closed
    requires forall i, j :: 0 <= i < j < |news| ==> news[i].id != news[j].id
    ensures ClosedOk(t)
  {
    assert forall i :: 0 <= i < |s.closings| ==> s.closings[i] in s.closings;
    assert forall i :: 0 <= i < |news| ==> news[i] in news;
  }

  lemma SweepKeepsClosed(p: Policy, s: State, u: Usage, now: Time)
    ensures Swept(p, s, u, now).closings == s.closings + News(p, s, u, now)
    ensures Swept(p, s, u, now).sessions.Keys == s.sessions.Keys
    ensures forall id :: id in s.sessions && s.sessions[id].closed ==> id in Swept(p, s, u, now).sessions && Swept(p, s, u, now).sessions[id].closed
  {
  }

  // ---- What a sweep does, to whom and why ---------------------------------------------------------

  // When a session was last heard, as a sweep at `now` sees it.
  function HeardAt(x: Session, now: Time): Time { if x.marks != x.seen then now else x.lastActive }

  // The session restarted more often than allowed, or has been silent for the window.
  predicate Churns(p: Policy, x: Session) { p.maxCycles > 0 && x.cycles > p.maxCycles }

  predicate Silent(p: Policy, x: Session, now: Time) { p.window > 0 && now >= HeardAt(x, now) + p.window }

  lemma NewsAre(p: Policy, s: State, u: Usage, now: Time)
    ensures var breaches, victim := Breaches(p, s.order, s.sessions, now), QuietestOf(s.order, JudgedAll(p, s.order, s.sessions, now));
            News(p, s, u, now) == breaches + if breaches == [] && OverCeiling(p, u) && victim.Some?
                                             then [Closing(victim.value, Resource, now)] else []
  {
    hide Breaches, JudgedAll, QuietestOf, OverCeiling;
  }

  // A sweep closes, for a reason of its own, exactly the open sessions that churn, and of the
  // others those silent, which is put on the media when they were suspect and nothing was heard.
  lemma OwnClosingsExactly(p: Policy, s: State, u: Usage, now: Time, c: Closing)
    requires Sound(s) && c.reason != Resource
    ensures c in News(p, s, u, now) <==>
              && c.at == now && c.id in s.order && s.sessions[c.id].live && !s.sessions[c.id].closed
              && var x := s.sessions[c.id];
                 if Churns(p, x) then c.reason == Churn
                 else Silent(p, x, now) && c.reason == if x.suspect && x.marks == x.seen then MediaDead else Idle
  {
    hide Breaches, News, QuietestOf;
    BreachesAre(p, s.order, s.sessions, now);
    NewsAre(p, s, u, now);
  }

  // It sheds one for the process exactly when none has a reason of its own, a ceiling that is set
  // is exceeded, and there is an open session.
  lemma ShedsExactly(p: Policy, s: State, u: Usage, now: Time)
    requires Sound(s)
    ensures (exists c :: c in News(p, s, u, now) && c.reason == Resource) <==>
              && ((p.heapCeiling > 0 && u.heap > p.heapCeiling) || (p.goroutineCeiling > 0 && u.goroutines > p.goroutineCeiling))
              && (forall id :: id in s.order && s.sessions[id].live && !s.sessions[id].closed ==>
                    !Churns(p, s.sessions[id]) && !Silent(p, s.sessions[id], now))
              && exists id :: id in s.order && s.sessions[id].live && !s.sessions[id].closed
  {
    var breaches, judged := Breaches(p, s.order, s.sessions, now), JudgedAll(p, s.order, s.sessions, now);
    hide Breaches, QuietestOf, Quietest, News, JudgedAll, Churns, Silent;
    BreachesAre(p, s.order, s.sessions, now);
    NoneBreaches(p, s, now);
    NewsAre(p, s, u, now);
    if breaches == [] { OpenAfter(p, s, now); }
    assert forall c :: c in breaches ==> c.reason != Resource;
    if breaches == [] && OverCeiling(p, u) && QuietestOf(s.order, judged).Some? {
      assert Closing(QuietestOf(s.order, judged).value, Resource, now) in News(p, s, u, now);
    }
  }

  lemma NoneBreaches(p: Policy, s: State, now: Time)
    requires Sound(s)
    ensures Breaches(p, s.order, s.sessions, now) == [] <==>
              forall id :: id in s.order && s.sessions[id].live && !s.sessions[id].closed ==>
                !Churns(p, s.sessions[id]) && !Silent(p, s.sessions[id], now)
  {
    BreachesAre(p, s.order, s.sessions, now);
    hide Breaches;
    var breaches := Breaches(p, s.order, s.sessions, now);
    if breaches != [] {
      assert breaches[0] in breaches;
    } else {
      forall id | id in s.order && s.sessions[id].live && !s.sessions[id].closed
        ensures !Churns(p, s.sessions[id]) && !Silent(p, s.sessions[id], now)
      {
        assert Breach(p, Refreshed(s.sessions[id], now), now) == None;
      }
    }
  }

  // With no breach, the sessions open before the sweep are open to be shed.
  lemma OpenAfter(p: Policy, s: State, now: Time)
    requires Sound(s) && Breaches(p, s.order, s.sessions, now) == []
    ensures QuietestOf(s.order, JudgedAll(p, s.order, s.sessions, now)).Some? <==>
              exists id :: id in s.order && s.sessions[id].live && !s.sessions[id].closed
  {
    BreachesAre(p, s.order, s.sessions, now);
    hide Breaches;
    var judged := JudgedAll(p, s.order, s.sessions, now);
    QuietestIsQuietest(s.order, judged);
    hide QuietestOf;
    assert forall id :: id in s.order ==> (Open(judged, id) <==> s.sessions[id].live && !s.sessions[id].closed);
  }

  // ---- Where a session's fields come from ---------------------------------------------------------

  function Count(events: seq<Event>, op: Op): nat {
    if events == [] then 0 else Count(events[..|events| - 1], op) + (if events[|events| - 1].op == op then 1 else 0)
  }

  // A sweep that hears the session: marks have moved since the last one.
  predicate Hears(s: State, e: Event, id: Id) {
    e.op.Sweep? && id in s.order && id in s.sessions && s.sessions[id].marks != s.sessions[id].seen
  }

  // One event, for one session: its own calls move its counters and flags, a sweep that hears it
  // moves its activity and retires its verdict, a sweep that closes it marks it closed.
  lemma SessionStep(p: Policy, s: State, e: Event, id: Id)
    requires Sound(s) && id in s.sessions
    ensures id in Apply(p, s, e).sessions
    ensures var x, y := s.sessions[id], Apply(p, s, e).sessions[id];
            && y.marks == x.marks + (if e.op == Mark(id) then 1 else 0)
            && y.cycles == x.cycles + (if e.op == CycleStarted(id) then 1 else 0)
            && (y.live <==> x.live || e.op == Activate(id))
            && (y.suspect <==> e.op == MediaSuspect(id) || (x.suspect && !Hears(s, e, id)))
            && y.seen == (if Hears(s, e, id) then x.marks else x.seen)
            && y.lastActive == (if Hears(s, e, id) then e.at else x.lastActive)
    ensures Apply(p, s, e).sessions[id].closed <==>
              s.sessions[id].closed || (e.op.Sweep? && exists c :: c in News(p, s, e.op.usage, e.at) && c.id == id)
  {
    hide Swept, News;
    if e.op.Sweep? {
      SweptClosed(p, s, e.op.usage, e.at, id);
      SweptFields(p, s, e.op.usage, e.at, id);
    }
  }

  lemma SweptFields(p: Policy, s: State, u: Usage, now: Time, id: Id)
    requires Sound(s) && id in s.sessions
    ensures id in Swept(p, s, u, now).sessions
    ensures var x, y := s.sessions[id], Swept(p, s, u, now).sessions[id];
            y == if id in s.order && x.marks != x.seen then x.(seen := x.marks, lastActive := now, suspect := false, closed := y.closed)
                 else x.(closed := y.closed)
  {
    hide QuietestOf, Breaches;
  }

  lemma SweptClosed(p: Policy, s: State, u: Usage, now: Time, id: Id)
    requires Sound(s) && id in s.sessions
    ensures Swept(p, s, u, now).sessions[id].closed <==>
              s.sessions[id].closed || exists c :: c in News(p, s, u, now) && c.id == id
  {
    hide QuietestOf, Breaches, News;
    ClosedWhileLive(p, s, u, now);
    BreachesAre(p, s.order, s.sessions, now);
    NewsAre(p, s, u, now);
    var breaches, judged := Breaches(p, s.order, s.sessions, now), JudgedAll(p, s.order, s.sessions, now);
    var news := News(p, s, u, now);
    if Swept(p, s, u, now).sessions[id].closed && !s.sessions[id].closed {
      if judged[id].closed {
        var reason := Breach(p, Refreshed(s.sessions[id], now), now);
        assert Closing(id, reason.value, now) in breaches && Closing(id, reason.value, now) in news;
      } else {
        assert breaches == [] && news == [Closing(id, Resource, now)] && news[0] in news;
      }
    }
  }

  // A session is enrolled fresh, and in the order from then until its release.
  lemma OrderStep(p: Policy, s: State, e: Event, id: Id)
    requires Sound(s)
    ensures id in Apply(p, s, e).order <==> (id in s.order && e.op != Release(id)) || (e.op.Enroll? && id == s.next)
    ensures id !in s.sessions ==>
              (id in Apply(p, s, e).sessions <==> e.op.Enroll? && id == s.next)
              && (id in Apply(p, s, e).sessions ==> Apply(p, s, e).sessions[id] == Session(0, 0, false, false, 0, e.at, false))
  {
    if e.op.Release? { WithoutSound(s.order, e.op.id); }
  }

  // Calls come from the handle that enrolling gave out.
  ghost predicate Handled(p: Policy, start: Time, events: seq<Event>, id: Id) {
    forall i :: 0 <= i < |events| && events[i].op in {Mark(id), CycleStarted(id), Activate(id), MediaSuspect(id)} ==>
      id in Run(p, start, events[..i]).sessions
  }

  ghost predicate SuspectedSince(p: Policy, start: Time, events: seq<Event>, id: Id) {
    exists i :: 0 <= i < |events| && events[i].op == MediaSuspect(id)
      && forall k :: i < k < |events| ==> !Hears(Run(p, start, events[..k]), events[k], id)
  }

  // The counters are the numbers of calls, a session is live once activated, and suspect when a
  // verdict has not been followed by a sweep that heard it.
  lemma {:induction false} FieldsAreTheCalls(p: Policy, start: Time, events: seq<Event>, id: Id)
    requires Handled(p, start, events, id)
    ensures var s := Run(p, start, events);
            && (id in s.sessions ==>
                  var x := s.sessions[id];
                  && x.marks == Count(events, Mark(id)) && x.cycles == Count(events, CycleStarted(id))
                  && (x.live <==> Count(events, Activate(id)) > 0)
                  && (x.suspect <==> SuspectedSince(p, start, events, id)))
            && (id !in s.sessions ==>
                  && Count(events, Mark(id)) == Count(events, CycleStarted(id)) == Count(events, Activate(id)) == 0
                  && !SuspectedSince(p, start, events, id))
  {
    hide Apply, Sound, Hears;
    if events != [] {
      var before, e := events[..|events| - 1], events[|events| - 1];
      assert events == before + [e];
      assert forall i :: 0 <= i < |before| ==> before[..i] == events[..i];
      FieldsAreTheCalls(p, start, before, id);
      RunSound(p, start, before);
      var s := Run(p, start, before);
      SuspectedStep(p, start, before, e, id);
      if id in s.sessions { SessionStep(p, s, e, id); } else { OrderStep(p, s, e, id); }
      NotHeard(s, e, id);
    }
  }

  lemma NotHeard(s: State, e: Event, id: Id)
    ensures id !in s.sessions ==> !Hears(s, e, id)
  {
  }

  lemma SuspectedStep(p: Policy, start: Time, before: seq<Event>, e: Event, id: Id)
    ensures SuspectedSince(p, start, before + [e], id) <==>
              e.op == MediaSuspect(id) || (SuspectedSince(p, start, before, id) && !Hears(Run(p, start, before), e, id))
  {
    hide Run, Hears;
    var events := before + [e];
    assert events[..|before|] == before && forall k :: 0 <= k < |before| ==> events[..k] == before[..k];
    if e.op == MediaSuspect(id) {
      assert events[|before|].op == MediaSuspect(id);
    } else if SuspectedSince(p, start, before, id) && !Hears(Run(p, start, before), e, id) {
      var i :| 0 <= i < |before| && before[i].op == MediaSuspect(id)
        && forall k :: i < k < |before| ==> !Hears(Run(p, start, before[..k]), before[k], id);
      assert events[i].op == MediaSuspect(id);
    }
  }

  // ---- Closed for silence means silent ------------------------------------------------------------

  ghost predicate Marked(events: seq<Event>, id: Id, since: Time) {
    exists i :: 0 <= i < |events| && events[i].op == Mark(id) && events[i].at > since
  }

  // Marks name enrolled sessions.
  ghost predicate Named(p: Policy, start: Time, events: seq<Event>) {
    forall i :: 0 <= i < |events| && events[i].op.Mark? ==> events[i].op.id in Run(p, start, events[..i]).sessions
  }

  // A session whose marks are all seen has none later than its last activity.
  ghost predicate HeardOk(s: State, events: seq<Event>, id: Id) {
    if id in s.sessions then
      var x := s.sessions[id];
      x.seen <= x.marks && (x.seen == x.marks ==> !Marked(events, id, x.lastActive))
    else forall i :: 0 <= i < |events| ==> events[i].op != Mark(id)
  }

  lemma MarkedGrows(before: seq<Event>, e: Event, id: Id, since: Time)
    ensures Marked(before + [e], id, since) <==> Marked(before, id, since) || (e.op == Mark(id) && e.at > since)
  {
    var events := before + [e];
    if Marked(before, id, since) {
      var i :| 0 <= i < |before| && before[i].op == Mark(id) && before[i].at > since;
      assert events[i].op == Mark(id) && events[i].at > since;
    }
    if e.op == Mark(id) && e.at > since { assert events[|before|].op == Mark(id) && events[|before|].at > since; }
  }

  lemma {:induction false} HeardAlways(p: Policy, start: Time, events: seq<Event>, id: Id)
    requires Timed(start, events) && Named(p, start, events)
    ensures HeardOk(Run(p, start, events), events, id)
  {
    if events != [] {
      var before, e := events[..|events| - 1], events[|events| - 1];
      assert events == before + [e];
      assert forall i :: 0 <= i < |before| ==> before[..i] == events[..i];
      HeardAlways(p, start, before, id);
      RunSound(p, start, before);
      var s := Run(p, start, before);
      if id in s.sessions { MarkedGrows(before, e, id, s.sessions[id].lastActive); }
      MarkedGrows(before, e, id, e.at);
      HeardStep(p, s, before, e, id);
    }
  }

  lemma HeardStep(p: Policy, s: State, before: seq<Event>, e: Event, id: Id)
    requires Sound(s) && HeardOk(s, before, id) && (e.op == Mark(id) ==> id in s.sessions)
    requires forall i :: 0 <= i < |before| ==> before[i].at <= e.at
    ensures HeardOk(Apply(p, s, e), before + [e], id)
  {
    var s' := Apply(p, s, e);
    if id in s'.sessions { MarkedGrows(before, e, id, s'.sessions[id].lastActive); }
  }

  lemma {:induction false} ActiveSinceEnrolled(p: Policy, start: Time, events: seq<Event>, i: nat, id: Id)
    requires Timed(start, events) && i < |events| && events[i].op.Enroll? && Run(p, start, events[..i]).next == id
    ensures id in Run(p, start, events).sessions && Run(p, start, events).sessions[id].lastActive >= events[i].at
  {
    hide Apply;
    var before, e := events[..|events| - 1], events[|events| - 1];
    assert before[..i] == events[..i] && events == before + [e];
    RunSound(p, start, before);
    var s := Run(p, start, before);
    if i == |before| {
      assert before[..i] == before;
      OrderStep(p, s, e, id);
    } else {
      ActiveSinceEnrolled(p, start, before, i, id);
      SessionStep(p, s, e, id);
    }
  }

  // A session closed for silence received no mark within the window, nor was it enrolled in it.
  lemma IdleMeansSilent(p: Policy, start: Time, events: seq<Event>, u: Usage, now: Time, c: Closing)
    requires Timed(start, events + [Event(now, Sweep(u))]) && Named(p, start, events)
    requires c in News(p, Run(p, start, events), u, now) && (c.reason == Idle || c.reason == MediaDead)
    ensures !Marked(events, c.id, now - p.window) && c.at == now
    ensures forall i :: 0 <= i < |events| && events[i].op.Enroll? && Run(p, start, events[..i]).next == c.id ==> events[i].at <= now - p.window
  {
    var s := Run(p, start, events);
    var all := events + [Event(now, Sweep(u))];
    assert forall i :: 0 <= i < |events| ==> events[i] == all[i];
    assert Timed(start, events);
    RunSound(p, start, events);
    HeardAlways(p, start, events, c.id);
    BreachesAre(p, s.order, s.sessions, now);
    var x := Refreshed(s.sessions[c.id], now);
    assert c in Breaches(p, s.order, s.sessions, now);
    MarkedSince(events, c.id, s.sessions[c.id].lastActive, now - p.window);
    forall i | 0 <= i < |events| && events[i].op.Enroll? && Run(p, start, events[..i]).next == c.id ensures events[i].at <= now - p.window {
      ActiveSinceEnrolled(p, start, events, i, c.id);
    }
  }

  lemma MarkedSince(events: seq<Event>, id: Id, since: Time, later: Time)
    ensures since <= later && Marked(events, id, later) ==> Marked(events, id, since)
  {
  }

  // ---- The deadline -----------------------------------------------------------------------------------

  // Sweeps come at least every `gap`.
  ghost predicate Cadence(p: Policy, start: Time, events: seq<Event>, gap: Time) {
    forall i :: 0 <= i < |events| ==> events[i].at - Run(p, start, events[..i]).swept <= gap
  }

  function TimeAt(start: Time, events: seq<Event>, m: nat): Time
    requires m <= |events|
  {
    if m == 0 then start else events[m - 1].at
  }

  // An open session silent since t, before and after the first sweep that follows.
  ghost predicate Waiting(p: Policy, s: State, id: Id, t: Time, gap: Time) {
    id in s.order && id in s.sessions &&
    var x := s.sessions[id];
    x.live && (x.closed || (s.swept <= t && x.lastActive <= t)
               || (x.marks == x.seen && x.lastActive <= t + gap && s.swept - x.lastActive < p.window))
  }

  lemma WaitingStep(p: Policy, s: State, e: Event, id: Id, t: Time, gap: Time)
    requires Sound(s) && Waiting(p, s, id, t, gap) && p.window > 0 && gap >= 0
    requires e.op != Mark(id) && e.op != Release(id) && e.at - s.swept <= gap
    ensures Waiting(p, Apply(p, s, e), id, t, gap)
    ensures !Apply(p, s, e).sessions[id].closed ==> e.at < t + p.window + 2 * gap
  {
    if e.op.Release? { WithoutSound(s.order, e.op.id); }
  }

  // No session's activity, nor the last sweep, is in the future.
  ghost predicate PastOnly(s: State, t: Time) {
    s.swept <= t && forall id :: id in s.sessions ==> s.sessions[id].lastActive <= t
  }

  lemma PastStep(p: Policy, s: State, e: Event)
    requires PastOnly(s, e.at)
    ensures PastOnly(Apply(p, s, e), e.at)
  {
  }

  lemma {:induction false} PastAlways(p: Policy, start: Time, events: seq<Event>)
    requires Timed(start, events)
    ensures PastOnly(Run(p, start, events), TimeAt(start, events, |events|))
  {
    hide Apply;
    if events != [] {
      PastAlways(p, start, events[..|events| - 1]);
      PastStep(p, Run(p, start, events[..|events| - 1]), events[|events| - 1]);
    }
  }

  // A live session silent since step m is closed by the window and two sweep intervals later.
  lemma {:induction false} ClosedByDeadline(p: Policy, start: Time, events: seq<Event>, m: nat, id: Id, gap: Time)
    requires Timed(start, events) && Cadence(p, start, events, gap) && p.window > 0 && gap >= 0 && m <= |events|
    requires var s := Run(p, start, events[..m]); id in s.order && id in s.sessions && s.sessions[id].live
    requires forall i :: m <= i < |events| ==> events[i].op != Mark(id) && events[i].op != Release(id)
    ensures Waiting(p, Run(p, start, events), id, TimeAt(start, events, m), gap)
    ensures |events| > m && events[|events| - 1].at >= TimeAt(start, events, m) + p.window + 2 * gap ==>
              Run(p, start, events).sessions[id].closed
  {
    assert events[..|events|] == events;
    if m == |events| {
      PastAlways(p, start, events);
    } else {
      var before, e := events[..|events| - 1], events[|events| - 1];
      assert before[..m] == events[..m] && TimeAt(start, before, m) == TimeAt(start, events, m);
      assert forall i :: 0 <= i < |before| ==> before[..i] == events[..i];
      ClosedByDeadline(p, start, before, m, id, gap);
      RunSound(p, start, before);
      WaitingStep(p, Run(p, start, before), e, id, TimeAt(start, events, m), gap);
    }
  }
}
