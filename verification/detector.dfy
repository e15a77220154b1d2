// The highlight detector's worker (internal/highlight/detector.go): a rolling transcript window,
// classified every few finals, promoting a run of high scores to a trigger.
module Detector {
  import opened Common

  const WINDOW_CAP := 40
  const TAPE_WINDOW := 120 * SECOND

  // Defaults applied: every number is positive.
  datatype Config = Config(classifyEvery: nat, cooldown: Time, bar: real, confirmWindows: nat, maxCandidates: nat, lead: Time, tail: Time) {
    ghost predicate Sane() {
      classifyEvery > 0 && cooldown > 0 && bar > 0.0 && confirmWindows > 0 && maxCandidates > 0 && lead > 0 && tail > 0
    }
  }

  function OrDefault(x: int, d: nat): (r: nat)
    requires d > 0
    ensures r > 0 && (x > 0 ==> r == x)
  {
    if x <= 0 then d else x
  }

  // The zero values take the package defaults.
  function WithDefaults(classifyEvery: int, cooldown: Time, bar: real, confirmWindows: int, maxCandidates: int, lead: Time, tail: Time): (c: Config)
    ensures c.Sane()
    ensures (classifyEvery > 0 ==> c.classifyEvery == classifyEvery) && (cooldown > 0 ==> c.cooldown == cooldown) && (bar > 0.0 ==> c.bar == bar)
    ensures (confirmWindows > 0 ==> c.confirmWindows == confirmWindows) && (maxCandidates > 0 ==> c.maxCandidates == maxCandidates)
    ensures (lead > 0 ==> c.lead == lead) && (tail > 0 ==> c.tail == tail)
  {
    Config(OrDefault(classifyEvery, 6), OrDefault(cooldown, 120 * SECOND), if bar <= 0.0 then 8.0 else bar,
           OrDefault(confirmWindows, 2), OrDefault(maxCandidates, 10), OrDefault(lead, 15 * SECOND), OrDefault(tail, 5 * SECOND))
  }

  lemma ZerosTakeTheDefaults()
    ensures WithDefaults(0, 0, 0.0, 0, 0, 0, 0) == Config(6, 120_000_000_000, 8.0, 2, 10, 15_000_000_000, 5_000_000_000)
  {
  }

  datatype Line = Line(speaker: string, text: string, at: Option<Time>)

  // One final, trimmed, with what the clock, the spend gate and the classifier would say to it.
  datatype Input = Input(line: Line, now: Time, allowed: bool, score: real)

  // Every classifier pass, and every point where a cooldown broke the streak.
  datatype Mark = Pass(score: real, anchor: Time, now: Time) | Cooled

  datatype Trigger = Trigger(at: Time, from: Time, to: Time, score: real, now: Time)

  // ends[i]: how many marks there were when trigger i was emitted.
  datatype State = State(window: seq<Line>, since: nat, streak: nat, firstHigh: Option<Time>, count: nat, lastTrigger: Option<Time>,
                         disarmed: bool, marks: seq<Mark>, triggers: seq<Trigger>, ends: seq<nat>)

  const START := State([], 0, 0, None, 0, None, false, [], [], [])

  // ---- The specification ---------------------------------------------------------------------

  function Latest<T>(xs: seq<T>, n: nat): seq<T> {
    if |xs| <= n then xs else xs[|xs| - n..]
  }

  function Anchor(i: Input): Time {
    if i.line.at.Some? then i.line.at.value else i.now
  }

  // From is clamped to what the tape still holds.
  function Emitted(c: Config, anchor: Time, score: real, now: Time): Trigger {
    var from := if anchor - c.lead < now - TAPE_WINDOW then now - TAPE_WINDOW else anchor - c.lead;
    Trigger(anchor, from, anchor + c.tail, score, now)
  }

  predicate Cooling(c: Config, s: State, now: Time) {
    s.lastTrigger.Some? && now - s.lastTrigger.value < c.cooldown
  }

  // A pass that was made.
  function Judged(c: Config, s: State, i: Input): State {
    var marks := s.marks + [Pass(i.score, Anchor(i), i.now)];
    if i.score < c.bar then s.(marks := marks, streak := 0, firstHigh := None)
    else
      var first := if s.streak == 0 || s.firstHigh.None? then Anchor(i) else s.firstHigh.value;
      if s.streak + 1 < c.confirmWindows then s.(marks := marks, streak := s.streak + 1, firstHigh := Some(first))
      else s.(marks := marks, streak := 0, firstHigh := None, count := s.count + 1, lastTrigger := Some(i.now),
              triggers := s.triggers + [Emitted(c, first, i.score, i.now)], ends := s.ends + [|marks|])
  }

  function Classified(c: Config, s: State, i: Input): State {
    if s.count >= c.maxCandidates || s.disarmed then s
    else if Cooling(c, s, i.now) then s.(streak := 0, marks := s.marks + [Cooled])
    else if !i.allowed then s.(disarmed := true)
    else Judged(c, s, i)
  }

  function Step(c: Config, s: State, i: Input): State {
    if i.line.text == "" then s
    else
      var t := s.(window := Latest(s.window + [i.line], WINDOW_CAP));
      if s.since + 1 < c.classifyEvery then t.(since := s.since + 1) else Classified(c, t.(since := 0), i)
  }

  function Run(c: Config, inputs: seq<Input>): State {
    if inputs == [] then START else Step(c, Run(c, inputs[..|inputs| - 1]), inputs[|inputs| - 1])
  }

  // ---- The worker -----------------------------------------------------------------------------

  class Worker {
    const c: Config
    var window: seq<Line>
    var since: nat
    var streak: nat
    var firstHigh: Option<Time>
    var count: nat
    var lastTrigger: Option<Time>
    var disarmed: bool
    var triggers: seq<Trigger>
    ghost var marks: seq<Mark>
    ghost var ends: seq<nat>

    constructor (c: Config)
      ensures Now() == START && this.c == c
    {
      this.c := c;
      window, since, streak, firstHigh, count, lastTrigger, disarmed, triggers := [], 0, 0, None, 0, None, false, [];
      marks, ends := [], [];
    }

    ghost function Now(): State reads this {
      State(window, since, streak, firstHigh, count, lastTrigger, disarmed, marks, triggers, ends)
    }

    // A streak's first high window is known while it lasts.
    ghost predicate Valid() reads this { Inv(c, Now()) }

    method HandleFinal(i: Input)
      requires c.Sane() && Valid()
      modifies this
      ensures Valid() && Now() == Step(c, old(Now()), i)
    {
      ghost var was := Now();
      StepInv(c, was, i);
      var counts := AppendLine(i.line);
      if !counts { return; }
      since := since + 1;
      if since < c.classifyEvery { return; }
      since := 0;
      Classify(i);
    }

    method AppendLine(line: Line) returns (counts: bool)
      modifies `window
      ensures counts == (line.text != "") && window == if counts then Latest(old(window) + [line], WINDOW_CAP) else old(window)
    {
      if line.text == "" { return false; }
      window := window + [line];
      if |window| > WINDOW_CAP { window := window[|window| - WINDOW_CAP..]; }
      counts := true;
    }

    method Classify(i: Input)
      requires c.Sane() && (streak > 0 ==> firstHigh.Some?)
      modifies this
      ensures Now() == Classified(c, old(Now()), i)
    {
      if count >= c.maxCandidates { return; }
      if disarmed { return; }
      if lastTrigger.Some? && i.now - lastTrigger.value < c.cooldown {
        streak, marks := 0, marks + [Cooled];
        return;
      }
      if !i.allowed {
        disarmed := true;
        return;
      }
      marks := marks + [Pass(i.score, Anchor(i), i.now)];
      if i.score >= c.bar {
        if streak == 0 {
          firstHigh := i.line.at;
          if firstHigh.None? { firstHigh := Some(i.now); }
        }
        streak := streak + 1;
      } else {
        streak, firstHigh := 0, None;
      }
      if streak < c.confirmWindows { return; }
      Emit(firstHigh, i.score, i.now);
      streak, firstHigh := 0, None;
      count, lastTrigger := count + 1, Some(i.now);
    }

    method Emit(anchor: Option<Time>, score: real, now: Time)
      modifies `triggers, `ends
      ensures triggers == old(triggers) + [Emitted(c, if anchor.Some? then anchor.value else now, score, now)]
      ensures ends == old(ends) + [|marks|]
    {
      var at := if anchor.None? then now else anchor.value;
      var from, to := at - c.lead, at + c.tail;
      if from < now - TAPE_WINDOW { from := now - TAPE_WINDOW; }
      triggers := triggers + [Trigger(at, from, to, score, now)];
      ends := ends + [|marks|];
    }
  }

  // ---- The invariant -----------------------------------------------------------------------------

  predicate High(c: Config, m: Mark) { m.Pass? && m.score >= c.bar }

  // Where the marks after the last trigger begin.
  function LastEnd(s: State): nat {
    if s.ends == [] then 0 else s.ends[|s.ends| - 1]
  }

  // The last n marks are high passes, made since the last trigger.
  ghost predicate StreakOk(c: Config, s: State) {
    && s.streak < c.confirmWindows && LastEnd(s) + s.streak <= |s.marks|
    && (forall k :: |s.marks| - s.streak <= k < |s.marks| ==> High(c, s.marks[k]))
    && (s.streak > 0 ==> s.firstHigh == Some(s.marks[|s.marks| - s.streak].anchor))
  }

  // Trigger i rests on exactly confirmWindows uninterrupted high passes since the one before
  // it, and is anchored on the first of them.
  ghost predicate TriggerOk(c: Config, s: State, i: nat)
    requires c.Sane() && i < |s.triggers| == |s.ends|
  {
    var t, end := s.triggers[i], s.ends[i];
    var begin := end - c.confirmWindows;
    && (if i == 0 then 0 else s.ends[i - 1]) <= begin && end <= |s.marks|
    && (forall k :: begin <= k < end ==> High(c, s.marks[k]))
    && s.marks[begin].anchor == t.at
    && t == Emitted(c, t.at, t.score, t.now)
    && s.marks[end - 1] == Pass(t.score, s.marks[end - 1].anchor, t.now)
    && (i > 0 ==> t.now - s.triggers[i - 1].now >= c.cooldown)
  }

  ghost predicate Inv(c: Config, s: State) {
    && c.Sane() ==>
      && s.count == |s.triggers| == |s.ends| <= c.maxCandidates && s.since < c.classifyEvery
      && s.lastTrigger == (if s.triggers == [] then None else Some(s.triggers[|s.triggers| - 1].now))
      && StreakOk(c, s)
      && forall i :: 0 <= i < |s.triggers| ==> TriggerOk(c, s, i)
  }

  lemma StartInv(c: Config)
    ensures Inv(c, START)
  {
  }

  lemma TriggerStays(c: Config, s: State, t: State, i: nat)
    requires c.Sane() && i < |s.triggers| == |s.ends| <= |t.triggers| == |t.ends| && TriggerOk(c, s, i)
    requires s.marks <= t.marks && s.triggers <= t.triggers && s.ends <= t.ends
    ensures TriggerOk(c, t, i)
  {
    assert forall k :: 0 <= k < |s.marks| ==> t.marks[k] == s.marks[k];
  }

  // The pass that completes a streak makes a trigger that rests on it.
  lemma NewTrigger(c: Config, s: State, i: Input)
    requires c.Sane() && Inv(c, s) && !Cooling(c, s, i.now) && i.score >= c.bar && s.streak + 1 == c.confirmWindows
    ensures var t := Judged(c, s, i); |t.triggers| == |t.ends| == |s.triggers| + 1 && TriggerOk(c, t, |s.triggers|) && StreakOk(c, t)
  {
    hide TriggerOk;
    var t := Judged(c, s, i);
    var n := |s.triggers|;
    assert t.triggers[n] == Emitted(c, if s.streak == 0 then Anchor(i) else s.marks[|s.marks| - s.streak].anchor, i.score, i.now);
    assert t.ends[n] == |s.marks| + 1;
    assert forall k :: 0 <= k < |s.marks| ==> t.marks[k] == s.marks[k];
    MakeTriggerOk(c, s, t, i);
  }

  lemma MakeTriggerOk(c: Config, s: State, t: State, i: Input)
    requires c.Sane() && StreakOk(c, s) && i.score >= c.bar && s.streak + 1 == c.confirmWindows
    requires |s.triggers| == |s.ends| && |t.triggers| == |t.ends| == |s.triggers| + 1
    requires t.ends == s.ends + [|s.marks| + 1] && t.marks == s.marks + [Pass(i.score, Anchor(i), i.now)]
    requires t.triggers[..|s.triggers|] == s.triggers
    requires t.triggers[|s.triggers|] == Emitted(c, if s.streak == 0 then Anchor(i) else s.marks[|s.marks| - s.streak].anchor, i.score, i.now)
    requires s.triggers == [] || i.now - s.triggers[|s.triggers| - 1].now >= c.cooldown
    ensures TriggerOk(c, t, |s.triggers|)
  {
    if s.triggers != [] { assert t.triggers[|s.triggers| - 1] == t.triggers[..|s.triggers|][|s.triggers| - 1]; }
  }

  lemma JudgedInv(c: Config, s: State, i: Input)
    requires c.Sane() && Inv(c, s) && s.count < c.maxCandidates && !Cooling(c, s, i.now)
    ensures Inv(c, Judged(c, s, i))
  {
    hide TriggerOk;
    var t := Judged(c, s, i);
    if i.score >= c.bar && s.streak + 1 == c.confirmWindows {
      NewTrigger(c, s, i);
    } else {
      JudgedStreak(c, s, i);
    }
    forall j | 0 <= j < |t.triggers| ensures TriggerOk(c, t, j) {
      if j < |s.triggers| { TriggerStays(c, s, t, j); }
    }
  }

  lemma JudgedStreak(c: Config, s: State, i: Input)
    requires c.Sane() && StreakOk(c, s) && !(i.score >= c.bar && s.streak + 1 == c.confirmWindows)
    ensures StreakOk(c, Judged(c, s, i)) && Judged(c, s, i).triggers == s.triggers
  {
    var t := Judged(c, s, i);
    assert forall k :: 0 <= k < |s.marks| ==> t.marks[k] == s.marks[k];
  }

  lemma StepInv(c: Config, s: State, i: Input)
    requires c.Sane() && Inv(c, s)
    ensures Inv(c, Step(c, s, i))
  {
    hide Judged;
    var t := Step(c, s, i);
    if i.line.text != "" && s.since + 1 >= c.classifyEvery {
      var u := s.(window := Latest(s.window + [i.line], WINDOW_CAP), since := 0);
      assert Inv(c, u) by { SameMarks(c, s, u); }
      if u.count < c.maxCandidates && !u.disarmed && !Cooling(c, u, i.now) && i.allowed {
        JudgedInv(c, u, i);
      } else {
        OtherInv(c, u, t);
      }
    } else {
      SameMarks(c, s, t);
    }
  }

  lemma SameMarks(c: Config, s: State, t: State)
    requires c.Sane() && Inv(c, s) && t.since < c.classifyEvery && t == s.(window := t.window, since := t.since)
    ensures Inv(c, t)
  {
    forall j | 0 <= j < |t.triggers| ensures TriggerOk(c, t, j) { assert TriggerOk(c, s, j); }
  }

  lemma OtherInv(c: Config, s: State, t: State)
    requires c.Sane() && Inv(c, s)
    requires t == s || t == s.(streak := 0, marks := s.marks + [Cooled]) || t == s.(disarmed := true)
    ensures Inv(c, t)
  {
    assert forall k :: 0 <= k < |s.marks| ==> t.marks[k] == s.marks[k];
    forall j | 0 <= j < |t.triggers| ensures TriggerOk(c, t, j) { assert TriggerOk(c, s, j); }
  }

  lemma {:induction false} Always(c: Config, inputs: seq<Input>)
    requires c.Sane()
    ensures Inv(c, Run(c, inputs))
  {
    hide Inv, Step;
    if inputs == [] {
      StartInv(c);
    } else {
      Always(c, inputs[..|inputs| - 1]);
      StepInv(c, Run(c, inputs[..|inputs| - 1]), inputs[|inputs| - 1]);
    }
  }

  // ---- Every completed streak --------------------------------------------------------------------

  // A streak is complete at e: confirmWindows high marks end there, and they are the first of
  // their run, or follow straight on a streak completed before.
  ghost predicate Completes(c: Config, marks: seq<Mark>, ends: seq<nat>, e: nat) {
    var begin := e - c.confirmWindows;
    && 0 <= begin && e <= |marks| && (forall k :: begin <= k < e ==> High(c, marks[k]))
    && (begin == 0 || !High(c, marks[begin - 1]) || begin in ends)
  }

  // The ends are exactly the completions, a streak apart, and the running streak is maximal.
  ghost predicate StreaksOk(c: Config, marks: seq<Mark>, ends: seq<nat>, streak: nat) {
    && streak < c.confirmWindows && streak <= |marks| && (forall k :: |marks| - streak <= k < |marks| ==> High(c, marks[k]))
    && Fresh(c, marks, ends, |marks| - streak)
    && (forall i :: 0 <= i < |ends| ==> ends[i] <= |marks|)
    && (forall i, j :: 0 <= i < j < |ends| ==> ends[i] + c.confirmWindows <= ends[j])
    && (forall e: nat :: e in ends <==> Completes(c, marks, ends, e))
  }

  // No unfinished run of high marks reaches up to `at`.
  ghost predicate Fresh(c: Config, marks: seq<Mark>, ends: seq<nat>, at: nat)
    requires at <= |marks|
  {
    at == 0 || !High(c, marks[at - 1]) || at in ends
  }

  // With one mark more, only it can complete a streak, and does exactly as the last one due.
  lemma OneMoreMark(c: Config, marks: seq<Mark>, ends: seq<nat>, streak: nat, m: Mark, e: nat)
    requires StreaksOk(c, marks, ends, streak)
    ensures e <= |marks| ==> (Completes(c, marks + [m], ends, e) <==> e in ends)
    ensures e == |marks| + 1 ==> (Completes(c, marks + [m], ends, e) <==> High(c, m) && streak + 1 == c.confirmWindows)
  {
    var at, begin := |marks| - streak, e - c.confirmWindows;
    assert (marks + [m])[|marks|] == m && forall k :: 0 <= k < |marks| ==> (marks + [m])[k] == marks[k];
    if e <= |marks| {
      assert Completes(c, marks + [m], ends, e) <==> Completes(c, marks, ends, e);
    } else if e == |marks| + 1 && 0 <= begin {
      if High(c, m) && streak + 1 < c.confirmWindows && at in ends {
        assert Completes(c, marks, ends, at);
      }
    }
  }

  lemma SameCompletions(c: Config, marks: seq<Mark>, ends: seq<nat>, streak: nat, m: Mark)
    requires StreaksOk(c, marks, ends, streak) && !(High(c, m) && streak + 1 == c.confirmWindows)
    ensures forall e: nat :: e in ends <==> Completes(c, marks + [m], ends, e)
  {
    hide Completes, Fresh, High;
    forall e: nat ensures e in ends <==> Completes(c, marks + [m], ends, e) {
      OneMoreMark(c, marks, ends, streak, m, e);
      if e > |marks| + 1 { TooFar(c, marks + [m], ends, e); }
    }
  }

  lemma TooFar(c: Config, marks: seq<Mark>, ends: seq<nat>, e: nat)
    requires e > |marks|
    ensures !Completes(c, marks, ends, e)
  {
  }

  lemma MarkedLow(c: Config, marks: seq<Mark>, ends: seq<nat>, streak: nat, m: Mark)
    requires StreaksOk(c, marks, ends, streak) && !High(c, m)
    ensures StreaksOk(c, marks + [m], ends, 0)
  {
    hide Completes, High;
    SameCompletions(c, marks, ends, streak, m);
  }

  lemma MarkedHigh(c: Config, marks: seq<Mark>, ends: seq<nat>, streak: nat, m: Mark)
    requires StreaksOk(c, marks, ends, streak) && High(c, m) && streak + 1 < c.confirmWindows
    ensures StreaksOk(c, marks + [m], ends, streak + 1)
  {
    hide Completes, High;
    SameCompletions(c, marks, ends, streak, m);
  }

  lemma MarkedLast(c: Config, marks: seq<Mark>, ends: seq<nat>, streak: nat, m: Mark)
    requires StreaksOk(c, marks, ends, streak) && High(c, m) && streak + 1 == c.confirmWindows
    ensures StreaksOk(c, marks + [m], ends + [|marks| + 1], 0)
  {
    hide Completes, High;
    var ends' := ends + [|marks| + 1];
    forall e: nat ensures e in ends' <==> Completes(c, marks + [m], ends', e) {
      OneMoreMark(c, marks, ends, streak, m, e);
      OneMoreEnd(c, marks + [m], ends, e);
      if e > |marks| + 1 { TooFar(c, marks + [m], ends', e); }
    }
    forall i | 0 <= i < |ends| ensures ends[i] + c.confirmWindows <= |marks| + 1 { EndsBefore(c, marks, ends, streak, i); }
    assert ends'[|ends|] == |marks| + 1 && |marks| + 1 in ends';
  }

  // An end at the last mark completes nothing but itself.
  lemma OneMoreEnd(c: Config, marks: seq<Mark>, ends: seq<nat>, e: nat)
    requires c.confirmWindows > 0
    ensures Completes(c, marks, ends + [|marks|], e) <==> Completes(c, marks, ends, e)
  {
  }

  // A completed streak leaves the running one no longer than what came after it.
  lemma EndsBefore(c: Config, marks: seq<Mark>, ends: seq<nat>, streak: nat, i: nat)
    requires StreaksOk(c, marks, ends, streak) && i < |ends| && streak + 1 == c.confirmWindows
    ensures ends[i] + c.confirmWindows <= |marks| + 1
  {
    var at := |marks| - streak;
    assert ends[i] in ends && Completes(c, marks, ends, ends[i]);
  }

  lemma {:induction false} StreaksAlways(c: Config, inputs: seq<Input>)
    requires c.Sane()
    ensures var s := Run(c, inputs); StreaksOk(c, s.marks, s.ends, s.streak)
  {
    hide StreaksOk, Emitted;
    if inputs == [] {
      NoStreak(c);
    } else {
      StreaksAlways(c, inputs[..|inputs| - 1]);
      var s, i := Run(c, inputs[..|inputs| - 1]), inputs[|inputs| - 1];
      StreakBounded(c, s);
      var pass := Pass(i.score, Anchor(i), i.now);
      MarkedLow(c, s.marks, s.ends, s.streak, Cooled);
      if !High(c, pass) {
        MarkedLow(c, s.marks, s.ends, s.streak, pass);
      } else if s.streak + 1 < c.confirmWindows {
        MarkedHigh(c, s.marks, s.ends, s.streak, pass);
      } else {
        MarkedLast(c, s.marks, s.ends, s.streak, pass);
      }
    }
  }

  lemma NoStreak(c: Config)
    requires c.Sane()
    ensures StreaksOk(c, [], [], 0)
  {
  }

  lemma StreakBounded(c: Config, s: State)
    requires StreaksOk(c, s.marks, s.ends, s.streak)
    ensures s.streak < c.confirmWindows
  {
  }

  // ---- The promises -----------------------------------------------------------------------------

  // On every input: at most maxCandidates triggers, at least a cooldown apart, each backed by
  // exactly confirmWindows uninterrupted high passes since the last and anchored on the first; and
  // a trigger for every such streak that is completed.
  lemma TriggersAreConfirmed(c: Config, inputs: seq<Input>)
    requires c.Sane()
    ensures var s := Run(c, inputs);
            |s.triggers| == |s.ends| <= c.maxCandidates && forall i :: 0 <= i < |s.triggers| ==> TriggerOk(c, s, i)
    ensures var s := Run(c, inputs); forall e: nat :: e in s.ends <==> Completes(c, s.marks, s.ends, e)
  {
    Always(c, inputs);
    StreaksAlways(c, inputs);
  }

  // Final n has words and is a classifyEvery-th such final.
  ghost predicate Due(c: Config, inputs: seq<Input>, n: nat)
    requires c.Sane() && n < |inputs|
  {
    inputs[n].line.text != "" && |Spoken(inputs[..n + 1])| % c.classifyEvery == 0
  }

  // Fewer than maxCandidates triggers so far, and the last of them a cooldown ago.
  ghost predicate UnderCap(c: Config, inputs: seq<Input>, n: nat)
    requires n < |inputs|
  {
    |Run(c, inputs[..n]).triggers| < c.maxCandidates
  }

  ghost predicate InCooldown(c: Config, inputs: seq<Input>, n: nat)
    requires n < |inputs|
  {
    var triggers := Run(c, inputs[..n]).triggers;
    triggers != [] && inputs[n].now - triggers[|triggers| - 1].now < c.cooldown
  }

  // The spend gate is asked, and denies.
  ghost predicate Denies(c: Config, inputs: seq<Input>, n: nat)
    requires c.Sane()
  {
    n < |inputs| && Due(c, inputs, n) && UnderCap(c, inputs, n) && !InCooldown(c, inputs, n) && !inputs[n].allowed
  }

  ghost predicate Denied(c: Config, inputs: seq<Input>)
    requires c.Sane()
  {
    exists m: nat :: Denies(c, inputs, m)
  }

  // What final n adds to the history: a pass, a broken streak, or nothing.
  ghost function Adds(c: Config, inputs: seq<Input>, n: nat): seq<Mark>
    requires c.Sane() && n < |inputs|
  {
    var i := inputs[n];
    if !Due(c, inputs, n) || !UnderCap(c, inputs, n) || Denied(c, inputs[..n]) then []
    else if InCooldown(c, inputs, n) then [Cooled]
    else if !i.allowed then []
    else [Pass(i.score, if i.line.at.Some? then i.line.at.value else i.now, i.now)]
  }

  lemma OneMoreSpoken(spoken: nat, every: nat)
    requires every > 0
    ensures (spoken + 1) % every == if spoken % every + 1 < every then spoken % every + 1 else 0
  {
    var q, m := spoken / every, spoken % every;
    assert spoken == every * q + m;
    if m + 1 < every { Remainder(every, q, m + 1); } else { Remainder(every, q + 1, 0); }
  }

  lemma Remainder(d: nat, q: int, m: nat)
    requires m < d
    ensures (d * q + m) % d == m
  {
    var x := d * q + m;
    var p := x / d;
    assert x == d * p + x % d;
    assert p <= q - 1 ==> d * p <= d * (q - 1);
    assert p >= q + 1 ==> d * p >= d * (q + 1);
  }

  lemma {:induction false} SinceIsTheRest(c: Config, inputs: seq<Input>)
    requires c.Sane()
    ensures Run(c, inputs).since == |Spoken(inputs)| % c.classifyEvery
  {
    hide Judged;
    if inputs != [] {
      var before, i := inputs[..|inputs| - 1], inputs[|inputs| - 1];
      SinceIsTheRest(c, before);
      Always(c, before);
      OneMoreSpoken(|Spoken(before)|, c.classifyEvery);
      JudgedOnly(c, Run(c, before).(window := Latest(Run(c, before).window + [i.line], WINDOW_CAP), since := 0), i);
    }
  }

  lemma JudgedOnly(c: Config, s: State, i: Input)
    ensures var t := Judged(c, s, i);
            t.since == s.since && t.disarmed == s.disarmed && t.window == s.window && t.marks == s.marks + [Pass(i.score, Anchor(i), i.now)]
  {
  }

  lemma StepDisarms(c: Config, inputs: seq<Input>, n: nat)
    requires c.Sane() && n < |inputs|
    ensures Run(c, inputs[..n + 1]).disarmed <==> Run(c, inputs[..n]).disarmed || Denies(c, inputs, n)
  {
    hide Judged, Latest;
    var before, i := inputs[..n], inputs[n];
    var s := Run(c, before);
    assert inputs[..n + 1][..n] == before;
    SinceIsTheRest(c, before);
    OneMoreSpoken(|Spoken(before)|, c.classifyEvery);
    Always(c, before);
    JudgedOnly(c, s.(window := Latest(s.window + [i.line], WINDOW_CAP), since := 0), i);
  }

  lemma {:induction false} DisarmedExactly(c: Config, inputs: seq<Input>)
    requires c.Sane()
    ensures Run(c, inputs).disarmed <==> Denied(c, inputs)
  {
    hide Step, Denies;
    if inputs == [] {
      NoneDenies(c);
    } else {
      var before := inputs[..|inputs| - 1];
      DisarmedExactly(c, before);
      StepDisarms(c, inputs, |before|);
      assert inputs[..|inputs|] == inputs;
      forall m: nat | m < |before| ensures Denies(c, before, m) <==> Denies(c, inputs, m) { DeniesAlike(c, inputs, m, |before|); }
      forall m: nat | m >= |before| ensures !Denies(c, before, m) && (m > |before| ==> !Denies(c, inputs, m)) {
        DeniesOnlyInputs(c, before, m);
        if m > |before| { DeniesOnlyInputs(c, inputs, m); }
      }
    }
  }

  lemma DeniesAlike(c: Config, inputs: seq<Input>, m: nat, n: nat)
    requires c.Sane() && m < n <= |inputs|
    ensures Denies(c, inputs[..n], m) <==> Denies(c, inputs, m)
  {
    hide Run, Spoken;
    assert inputs[..n][..m] == inputs[..m] && inputs[..n][..m + 1] == inputs[..m + 1];
  }

  lemma DeniesOnlyInputs(c: Config, inputs: seq<Input>, m: nat)
    requires c.Sane() && m >= |inputs|
    ensures !Denies(c, inputs, m)
  {
  }

  lemma NoneDenies(c: Config)
    requires c.Sane()
    ensures !Denied(c, [])
  {
  }

  // A final makes a pass exactly when it is due, under the cap, outside the cooldown, allowed, and
  // none before it was denied; in a cooldown it breaks the streak.
  lemma PassesExactly(c: Config, inputs: seq<Input>, n: nat)
    requires c.Sane() && n < |inputs|
    ensures Run(c, inputs[..n + 1]).marks == Run(c, inputs[..n]).marks + Adds(c, inputs, n)
  {
    hide Judged, Latest, Denies;
    var before, i := inputs[..n], inputs[n];
    var s := Run(c, before);
    assert inputs[..n + 1][..n] == before;
    SinceIsTheRest(c, before);
    OneMoreSpoken(|Spoken(before)|, c.classifyEvery);
    Always(c, before);
    DisarmedExactly(c, before);
    JudgedOnly(c, s.(window := Latest(s.window + [i.line], WINDOW_CAP), since := 0), i);
  }

  // Every pass is of a final the gate allowed.
  lemma {:induction false} EveryPassWasAllowed(c: Config, inputs: seq<Input>, k: nat) returns (n: nat)
    requires c.Sane() && k < |Run(c, inputs).marks| && Run(c, inputs).marks[k].Pass?
    ensures n < |inputs| && inputs[n].allowed && Due(c, inputs, n)
    ensures var i := inputs[n]; Run(c, inputs).marks[k] == Pass(i.score, if i.line.at.Some? then i.line.at.value else i.now, i.now)
  {
    hide Step, Due;
    n := |inputs| - 1;
    PassesExactly(c, inputs, n);
    var before := inputs[..n];
    assert inputs[..n + 1] == inputs;
    if k < |Run(c, before).marks| {
      n := EveryPassWasAllowed(c, before, k);
      DueAlike(c, inputs, n, |before|);
    }
  }

  lemma DueAlike(c: Config, inputs: seq<Input>, m: nat, n: nat)
    requires c.Sane() && m < n <= |inputs|
    ensures Due(c, inputs[..n], m) <==> Due(c, inputs, m)
  {
    assert inputs[..n][..m + 1] == inputs[..m + 1];
  }

  // Whatever follows a denial, no pass is made and no trigger emitted.
  lemma DenialIsFinal(c: Config, inputs: seq<Input>, n: nat)
    requires c.Sane() && Denies(c, inputs, n)
    ensures Run(c, inputs).marks == Run(c, inputs[..n]).marks && Run(c, inputs).triggers == Run(c, inputs[..n]).triggers
  {
    hide Denies, Step;
    DeniesOnlyOne(c, inputs, n);
    StepDisarms(c, inputs, n);
    NoPassAfterDenial(c, inputs, n + 1);
  }

  // The final that is denied adds nothing itself.
  lemma DeniesOnlyOne(c: Config, inputs: seq<Input>, n: nat)
    requires c.Sane() && Denies(c, inputs, n)
    ensures n < |inputs| && Run(c, inputs[..n + 1]).marks == Run(c, inputs[..n]).marks
    ensures Run(c, inputs[..n + 1]).triggers == Run(c, inputs[..n]).triggers
  {
    hide Judged, Latest;
    assert inputs[..n + 1][..n] == inputs[..n];
    SinceIsTheRest(c, inputs[..n]);
    OneMoreSpoken(|Spoken(inputs[..n])|, c.classifyEvery);
    Always(c, inputs[..n]);
  }

  // Once a gate has denied, or the cap is reached, no pass is made and no trigger emitted.
  lemma {:induction false} NoPassAfterDenial(c: Config, inputs: seq<Input>, n: nat)
    requires n <= |inputs| && (Run(c, inputs[..n]).disarmed || Run(c, inputs[..n]).count >= c.maxCandidates)
    ensures Run(c, inputs).marks == Run(c, inputs[..n]).marks && Run(c, inputs).triggers == Run(c, inputs[..n]).triggers
    ensures Run(c, inputs).disarmed == Run(c, inputs[..n]).disarmed && Run(c, inputs).count == Run(c, inputs[..n]).count
  {
    if n < |inputs| {
      var before := inputs[..|inputs| - 1];
      assert before[..n] == inputs[..n];
      NoPassAfterDenial(c, before, n);
    } else {
      assert inputs[..n] == inputs;
    }
  }

  // A trigger's range is non-empty exactly when it was confirmed while the tape still held some
  // of it.
  lemma RangeIsOrderedExactly(c: Config, anchor: Time, score: real, now: Time)
    requires c.Sane()
    ensures var t := Emitted(c, anchor, score, now);
            && t.at == anchor && t.to == anchor + c.tail && t.score == score && t.now == now
            && (t.from <= t.to <==> now - anchor <= TAPE_WINDOW + c.tail)
            && t.from >= now - TAPE_WINDOW && t.from >= anchor - c.lead && (t.from == now - TAPE_WINDOW || t.from == anchor - c.lead)
  {
  }

  // Two high passes 200 seconds apart confirm a trigger whose range starts after it ends.
  lemma LateConfirmationInvertsTheRange() returns (c: Config, inputs: seq<Input>)
    ensures c.Sane() && |Run(c, inputs).triggers| == 1
    ensures var t := Run(c, inputs).triggers[0]; t.from > t.to
  {
    c := WithDefaults(1, 0, 0.0, 2, 0, 0, 0);
    var first := Input(Line("", "a", Some(0)), 0, true, 9.0);
    var second := Input(Line("", "b", Some(200 * SECOND)), 200 * SECOND, true, 9.0);
    inputs := [first, second];
    assert inputs[..1] == [first] && [first][..0] == [];
    var s := Step(c, START, first);
    assert Run(c, inputs[..1]) == s && s.streak == 1 && s.firstHigh == Some(0);
    assert Run(c, inputs) == Step(c, s, second);
  }

  function Spoken(inputs: seq<Input>): seq<Line> {
    if inputs == [] then []
    else Spoken(inputs[..|inputs| - 1]) + (if inputs[|inputs| - 1].line.text == "" then [] else [inputs[|inputs| - 1].line])
  }

  function Passes(marks: seq<Mark>): nat {
    if marks == [] then 0 else Passes(marks[..|marks| - 1]) + (if marks[|marks| - 1].Pass? then 1 else 0)
  }

  // Blank finals count for nothing: the window is the last forty lines spoken, and a pass comes
  // at most once in classifyEvery of them.
  lemma {:induction false} BlankFinalsCountForNothing(c: Config, inputs: seq<Input>)
    requires c.Sane()
    ensures var s := Run(c, inputs);
            && s.window == Latest(Spoken(inputs), WINDOW_CAP) && s.since < c.classifyEvery
            && Passes(s.marks) * c.classifyEvery + s.since <= |Spoken(inputs)|
  {
    hide Step, Passes, Latest;
    if inputs == [] {
      NothingPassed(c);
    } else {
      var before, i := inputs[..|inputs| - 1], inputs[|inputs| - 1];
      BlankFinalsCountForNothing(c, before);
      var s, t := Run(c, before), Run(c, inputs);
      PassesGrow(c, s, i);
      OnePassMore(Passes(s.marks), Passes(t.marks), c.classifyEvery, s.since, |Spoken(before)|);
      LatestOfOneMore(Spoken(before), i.line, WINDOW_CAP);
      assert i.line.text == "" ==> Spoken(inputs) == Spoken(before);
    }
  }

  lemma NothingPassed(c: Config)
    ensures Passes(START.marks) == 0 && Latest(Spoken([]), WINDOW_CAP) == START.window
  {
  }

  // The latest n are the last ones, all of them when there are no more.
  lemma LatestAreLast<T>(xs: seq<T>, n: nat)
    ensures |Latest(xs, n)| == (if |xs| < n then |xs| else n)
    ensures xs[|xs| - |Latest(xs, n)|..] == Latest(xs, n)
  {
  }

  lemma LatestOfOneMore<T>(xs: seq<T>, x: T, n: nat)
    requires n > 0
    ensures Latest(Latest(xs, n) + [x], n) == Latest(xs + [x], n)
  {
  }

  lemma OnePassMore(p: nat, q: nat, every: nat, since: nat, spoken: nat)
    requires p * every + since <= spoken && (q == p || q == p + 1)
    ensures since + 1 >= every ==> q * every <= spoken + 1
    ensures q == p ==> q * every + since <= spoken
  {
    if q == p + 1 { assert q * every == p * every + every; }
  }

  lemma PassesGrow(c: Config, s: State, i: Input)
    ensures var t := Step(c, s, i);
            if i.line.text == "" then t == s
            else if s.since + 1 < c.classifyEvery then t.marks == s.marks && t.since == s.since + 1
            else t.since == 0 && Passes(s.marks) <= Passes(t.marks) <= Passes(s.marks) + 1
    ensures i.line.text != "" ==> Step(c, s, i).window == Latest(s.window + [i.line], WINDOW_CAP)
  {
    var t := Step(c, s, i);
    if t.marks != s.marks { assert t.marks[..|s.marks|] == s.marks; }
  }
}
