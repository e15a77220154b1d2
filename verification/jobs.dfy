// The job runner (internal/jobs/jobs.go) over the job table's atomic calls (internal/storage/job.go):
// any number of runners that stall, crash and outlive their leases, fenced by the claim count.
module Jobs {
  import opened Common

  datatype Status = Pending | Running | Done | Dead

  datatype Job = Job(kind: string, status: Status, attempts: nat, max: nat, runAfter: Time, leasedUntil: Option<Time>)

  // Where a runner is with the job it claimed, and the claim's generation.
  datatype Runner = Idle | Held(job: nat, attempts: nat) | Executing(job: nat, attempts: nat) | Ran(job: nat, attempts: nat, ok: bool)

  datatype Counts = Counts(done: nat, retry: nat, dead: nat)

  // started[j]: the generations of job j whose handler started; starts[j]: how often it did.
  // ended[j]: how often job j became done or dead. counted: the outcomes recorded; effective:
  // the terminal writes that took effect; unacked: those of them whose reply was lost.
  datatype State = State(now: Time, jobs: seq<Job>, runners: seq<Runner>, started: seq<set<nat>>, starts: seq<nat>, ended: seq<nat>,
                         counted: Counts, effective: Counts, unacked: Counts, swept: nat)

  datatype Action =
    | Tick(d: Time)
    | Enqueue(kind: string, max: nat, runAfter: Time)
    | Claim(r: nat, j: nat, lease: Time)
    | Start(r: nat)
    | Return(r: nat, ok: bool)
    | Unhandled(r: nat, lost: bool)          // no handler for the kind
    | Write(r: nat, runAfter: Time, lost: bool)
    | Fault(r: nat)                          // the write failed and did nothing
    | Crash(r: nat)
    | Sweep(j: nat)

  predicate Expired(job: Job, now: Time) {
    job.leasedUntil.Some? && job.leasedUntil.value < now
  }

  predicate Runnable(job: Job, now: Time) {
    (job.status == Pending && job.runAfter <= now) || (job.status == Running && Expired(job, now) && job.attempts < job.max)
  }

  // The fence of the three terminal writes.
  predicate Current(job: Job, attempts: nat) {
    job.status == Running && job.attempts == attempts
  }

  // Complete, retry while attempts remain, or dead-letter.
  function Written(job: Job, ok: bool, runAfter: Time): Job {
    if ok then job.(status := Done, leasedUntil := None)
    else if job.attempts >= job.max then job.(status := Dead, leasedUntil := None)
    else job.(status := Pending, runAfter := runAfter, leasedUntil := None)
  }

  function Plus(c: Counts, job: Job, ok: bool): Counts {
    if ok then c.(done := c.done + 1)
    else if job.attempts >= job.max then c.(dead := c.dead + 1)
    else c.(retry := c.retry + 1)
  }

  function OneDead(c: Counts): Counts { c.(dead := c.dead + 1) }

  predicate Terminal(s: Status) { s == Done || s == Dead }

  function SetJob(s: State, j: nat, job: Job): State
    requires j < |s.jobs| == |s.ended|
  {
    s.(jobs := s.jobs[j := job], ended := if Terminal(job.status) && !Terminal(s.jobs[j].status) then s.ended[j := s.ended[j] + 1] else s.ended)
  }

  ghost predicate Sized(s: State) {
    |s.started| == |s.starts| == |s.ended| == |s.jobs|
  }

  ghost predicate RunnerActs(s: State, a: Action, r: nat, s': State)
    requires r < |s.runners| && Sized(s)
  {
    var me := s.runners[r];
    match a
    case Claim(_, j, lease) => me == Idle && j < |s.jobs| && Runnable(s.jobs[j], s.now)
      && (var job := s.jobs[j];
          var claimed := job.(status := Running, attempts := job.attempts + 1, leasedUntil := Some(s.now + lease));
          s' == s.(jobs := s.jobs[j := claimed], runners := s.runners[r := Held(j, claimed.attempts)]))
    case Start(_) => me.Held? && me.job < |s.jobs|
      && s' == s.(runners := s.runners[r := Executing(me.job, me.attempts)],
                  started := s.started[me.job := s.started[me.job] + {me.attempts}],
                  starts := s.starts[me.job := s.starts[me.job] + 1])
    case Return(_, ok) => me.Executing? && s' == s.(runners := s.runners[r := Ran(me.job, me.attempts, ok)])
    case Unhandled(_, lost) => me.Held? && me.job < |s.jobs|
      && s' == if Current(s.jobs[me.job], me.attempts)
               then SetJob(s, me.job, s.jobs[me.job].(status := Dead, leasedUntil := None))
                    .(runners := s.runners[r := Idle], effective := OneDead(s.effective),
                      counted := if lost then s.counted else OneDead(s.counted),
                      unacked := if lost then OneDead(s.unacked) else s.unacked)
               else s.(runners := s.runners[r := Idle])
    case Write(_, runAfter, lost) => me.Ran? && me.job < |s.jobs|
      && (var job := s.jobs[me.job];
          s' == if Current(job, me.attempts)
                then SetJob(s, me.job, Written(job, me.ok, runAfter))
                     .(runners := s.runners[r := Idle], effective := Plus(s.effective, job, me.ok),
                       counted := if lost then s.counted else Plus(s.counted, job, me.ok),
                       unacked := if lost then Plus(s.unacked, job, me.ok) else s.unacked)
                else s.(runners := s.runners[r := Idle]))
    case Fault(_) => (me.Held? || me.Ran?) && s' == s.(runners := s.runners[r := Idle])
    case Crash(_) => s' == s.(runners := s.runners[r := Idle])
    case _ => false
  }

  ghost predicate Acts(s: State, a: Action, s': State) {
    Sized(s) &&
    match a
    case Tick(d) => d >= 0 && s' == s.(now := s.now + d)
    case Enqueue(kind, max, runAfter) => max > 0
      && s' == s.(jobs := s.jobs + [Job(kind, Pending, 0, max, runAfter, None)], started := s.started + [{}],
                  starts := s.starts + [0], ended := s.ended + [0])
    case Sweep(j) => j < |s.jobs| && s.jobs[j].status == Running && Expired(s.jobs[j], s.now) && s.jobs[j].attempts >= s.jobs[j].max
      && s' == SetJob(s, j, s.jobs[j].(status := Dead, leasedUntil := None)).(swept := s.swept + 1)
    case _ => a.r < |s.runners| && RunnerActs(s, a, a.r, s')
  }

  ghost predicate Init(s: State) {
    && s.jobs == [] && s.started == [] && s.starts == [] && s.ended == []
    && s.counted == s.effective == s.unacked == Counts(0, 0, 0) && s.swept == 0
    && forall r :: 0 <= r < |s.runners| ==> s.runners[r] == Idle
  }

  ghost predicate Run(run: seq<State>, acts: seq<Action>) {
    && |run| == |acts| + 1 && Init(run[0])
    && forall i :: 0 <= i < |acts| ==> Acts(run[i], acts[i], run[i + 1])
  }

  // ---- The invariant --------------------------------------------------------------------------

  ghost predicate JobOk(s: State, j: nat)
    requires j < |s.jobs| && Sized(s)
  {
    var job := s.jobs[j];
    && job.attempts <= job.max && (job.status == Pending ==> job.attempts < job.max)
    && s.starts[j] == |s.started[j]| && (forall g :: g in s.started[j] ==> 1 <= g <= job.attempts)
    && s.ended[j] == if Terminal(job.status) then 1 else 0
  }

  // A claim is of a generation the job has reached, which no other runner holds; one not yet
  // started has not been started.
  ghost predicate RunnerOk(s: State, r: nat)
    requires r < |s.runners| && Sized(s)
  {
    var me := s.runners[r];
    me != Idle ==>
      && me.job < |s.jobs| && 1 <= me.attempts <= s.jobs[me.job].attempts
      && (me.Held? ==> me.attempts !in s.started[me.job])
      && forall q :: 0 <= q < |s.runners| && q != r && s.runners[q] != Idle && s.runners[q].job == me.job ==>
           s.runners[q].attempts != me.attempts
  }

  function Sum(a: Counts, b: Counts): Counts {
    Counts(a.done + b.done, a.retry + b.retry, a.dead + b.dead)
  }

  function Total(xs: seq<nat>): nat {
    if xs == [] then 0 else Total(xs[..|xs| - 1]) + xs[|xs| - 1]
  }

  ghost predicate Inv(s: State) {
    && Sized(s)
    && (forall j :: 0 <= j < |s.jobs| ==> JobOk(s, j))
    && (forall r :: 0 <= r < |s.runners| ==> RunnerOk(s, r))
    && s.effective == Sum(s.counted, s.unacked)
    && Total(s.ended) == s.effective.done + s.effective.dead + s.swept
  }

  lemma {:induction false} TotalSet(xs: seq<nat>, j: nat, x: nat)
    requires j < |xs|
    ensures Total(xs[j := x]) + xs[j] == Total(xs) + x
  {
    if j < |xs| - 1 {
      TotalSet(xs[..|xs| - 1], j, x);
      assert xs[j := x][..|xs| - 1] == xs[..|xs| - 1][j := x];
    } else {
      assert xs[j := x][..|xs| - 1] == xs[..|xs| - 1];
    }
  }

  lemma {:induction false} GenerationsFit(g: set<nat>, n: nat)
    requires forall x :: x in g ==> 1 <= x <= n
    ensures |g| <= n
  {
    if n == 0 {
      assert g == {};
    } else {
      GenerationsFit(g - {n}, n - 1);
    }
  }

  // A job set to a state the runner's write or the sweep gives it.
  lemma SetJobStep(s: State, j: nat, job: Job, s': State)
    requires Inv(s) && j < |s.jobs| && s' == SetJob(s, j, job)
    requires !Terminal(s.jobs[j].status) && job.attempts == s.jobs[j].attempts && job.max == s.jobs[j].max
    requires job.status == Pending ==> job.attempts < job.max
    ensures Sized(s') && (forall i :: 0 <= i < |s'.jobs| ==> JobOk(s', i)) && (forall r :: 0 <= r < |s'.runners| ==> RunnerOk(s', r))
    ensures Total(s'.ended) == Total(s.ended) + if Terminal(job.status) then 1 else 0
  {
    TotalSet(s.ended, j, s.ended[j] + 1);
    assert JobOk(s, j);
    forall i | 0 <= i < |s'.jobs| ensures JobOk(s', i) { assert JobOk(s, i); }
    forall r | 0 <= r < |s'.runners| ensures RunnerOk(s', r) { assert RunnerOk(s, r); }
  }

  lemma Freed(s: State, r: nat, s': State)
    requires Sized(s) && (forall q :: 0 <= q < |s.runners| ==> RunnerOk(s, q)) && r < |s.runners|
    requires s'.jobs == s.jobs && s'.started == s.started && s'.starts == s.starts && s'.ended == s.ended && s'.runners == s.runners[r := Idle]
    ensures Sized(s') && forall q :: 0 <= q < |s'.runners| ==> RunnerOk(s', q)
  {
    forall q | 0 <= q < |s'.runners| ensures RunnerOk(s', q) { assert RunnerOk(s, q); }
  }

  lemma SameJobs(s: State, s': State)
    requires Sized(s) && (forall j :: 0 <= j < |s.jobs| ==> JobOk(s, j))
    requires s'.jobs == s.jobs && s'.started == s.started && s'.starts == s.starts && s'.ended == s.ended
    ensures Sized(s') && forall j :: 0 <= j < |s'.jobs| ==> JobOk(s', j)
  {
    forall j | 0 <= j < |s'.jobs| ensures JobOk(s', j) { assert JobOk(s, j); }
  }

  lemma WriteStep(s: State, r: nat, runAfter: Time, lost: bool, s': State)
    requires Inv(s) && r < |s.runners| && RunnerActs(s, Write(r, runAfter, lost), r, s')
    ensures Inv(s')
  {
    hide JobOk, RunnerOk, Total;
    var me := s.runners[r];
    var job := s.jobs[me.job];
    if Current(job, me.attempts) {
      JobsBounded(s, me.job);
      var t := SetJob(s, me.job, Written(job, me.ok, runAfter));
      SetJobStep(s, me.job, Written(job, me.ok, runAfter), t);
      Freed(t, r, s');
      SameJobs(t, s');
    } else {
      Freed(s, r, s');
      SameJobs(s, s');
    }
  }

  lemma JobsBounded(s: State, j: nat)
    requires Sized(s) && j < |s.jobs| && JobOk(s, j)
    ensures s.jobs[j].attempts <= s.jobs[j].max && (s.jobs[j].status == Pending ==> s.jobs[j].attempts < s.jobs[j].max)
  {
  }

  lemma UnhandledStep(s: State, r: nat, lost: bool, s': State)
    requires Inv(s) && r < |s.runners| && RunnerActs(s, Unhandled(r, lost), r, s')
    ensures Inv(s')
  {
    hide JobOk, RunnerOk, Total;
    var me := s.runners[r];
    if Current(s.jobs[me.job], me.attempts) {
      var dead := s.jobs[me.job].(status := Dead, leasedUntil := None);
      var t := SetJob(s, me.job, dead);
      SetJobStep(s, me.job, dead, t);
      Freed(t, r, s');
      SameJobs(t, s');
    } else {
      Freed(s, r, s');
      SameJobs(s, s');
    }
  }

  lemma ClaimStep(s: State, r: nat, j: nat, lease: Time, s': State)
    requires Inv(s) && r < |s.runners| && RunnerActs(s, Claim(r, j, lease), r, s')
    ensures Inv(s')
  {
    hide Total;
    forall i | 0 <= i < |s'.jobs| ensures JobOk(s', i) { assert JobOk(s, i); }
    forall q | 0 <= q < |s'.runners| ensures RunnerOk(s', q) {
      assert RunnerOk(s, q);
      if q == r {
        forall p | 0 <= p < |s.runners| && p != r && s.runners[p] != Idle && s.runners[p].job == j ensures s.runners[p].attempts <= s.jobs[j].attempts {
          assert RunnerOk(s, p);
        }
        assert JobOk(s, j);
      }
    }
  }

  lemma StartStep(s: State, r: nat, s': State)
    requires Inv(s) && r < |s.runners| && RunnerActs(s, Start(r), r, s')
    ensures Inv(s')
  {
    hide Total;
    assert RunnerOk(s, r);
    forall i | 0 <= i < |s'.jobs| ensures JobOk(s', i) { assert JobOk(s, i); }
    forall q | 0 <= q < |s'.runners| ensures RunnerOk(s', q) { assert RunnerOk(s, q); }
  }

  lemma EnqueueStep(s: State, a: Action, s': State)
    requires Inv(s) && a.Enqueue? && Acts(s, a, s')
    ensures Inv(s')
  {
    forall i | 0 <= i < |s'.jobs| ensures JobOk(s', i) { if i < |s.jobs| { assert JobOk(s, i); } }
    forall q | 0 <= q < |s'.runners| ensures RunnerOk(s', q) { assert RunnerOk(s, q); }
    assert s'.ended[..|s.ended|] == s.ended;
  }

  lemma ReturnStep(s: State, r: nat, ok: bool, s': State)
    requires Inv(s) && r < |s.runners| && RunnerActs(s, Return(r, ok), r, s')
    ensures Inv(s')
  {
    hide Total, JobOk;
    SameJobs(s, s');
    forall q | 0 <= q < |s'.runners| ensures RunnerOk(s', q) { assert RunnerOk(s, q); }
  }

  lemma SweepStep(s: State, j: nat, s': State)
    requires Inv(s) && Acts(s, Sweep(j), s')
    ensures Inv(s')
  {
    hide JobOk, RunnerOk, Total;
    var dead := s.jobs[j].(status := Dead, leasedUntil := None);
    var t := SetJob(s, j, dead);
    SetJobStep(s, j, dead, t);
    SameJobs(t, s');
    SameRunners(t, s');
  }

  lemma SameRunners(s: State, s': State)
    requires Sized(s) && (forall q :: 0 <= q < |s.runners| ==> RunnerOk(s, q))
    requires s'.jobs == s.jobs && s'.started == s.started && s'.starts == s.starts && s'.ended == s.ended && s'.runners == s.runners
    ensures Sized(s') && forall q :: 0 <= q < |s'.runners| ==> RunnerOk(s', q)
  {
    forall q | 0 <= q < |s'.runners| ensures RunnerOk(s', q) { assert RunnerOk(s, q); }
  }

  lemma QuietStep(s: State, a: Action, s': State)
    requires Inv(s) && (a.Tick? || a.Fault? || a.Crash?) && Acts(s, a, s')
    ensures Inv(s')
  {
    hide JobOk, RunnerOk, Total;
    SameJobs(s, s');
    if a.Tick? { SameRunners(s, s'); } else { Freed(s, a.r, s'); }
  }

  lemma Step(s: State, a: Action, s': State)
    requires Inv(s) && Acts(s, a, s')
    ensures Inv(s')
  {
    hide Inv, RunnerActs;
    match a
    case Claim(r, j, lease) => ClaimStep(s, r, j, lease, s');
    case Start(r) => StartStep(s, r, s');
    case Return(r, ok) => ReturnStep(s, r, ok, s');
    case Unhandled(r, lost) => UnhandledStep(s, r, lost, s');
    case Write(r, runAfter, lost) => WriteStep(s, r, runAfter, lost, s');
    case Enqueue(_, _, _) => EnqueueStep(s, a, s');
    case Sweep(j) => SweepStep(s, j, s');
    case _ => QuietStep(s, a, s');
  }

  lemma {:induction false} Always(run: seq<State>, acts: seq<Action>, n: nat)
    requires Run(run, acts) && n < |run|
    ensures Inv(run[n])
  {
    if n > 0 {
      Always(run, acts, n - 1);
      Step(run[n - 1], acts[n - 1], run[n]);
    }
  }

  // ---- The promises ----------------------------------------------------------------------------

  // Every job ends at most once, and its handler starts at most as often as it has attempts.
  lemma JobsEndOnce(run: seq<State>, acts: seq<Action>, n: nat, j: nat)
    requires Run(run, acts) && n < |run| && j < |run[n].jobs|
    ensures |run[n].ended| == |run[n].jobs| == |run[n].starts|
    ensures run[n].ended[j] == (if Terminal(run[n].jobs[j].status) then 1 else 0)
    ensures run[n].starts[j] <= run[n].jobs[j].attempts <= run[n].jobs[j].max
  {
    Always(run, acts, n);
    assert JobOk(run[n], j);
    GenerationsFit(run[n].started[j], run[n].jobs[j].attempts);
  }

  // A job that is done or dead stays exactly as it is.
  lemma {:induction false} TerminalIsFinal(run: seq<State>, acts: seq<Action>, m: nat, n: nat, j: nat)
    requires Run(run, acts) && m <= n < |run| && j < |run[m].jobs| && Terminal(run[m].jobs[j].status)
    ensures j < |run[n].jobs| && run[n].jobs[j] == run[m].jobs[j]
  {
    if m < n {
      TerminalIsFinal(run, acts, m, n - 1, j);
      assert Acts(run[n - 1], acts[n - 1], run[n]);
    }
  }

  // The generation two runners work on is never the same, and a write changes the job only if
  // its claim is the latest.
  lemma ClaimsAreFenced(run: seq<State>, acts: seq<Action>, n: nat, q: nat, r: nat)
    requires Run(run, acts) && n < |acts| && q < |run[n].runners| && r < |run[n].runners| && q != r
    requires run[n].runners[q] != Idle && run[n].runners[r] != Idle && run[n].runners[q].job == run[n].runners[r].job
    ensures run[n].runners[q].attempts != run[n].runners[r].attempts
    ensures acts[n].Write? && acts[n].r == r && run[n].runners[r].attempts < run[n].runners[q].attempts ==> run[n + 1].jobs == run[n].jobs
  {
    Always(run, acts, n);
    assert RunnerOk(run[n], q) && RunnerOk(run[n], r);
    assert Acts(run[n], acts[n], run[n + 1]);
  }

  lemma {:induction false} AttemptsGrow(run: seq<State>, acts: seq<Action>, m: nat, n: nat, j: nat)
    requires Run(run, acts) && m <= n < |run| && j < |run[m].jobs|
    ensures j < |run[n].jobs| && run[m].jobs[j].attempts <= run[n].jobs[j].attempts
  {
    if m < n {
      AttemptsGrow(run, acts, m, n - 1, j);
      assert Acts(run[n - 1], acts[n - 1], run[n]);
    }
  }

  predicate ByRunner(a: Action, r: nat) {
    !a.Tick? && !a.Enqueue? && !a.Sweep? && a.r == r
  }

  // Once a job has been claimed anew, nothing the earlier claim's runner does, however late,
  // changes any job, while that is the claim it holds.
  lemma SupersededClaimIsInert(run: seq<State>, acts: seq<Action>, m: nat, n: nat, r: nat)
    requires Run(run, acts) && m <= n < |acts| && r < |run[n].runners| && ByRunner(acts[n], r) && run[n].runners[r] != Idle
    requires var me := run[n].runners[r]; me.job < |run[m].jobs| && me.attempts < run[m].jobs[me.job].attempts
    ensures run[n + 1].jobs == run[n].jobs
  {
    AttemptsGrow(run, acts, m, n, run[n].runners[r].job);
    assert Acts(run[n], acts[n], run[n + 1]);
  }

  function Many(jobs: seq<Job>, st: Status): nat {
    if jobs == [] then 0 else Many(jobs[..|jobs| - 1], st) + (if jobs[|jobs| - 1].status == st then 1 else 0)
  }

  function One(job: Job, st: Status): nat { if job.status == st then 1 else 0 }

  lemma {:induction false} ManySet(jobs: seq<Job>, j: nat, job: Job, st: Status)
    requires j < |jobs|
    ensures Many(jobs[j := job], st) + One(jobs[j], st) == Many(jobs, st) + One(job, st)
  {
    if j < |jobs| - 1 {
      ManySet(jobs[..|jobs| - 1], j, job, st);
      assert jobs[j := job][..|jobs| - 1] == jobs[..|jobs| - 1][j := job];
    } else {
      assert jobs[j := job][..|jobs| - 1] == jobs[..|jobs| - 1];
    }
  }

  lemma JobSet(jobs: seq<Job>, j: nat, job: Job)
    requires j < |jobs|
    ensures Many(jobs[j := job], Done) + One(jobs[j], Done) == Many(jobs, Done) + One(job, Done)
    ensures Many(jobs[j := job], Dead) + One(jobs[j], Dead) == Many(jobs, Dead) + One(job, Dead)
  {
    ManySet(jobs, j, job, Done);
    ManySet(jobs, j, job, Dead);
  }

  lemma JobAppended(jobs: seq<Job>, job: Job)
    requires job.status == Pending
    ensures Many(jobs + [job], Done) == Many(jobs, Done) && Many(jobs + [job], Dead) == Many(jobs, Dead)
  {
    assert (jobs + [job])[..|jobs|] == jobs;
  }

  // A job goes back from running to pending between the two states.
  ghost predicate Retries(s: State, s': State) {
    exists j :: 0 <= j < |s.jobs| && j < |s'.jobs| && s.jobs[j].status == Running && s'.jobs[j].status == Pending
  }

  ghost function RetriesIn(run: seq<State>, n: nat): nat
    requires n < |run|
  {
    if n == 0 then 0 else RetriesIn(run, n - 1) + (if Retries(run[n - 1], run[n]) then 1 else 0)
  }

  ghost predicate CountsMove(s: State, s': State) {
    && Many(s'.jobs, Done) + s.effective.done == Many(s.jobs, Done) + s'.effective.done
    && Many(s'.jobs, Dead) + s.effective.dead + s.swept == Many(s.jobs, Dead) + s'.effective.dead + s'.swept
    && s'.effective.retry == s.effective.retry + (if Retries(s, s') then 1 else 0)
  }

  lemma StepCounts(s: State, a: Action, s': State)
    requires Inv(s) && Acts(s, a, s')
    ensures CountsMove(s, s')
  {
    hide Many, Total, JobOk;
    match a
    case Enqueue(kind, max, runAfter) => JobAppended(s.jobs, s'.jobs[|s.jobs|]);
    case Claim(_, j, _) => JobSet(s.jobs, j, s'.jobs[j]);
    case Sweep(j) => JobSet(s.jobs, j, s'.jobs[j]);
    case Unhandled(r, _) =>
      var j := s.runners[r].job;
      JobSet(s.jobs, j, s'.jobs[j]);
    case Write(r, _, _) =>
      assert RunnerOk(s, r);
      WriteCounts(s, r, a, s');
    case _ =>
  }

  lemma WriteCounts(s: State, r: nat, a: Action, s': State)
    requires a.Write? && a.r == r && r < |s.runners| && Sized(s) && RunnerActs(s, a, r, s')
    ensures CountsMove(s, s')
  {
    hide Many;
    var j := s.runners[r].job;
    JobSet(s.jobs, j, s'.jobs[j]);
    assert Retries(s, s') <==> s.jobs[j].status == Running && s'.jobs[j].status == Pending;
  }

  lemma {:induction false} CountsAlways(run: seq<State>, acts: seq<Action>, n: nat)
    requires Run(run, acts) && n < |run|
    ensures Many(run[n].jobs, Done) == run[n].effective.done
    ensures Many(run[n].jobs, Dead) == run[n].effective.dead + run[n].swept
    ensures RetriesIn(run, n) == run[n].effective.retry
  {
    hide Acts, Inv, Retries;
    if n > 0 {
      CountsAlways(run, acts, n - 1);
      Always(run, acts, n - 1);
      StepCounts(run[n - 1], acts[n - 1], run[n]);
    }
  }

  // The outcomes counted are the terminal writes that took effect, less those whose reply was
  // lost; and the writes that took effect are what happened to the jobs: as many are done, as
  // many dead beside the swept ones, and as many times one went back to pending.
  lemma OutcomesAreEffectiveWrites(run: seq<State>, acts: seq<Action>, n: nat)
    requires Run(run, acts) && n < |run|
    ensures run[n].effective == Sum(run[n].counted, run[n].unacked)
    ensures Total(run[n].ended) == run[n].effective.done + run[n].effective.dead + run[n].swept
    ensures Many(run[n].jobs, Done) == run[n].effective.done
    ensures Many(run[n].jobs, Dead) == run[n].effective.dead + run[n].swept
    ensures RetriesIn(run, n) == run[n].effective.retry
  {
    Always(run, acts, n);
    CountsAlways(run, acts, n);
  }

  // ---- How a job moves ---------------------------------------------------------------------------

  // The current claim's runner reports its run: done when it succeeded, and otherwise pending
  // again while attempts remain and dead when none do; a runner without the claim changes nothing.
  lemma ReportExactly(s: State, r: nat, runAfter: Time, lost: bool, s': State)
    requires Inv(s) && Acts(s, Write(r, runAfter, lost), s')
    ensures s.runners[r].Ran? && s.runners[r].job < |s.jobs| == |s'.jobs|
    ensures forall i :: 0 <= i < |s.jobs| && i != s.runners[r].job ==> s'.jobs[i] == s.jobs[i]
    ensures var me := s.runners[r]; var was, done, e := s.jobs[me.job], s'.jobs[me.job], s.effective;
            if was.status != Running || was.attempts != me.attempts then done == was && s'.effective == e
            else if me.ok then
              done == Job(was.kind, Done, was.attempts, was.max, was.runAfter, None) && s'.effective == Counts(e.done + 1, e.retry, e.dead)
            else if was.attempts == was.max then
              done == Job(was.kind, Dead, was.attempts, was.max, was.runAfter, None) && s'.effective == Counts(e.done, e.retry, e.dead + 1)
            else
              done == Job(was.kind, Pending, was.attempts, was.max, runAfter, None) && s'.effective == Counts(e.done, e.retry + 1, e.dead)
  {
    assert RunnerOk(s, r) && JobOk(s, s.runners[r].job);
  }

  // A claim takes a pending job that is due, or a running one whose lease is over and which has
  // attempts left, and counts one attempt more.
  lemma ClaimExactly(s: State, r: nat, j: nat, lease: Time, s': State)
    requires Inv(s) && Acts(s, Claim(r, j, lease), s')
    ensures j < |s.jobs| == |s'.jobs| && forall i :: 0 <= i < |s.jobs| && i != j ==> s'.jobs[i] == s.jobs[i]
    ensures var was := s.jobs[j];
            || (was.status == Pending && was.runAfter <= s.now)
            || (was.status == Running && was.leasedUntil.Some? && was.leasedUntil.value < s.now && was.attempts < was.max)
    ensures s'.jobs[j] == Job(s.jobs[j].kind, Running, s.jobs[j].attempts + 1, s.jobs[j].max, s.jobs[j].runAfter, Some(s.now + lease))
    ensures s'.runners[r] == Held(j, s'.jobs[j].attempts)
  {
  }

  // An idle runner can claim every such job, and the sweep can bury every running job whose last
  // lease is over and which has no attempts left; no other.
  lemma ClaimableExactly(s: State, r: nat, j: nat, lease: Time)
    requires Sized(s) && r < |s.runners| && s.runners[r] == Idle && j < |s.jobs|
    ensures var job := s.jobs[j]; var over := job.status == Running && job.leasedUntil.Some? && job.leasedUntil.value < s.now;
            && ((exists s' :: Acts(s, Claim(r, j, lease), s')) <==>
                  (job.status == Pending && job.runAfter <= s.now) || (over && job.attempts < job.max))
            && ((exists s' :: Acts(s, Sweep(j), s')) <==> over && job.attempts >= job.max)
  {
    var job := s.jobs[j];
    if Runnable(job, s.now) {
      var claimed := Job(job.kind, Running, job.attempts + 1, job.max, job.runAfter, Some(s.now + lease));
      assert Acts(s, Claim(r, j, lease), s.(jobs := s.jobs[j := claimed], runners := s.runners[r := Held(j, claimed.attempts)]));
    }
    if job.status == Running && Expired(job, s.now) && job.attempts >= job.max {
      assert Acts(s, Sweep(j), SetJob(s, j, job.(status := Dead, leasedUntil := None)).(swept := s.swept + 1));
    }
  }

  // While a lease lasts, only a runner that holds the claim changes the job.
  lemma LeaseProtects(s: State, a: Action, s': State, j: nat)
    requires Inv(s) && Acts(s, a, s') && j < |s.jobs| && s'.jobs[j] != s.jobs[j]
    requires s.jobs[j].status == Running && s.jobs[j].leasedUntil.Some? && s.now <= s.jobs[j].leasedUntil.value
    ensures (a.Write? || a.Unhandled?) && s.runners[a.r] != Idle && s.runners[a.r].job == j && s.runners[a.r].attempts == s.jobs[j].attempts
  {
    hide Inv, Total;
  }

  // The claim's runner reports a success, or what is the end of a job: its last attempt failed,
  // nothing handles its kind, or it was swept with its last lease over.
  ghost predicate Succeeds(s: State, a: Action, j: nat) {
    a.Write? && a.r < |s.runners| && s.runners[a.r].Ran? && s.runners[a.r].ok && s.runners[a.r].job == j
    && j < |s.jobs| && s.jobs[j].attempts == s.runners[a.r].attempts
  }

  ghost predicate Exhausts(s: State, a: Action, j: nat) {
    j < |s.jobs| && s.jobs[j].status == Running
    && match a
       case Write(r, _, _) => r < |s.runners| && s.runners[r] == Ran(j, s.jobs[j].attempts, false) && s.jobs[j].attempts == s.jobs[j].max
       case Unhandled(r, _) => r < |s.runners| && s.runners[r] == Held(j, s.jobs[j].attempts)
       case Sweep(i) => i == j && s.jobs[j].leasedUntil.Some? && s.jobs[j].leasedUntil.value < s.now && s.jobs[j].attempts == s.jobs[j].max
       case _ => false
  }

  lemma EndStep(s: State, a: Action, s': State, j: nat)
    requires Inv(s) && Acts(s, a, s') && j < |s'.jobs|
    ensures s'.jobs[j].status == Done ==> (j < |s.jobs| && s.jobs[j].status == Done) || Succeeds(s, a, j)
    ensures s'.jobs[j].status == Dead ==> (j < |s.jobs| && s.jobs[j].status == Dead) || Exhausts(s, a, j)
  {
    hide Total;
    if j < |s.jobs| { assert JobOk(s, j); }
    if a.Write? { assert RunnerOk(s, a.r) && JobOk(s, s.runners[a.r].job); }
  }

  // A job is done only by a success of its claim, and dead only when its attempts are used up or
  // nothing handles it.
  lemma {:induction false} EndsHaveAReason(run: seq<State>, acts: seq<Action>, n: nat, j: nat) returns (i: nat)
    requires Run(run, acts) && n < |run| && j < |run[n].jobs| && Terminal(run[n].jobs[j].status)
    ensures i < n && if run[n].jobs[j].status == Done then Succeeds(run[i], acts[i], j) else Exhausts(run[i], acts[i], j)
  {
    hide Inv, Acts, Succeeds, Exhausts;
    Always(run, acts, n - 1);
    EndStep(run[n - 1], acts[n - 1], run[n], j);
    if j < |run[n - 1].jobs| && run[n - 1].jobs[j].status == run[n].jobs[j].status {
      i := EndsHaveAReason(run, acts, n - 1, j);
    } else {
      i := n - 1;
    }
  }
}
