/** What every drain keeps, and how long a job can wait, over whole runs of enqueues and drains. */
module JobQueueLaws {
  import opened World
  import opened JobQueue

  /** The queue reports exactly the scheduling of the job it would take, fairness override included. */
  lemma NextSchedulingAgrees(q: Queue)
    ensures Take(q).Next? ==> NextQueuedScheduling(q) == Take(q).job.scheduling
    ensures Take(q).Nothing? <==> q.lanes.Empty()
  {}

  // ---------- conservation ----------

  function InLane(jobs: seq<Job>, lane: Lane): (r: seq<Job>)
    ensures |r| <= |jobs|
    ensures forall job | job in r :: job.lane == lane
  {
    if jobs == [] then []
    else (if jobs[0].lane == lane then [jobs[0]] else []) + InLane(jobs[1..], lane)
  }

  function SpawnedBy(jobs: seq<Job>): seq<Job> {
    if jobs == [] then [] else jobs[0].spawns + SpawnedBy(jobs[1..])
  }

  lemma {:induction false} InLaneAppend(a: seq<Job>, b: seq<Job>, lane: Lane)
    ensures InLane(a + b, lane) == InLane(a, lane) + InLane(b, lane)
  {
    if a == [] {
      assert a + b == b;
    } else {
      assert (a + b)[1..] == a[1..] + b;
      InLaneAppend(a[1..], b, lane);
    }
  }

  lemma {:induction false} SpawnedByAppend(a: seq<Job>, b: seq<Job>)
    ensures SpawnedBy(a + b) == SpawnedBy(a) + SpawnedBy(b)
  {
    if a == [] {
      assert a + b == b;
    } else {
      assert (a + b)[1..] == a[1..] + b;
      SpawnedByAppend(a[1..], b);
    }
  }

  function Just(job: Job, lane: Lane): seq<Job> {
    if job.lane == lane then [job] else []
  }

  lemma PushLane(q: Queue, job: Job, lane: Lane)
    ensures Push(q, job).lanes.Of(lane) == q.lanes.Of(lane) + Just(job, lane)
    ensures PutBack(q, job).lanes.Of(lane) == Just(job, lane) + q.lanes.Of(lane)
  {}

  lemma {:induction false} PushAllLane(q: Queue, jobs: seq<Job>, lane: Lane)
    ensures PushAll(q, jobs).lanes.Of(lane) == q.lanes.Of(lane) + InLane(jobs, lane)
    ensures PushAll(q, jobs).streak == q.streak
    decreases jobs
  {
    if jobs == [] {
    } else {
      var head, tail := jobs[0], jobs[1..];
      PushLane(q, head, lane);
      PushAllLane(Push(q, head), tail, lane);
      assert InLane(jobs, lane) == Just(head, lane) + InLane(tail, lane);
      Assoc(q.lanes.Of(lane), Just(head, lane), InLane(tail, lane));
    }
  }

  lemma Assoc(a: seq<Job>, b: seq<Job>, c: seq<Job>)
    ensures (a + b) + c == a + (b + c)
  {}

  /** Every job sits in its own lane. */
  ghost predicate Sorted(lanes: Lanes) {
    forall lane, job | job in lanes.Of(lane) :: job.lane == lane
  }

  /** The jobs of a lane, counting one that has been taken but not yet run. */
  function Pending(next: Taken, lane: Lane): seq<Job> {
    (if next.Next? then Just(next.job, lane) else []) + next.rest.lanes.Of(lane)
  }

  lemma TakeLane(q: Queue, lane: Lane)
    requires Sorted(q.lanes) && NextLane(q).Some?
    ensures var from := NextLane(q).value;
            var jobs := q.lanes.Of(from);
            && Take(q).job == jobs[0] && jobs[0].lane == from
            && Take(q).rest.lanes.Of(lane) == if lane == from then jobs[1..] else q.lanes.Of(lane)
  {
    var from := NextLane(q).value;
    assert q.lanes.Of(from)[0] in q.lanes.Of(from);
  }

  lemma TakePending(q: Queue, lane: Lane)
    requires Sorted(q.lanes)
    ensures Pending(Take(q), lane) == q.lanes.Of(lane)
  {
    if NextLane(q).Some? {
      TakeLane(q, lane);
    }
  }

  lemma TakeSorted(q: Queue)
    requires Sorted(q.lanes)
    ensures Sorted(Take(q).rest.lanes)
  {
    if NextLane(q).Some? {
      forall lane, job | job in Take(q).rest.lanes.Of(lane) ensures job.lane == lane {
        TakeLane(q, lane);
      }
    }
  }

  lemma PushAllSorted(q: Queue, jobs: seq<Job>)
    requires Sorted(q.lanes)
    ensures Sorted(PushAll(q, jobs).lanes)
  {
    forall lane, job | job in PushAll(q, jobs).lanes.Of(lane) ensures job.lane == lane {
      PushAllLane(q, jobs, lane);
    }
  }

  /** What was in a lane at first and what arrived since is, in order, what ran from it and what is pending in it. */
  ghost predicate Conserved(initial: seq<Job>, ran: seq<Job>, pending: seq<Job>, lane: Lane) {
    initial + InLane(SpawnedBy(ran), lane) == InLane(ran, lane) + pending
  }

  lemma RunConserves(initial: seq<Job>, ran: seq<Job>, job: Job, q: Queue, lane: Lane)
    requires Conserved(initial, ran, Just(job, lane) + q.lanes.Of(lane), lane)
    ensures Conserved(initial, ran + [job], PushAll(q, job.spawns).lanes.Of(lane), lane)
  {
    InLaneAppend(ran, [job], lane);
    assert InLane([job], lane) == Just(job, lane);
    SpawnedByAppend(ran, [job]);
    assert SpawnedBy([job]) == job.spawns;
    InLaneAppend(SpawnedBy(ran), job.spawns, lane);
    PushAllLane(q, job.spawns, lane);
    Regroup(initial, InLane(SpawnedBy(ran), lane), InLane(ran, lane), Just(job, lane), q.lanes.Of(lane),
            InLane(job.spawns, lane));
  }

  lemma Regroup(i: seq<Job>, a: seq<Job>, r: seq<Job>, j: seq<Job>, p: seq<Job>, s: seq<Job>)
    requires i + a == r + (j + p)
    ensures i + (a + s) == (r + j) + (p + s)
  {
    assert i + (a + s) == (i + a) + s;
    assert (r + (j + p)) + s == (r + j) + (p + s);
  }

  /** The state of a drain between two jobs. */
  ghost predicate Balanced(initial: seq<Job>, next: Taken, ran: seq<Job>, lane: Lane) {
    && Sorted(next.rest.lanes) && Conserved(initial, ran, Pending(next, lane), lane)
  }

  lemma {:induction false} DrainFromConserves(policy: Policy, next: Taken, ran: seq<Job>, background: nat,
                                              initial: seq<Job>, lane: Lane)
    requires Balanced(initial, next, ran, lane)
    ensures Balanced(initial, Nothing(DrainFrom(policy, next, ran, background).queue),
                     DrainFrom(policy, next, ran, background).ran, lane)
    decreases QueueWeight(next.rest.lanes) + if next.Next? then Weight(next.job) else 0
  {
    if next.Nothing? {
    } else if Blocked(policy, next.rest.lanes, next.job, |ran|, background) {
      PutBackBalanced(initial, next.job, next.rest, ran, lane);
    } else {
      var job, q := next.job, next.rest;
      var q1 := PushAll(q, job.spawns);
      RunConserves(initial, ran, job, q, lane);
      PushAllSorted(q, job.spawns);
      if !job.throws {
        PushAllWeight(q, job.spawns);
        TakeWeight(q1);
        TakePending(q1, lane);
        TakeSorted(q1);
        var next1 := Take(q1);
        if job.scheduling == Immediate && next1.Next? && next1.job.scheduling == Background {
          PutBackBalanced(initial, next1.job, next1.rest, ran + [job], lane);
        } else {
          DrainFromConserves(policy, next1, ran + [job],
                             if IsBackgroundLane(job.lane) then background + 1 else background,
                             initial, lane);
        }
      }
    }
  }

  lemma PutBackBalanced(initial: seq<Job>, job: Job, q: Queue, ran: seq<Job>, lane: Lane)
    requires Balanced(initial, Next(job, q), ran, lane)
    ensures Balanced(initial, Nothing(PutBack(q, job)), ran, lane)
  {
    forall l, j | j in PutBack(q, job).lanes.Of(l) ensures j.lane == l {
      PushLane(q, job, l);
    }
    PushLane(q, job, lane);
  }

  lemma TakeBalances(q: Queue, lane: Lane)
    requires Sorted(q.lanes)
    ensures Balanced(q.lanes.Of(lane), Take(q), [], lane)
  {
    TakePending(q, lane);
    TakeSorted(q);
  }

  lemma DrainBalances(policy: Policy, q: Queue, lane: Lane, d: Drained)
    requires Sorted(q.lanes) && d == DrainFrom(policy, Take(q), [], 0)
    ensures Balanced(q.lanes.Of(lane), Nothing(d.queue), d.ran, lane)
  {
    TakeBalances(q, lane);
    DrainFromConserves(policy, Take(q), [], 0, q.lanes.Of(lane), lane);
  }

  /** A drain loses, duplicates and reorders nothing in any lane. */
  lemma DrainConserves(policy: Policy, q: Queue, lane: Lane)
    requires Sorted(q.lanes)
    ensures var d := Drain(policy, q);
            Sorted(d.queue.lanes) &&
            q.lanes.Of(lane) + InLane(SpawnedBy(d.ran), lane) == InLane(d.ran, lane) + d.queue.lanes.Of(lane)
  {
    var d := Drain(policy, q);
    DrainBalances(policy, q, lane, d);
    assert Pending(Nothing(d.queue), lane) == d.queue.lanes.Of(lane);
  }

  // ---------- batch cap and order within one drain ----------

  function BackgroundRuns(ran: seq<Job>): nat {
    |InLane(ran, System)| + |InLane(ran, Ai)|
  }

  lemma BackgroundRunsStep(ran: seq<Job>, job: Job)
    ensures BackgroundRuns(ran + [job]) == BackgroundRuns(ran) + if IsBackgroundLane(job.lane) then 1 else 0
  {
    InLaneAppend(ran, [job], System);
    InLaneAppend(ran, [job], Ai);
  }

  /** Once an immediate job has run, only immediate jobs follow. */
  ghost predicate ImmediateLast(ran: seq<Job>) {
    forall i, j | 0 <= i < j < |ran| && ran[i].scheduling == Immediate :: ran[j].scheduling == Immediate
  }

  ghost predicate MayFollow(ran: seq<Job>, job: Job) {
    HasImmediate(ran) ==> job.scheduling == Immediate
  }

  lemma ImmediateStep(ran: seq<Job>, job: Job)
    requires ImmediateLast(ran) && MayFollow(ran, job)
    ensures ImmediateLast(ran + [job])
    ensures HasImmediate(ran + [job]) <==> job.scheduling == Immediate
  {
    assert (ran + [job])[|ran|] == job;
    forall i | 0 <= i < |ran| && ran[i].scheduling == Immediate ensures job.scheduling == Immediate {
      assert ran[i] in ran;
    }
  }

  /** A drain between two jobs, within its bounds so far. */
  ghost predicate InBounds(policy: Policy, next: Taken, ran: seq<Job>, background: nat) {
    && background == BackgroundRuns(ran) <= policy.batchSize
    && ImmediateLast(ran) && (next.Next? ==> MayFollow(ran, next.job))
  }

  function Counted(job: Job, background: nat): nat {
    if IsBackgroundLane(job.lane) then background + 1 else background
  }

  /** One more job keeps the bounds, whatever is taken next but a background job after an immediate one. */
  lemma RunStaysInBounds(policy: Policy, job: Job, q: Queue, ran: seq<Job>, background: nat, next: Taken)
    requires InBounds(policy, Next(job, q), ran, background) && !Blocked(policy, q.lanes, job, |ran|, background)
    requires !(job.scheduling == Immediate && next.Next? && next.job.scheduling == Background)
    ensures InBounds(policy, next, ran + [job], Counted(job, background))
  {
    BackgroundRunsStep(ran, job);
    ImmediateStep(ran, job);
  }

  lemma {:induction false} DrainFromStaysInBounds(policy: Policy, next: Taken, ran: seq<Job>, background: nat)
    requires InBounds(policy, next, ran, background)
    ensures var d := DrainFrom(policy, next, ran, background);
            BackgroundRuns(d.ran) <= policy.batchSize && ImmediateLast(d.ran)
    decreases QueueWeight(next.rest.lanes) + if next.Next? then Weight(next.job) else 0
  {
    if next.Next? && !Blocked(policy, next.rest.lanes, next.job, |ran|, background) {
      var job, q := next.job, next.rest;
      var q1 := PushAll(q, job.spawns);
      RunStaysInBounds(policy, job, q, ran, background, Nothing(q1));
      if !job.throws {
        PushAllWeight(q, job.spawns);
        TakeWeight(q1);
        var next1 := Take(q1);
        if !(job.scheduling == Immediate && next1.Next? && next1.job.scheduling == Background) {
          RunStaysInBounds(policy, job, q, ran, background, next1);
          DrainFromStaysInBounds(policy, next1, ran + [job], Counted(job, background));
        }
      }
    }
  }

  /** A drain runs at most a batch of system and ai jobs, and no background job after an immediate one. */
  lemma DrainStaysInBounds(policy: Policy, q: Queue)
    ensures var d := Drain(policy, q);
            |InLane(d.ran, System)| + |InLane(d.ran, Ai)| <= policy.batchSize && ImmediateLast(d.ran)
  {
    DrainFromStaysInBounds(policy, Take(q), [], 0);
  }

  // ---------- progress ----------

  /** A drain runs something exactly when the job it would take first is not held back on the spot. */
  lemma DrainProgress(policy: Policy, q: Queue)
    ensures Drain(policy, q).ran != [] <==>
              !q.lanes.Empty() && !Blocked(policy, Take(q).rest.lanes, Take(q).job, 0, 0)
  {
    NextSchedulingAgrees(q);
    if Take(q).Next? && !Blocked(policy, Take(q).rest.lanes, Take(q).job, 0, 0) {
      var job := Take(q).job;
      var q1 := PushAll(Take(q).rest, job.spawns);
      var background := if IsBackgroundLane(job.lane) then 1 else 0;
      var next1 := Take(q1);
      if !job.throws && !(job.scheduling == Immediate && next1.Next? && next1.job.scheduling == Background) {
        DrainFromGrows(policy, next1, [] + [job], background);
      }
    }
  }

  lemma {:induction false} DrainFromGrows(policy: Policy, next: Taken, ran: seq<Job>, background: nat)
    ensures ran <= DrainFrom(policy, next, ran, background).ran
    decreases QueueWeight(next.rest.lanes) + if next.Next? then Weight(next.job) else 0
  {
    if next.Next? && !Blocked(policy, next.rest.lanes, next.job, |ran|, background) && !next.job.throws {
      var q1 := PushAll(next.rest, next.job.spawns);
      PushAllWeight(next.rest, next.job.spawns);
      TakeWeight(q1);
      if !(next.job.scheduling == Immediate && Take(q1).Next? && Take(q1).job.scheduling == Background) {
        DrainFromGrows(policy, Take(q1), ran + [next.job],
                       if IsBackgroundLane(next.job.lane) then background + 1 else background);
      }
    }
  }

  /** Human work is never queued as background work, now or by a queued job later. */
  ghost predicate Prompt(job: Job)
    decreases job
  {
    && (!IsBackgroundLane(job.lane) ==> job.scheduling == Immediate)
    && forall spawned | spawned in job.spawns :: Prompt(spawned)
  }

  ghost predicate AllPrompt(jobs: seq<Job>) {
    forall job | job in jobs :: Prompt(job)
  }

  ghost predicate PromptQueue(q: Queue) {
    Sorted(q.lanes) && forall lane :: AllPrompt(q.lanes.Of(lane))
  }

  /** With prompt human work, room in the batch and no pause, every drain of a non-empty queue runs a job. */
  lemma PromptDrainProgress(policy: Policy, q: Queue)
    requires PromptQueue(q) && !q.lanes.Empty() && policy.batchSize > 0 && !policy.paused(0)
    ensures Drain(policy, q).ran != []
  {
    var from := NextLane(q).value;
    TakeLane(q, from);
    assert q.lanes.Of(from)[0] in q.lanes.Of(from);
    DrainProgress(policy, q);
  }

  function Repeat(policy: Policy, q: Queue, n: nat): (Queue, seq<Job>) {
    if n == 0 then (q, [])
    else var (q1, ran) := Repeat(policy, q, n - 1);
         var d := Drain(policy, q1);
         (d.queue, ran + d.ran)
  }

  /** A background interactive job with an immediate one behind it. */
  predicate Stalled(lanes: Lanes) {
    && lanes.noninteractive == [] && |lanes.interactive| >= 2
    && lanes.interactive[0].lane == HumanInteractive && lanes.interactive[0].scheduling == Background
    && lanes.interactive[1].scheduling == Immediate
  }

  lemma StalledDrain(policy: Policy, q: Queue)
    requires Stalled(q.lanes)
    ensures Drain(policy, q).ran == [] && Drain(policy, q).queue.lanes == q.lanes
  {
    var first, rest := q.lanes.interactive[0], Take(q).rest;
    assert Take(q) == Next(first, rest) && rest.lanes.interactive == q.lanes.interactive[1..];
    assert rest.lanes.interactive[0] in rest.lanes.interactive;
    assert Blocked(policy, rest.lanes, first, 0, 0);
    assert [first] + q.lanes.interactive[1..] == q.lanes.interactive;
  }

  /** Without prompt human work progress can fail for ever: a background interactive job ahead of an immediate one
      is put back by every drain, and nothing runs however many drains follow. */
  lemma {:induction false} BackgroundHumanWorkStalls(policy: Policy, q: Queue, n: nat)
    requires Stalled(q.lanes)
    ensures Repeat(policy, q, n).1 == [] && Repeat(policy, q, n).0.lanes == q.lanes
  {
    if n > 0 {
      BackgroundHumanWorkStalls(policy, q, n - 1);
      StalledDrain(policy, Repeat(policy, q, n - 1).0);
    }
  }
}
