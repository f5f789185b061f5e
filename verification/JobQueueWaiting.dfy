/** Bounded waiting of non-interactive human jobs, over any run of arrivals and drains. */
module JobQueueWaiting {
  import opened World
  import opened JobQueue
  import opened JobQueueLaws

  function Interactive(h: seq<Job>): nat { |InLane(h, HumanInteractive)| }

  function Noninteractive(h: seq<Job>): nat { |InLane(h, HumanNoninteractive)| }

  function Capped(streak: nat): nat {
    if streak < FAIRNESS_INTERACTIVE_BURST then streak else FAIRNESS_INTERACTIVE_BURST
  }

  lemma CountStep(h: seq<Job>, job: Job)
    ensures Interactive(h + [job]) == Interactive(h) + if job.lane == HumanInteractive then 1 else 0
    ensures Noninteractive(h + [job]) == Noninteractive(h) + if job.lane == HumanNoninteractive then 1 else 0
    ensures BackgroundRuns(h + [job]) == BackgroundRuns(h) + if IsBackgroundLane(job.lane) then 1 else 0
  {
    InLaneAppend(h, [job], HumanInteractive);
    InLaneAppend(h, [job], HumanNoninteractive);
    BackgroundRunsStep(h, job);
  }

  /** At every moment before the job with `k` others ahead of it has run: no system or ai job has run, and at most
      one burst of interactive jobs per non-interactive job run, plus one. */
  ghost predicate FairSoFar(h: seq<Job>, k: nat) {
    forall t | 0 <= t <= |h| && Noninteractive(h[..t]) <= k ::
      BackgroundRuns(h[..t]) == 0 && Interactive(h[..t]) <= 5 * (Noninteractive(h[..t]) + 1)
  }

  /** Between drains, after history `h`. While the job waits, the streak pays for the interactive jobs not yet
      balanced by a non-interactive one. */
  ghost predicate Idle(h: seq<Job>, q: Queue, k: nat) {
    && FairSoFar(h, k) && PromptQueue(q)
    && (Noninteractive(h) <= k ==>
          && BackgroundRuns(h) == 0
          && Interactive(h) <= FAIRNESS_INTERACTIVE_BURST * Noninteractive(h) + Capped(q.streak)
          && |q.lanes.noninteractive| + Noninteractive(h) > k)
  }

  /** Inside a drain, with a job taken but not yet run. */
  ghost predicate Going(h: seq<Job>, next: Taken, k: nat) {
    && FairSoFar(h, k) && PromptQueue(next.rest)
    && (next.Next? ==> Prompt(next.job))
    && (Noninteractive(h) <= k ==>
          && next.Next? && !IsBackgroundLane(next.job.lane) && BackgroundRuns(h) == 0
          && Interactive(h + [next.job]) <=
               FAIRNESS_INTERACTIVE_BURST * Noninteractive(h + [next.job]) + Capped(next.rest.streak)
          && |Pending(next, HumanNoninteractive)| + Noninteractive(h) > k)
  }

  lemma TakeKeepsPrompt(q: Queue)
    requires PromptQueue(q)
    ensures PromptQueue(Take(q).rest)
    ensures Take(q).Next? ==> Prompt(Take(q).job) && Take(q).job.lane == NextLane(q).value
  {
    TakeSorted(q);
    if NextLane(q).Some? {
      var from := NextLane(q).value;
      assert q.lanes.Of(from)[0] in q.lanes.Of(from);
      forall lane ensures AllPrompt(Take(q).rest.lanes.Of(lane)) {
        TakeLane(q, lane);
        assert AllPrompt(q.lanes.Of(lane));
      }
    }
  }

  lemma TakeIsFair(h: seq<Job>, q: Queue, k: nat)
    requires Idle(h, q, k)
    ensures Going(h, Take(q), k)
  {
    TakeKeepsPrompt(q);
    TakePending(q, HumanNoninteractive);
    if Noninteractive(h) <= k {
      CountStep(h, Take(q).job);
    }
  }

  lemma PushAllPrompt(q: Queue, jobs: seq<Job>)
    requires PromptQueue(q) && AllPrompt(jobs)
    ensures PromptQueue(PushAll(q, jobs))
  {
    PushAllSorted(q, jobs);
    forall lane ensures AllPrompt(PushAll(q, jobs).lanes.Of(lane)) {
      PushAllLane(q, jobs, lane);
      InLaneSubset(jobs, lane);
      assert AllPrompt(q.lanes.Of(lane));
    }
  }

  lemma {:induction false} InLaneSubset(jobs: seq<Job>, lane: Lane)
    ensures forall job | job in InLane(jobs, lane) :: job in jobs
  {
    if jobs != [] {
      InLaneSubset(jobs[1..], lane);
    }
  }

  lemma FairSoFarStep(h: seq<Job>, job: Job, k: nat)
    requires FairSoFar(h, k)
    requires Noninteractive(h + [job]) <= k ==>
               BackgroundRuns(h + [job]) == 0 &&
               Interactive(h + [job]) <= FAIRNESS_INTERACTIVE_BURST * (Noninteractive(h + [job]) + 1)
    ensures FairSoFar(h + [job], k)
  {
    var h1 := h + [job];
    forall t | 0 <= t <= |h1| && Noninteractive(h1[..t]) <= k
      ensures BackgroundRuns(h1[..t]) == 0 &&
                Interactive(h1[..t]) <= FAIRNESS_INTERACTIVE_BURST * (Noninteractive(h1[..t]) + 1)
    {
      if t == |h1| {
        assert h1[..t] == h1;
      } else {
        assert h1[..t] == h[..t];
      }
    }
  }

  lemma RunIsFair(h: seq<Job>, job: Job, q: Queue, k: nat)
    requires Going(h, Next(job, q), k)
    ensures Idle(h + [job], PushAll(q, job.spawns), k)
  {
    CountStep(h, job);
    PushAllPrompt(q, job.spawns);
    PushAllLane(q, job.spawns, HumanNoninteractive);
    FairSoFarStep(h, job, k);
  }

  lemma ReturnKeepsPrompt(q: Queue, job: Job)
    requires PromptQueue(q) && Prompt(job)
    ensures PromptQueue(Push(q, job)) && PromptQueue(PutBack(q, job))
  {
    forall lane, j | j in Push(q, job).lanes.Of(lane) || j in PutBack(q, job).lanes.Of(lane)
      ensures j.lane == lane && Prompt(j)
    {
      PushLane(q, job, lane);
      assert AllPrompt(q.lanes.Of(lane));
    }
  }

  lemma PutBackIsFair(h: seq<Job>, job: Job, q: Queue, k: nat)
    requires Going(h, Next(job, q), k) && IsBackgroundLane(job.lane)
    ensures Idle(h, PutBack(q, job), k)
  {
    ReturnKeepsPrompt(q, job);
  }

  /** A drain that does not stop on a throwing job runs the waiting job. */
  lemma {:induction false} DrainFromIsFair(policy: Policy, next: Taken, ran: seq<Job>, background: nat,
                                           hist: seq<Job>, k: nat)
    requires Going(hist + ran, next, k)
    ensures var d := DrainFrom(policy, next, ran, background);
            Idle(hist + d.ran, d.queue, k) && (d.threw || Noninteractive(hist + d.ran) > k)
    decreases QueueWeight(next.rest.lanes) + if next.Next? then Weight(next.job) else 0
  {
    var h := hist + ran;
    if next.Nothing? {
    } else if Blocked(policy, next.rest.lanes, next.job, |ran|, background) {
      PutBackIsFair(h, next.job, next.rest, k);
    } else {
      var job, q1 := next.job, PushAll(next.rest, next.job.spawns);
      assert hist + (ran + [job]) == h + [job];
      RunIsFair(h, job, next.rest, k);
      if !job.throws {
        PushAllWeight(next.rest, job.spawns);
        TakeWeight(q1);
        TakeIsFair(h + [job], q1, k);
        var next1 := Take(q1);
        if job.scheduling == Immediate && next1.Next? && next1.job.scheduling == Background {
          PutBackIsFair(h + [job], next1.job, next1.rest, k);
        } else {
          DrainFromIsFair(policy, next1, ran + [job],
                          if IsBackgroundLane(job.lane) then background + 1 else background, hist, k);
        }
      }
    }
  }

  // ---------- runs ----------

  datatype Event = Arrival(job: Job) | DrainTask(policy: Policy)

  /** The queue and the jobs run, in order, after a run of events. */
  function Exec(q: Queue, events: seq<Event>): (Queue, seq<Job>) {
    if events == [] then (q, [])
    else
      var (q1, ran) := Exec(q, events[..|events| - 1]);
      match events[|events| - 1]
      case Arrival(job) => (Push(q1, job), ran)
      case DrainTask(policy) => var d := Drain(policy, q1); (d.queue, ran + d.ran)
  }

  function Arrivals(events: seq<Event>): seq<Job> {
    if events == [] then []
    else
      var last := events[|events| - 1];
      Arrivals(events[..|events| - 1]) + if last.Arrival? then [last.job] else []
  }

  function Drains(events: seq<Event>): nat {
    if events == [] then 0
    else Drains(events[..|events| - 1]) + if events[|events| - 1].DrainTask? then 1 else 0
  }

  lemma {:induction false} ExecIsFair(q: Queue, events: seq<Event>, k: nat)
    requires PromptQueue(q) && k < |q.lanes.noninteractive|
    requires AllPrompt(Arrivals(events))
    ensures var (q1, ran) := Exec(q, events);
            Idle(ran, q1, k) && (Noninteractive(ran) > k || |ran| >= Drains(events))
  {
    if events == [] {
      assert Idle([], q, k);
    } else {
      var before, last := events[..|events| - 1], events[|events| - 1];
      assert forall job | job in Arrivals(before) :: job in Arrivals(events);
      ExecIsFair(q, before, k);
      var (q1, ran) := Exec(q, before);
      match last {
        case Arrival(job) =>
          assert job in Arrivals(events);
          ArrivalIsFair(ran, q1, job, k);
        case DrainTask(policy) =>
          DrainIsFair(ran, q1, policy, k);
      }
    }
  }

  lemma ArrivalIsFair(h: seq<Job>, q: Queue, job: Job, k: nat)
    requires Idle(h, q, k) && Prompt(job)
    ensures Idle(h, Push(q, job), k)
  {
    ReturnKeepsPrompt(q, job);
    PushLane(q, job, HumanNoninteractive);
  }

  lemma DrainIsFair(h: seq<Job>, q: Queue, policy: Policy, k: nat)
    requires Idle(h, q, k)
    ensures var d := Drain(policy, q);
            Idle(h + d.ran, d.queue, k) && (Noninteractive(h + d.ran) > k || |d.ran| > 0)
            && Noninteractive(h + d.ran) >= Noninteractive(h)
  {
    InLaneAppend(h, Drain(policy, q).ran, HumanNoninteractive);
    assert h + [] == h;
    TakeIsFair(h, q, k);
    DrainFromIsFair(policy, Take(q), [], 0, h, k);
    if Noninteractive(h) <= k {
      DrainProgress(policy, q);
    }
  }

  /** Everything enqueued during a run, in order: arrivals, and what the jobs run by each drain enqueue. */
  function Entered(q: Queue, events: seq<Event>): seq<Job> {
    if events == [] then []
    else
      var before := events[..|events| - 1];
      Entered(q, before) +
      match events[|events| - 1]
      case Arrival(job) => [job]
      case DrainTask(policy) => SpawnedBy(Drain(policy, Exec(q, before).0).ran)
  }

  ghost predicate FirstInFirstOut(initial: seq<Job>, entered: seq<Job>, ran: seq<Job>, q: Queue, lane: Lane) {
    Sorted(q.lanes) && initial + InLane(entered, lane) == InLane(ran, lane) + q.lanes.Of(lane)
  }

  /** First in, first out in every lane, over any run: fairness picks and put-backs included. */
  lemma {:induction false} RunConserves(q: Queue, events: seq<Event>, lane: Lane)
    requires Sorted(q.lanes)
    ensures FirstInFirstOut(q.lanes.Of(lane), Entered(q, events), Exec(q, events).1, Exec(q, events).0, lane)
  {
    if events != [] {
      var before := events[..|events| - 1];
      RunConserves(q, before, lane);
      var (q1, ran) := Exec(q, before);
      match events[|events| - 1] {
        case Arrival(job) => ArrivalConserves(q.lanes.Of(lane), Entered(q, before), ran, q1, lane, job);
        case DrainTask(policy) => DrainTaskConserves(q.lanes.Of(lane), Entered(q, before), ran, q1, lane, policy);
      }
    }
  }

  lemma ArrivalConserves(initial: seq<Job>, entered: seq<Job>, ran: seq<Job>, q: Queue, lane: Lane, job: Job)
    requires FirstInFirstOut(initial, entered, ran, q, lane)
    ensures FirstInFirstOut(initial, entered + [job], ran, Push(q, job), lane)
  {
    InLaneAppend(entered, [job], lane);
    assert InLane([job], lane) == Just(job, lane);
    PushKeepsSorted(q, job);
    PushLane(q, job, lane);
    Append(initial, InLane(entered, lane), InLane(ran, lane), q.lanes.Of(lane), Just(job, lane));
  }

  lemma DrainTaskConserves(initial: seq<Job>, entered: seq<Job>, ran: seq<Job>, q: Queue, lane: Lane, policy: Policy)
    requires FirstInFirstOut(initial, entered, ran, q, lane)
    ensures var d := Drain(policy, q);
            FirstInFirstOut(initial, entered + SpawnedBy(d.ran), ran + d.ran, d.queue, lane)
  {
    var d := Drain(policy, q);
    DrainConserves(policy, q, lane);
    InLaneAppend(entered, SpawnedBy(d.ran), lane);
    InLaneAppend(ran, d.ran, lane);
    Append(initial, InLane(entered, lane), InLane(ran, lane), q.lanes.Of(lane), InLane(SpawnedBy(d.ran), lane));
    Assoc(InLane(ran, lane), InLane(d.ran, lane), d.queue.lanes.Of(lane));
  }

  lemma PushKeepsSorted(q: Queue, job: Job)
    requires Sorted(q.lanes)
    ensures Sorted(Push(q, job).lanes)
  {
    forall lane, j | j in Push(q, job).lanes.Of(lane) ensures j.lane == lane {
      PushLane(q, job, lane);
    }
  }

  lemma Append(i: seq<Job>, e: seq<Job>, r: seq<Job>, p: seq<Job>, more: seq<Job>)
    requires i + e == r + p
    ensures i + (e + more) == r + (p + more)
  {
    assert i + (e + more) == (i + e) + more;
  }

  lemma {:induction false} LanesPartition(h: seq<Job>)
    ensures |h| == Interactive(h) + Noninteractive(h) + BackgroundRuns(h)
  {
    if h != [] {
      LanesPartition(h[1..]);
    }
  }

  /** A non-interactive job with `k` ahead of it waits for at most 5(k + 1) interactive jobs, `k` non-interactive
      ones and no other, in whatever drains they run; and after 6(k + 1) drains it has run. */
  lemma BoundedWaiting(q: Queue, events: seq<Event>, k: nat)
    requires PromptQueue(q) && k < |q.lanes.noninteractive|
    requires AllPrompt(Arrivals(events))
    ensures var ran := Exec(q, events).1;
            && FairSoFar(ran, k)
            && (Noninteractive(ran) > k ==> InLane(ran, HumanNoninteractive)[k] == q.lanes.noninteractive[k])
            && (Drains(events) >= 6 * (k + 1) ==> Noninteractive(ran) > k)
  {
    var (q1, ran) := Exec(q, events);
    ExecIsFair(q, events, k);
    RunConserves(q, events, HumanNoninteractive);
    if Noninteractive(ran) > k {
      var all := InLane(ran, HumanNoninteractive) + q1.lanes.noninteractive;
      assert all[k] == InLane(ran, HumanNoninteractive)[k];
      assert all[k] == q.lanes.noninteractive[k];
    } else {
      LanesPartition(ran);
    }
  }
}
