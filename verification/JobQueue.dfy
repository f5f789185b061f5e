/** The four-lane job queue and the drain policy, as functions on its state. */
module JobQueue {
  import opened World

  datatype Lane = HumanInteractive | HumanNoninteractive | System | Ai

  datatype Scheduling = Immediate | Background

  /** A queued job. Running it enqueues `spawns`, in order, and then returns or throws. */
  datatype Job = Job(id: nat, lane: Lane, scheduling: Scheduling, spawns: seq<Job>, throws: bool)

  datatype Lanes = Lanes(interactive: seq<Job>, noninteractive: seq<Job>, system: seq<Job>, ai: seq<Job>) {
    function Of(lane: Lane): seq<Job> {
      match lane
      case HumanInteractive => interactive
      case HumanNoninteractive => noninteractive
      case System => system
      case Ai => ai
    }

    function With(lane: Lane, jobs: seq<Job>): (r: Lanes)
      ensures r.Of(lane) == jobs
      ensures forall l | l != lane :: r.Of(l) == Of(l)
    {
      match lane
      case HumanInteractive => this.(interactive := jobs)
      case HumanNoninteractive => this.(noninteractive := jobs)
      case System => this.(system := jobs)
      case Ai => this.(ai := jobs)
    }

    predicate Empty() {
      interactive == [] && noninteractive == [] && system == [] && ai == []
    }
  }

  const PRIORITY_ORDER: seq<Lane> := [HumanInteractive, HumanNoninteractive, System, Ai]

  const FAIRNESS_INTERACTIVE_BURST: nat := 5

  /** The lanes and the count of interactive jobs taken in a row. */
  datatype Queue = Queue(lanes: Lanes, streak: nat)

  datatype Policy = Policy(batchSize: nat, paused: nat -> bool)

  function Push(q: Queue, job: Job): Queue {
    q.(lanes := q.lanes.With(job.lane, q.lanes.Of(job.lane) + [job]))
  }

  function {:tailrecursion} PushAll(q: Queue, jobs: seq<Job>): Queue
    decreases jobs
  {
    if jobs == [] then q else PushAll(Push(q, jobs[0]), jobs[1..])
  }

  function PutBack(q: Queue, job: Job): Queue {
    q.(lanes := q.lanes.With(job.lane, [job] + q.lanes.Of(job.lane)))
  }

  function FairnessDue(q: Queue): bool {
    q.streak >= FAIRNESS_INTERACTIVE_BURST && q.lanes.noninteractive != []
  }

  function FirstLane(lanes: Lanes): Option<Lane> {
    if lanes.interactive != [] then Some(HumanInteractive)
    else if lanes.noninteractive != [] then Some(HumanNoninteractive)
    else if lanes.system != [] then Some(System)
    else if lanes.ai != [] then Some(Ai)
    else None
  }

  /** The lane the next job comes from. */
  function NextLane(q: Queue): (lane: Option<Lane>)
    ensures lane.None? <==> q.lanes.Empty()
    ensures lane.Some? ==> q.lanes.Of(lane.value) != []
  {
    if FairnessDue(q) then Some(HumanNoninteractive) else FirstLane(q.lanes)
  }

  function StreakAfter(streak: nat, lane: Lane): nat {
    match lane
    case HumanInteractive => streak + 1
    case HumanNoninteractive => 0
    case _ => streak
  }

  datatype Taken = Nothing(rest: Queue) | Next(job: Job, rest: Queue)

  /** Takes the next job off its lane. */
  function Take(q: Queue): Taken {
    match NextLane(q)
    case None => Nothing(q)
    case Some(lane) =>
      var jobs := q.lanes.Of(lane);
      Next(jobs[0], Queue(q.lanes.With(lane, jobs[1..]), StreakAfter(q.streak, lane)))
  }

  predicate HasImmediate(jobs: seq<Job>) {
    exists job | job in jobs :: job.scheduling == Immediate
  }

  predicate HasImmediateHumanWork(lanes: Lanes) {
    HasImmediate(lanes.interactive) || HasImmediate(lanes.noninteractive)
  }

  predicate IsBackgroundLane(lane: Lane) {
    lane == System || lane == Ai
  }

  /** Why a drain puts a job back instead of running it. `ran` and `background` count the jobs run so far. */
  predicate Blocked(policy: Policy, lanes: Lanes, job: Job, ran: nat, background: nat) {
    || (job.scheduling == Background && HasImmediateHumanWork(lanes))
    || (job.lane == Ai && policy.paused(ran))
    || (IsBackgroundLane(job.lane) && background >= policy.batchSize)
  }

  datatype Drained = Drained(queue: Queue, ran: seq<Job>, yielded: bool, threw: bool)

  ghost function Weight(job: Job): nat
    decreases job, 1
  {
    1 + WeightAll(job.spawns)
  }

  ghost function WeightAll(jobs: seq<Job>): nat
    decreases jobs, 0
  {
    if jobs == [] then 0 else Weight(jobs[0]) + WeightAll(jobs[1..])
  }

  ghost function QueueWeight(lanes: Lanes): nat {
    WeightAll(lanes.interactive) + WeightAll(lanes.noninteractive) + WeightAll(lanes.system) + WeightAll(lanes.ai)
  }

  lemma {:induction false} WeightAllAppend(a: seq<Job>, b: seq<Job>)
    ensures WeightAll(a + b) == WeightAll(a) + WeightAll(b)
  {
    if a == [] {
      assert a + b == b;
    } else {
      assert (a + b)[1..] == a[1..] + b;
      WeightAllAppend(a[1..], b);
    }
  }

  lemma {:induction false} PushAllWeight(q: Queue, jobs: seq<Job>)
    ensures QueueWeight(PushAll(q, jobs).lanes) == QueueWeight(q.lanes) + WeightAll(jobs)
    decreases jobs
  {
    if jobs != [] {
      WeightAllAppend(q.lanes.Of(jobs[0].lane), [jobs[0]]);
      PushAllWeight(Push(q, jobs[0]), jobs[1..]);
    }
  }

  lemma TakeWeight(q: Queue)
    ensures Take(q).Next? ==> QueueWeight(q.lanes) == QueueWeight(Take(q).rest.lanes) + Weight(Take(q).job)
  {}

  /** The drain loop, entered with `next` already taken. */
  function DrainFrom(policy: Policy, next: Taken, ran: seq<Job>, background: nat): Drained
    decreases QueueWeight(next.rest.lanes) + if next.Next? then Weight(next.job) else 0
  {
    match next
    case Nothing(q) => Drained(q, ran, false, false)
    case Next(job, q) =>
      if Blocked(policy, q.lanes, job, |ran|, background) then Drained(PutBack(q, job), ran, true, false)
      else
        var q1 := PushAll(q, job.spawns);
        if job.throws then Drained(q1, ran + [job], false, true)
        else
          PushAllWeight(q, job.spawns);
          TakeWeight(q1);
          var next1 := Take(q1);
          if job.scheduling == Immediate && next1.Next? && next1.job.scheduling == Background
          then Drained(PutBack(next1.rest, next1.job), ran + [job], true, false)
          else DrainFrom(policy, next1, ran + [job], if IsBackgroundLane(job.lane) then background + 1 else background)
  }

  function Drain(policy: Policy, q: Queue): Drained {
    DrainFrom(policy, Take(q), [], 0)
  }

  /** The scheduling the queue reports for the job it would take next. */
  function NextQueuedScheduling(q: Queue): Scheduling {
    if q.streak >= FAIRNESS_INTERACTIVE_BURST && q.lanes.noninteractive != [] then q.lanes.noninteractive[0].scheduling
    else if q.lanes.interactive != [] then q.lanes.interactive[0].scheduling
    else if q.lanes.noninteractive != [] then q.lanes.noninteractive[0].scheduling
    else if q.lanes.system != [] then q.lanes.system[0].scheduling
    else if q.lanes.ai != [] then q.lanes.ai[0].scheduling
    else Immediate
  }
}
