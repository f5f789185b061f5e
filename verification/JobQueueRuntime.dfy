/** The queue with its flags and the host's timers: a drain is always on its way while work is queued. */
module JobQueueRuntime {
  import opened World
  import opened JobQueue
  import opened JobQueueWaiting

  /** A drain the host has been asked to run: soon, after a zero delay, or the unflagged resumption of a yield. */
  datatype Timer = Soon | After | Resume

  datatype Timers = Timers(immediateScheduled: bool, scheduled: bool, pending: multiset<Timer>)

  function Schedule(t: Timers, scheduling: Scheduling): Timers {
    if scheduling == Immediate then
      if t.immediateScheduled then t else t.(immediateScheduled := true, pending := t.pending + multiset{Soon})
    else
      if t.scheduled || t.immediateScheduled then t else t.(scheduled := true, pending := t.pending + multiset{After})
  }

  /** What the end of a drain leaves scheduled. */
  function Reschedule(t: Timers, d: Drained): Timers {
    if d.queue.lanes.Empty() then t
    else if d.yielded then t.(pending := t.pending + multiset{Resume})
    else Schedule(t, NextQueuedScheduling(d.queue))
  }

  /** Removing a timer that fires, and clearing the flag it owns. */
  function Fired(t: Timers, timer: Timer): Timers
    requires timer in t.pending
  {
    var rest := t.pending - multiset{timer};
    match timer
    case Soon => t.(immediateScheduled := false, pending := rest)
    case After => t.(scheduled := false, pending := rest)
    case Resume => t.(pending := rest)
  }

  /** Each flag is up exactly while its own timer is pending. */
  ghost predicate FlagsAgree(t: Timers) {
    && t.pending[Soon] == (if t.immediateScheduled then 1 else 0)
    && t.pending[After] == (if t.scheduled then 1 else 0)
  }

  /** What the end of a drain leaves pending, in terms of the timers. */
  ghost predicate Rescheduled(before: Timers, d: Drained, after: Timers) {
    if d.queue.lanes.Empty() then after == before
    else if d.yielded then after == before.(pending := before.pending + multiset{Resume})
    else Soon in after.pending || (NextQueuedScheduling(d.queue) == Background && After in after.pending)
  }

  lemma RescheduledInTerms(t: Timers, d: Drained)
    requires FlagsAgree(t)
    ensures Rescheduled(t, d, Reschedule(t, d))
  {}

  // ---------- runs of the runtime ----------

  datatype Runtime = Runtime(queue: Queue, timers: Timers)

  datatype Step = Enqueue(job: Job) | Fire(timer: Timer, policy: Policy)

  function Advance(rt: Runtime, step: Step): Runtime {
    match step
    case Enqueue(job) => Runtime(Push(rt.queue, job), Schedule(rt.timers, job.scheduling))
    case Fire(timer, policy) =>
      if timer !in rt.timers.pending then rt
      else
        var d := Drain(policy, rt.queue);
        Runtime(d.queue, Reschedule(Fired(rt.timers, timer), d))
  }

  function Run(rt: Runtime, steps: seq<Step>): Runtime
    decreases |steps|
  {
    if steps == [] then rt else Advance(Run(rt, steps[..|steps| - 1]), steps[|steps| - 1])
  }

  const START := Runtime(Queue(Lanes([], [], [], []), 0), Timers(false, false, multiset{}))

  ghost predicate Awake(rt: Runtime) {
    FlagsAgree(rt.timers) && (!rt.queue.lanes.Empty() ==> rt.timers.pending != multiset{})
  }

  lemma ScheduleWakes(t: Timers, scheduling: Scheduling)
    requires FlagsAgree(t)
    ensures FlagsAgree(Schedule(t, scheduling)) && Schedule(t, scheduling).pending != multiset{}
  {
    var t1 := Schedule(t, scheduling);
    if t1.immediateScheduled {
      assert Soon in t1.pending;
    } else {
      assert After in t1.pending;
    }
  }

  lemma RescheduleWakes(t: Timers, d: Drained)
    requires FlagsAgree(t)
    ensures Awake(Runtime(d.queue, Reschedule(t, d)))
  {
    ScheduleWakes(t, NextQueuedScheduling(d.queue));
    assert Resume in t.pending + multiset{Resume};
  }

  /** No lost wakeup: whatever is enqueued, whenever timers fire, whatever jobs enqueue or throw, queued work always
      has a pending drain. */
  lemma {:induction false} NoLostWakeup(steps: seq<Step>)
    ensures Awake(Run(START, steps))
    decreases |steps|
  {
    if steps != [] {
      NoLostWakeup(steps[..|steps| - 1]);
      var rt := Run(START, steps[..|steps| - 1]);
      match steps[|steps| - 1] {
        case Enqueue(job) => ScheduleWakes(rt.timers, job.scheduling);
        case Fire(timer, policy) =>
          if timer in rt.timers.pending {
            RescheduleWakes(Fired(rt.timers, timer), Drain(policy, rt.queue));
          }
      }
    }
  }

  /** The arrivals and drains that a run of the runtime amounts to: a timer that is not pending fires nothing. */
  function EventsOf(rt: Runtime, steps: seq<Step>): seq<Event>
    decreases |steps|
  {
    if steps == [] then []
    else
      var before, last := steps[..|steps| - 1], steps[|steps| - 1];
      EventsOf(rt, before) +
      match last
      case Enqueue(job) => [Arrival(job)]
      case Fire(timer, policy) => if timer in Run(rt, before).timers.pending then [DrainTask(policy)] else []
  }

  /** Runs of the runtime are runs of arrivals and drains, so the laws about those hold of it. */
  lemma {:induction false} RunIsExec(rt: Runtime, steps: seq<Step>)
    ensures Exec(rt.queue, EventsOf(rt, steps)).0 == Run(rt, steps).queue
    decreases |steps|
  {
    if steps != [] {
      RunIsExec(rt, steps[..|steps| - 1]);
      var events := EventsOf(rt, steps[..|steps| - 1]);
      assert EventsOf(rt, steps) == events || EventsOf(rt, steps)[..|events|] == events;
    }
  }

  lemma ScanOrder(lanes: Lanes, i: nat)
    requires i <= |PRIORITY_ORDER| && forall j | 0 <= j < i :: lanes.Of(PRIORITY_ORDER[j]) == []
    ensures if i == |PRIORITY_ORDER| then lanes.Empty()
            else lanes.Of(PRIORITY_ORDER[i]) != [] ==> FirstLane(lanes) == Some(PRIORITY_ORDER[i])
  {
    if i > 0 { assert lanes.Of(PRIORITY_ORDER[0]) == []; }
    if i > 1 { assert lanes.Of(PRIORITY_ORDER[1]) == []; }
    if i > 2 { assert lanes.Of(PRIORITY_ORDER[2]) == []; }
    if i > 3 { assert lanes.Of(PRIORITY_ORDER[3]) == []; }
  }

  class RuntimeJobQueue {
    var queue: Queue
    var draining: bool
    var timers: Timers

    constructor ()
      ensures Runtime(queue, timers) == START && !draining && Valid()
    {
      queue, draining, timers := START.queue, false, START.timers;
    }

    /** Outside a drain, queued work has a drain pending. */
    ghost predicate Valid()
      reads this
    {
      FlagsAgree(timers) && (!draining ==> Awake(Runtime(queue, timers)))
    }

    /** Fairness first, then the lanes in priority order. */
    method ShiftNextJob() returns (next: Option<Job>)
      modifies this`queue
      ensures match next
              case None => Take(old(queue)) == Taken.Nothing(queue)
              case Some(job) => Take(old(queue)) == Taken.Next(job, queue)
      ensures var was, now := old(queue), queue;
              if was.streak >= 5 && was.lanes.noninteractive != [] then
                && next == Some(was.lanes.noninteractive[0]) && now.streak == 0
                && now.lanes == was.lanes.(noninteractive := was.lanes.noninteractive[1..])
              else if was.lanes.interactive != [] then
                && next == Some(was.lanes.interactive[0]) && now.streak == was.streak + 1
                && now.lanes == was.lanes.(interactive := was.lanes.interactive[1..])
              else if was.lanes.noninteractive != [] then
                && next == Some(was.lanes.noninteractive[0]) && now.streak == 0
                && now.lanes == was.lanes.(noninteractive := was.lanes.noninteractive[1..])
              else if was.lanes.system != [] then
                && next == Some(was.lanes.system[0]) && now.streak == was.streak
                && now.lanes == was.lanes.(system := was.lanes.system[1..])
              else if was.lanes.ai != [] then
                && next == Some(was.lanes.ai[0]) && now.streak == was.streak
                && now.lanes == was.lanes.(ai := was.lanes.ai[1..])
              else next == None && now == was
    {
      if FairnessDue(queue) {
        next := Some(queue.lanes.noninteractive[0]);
        queue := Queue(queue.lanes.(noninteractive := queue.lanes.noninteractive[1..]), 0);
        return;
      }
      for i := 0 to |PRIORITY_ORDER|
        invariant queue == old(queue)
        invariant forall j | 0 <= j < i :: queue.lanes.Of(PRIORITY_ORDER[j]) == []
      {
        var lane := PRIORITY_ORDER[i];
        var jobs := queue.lanes.Of(lane);
        if jobs != [] {
          ScanOrder(queue.lanes, i);
          queue := Queue(queue.lanes.With(lane, jobs[1..]), StreakAfter(queue.streak, lane));
          return Some(jobs[0]);
        }
      }
      ScanOrder(queue.lanes, |PRIORITY_ORDER|);
      next := None;
    }

    method ScheduleDrain(scheduling: Scheduling)
      modifies this`timers
      ensures timers == if draining then old(timers) else Schedule(old(timers), scheduling)
      ensures timers == old(timers) <==>
                || draining || old(timers).immediateScheduled
                || (scheduling == Background && old(timers).scheduled)
      ensures timers != old(timers) ==>
                timers.pending == old(timers).pending + if scheduling == Immediate then multiset{Soon}
                    else multiset{After}
    {
      if draining {
        return;
      }
      if scheduling == Immediate {
        if timers.immediateScheduled {
          return;
        }
        timers := timers.(immediateScheduled := true, pending := timers.pending + multiset{Soon});
        return;
      }
      if timers.scheduled || timers.immediateScheduled {
        return;
      }
      timers := timers.(scheduled := true, pending := timers.pending + multiset{After});
    }

    method EnqueueJob(job: Job)
      requires Valid()
      modifies this`queue, this`timers
      ensures Valid()
      ensures queue == Push(old(queue), job)
      ensures draining ==> timers == old(timers)
      ensures !draining ==> Runtime(queue, timers) == Advance(old(Runtime(queue, timers)), Enqueue(job))
      ensures !draining ==> Soon in timers.pending || (job.scheduling == Background && After in timers.pending)
    {
      queue := Push(queue, job);
      ScheduleWakes(timers, job.scheduling);
      ScheduleDrain(job.scheduling);
    }

    /** Runs a job during a drain: everything it enqueues lands in the lanes and schedules nothing. */
    method RunJob(job: Job)
      requires Valid() && draining
      modifies this`queue, this`timers
      ensures Valid() && timers == old(timers)
      ensures queue == PushAll(old(queue), job.spawns)
    {
      var i := 0;
      while i < |job.spawns|
        invariant 0 <= i <= |job.spawns|
        invariant Valid() && timers == old(timers)
        invariant PushAll(queue, job.spawns[i..]) == PushAll(old(queue), job.spawns)
      {
        EnqueueJob(job.spawns[i]);
        i := i + 1;
      }
    }

    /** The bare drain loop. */
    method DrainLoop(policy: Policy) returns (ran: seq<Job>, threw: bool)
      requires FlagsAgree(timers)
      modifies this
      ensures old(draining) ==> ran == [] && !threw && queue == old(queue) && timers == old(timers) && draining
      ensures !old(draining) ==>
                var d := Drain(policy, old(queue));
                && !draining && queue == d.queue && ran == d.ran && threw == d.threw
                && timers == Reschedule(old(timers), d)
      ensures Valid()
    {
      ran, threw := [], false;
      if draining {
        return;
      }
      draining := true;
      var yielded := false;
      var background := 0;
      var next := ShiftNextJob();
      ghost var goal := Drain(policy, old(queue));
      while next.Some?
        invariant draining && FlagsAgree(timers) && timers == old(timers) && !yielded && !threw
        invariant goal == DrainFrom(policy,
                                    if next.Some? then Taken.Next(next.value, queue)
                                        else Taken.Nothing(queue), ran, background)
        decreases QueueWeight(queue.lanes) + if next.Some? then Weight(next.value) else 0
      {
        var job := next.value;
        if Blocked(policy, queue.lanes, job, |ran|, background) {
          queue := PutBack(queue, job);
          yielded := true;
          break;
        }
        PushAllWeight(queue, job.spawns);
        RunJob(job);
        ran := ran + [job];
        if job.throws {
          threw := true;
          break;
        }
        if IsBackgroundLane(job.lane) {
          background := background + 1;
        }
        TakeWeight(queue);
        next := ShiftNextJob();
        if job.scheduling == Immediate && next.Some? && next.value.scheduling == Background {
          queue := PutBack(queue, next.value);
          yielded := true;
          break;
        }
      }
      draining := false;
      RescheduleWakes(timers, goal);
      if !queue.lanes.Empty() {
        if yielded {
          timers := timers.(pending := timers.pending + multiset{Resume});
        } else {
          ScheduleDrain(NextQueuedScheduling(queue));
        }
      }
    }

    /** The drain loop. A throwing job ends it, and the rescheduling still happens: nothing once the queue is empty, a
        resumption after a yield, and otherwise the timer the next job asks for. */
    method DrainQueues(policy: Policy) returns (ran: seq<Job>, threw: bool)
      requires FlagsAgree(timers)
      modifies this
      ensures old(draining) ==> ran == [] && !threw && queue == old(queue) && timers == old(timers) && draining
      ensures !old(draining) ==>
                var d := Drain(policy, old(queue));
                && !draining && queue == d.queue && ran == d.ran && threw == d.threw
                && timers == Reschedule(old(timers), d) && Rescheduled(old(timers), d, timers)
      ensures Valid()
    {
      RescheduledInTerms(timers, Drain(policy, queue));
      ran, threw := DrainLoop(policy);
    }

    /** A pending timer fires. */
    method FireTimer(timer: Timer, policy: Policy) returns (ran: seq<Job>, threw: bool)
      requires Valid() && !draining && timer in timers.pending
      modifies this
      ensures Valid() && !draining
      ensures Runtime(queue, timers) == Advance(old(Runtime(queue, timers)), Fire(timer, policy))
      ensures ran == Drain(policy, old(queue)).ran && threw == Drain(policy, old(queue)).threw
    {
      timers := Fired(timers, timer);
      ran, threw := DrainQueues(policy);
    }
  }
}
