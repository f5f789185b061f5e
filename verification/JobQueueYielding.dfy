/** What a drain defers to: waiting human work, a pause of the planner, a job that throws. */
module JobQueueYielding {
  import opened JobQueue
  import opened JobQueueLaws

  /** What is left in a lane, that held `initial` at first, while job `i` of `ran` runs. */
  function Behind(initial: seq<Job>, ran: seq<Job>, i: nat, lane: Lane): seq<Job>
    requires i < |ran|
  {
    var entered := initial + InLane(SpawnedBy(ran[..i]), lane);
    var left := |InLane(ran[..i + 1], lane)|;
    if left <= |entered| then entered[left..] else []
  }

  /** Job `i` runs only if nothing it has to defer to is waiting. */
  ghost predicate PoliteAt(policy: Policy, lanes: Lanes, ran: seq<Job>, i: nat)
    requires i < |ran|
  {
    && (ran[i].lane == Ai ==> !policy.paused(i))
    && (ran[i].scheduling == Background ==>
          !HasImmediate(Behind(lanes.interactive, ran, i, HumanInteractive)) &&
          !HasImmediate(Behind(lanes.noninteractive, ran, i, HumanNoninteractive)))
  }

  ghost predicate Polite(policy: Policy, lanes: Lanes, ran: seq<Job>) {
    forall i | 0 <= i < |ran| :: PoliteAt(policy, lanes, ran, i)
  }

  /** Only the last job may have thrown. */
  predicate ThrowsLast(ran: seq<Job>, threw: bool) {
    && (forall i | 0 <= i < |ran| - 1 :: !ran[i].throws)
    && (threw <==> ran != [] && ran[|ran| - 1].throws)
  }

  ghost predicate AllBalanced(lanes: Lanes, next: Taken, ran: seq<Job>) {
    forall lane :: Balanced(lanes.Of(lane), next, ran, lane)
  }

  /** The job about to run leaves behind, in its own and every other lane, exactly what the queue holds. */
  lemma BehindNext(lanes: Lanes, job: Job, q: Queue, ran: seq<Job>, lane: Lane)
    requires Balanced(lanes.Of(lane), Next(job, q), ran, lane)
    ensures Behind(lanes.Of(lane), ran + [job], |ran|, lane) == q.lanes.Of(lane)
  {
    assert (ran + [job])[..|ran|] == ran && (ran + [job])[..|ran| + 1] == ran + [job];
    InLaneAppend(ran, [job], lane);
    assert InLane([job], lane) == Just(job, lane);
    Assoc(InLane(ran, lane), Just(job, lane), q.lanes.Of(lane));
    DropPrefix(lanes.Of(lane) + InLane(SpawnedBy(ran), lane), InLane(ran + [job], lane), q.lanes.Of(lane));
  }

  lemma DropPrefix(all: seq<Job>, front: seq<Job>, back: seq<Job>)
    requires all == front + back
    ensures |front| <= |all| && all[|front|..] == back
  {}

  lemma EarlierStays(policy: Policy, lanes: Lanes, ran: seq<Job>, job: Job, i: nat)
    requires i < |ran| && PoliteAt(policy, lanes, ran, i)
    ensures PoliteAt(policy, lanes, ran + [job], i)
  {
    assert (ran + [job])[..i] == ran[..i] && (ran + [job])[..i + 1] == ran[..i + 1];
  }

  lemma RunIsPolite(policy: Policy, lanes: Lanes, job: Job, q: Queue, ran: seq<Job>, background: nat)
    requires Polite(policy, lanes, ran) && AllBalanced(lanes, Next(job, q), ran)
    requires !Blocked(policy, q.lanes, job, |ran|, background)
    ensures Polite(policy, lanes, ran + [job])
  {
    forall i | 0 <= i < |ran| ensures PoliteAt(policy, lanes, ran + [job], i) {
      EarlierStays(policy, lanes, ran, job, i);
    }
    BehindNext(lanes, job, q, ran, HumanInteractive);
    BehindNext(lanes, job, q, ran, HumanNoninteractive);
  }

  lemma RunStaysBalanced(lanes: Lanes, job: Job, q: Queue, ran: seq<Job>)
    requires AllBalanced(lanes, Next(job, q), ran)
    ensures AllBalanced(lanes, Take(PushAll(q, job.spawns)), ran + [job])
  {
    assert Balanced(lanes.Of(Ai), Next(job, q), ran, Ai);
    PushAllSorted(q, job.spawns);
    TakeSorted(PushAll(q, job.spawns));
    forall lane ensures Balanced(lanes.Of(lane), Take(PushAll(q, job.spawns)), ran + [job], lane) {
      assert Balanced(lanes.Of(lane), Next(job, q), ran, lane);
      RunConserves(lanes.Of(lane), ran, job, q, lane);
      TakePending(PushAll(q, job.spawns), lane);
    }
  }

  lemma {:induction false} DrainFromIsPolite(policy: Policy, next: Taken, ran: seq<Job>, background: nat,
                                             lanes: Lanes, d: Drained)
    requires d == DrainFrom(policy, next, ran, background)
    requires Polite(policy, lanes, ran) && AllBalanced(lanes, next, ran) && ThrowsLast(ran, false)
    requires next.Nothing? ==> next.rest.lanes.Empty()
    ensures Polite(policy, lanes, d.ran) && ThrowsLast(d.ran, d.threw)
    ensures !d.threw ==> (d.yielded <==> !d.queue.lanes.Empty())
    decreases QueueWeight(next.rest.lanes) + if next.Next? then Weight(next.job) else 0
  {
    if next.Next? {
      var job, q := next.job, next.rest;
      if Blocked(policy, q.lanes, job, |ran|, background) {
        assert PutBack(q, job).lanes.Of(job.lane) != [];
      } else {
        RunIsPolite(policy, lanes, job, q, ran, background);
        if !job.throws {
          var q1 := PushAll(q, job.spawns);
          PushAllWeight(q, job.spawns);
          TakeWeight(q1);
          RunStaysBalanced(lanes, job, q, ran);
          var next1 := Take(q1);
          if job.scheduling == Immediate && next1.Next? && next1.job.scheduling == Background {
            assert PutBack(next1.rest, next1.job).lanes.Of(next1.job.lane) != [];
          } else {
            DrainFromIsPolite(policy, next1, ran + [job],
                              if IsBackgroundLane(job.lane) then background + 1 else background, lanes, d);
          }
        }
      }
    }
  }

  /** In a drain no ai job runs while the planner asks for a pause, no background job runs while immediate human work
      is waiting, only the last job may have thrown, and unless it did the drain yields exactly when it leaves work
      behind. */
  lemma DrainIsPolite(policy: Policy, q: Queue)
    requires Sorted(q.lanes)
    ensures var d := Drain(policy, q);
            && Polite(policy, q.lanes, d.ran) && ThrowsLast(d.ran, d.threw)
            && (!d.threw ==> (d.yielded <==> !d.queue.lanes.Empty()))
  {
    forall lane ensures Balanced(q.lanes.Of(lane), Take(q), [], lane) {
      TakePending(q, lane);
      TakeSorted(q);
    }
    DrainFromIsPolite(policy, Take(q), [], 0, q.lanes, Drain(policy, q));
  }

  // ---------- a drain yields only for a cause ----------

  /** Why `job`, at the front of its lane after a drain, did not run in it. */
  ghost predicate Cause(policy: Policy, d: Drained, job: Job) {
    || (job.scheduling == Background && HasImmediateHumanWork(d.queue.lanes))
    || (job.scheduling == Background && d.ran != [] && d.ran[|d.ran| - 1].scheduling == Immediate)
    || (job.lane == Ai && policy.paused(|d.ran|))
    || (IsBackgroundLane(job.lane) && BackgroundRuns(d.ran) >= policy.batchSize)
  }

  ghost predicate YieldsForCause(policy: Policy, d: Drained) {
    d.yielded ==> exists lane :: d.queue.lanes.Of(lane) != [] && Cause(policy, d, d.queue.lanes.Of(lane)[0])
  }

  lemma PutBackIsFirst(q: Queue, job: Job)
    ensures PutBack(q, job).lanes.Of(job.lane) == [job] + q.lanes.Of(job.lane)
    ensures HasImmediateHumanWork(q.lanes) ==> HasImmediateHumanWork(PutBack(q, job).lanes)
  {
    var now := PutBack(q, job).lanes;
    if HasImmediate(q.lanes.interactive) {
      var j :| j in q.lanes.interactive && j.scheduling == Immediate;
      assert j in now.interactive;
    } else if HasImmediate(q.lanes.noninteractive) {
      var j :| j in q.lanes.noninteractive && j.scheduling == Immediate;
      assert j in now.noninteractive;
    }
  }

  lemma {:induction false} DrainFromYieldsForCause(policy: Policy, next: Taken, ran: seq<Job>, background: nat)
    requires background == BackgroundRuns(ran)
    ensures YieldsForCause(policy, DrainFrom(policy, next, ran, background))
    decreases QueueWeight(next.rest.lanes) + if next.Next? then Weight(next.job) else 0
  {
    if next.Next? {
      var job, q := next.job, next.rest;
      if Blocked(policy, q.lanes, job, |ran|, background) {
        PutBackIsFirst(q, job);
        assert Cause(policy, Drained(PutBack(q, job), ran, true, false), PutBack(q, job).lanes.Of(job.lane)[0]);
      } else if !job.throws {
        var q1 := PushAll(q, job.spawns);
        PushAllWeight(q, job.spawns);
        TakeWeight(q1);
        BackgroundRunsStep(ran, job);
        var next1 := Take(q1);
        if job.scheduling == Immediate && next1.Next? && next1.job.scheduling == Background {
          PutBackIsFirst(next1.rest, next1.job);
          var d := Drained(PutBack(next1.rest, next1.job), ran + [job], true, false);
          assert Cause(policy, d, d.queue.lanes.Of(next1.job.lane)[0]);
        } else {
          DrainFromYieldsForCause(policy, next1, ran + [job],
                                  if IsBackgroundLane(job.lane) then background + 1 else background);
        }
      }
    }
  }

  /** A drain that yields leaves at the front of a lane a job it had to hold back: a background job behind immediate
      work, an ai job during a pause, or a system or ai job once the batch is used up. */
  lemma DrainYieldsForCause(policy: Policy, q: Queue)
    ensures YieldsForCause(policy, Drain(policy, q))
  {
    DrainFromYieldsForCause(policy, Take(q), [], 0);
  }
}
