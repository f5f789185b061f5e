/** Who may overtake whom, over any run: a log of every turn, with what was waiting when the job was taken. */
module JobQueueFairness {
  import opened JobQueue
  import opened JobQueueLaws
  import opened JobQueueWaiting

  /** A job taken off its lane, what it left behind in the lanes, and whether it ran or was put back. */
  datatype Turn = Turn(job: Job, behind: Lanes, ran: bool)

  /** The turns of a drain entered with `next` already taken. */
  function TurnsFrom(policy: Policy, next: Taken, ran: nat, background: nat): seq<Turn>
    decreases QueueWeight(next.rest.lanes) + if next.Next? then Weight(next.job) else 0
  {
    match next
    case Nothing(q) => []
    case Next(job, q) =>
      if Blocked(policy, q.lanes, job, ran, background) then [Turn(job, q.lanes, false)]
      else if job.throws then [Turn(job, q.lanes, true)]
      else
        var q1 := PushAll(q, job.spawns);
        PushAllWeight(q, job.spawns);
        TakeWeight(q1);
        var next1 := Take(q1);
        if job.scheduling == Immediate && next1.Next? && next1.job.scheduling == Background
        then [Turn(job, q.lanes, true), Turn(next1.job, next1.rest.lanes, false)]
        else [Turn(job, q.lanes, true)] + TurnsFrom(policy, next1, ran + 1, Counted(job, background))
  }

  /** The turns of a run of arrivals and drains. */
  function Turns(q: Queue, events: seq<Event>): seq<Turn> {
    if events == [] then []
    else
      var before := events[..|events| - 1];
      Turns(q, before) +
      match events[|events| - 1]
      case Arrival(_) => []
      case DrainTask(policy) => TurnsFrom(policy, Take(Exec(q, before).0), 0, 0)
  }

  function JobsRun(turns: seq<Turn>): seq<Job> {
    if turns == [] then [] else (if turns[0].ran then [turns[0].job] else []) + JobsRun(turns[1..])
  }

  lemma {:induction false} JobsRunAppend(a: seq<Turn>, b: seq<Turn>)
    ensures JobsRun(a + b) == JobsRun(a) + JobsRun(b)
  {
    if a == [] {
      assert a + b == b;
    } else {
      var first := if a[0].ran then [a[0].job] else [];
      assert (a + b)[0] == a[0] && (a + b)[1..] == a[1..] + b;
      JobsRunAppend(a[1..], b);
      Assoc(first, JobsRun(a[1..]), JobsRun(b));
    }
  }

  /** Neither held back nor throwing, with the drain going on: what one job adds to the drain and to its log. */
  lemma DrainGoesOn(policy: Policy, job: Job, q: Queue, ran: seq<Job>, background: nat)
    requires !Blocked(policy, q.lanes, job, |ran|, background) && !job.throws
    requires var next1 := Take(PushAll(q, job.spawns));
             !(job.scheduling == Immediate && next1.Next? && next1.job.scheduling == Background)
    ensures var next, next1 := Next(job, q), Take(PushAll(q, job.spawns));
            && DrainFrom(policy, next, ran, background) ==
               DrainFrom(policy, next1, ran + [job], Counted(job, background))
            && TurnsFrom(policy, next, |ran|, background) ==
               [Turn(job, q.lanes, true)] + TurnsFrom(policy, next1, |ran + [job]|, Counted(job, background))
            && QueueWeight(next1.rest.lanes) + (if next1.Next? then Weight(next1.job) else 0) <
               QueueWeight(q.lanes) + Weight(job)
  {
    PushAllWeight(q, job.spawns);
    TakeWeight(PushAll(q, job.spawns));
  }

  /** The other ways a turn can go end the drain. */
  lemma DrainEnds(policy: Policy, job: Job, q: Queue, ran: seq<Job>, background: nat)
    requires var next1 := Take(PushAll(q, job.spawns));
             || Blocked(policy, q.lanes, job, |ran|, background) || job.throws
             || (job.scheduling == Immediate && next1.Next? && next1.job.scheduling == Background)
    ensures var next, q1 := Next(job, q), PushAll(q, job.spawns);
            var d, turns := DrainFrom(policy, next, ran, background), TurnsFrom(policy, next, |ran|, background);
            if Blocked(policy, q.lanes, job, |ran|, background) then
              d == Drained(PutBack(q, job), ran, true, false) && turns == [Turn(job, q.lanes, false)]
            else if job.throws then
              d == Drained(q1, ran + [job], false, true) && turns == [Turn(job, q.lanes, true)]
            else
              && d == Drained(PutBack(Take(q1).rest, Take(q1).job), ran + [job], true, false)
              && turns == [Turn(job, q.lanes, true), Turn(Take(q1).job, Take(q1).rest.lanes, false)]
  {}

  lemma {:induction false} DrainRunsItsTurns(policy: Policy, next: Taken, ran: seq<Job>, background: nat)
    ensures DrainFrom(policy, next, ran, background).ran == ran + JobsRun(TurnsFrom(policy, next, |ran|, background))
    decreases QueueWeight(next.rest.lanes) + if next.Next? then Weight(next.job) else 0
  {
    if next.Next? {
      var job, q := next.job, next.rest;
      var next1 := Take(PushAll(q, job.spawns));
      if Blocked(policy, q.lanes, job, |ran|, background) || job.throws ||
         (job.scheduling == Immediate && next1.Next? && next1.job.scheduling == Background)
      {
        DrainEnds(policy, job, q, ran, background);
        var turns := TurnsFrom(policy, next, |ran|, background);
        assert JobsRun(turns) == JobsRun([turns[0]]) + JobsRun(turns[1..]);
      } else {
        DrainGoesOn(policy, job, q, ran, background);
        DrainRunsItsTurns(policy, next1, ran + [job], Counted(job, background));
        JobsRunAppend([Turn(job, q.lanes, true)], TurnsFrom(policy, next1, |ran| + 1, Counted(job, background)));
      }
    }
  }

  lemma DrainTurnsRun(policy: Policy, q: Queue, turns: seq<Turn>, ran: seq<Job>)
    requires turns == TurnsFrom(policy, Take(q), 0, 0) && ran == Drain(policy, q).ran
    ensures JobsRun(turns) == ran
  {
    DrainRunsItsTurns(policy, Take(q), [], 0);
    assert [] + JobsRun(turns) == JobsRun(turns);
  }

  /** The log leaves nothing out: the jobs that ran in it are the jobs the run ran, in order. */
  lemma {:induction false} RunsItsTurns(q: Queue, events: seq<Event>)
    ensures JobsRun(Turns(q, events)) == Exec(q, events).1
  {
    if events != [] {
      var before, last := events[..|events| - 1], events[|events| - 1];
      RunsItsTurns(q, before);
      match last {
        case Arrival(_) => assert Turns(q, before) + [] == Turns(q, before);
        case DrainTask(policy) =>
          var q1 := Exec(q, before).0;
          var turns, ran := TurnsFrom(policy, Take(q1), 0, 0), Drain(policy, q1).ran;
          JobsRunAppend(Turns(q, before), turns);
          DrainTurnsRun(policy, q1, turns, ran);
      }
    }
  }

  // ---------- who may go first ----------

  /** The interactive turns in a row, without a non-interactive one between them, at the end of the log. */
  ghost function InARow(turns: seq<Turn>, start: nat): nat {
    if turns == [] then start
    else
      var last := turns[|turns| - 1].job.lane;
      if last == HumanNoninteractive then 0
      else InARow(turns[..|turns| - 1], start) + if last == HumanInteractive then 1 else 0
  }

  /** The job respects the work it leaves waiting, with `n` interactive turns in a row before it. */
  predicate InOrder(job: Job, behind: Lanes, n: nat) {
    match job.lane
    case HumanInteractive => behind.noninteractive != [] ==> n < 5
    case HumanNoninteractive => behind.interactive != [] ==> n >= 5
    case System => behind.interactive == [] && behind.noninteractive == []
    case Ai => behind.interactive == [] && behind.noninteractive == [] && behind.system == []
  }

  function Onward(n: nat, lane: Lane): nat {
    if lane == HumanNoninteractive then 0 else if lane == HumanInteractive then n + 1 else n
  }

  ghost predicate AllInOrder(turns: seq<Turn>, start: nat) {
    forall i | 0 <= i < |turns| :: InOrder(turns[i].job, turns[i].behind, InARow(turns[..i], start))
  }

  lemma OneMoreTurn(turns: seq<Turn>, turn: Turn, start: nat)
    requires AllInOrder(turns, start) && InOrder(turn.job, turn.behind, InARow(turns, start))
    ensures AllInOrder(turns + [turn], start)
    ensures InARow(turns + [turn], start) == Onward(InARow(turns, start), turn.job.lane)
  {
    var more := turns + [turn];
    assert more[..|turns|] == turns;
    forall i | 0 <= i < |more| ensures InOrder(more[i].job, more[i].behind, InARow(more[..i], start)) {
      if i < |turns| {
        assert more[..i] == turns[..i];
      }
    }
  }

  /** What a turn takes respects what it leaves, and the streak follows. */
  lemma TakeInOrder(q: Queue)
    requires Sorted(q.lanes) && Take(q).Next?
    ensures InOrder(Take(q).job, Take(q).rest.lanes, q.streak)
    ensures Take(q).rest.streak == Onward(q.streak, Take(q).job.lane)
  {
    TakeLane(q, HumanInteractive);
    TakeLane(q, HumanNoninteractive);
    TakeLane(q, System);
  }

  /** A drain between two jobs: the turns so far were in order, and so is the one just taken. */
  ghost predicate Orderly(past: seq<Turn>, next: Taken, start: nat) {
    && Sorted(next.rest.lanes) && AllInOrder(past, start)
    && match next
       case Nothing(q) => q.streak == InARow(past, start)
       case Next(job, q) =>
         InOrder(job, q.lanes, InARow(past, start)) && q.streak == Onward(InARow(past, start), job.lane)
  }

  lemma TakeIsOrderly(past: seq<Turn>, q: Queue, start: nat)
    requires Sorted(q.lanes) && AllInOrder(past, start) && q.streak == InARow(past, start)
    ensures Orderly(past, Take(q), start)
  {
    TakeSorted(q);
    if Take(q).Next? {
      TakeInOrder(q);
    }
  }

  /** The job just taken runs: the queue it leaves is in step with the log, and so is the next job taken. */
  lemma RunStaysOrderly(past: seq<Turn>, job: Job, q: Queue, start: nat, now: seq<Turn>, q1: Queue)
    requires Orderly(past, Next(job, q), start)
    requires now == past + [Turn(job, q.lanes, true)] && q1 == PushAll(q, job.spawns)
    ensures AllInOrder(now, start) && q1.streak == InARow(now, start) && Orderly(now, Take(q1), start)
  {
    OneMoreTurn(past, Turn(job, q.lanes, true), start);
    PushAllLane(q, job.spawns, HumanInteractive);
    PushAllSorted(q, job.spawns);
    TakeIsOrderly(now, q1, start);
  }

  ghost predicate Ended(past: seq<Turn>, turns: seq<Turn>, q: Queue, start: nat) {
    AllInOrder(past + turns, start) && q.streak == InARow(past + turns, start)
  }

  lemma EndedWith(past: seq<Turn>, turn: Turn, rest: seq<Turn>, q: Queue, start: nat)
    requires Ended(past + [turn], rest, q, start)
    ensures Ended(past, [turn] + rest, q, start)
  {
    assert past + ([turn] + rest) == past + [turn] + rest;
  }

  lemma DrainEndsOrderly(policy: Policy, job: Job, q: Queue, ran: seq<Job>, background: nat, past: seq<Turn>,
                         start: nat)
    requires Orderly(past, Next(job, q), start)
    requires var next1 := Take(PushAll(q, job.spawns));
             || Blocked(policy, q.lanes, job, |ran|, background) || job.throws
             || (job.scheduling == Immediate && next1.Next? && next1.job.scheduling == Background)
    ensures Ended(past, TurnsFrom(policy, Next(job, q), |ran|, background),
                  DrainFrom(policy, Next(job, q), ran, background).queue, start)
  {
    DrainEnds(policy, job, q, ran, background);
    if Blocked(policy, q.lanes, job, |ran|, background) {
      OneMoreTurn(past, Turn(job, q.lanes, false), start);
    } else {
      var now, q1 := past + [Turn(job, q.lanes, true)], PushAll(q, job.spawns);
      RunStaysOrderly(past, job, q, start, now, q1);
      if !job.throws {
        var put := Turn(Take(q1).job, Take(q1).rest.lanes, false);
        OneMoreTurn(now, put, start);
        assert past + [Turn(job, q.lanes, true), put] == now + [put];
      }
    }
  }

  lemma {:induction false} DrainIsOrderly(policy: Policy, next: Taken, ran: seq<Job>, background: nat,
                                          past: seq<Turn>, start: nat, turns: seq<Turn>, d: Drained)
    requires Orderly(past, next, start)
    requires turns == TurnsFrom(policy, next, |ran|, background) && d == DrainFrom(policy, next, ran, background)
    ensures Ended(past, turns, d.queue, start)
    decreases QueueWeight(next.rest.lanes) + if next.Next? then Weight(next.job) else 0
  {
    if next.Nothing? {
      assert past + turns == past;
    } else {
      var job, q := next.job, next.rest;
      var next1 := Take(PushAll(q, job.spawns));
      if Blocked(policy, q.lanes, job, |ran|, background) || job.throws ||
         (job.scheduling == Immediate && next1.Next? && next1.job.scheduling == Background)
      {
        DrainEndsOrderly(policy, job, q, ran, background, past, start);
      } else {
        var now := past + [Turn(job, q.lanes, true)];
        var rest := TurnsFrom(policy, next1, |ran + [job]|, Counted(job, background));
        RunStaysOrderly(past, job, q, start, now, PushAll(q, job.spawns));
        DrainGoesOn(policy, job, q, ran, background);
        DrainIsOrderly(policy, next1, ran + [job], Counted(job, background), now, start, rest, d);
        EndedWith(past, Turn(job, q.lanes, true), rest, d.queue, start);
      }
    }
  }

  lemma {:induction false} RunIsOrderly(q: Queue, events: seq<Event>)
    requires Sorted(q.lanes)
    ensures AllInOrder(Turns(q, events), q.streak)
    ensures Exec(q, events).0.streak == InARow(Turns(q, events), q.streak)
  {
    if events != [] {
      var before, last := events[..|events| - 1], events[|events| - 1];
      RunIsOrderly(q, before);
      var past, q1 := Turns(q, before), Exec(q, before).0;
      if last.DrainTask? {
        JobQueueWaiting.RunConserves(q, before, HumanInteractive);
        TakeIsOrderly(past, q1, q.streak);
        DrainIsOrderly(last.policy, Take(q1), [], 0, past, q.streak, TurnsFrom(last.policy, Take(q1), 0, 0),
                       Drain(last.policy, q1));
      } else {
        assert past + [] == past;
      }
    }
  }

  // ---------- the same in counts ----------

  function TurnsOf(turns: seq<Turn>, lane: Lane): nat {
    if turns == [] then 0 else TurnsOf(turns[1..], lane) + if turns[0].job.lane == lane then 1 else 0
  }

  lemma {:induction false} TurnsOfAppend(a: seq<Turn>, turn: Turn, lane: Lane)
    ensures TurnsOf(a + [turn], lane) == TurnsOf(a, lane) + if turn.job.lane == lane then 1 else 0
  {
    if a == [] {
      assert a + [turn] == [turn];
    } else {
      assert (a + [turn])[1..] == a[1..] + [turn];
      TurnsOfAppend(a[1..], turn, lane);
    }
  }

  lemma {:induction false} InARowCounts(turns: seq<Turn>, start: nat, j: nat)
    requires j <= |turns| && TurnsOf(turns[j..], HumanNoninteractive) == 0
    requires j > 0 ==> turns[j - 1].job.lane == HumanNoninteractive
    ensures InARow(turns, start) == TurnsOf(turns[j..], HumanInteractive) + if j == 0 then start else 0
    decreases |turns|
  {
    if j < |turns| {
      var before, last := turns[..|turns| - 1], turns[|turns| - 1];
      assert turns[j..] == before[j..] + [last];
      TurnsOfAppend(before[j..], last, HumanInteractive);
      TurnsOfAppend(before[j..], last, HumanNoninteractive);
      InARowCounts(before, start, j);
    }
  }

  /** `j` is where the stretch without a non-interactive turn that leads up to turn `i` begins. */
  ghost predicate StretchBegins(turns: seq<Turn>, j: nat, i: nat) {
    && j <= i < |turns| && TurnsOf(turns[j..i], HumanNoninteractive) == 0
    && (j > 0 ==> turns[j - 1].job.lane == HumanNoninteractive)
  }

  /** Strict priority among the lanes but for one rule: of two waiting human lanes the interactive one goes first
      until five of its jobs have gone in a row, and then the other. It holds for every turn of every run, of jobs
      that are put back as well. */
  lemma TurnsRespectPriority(q: Queue, events: seq<Event>, j: nat, i: nat)
    requires Sorted(q.lanes) && StretchBegins(Turns(q, events), j, i)
    ensures var turns := Turns(q, events);
            var turn, inARow := turns[i], TurnsOf(turns[j..i], HumanInteractive) + if j == 0 then q.streak else 0;
            match turn.job.lane
            case HumanInteractive => turn.behind.noninteractive != [] ==> inARow < 5
            case HumanNoninteractive => turn.behind.interactive != [] ==> inARow >= 5
            case System => turn.behind.interactive == [] && turn.behind.noninteractive == []
            case Ai => turn.behind.interactive == [] && turn.behind.noninteractive == [] && turn.behind.system == []
  {
    var turns := Turns(q, events);
    RunIsOrderly(q, events);
    assert InOrder(turns[i].job, turns[i].behind, InARow(turns[..i], q.streak));
    assert turns[..i][j..] == turns[j..i];
    InARowCounts(turns[..i], q.streak, j);
  }

  // ---------- prompt human work ----------

  ghost predicate HumansRan(turns: seq<Turn>) {
    forall turn | turn in turns && !IsBackgroundLane(turn.job.lane) :: turn.ran
  }

  lemma {:induction false} PromptDrainRunsHumans(policy: Policy, next: Taken, ran: seq<Job>, background: nat,
                                                 turns: seq<Turn>, d: Drained)
    requires PromptQueue(next.rest) && (next.Next? ==> Prompt(next.job))
    requires turns == TurnsFrom(policy, next, |ran|, background) && d == DrainFrom(policy, next, ran, background)
    ensures HumansRan(turns) && PromptQueue(d.queue)
    decreases QueueWeight(next.rest.lanes) + if next.Next? then Weight(next.job) else 0
  {
    if next.Next? {
      var job, q := next.job, next.rest;
      var next1 := Take(PushAll(q, job.spawns));
      ReturnKeepsPrompt(q, job);
      PushAllPrompt(q, job.spawns);
      TakeKeepsPrompt(PushAll(q, job.spawns));
      if Blocked(policy, q.lanes, job, |ran|, background) || job.throws ||
         (job.scheduling == Immediate && next1.Next? && next1.job.scheduling == Background)
      {
        DrainEnds(policy, job, q, ran, background);
        if next1.Next? {
          ReturnKeepsPrompt(next1.rest, next1.job);
        }
      } else {
        DrainGoesOn(policy, job, q, ran, background);
        PromptDrainRunsHumans(policy, next1, ran + [job], Counted(job, background),
                              TurnsFrom(policy, next1, |ran + [job]|, Counted(job, background)), d);
      }
    }
  }

  lemma {:induction false} PromptRunsHumans(q: Queue, events: seq<Event>)
    requires PromptQueue(q) && AllPrompt(Arrivals(events))
    ensures HumansRan(Turns(q, events)) && PromptQueue(Exec(q, events).0)
  {
    if events != [] {
      var before, last := events[..|events| - 1], events[|events| - 1];
      assert forall job | job in Arrivals(before) :: job in Arrivals(events);
      PromptRunsHumans(q, before);
      var q1 := Exec(q, before).0;
      match last {
        case Arrival(job) =>
          assert job in Arrivals(events);
          ReturnKeepsPrompt(q1, job);
        case DrainTask(policy) =>
          TakeKeepsPrompt(q1);
          PromptDrainRunsHumans(policy, Take(q1), [], 0, TurnsFrom(policy, Take(q1), 0, 0), Drain(policy, q1));
      }
    }
  }

  lemma {:induction false} TurnsAreRuns(turns: seq<Turn>, lane: Lane)
    requires HumansRan(turns) && !IsBackgroundLane(lane)
    ensures TurnsOf(turns, lane) == |InLane(JobsRun(turns), lane)|
  {
    if turns != [] {
      assert turns[0] in turns;
      assert forall turn | turn in turns[1..] :: turn in turns;
      TurnsAreRuns(turns[1..], lane);
      var first := if turns[0].ran then [turns[0].job] else [];
      InLaneAppend(first, JobsRun(turns[1..]), lane);
    }
  }

  /** With prompt human work, in jobs run: a non-interactive job runs while an interactive one waits only if five
      interactive jobs have run since the last non-interactive one, and an interactive job runs while a non-interactive
      one waits only if fewer have. Human jobs are never put back, and the log is the whole history. */
  lemma FiveRunBeforeOvertaking(q: Queue, events: seq<Event>, j: nat, i: nat)
    requires PromptQueue(q) && AllPrompt(Arrivals(events))
    requires StretchBegins(Turns(q, events), j, i) && !IsBackgroundLane(Turns(q, events)[i].job.lane)
    ensures var turns := Turns(q, events);
            var turn, between := turns[i], JobsRun(turns[j..i]);
            var inARow := |InLane(between, HumanInteractive)| + if j == 0 then q.streak else 0;
            && turn.ran && JobsRun(turns) == Exec(q, events).1 && InLane(between, HumanNoninteractive) == []
            && (turn.job.lane == HumanNoninteractive && turn.behind.interactive != [] ==> inARow >= 5)
            && (turn.job.lane == HumanInteractive && turn.behind.noninteractive != [] ==> inARow < 5)
  {
    var turns := Turns(q, events);
    TurnsRespectPriority(q, events, j, i);
    PromptRunsHumans(q, events);
    RunsItsTurns(q, events);
    assert HumansRan(turns[j..i]);
    TurnsAreRuns(turns[j..i], HumanInteractive);
    TurnsAreRuns(turns[j..i], HumanNoninteractive);
  }
}
