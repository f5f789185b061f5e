/** The slot ledger: over any run, what the queue reserves of a slot resource is backed by free slots and occupants. */
module DevQueueSlots {
  import opened World
  import opened Sums
  import opened DevQueue
  import opened DevQueueLaws
  import opened DevQueueRuns

  ghost predicate OneEach(requirements: seq<Requirement>) {
    forall i, j | 0 <= i < j < |requirements| :: requirements[i].resource != requirements[j].resource
  }

  /** How many slots of a resource the occupant of a tile gives back when the given structure replaces it. */
  type Credit = (string, int, int, SlotResource) -> nat

  function CreditOf(credit: Credit, e: Entry, r: SlotResource): nat {
    credit(e.structureType, e.x, e.y, r)
  }

  /** What the entries whose occupants give back at most `h` reserve of a resource. */
  function DemandUpTo(queue: seq<Entry>, r: SlotResource, credit: Credit, h: nat): nat {
    if queue == [] then 0
    else (if CreditOf(credit, queue[0], r) <= h then CountOf(queue[0].requirements, r) else 0) +
         DemandUpTo(queue[1..], r, credit, h)
  }

  ghost predicate Backed(queue: seq<Entry>, e: Entry, r: SlotResource, free: SlotResource -> int, credit: Credit) {
    CountOf(e.requirements, r) == 0 ||
    DemandUpTo(queue, r, credit, CreditOf(credit, e, r)) <= free(r) + CreditOf(credit, e, r)
  }

  /** Every reserving entry, with all entries of no larger credit, fits the free slots and its own occupant's. */
  ghost predicate SlotsBacked(queue: seq<Entry>, free: SlotResource -> int, credit: Credit) {
    forall e, r | e in queue :: Backed(queue, e, r, free, credit)
  }

  /** What a step of a run may do to the slots. Only an enqueue looks at them, and only at its own tile: the free
      slots and the occupant it finds are within the bounds of the run, and the plan names each resource once. */
  ghost predicate SlotStep(c: Conditions, op: Op, free: SlotResource -> int, credit: Credit) {
    op.EnqueueOp? ==>
      var p := op.payload;
      && (forall r :: c.supply(r) - c.demand(r) <= free(r))
      && (forall r :: c.occupied(p.structureType, p.x, p.y, r) <= credit(p.structureType, p.x, p.y, r))
      && (forall queue :: var plan := c.plan(p.structureType, p.x, p.y, queue); plan.Some? ==>
          OneEach(plan.value.requirements))
  }

  // ---------- demand under the queue's operations ----------

  lemma {:induction false} DemandUpToAppend(a: seq<Entry>, b: seq<Entry>, r: SlotResource, credit: Credit, h: nat)
    ensures DemandUpTo(a + b, r, credit, h) == DemandUpTo(a, r, credit, h) + DemandUpTo(b, r, credit, h)
  {
    if a == [] {
      assert a + b == b;
    } else {
      assert (a + b)[1..] == a[1..] + b;
      DemandUpToAppend(a[1..], b, r, credit, h);
    }
  }

  lemma {:induction false} DemandUpToBelowAll(queue: seq<Entry>, r: SlotResource, credit: Credit, h: nat)
    ensures DemandUpTo(queue, r, credit, h) <= QueueDemand(queue, r)
  {
    if queue != [] {
      DemandUpToBelowAll(queue[1..], r, credit, h);
    }
  }

  lemma DemandUpToRemove(queue: seq<Entry>, i: nat, r: SlotResource, credit: Credit, h: nat)
    requires i < |queue|
    ensures DemandUpTo(queue[..i] + queue[i + 1..], r, credit, h) + DemandUpTo([queue[i]], r, credit, h) ==
            DemandUpTo(queue, r, credit, h)
  {
    DemandUpToAppend(queue[..i], queue[i + 1..], r, credit, h);
    DemandUpToAppend([queue[i]], queue[i + 1..], r, credit, h);
    DemandUpToAppend(queue[..i], [queue[i]] + queue[i + 1..], r, credit, h);
    assert queue == queue[..i] + ([queue[i]] + queue[i + 1..]);
  }

  lemma {:induction false} DemandUpToWithout(queue: seq<Entry>, key: string, r: SlotResource, credit: Credit, h: nat)
    ensures DemandUpTo(Without(queue, key), r, credit, h) <= DemandUpTo(queue, r, credit, h)
  {
    if queue != [] {
      DemandUpToWithout(queue[1..], key, r, credit, h);
      DemandUpToAppend(if queue[0].tileKey != key then [queue[0]] else [], Without(queue[1..], key), r, credit, h);
    }
  }

  /** The same build on the same tile. */
  predicate Alike(a: Entry, b: Entry) {
    a.structureType == b.structureType && a.x == b.x && a.y == b.y && a.requirements == b.requirements
  }

  lemma {:induction false} DemandUpToRefill(c: Conditions, manpower: real, queue: seq<Entry>, r: SlotResource,
                                            credit: Credit, h: nat)
    ensures var queue' := Refill(c, manpower, queue).1;
            && DemandUpTo(queue', r, credit, h) == DemandUpTo(queue, r, credit, h)
            && |queue'| == |queue| && forall i | 0 <= i < |queue| :: Alike(queue[i], queue'[i])
    decreases |queue|
  {
    if queue != [] {
      var m := if queue[0].awaiting then Debit(manpower, c.settleCost) else manpower;
      DemandUpToRefill(c, m, queue[1..], r, credit, h);
    }
  }

  // ---------- every operation keeps the slots backed ----------

  /** Fewer of the same entries are still backed. */
  ghost predicate Part(part: seq<Entry>, queue: seq<Entry>, credit: Credit) {
    && (forall e | e in part :: exists o | o in queue :: Alike(o, e))
    && (forall r, h :: DemandUpTo(part, r, credit, h) <= DemandUpTo(queue, r, credit, h))
  }

  lemma PartIsBacked(part: seq<Entry>, queue: seq<Entry>, free: SlotResource -> int, credit: Credit)
    requires Part(part, queue, credit) && SlotsBacked(queue, free, credit)
    ensures SlotsBacked(part, free, credit)
  {
    forall e, r | e in part ensures Backed(part, e, r, free, credit) {
      var o :| o in queue && Alike(o, e);
      assert Backed(queue, o, r, free, credit);
    }
  }

  lemma RemoveBacked(queue: seq<Entry>, i: nat, free: SlotResource -> int, credit: Credit)
    requires i < |queue| && SlotsBacked(queue, free, credit)
    ensures SlotsBacked(queue[..i] + queue[i + 1..], free, credit)
  {
    var part := queue[..i] + queue[i + 1..];
    forall r, h { DemandUpToRemove(queue, i, r, credit, h); }
    assert forall e | e in part :: e in queue && Alike(e, e);
    PartIsBacked(part, queue, free, credit);
  }

  lemma WithoutBacked(queue: seq<Entry>, key: string, free: SlotResource -> int, credit: Credit)
    requires SlotsBacked(queue, free, credit)
    ensures SlotsBacked(Without(queue, key), free, credit)
  {
    forall r, h { DemandUpToWithout(queue, key, r, credit, h); }
    WithoutElements(queue, key);
    assert forall e | e in Without(queue, key) :: e in queue && Alike(e, e);
    PartIsBacked(Without(queue, key), queue, free, credit);
  }

  lemma FrontBacked(queue: seq<Entry>, key: string, free: SlotResource -> int, credit: Credit)
    requires SlotsBacked(queue, free, credit)
    ensures SlotsBacked(MoveToFront(queue, key), free, credit)
  {
    var i := IndexOf(queue, key);
    if 0 < i < |queue| {
      var moved, others := MoveToFront(queue, key), queue[..i] + queue[i + 1..];
      assert moved == [queue[i]] + others;
      forall r, h ensures DemandUpTo(moved, r, credit, h) == DemandUpTo(queue, r, credit, h) {
        DemandUpToRemove(queue, i, r, credit, h);
        DemandUpToAppend([queue[i]], others, r, credit, h);
      }
      assert forall e | e in moved :: e in queue && Alike(e, e);
      PartIsBacked(moved, queue, free, credit);
    }
  }

  lemma RefillBacked(c: Conditions, manpower: real, queue: seq<Entry>, free: SlotResource -> int, credit: Credit)
    requires SlotsBacked(queue, free, credit)
    ensures SlotsBacked(Refill(c, manpower, queue).1, free, credit)
  {
    var queue' := Refill(c, manpower, queue).1;
    forall r, h { DemandUpToRefill(c, manpower, queue, r, credit, h); }
    DemandUpToRefill(c, manpower, queue, Food, credit, 0);
    forall e | e in queue' ensures exists o | o in queue :: Alike(o, e) {
      var i :| 0 <= i < |queue'| && queue'[i] == e;
      assert Alike(queue[i], e);
    }
    PartIsBacked(queue', queue, free, credit);
  }

  /** An appended entry is backed if the whole queue with it fits the free slots and its own occupant's. */
  lemma AppendBacked(queue: seq<Entry>, e: Entry, free: SlotResource -> int, credit: Credit)
    requires SlotsBacked(queue, free, credit)
    requires forall r :: CountOf(e.requirements, r) == 0 ||
                         QueueDemand(queue, r) + CountOf(e.requirements, r) <= free(r) + CreditOf(credit, e, r)
    ensures SlotsBacked(queue + [e], free, credit)
  {
    forall o, r | o in queue + [e] ensures Backed(queue + [e], o, r, free, credit) {
      var h := CreditOf(credit, o, r);
      DemandUpToAppend(queue, [e], r, credit, h);
      DemandUpToBelowAll(queue, r, credit, h);
      if o in queue {
        assert Backed(queue, o, r, free, credit);
      }
    }
  }

  lemma DrainBacked(c: Conditions, pl: Player, free: SlotResource -> int, credit: Credit)
    requires SlotsBacked(pl.queue, free, credit)
    ensures SlotsBacked(Drain(c, pl).0.queue, free, credit)
  {
    var i := FirstDrainable(c, pl.manpower, pl.queue);
    if i < |pl.queue| {
      RemoveBacked(pl.queue, i, free, credit);
    }
  }

  // ---------- enqueue ----------

  lemma {:induction false} CountOfOneEach(requirements: seq<Requirement>, r: SlotResource, room: int)
    requires OneEach(requirements) && forall q | q in requirements && q.resource == r :: q.count <= room
    ensures CountOf(requirements, r) == 0 || CountOf(requirements, r) <= room
    ensures (forall q | q in requirements :: q.resource != r) ==> CountOf(requirements, r) == 0
  {
    if requirements != [] {
      var tail := requirements[1..];
      assert requirements == [requirements[0]] + tail;
      forall q | q in tail ensures q.resource != requirements[0].resource && q in requirements {
        var j :| 0 <= j < |tail| && tail[j] == q;
        assert requirements[0].resource != requirements[j + 1].resource;
      }
      CountOfOneEach(tail, r, room);
    }
  }

  lemma {:induction false} NoShortfall(c: Conditions, p: Payload, queue: seq<Entry>, requirements: seq<Requirement>)
    requires FirstShortfall(c, p, queue, requirements).None?
    ensures forall q | q in requirements :: q.count <= FreeSlots(c, p, queue, q.resource)
  {
    if requirements != [] {
      NoShortfall(c, p, queue, requirements[1..]);
      assert requirements == [requirements[0]] + requirements[1..];
    }
  }

  lemma NoRequirements(c: Conditions, queue: seq<Entry>, e: Entry, free: SlotResource -> int, credit: Credit)
    requires SlotsBacked(queue, free, credit) && e.requirements == []
    ensures SlotsBacked(Append(queue, e).0, free, credit)
  {
    AppendBacked(queue, e, free, credit);
  }

  lemma EnqueueBacked(c: Conditions, pl: Player, p: Payload, free: SlotResource -> int, credit: Credit)
    requires SlotStep(c, EnqueueOp(p), free, credit) && SlotsBacked(pl.queue, free, credit)
    ensures SlotsBacked(Enqueue(c, pl, p).player.queue, free, credit)
  {
    NoRequirements(c, pl.queue, NewEntry(c, p, 0.0, [], false), free, credit);
    NoRequirements(c, pl.queue, NewEntry(c, p, 0.0, [], true), free, credit);
    NoRequirements(c, pl.queue, NewEntry(c, p, c.settleCost, [], false), free, credit);
    if IsReservableBuild(p.kind, p.structureType) {
      var est := EstimateBuild(c, p, pl);
      if est.Reserve? {
        var e := NewEntry(c, p, est.cost, est.requirements, false);
        NoShortfall(c, p, pl.queue, est.requirements);
        forall r ensures CountOf(e.requirements, r) == 0 ||
                         QueueDemand(pl.queue, r) + CountOf(e.requirements, r) <= free(r) + CreditOf(credit, e, r)
        {
          CountOfOneEach(est.requirements, r, FreeSlots(c, p, pl.queue, r));
        }
        AppendBacked(pl.queue, e, free, credit);
      }
    }
  }

  // ---------- claims ----------

  lemma ClaimStepBacked(c: Conditions, pl: Player, x: int, y: int, key: string, structureType: string,
                        free: SlotResource -> int, credit: Credit)
    requires SlotsBacked(pl.queue, free, credit)
    ensures SlotsBacked(ClaimStep(c, pl, x, y, key, structureType).0.queue, free, credit)
  {
    NoRequirements(c, pl.queue, ClaimEntry(c, x, y, key, Build, structureType), free, credit);
    NoRequirements(c, pl.queue, ClaimEntry(c, x, y, key, Settle, ""), free, credit);
  }

  lemma SetClaimBacked(c: Conditions, pl: Player, x: int, y: int, key: string, structureType: string, owned: bool,
                       free: SlotResource -> int, credit: Credit)
    requires SlotsBacked(pl.queue, free, credit)
    ensures SlotsBacked(SetClaim(c, pl, x, y, key, structureType, owned).0.player.queue, free, credit)
  {
    ClaimStepBacked(c, pl, x, y, key, structureType, free, credit);
    var (pl1, keep) := ClaimStep(c, pl, x, y, key, structureType);
    DrainBacked(c, pl1.(claims := if keep then pl.claims[key := structureType] else pl.claims - {key}), free, credit);
  }

  lemma DrainClaimBacked(c: Conditions, pl: Player, x: int, y: int, key: string, free: SlotResource -> int,
                         credit: Credit)
    requires SlotsBacked(pl.queue, free, credit)
    ensures SlotsBacked(DrainClaim(c, pl, x, y, key).0.queue, free, credit)
  {
    if key in pl.claims {
      ClaimStepBacked(c, pl, x, y, key, pl.claims[key], free, credit);
      var (pl1, keep) := ClaimStep(c, pl, x, y, key, pl.claims[key]);
      DrainBacked(c, if keep then pl1 else pl1.(claims := pl1.claims - {key}), free, credit);
    }
  }

  lemma BuildTailBacked(c: Conditions, pl: Player, x: int, y: int, key: string, free: SlotResource -> int,
                        credit: Credit)
    requires SlotsBacked(pl.queue, free, credit)
    ensures SlotsBacked(BuildTail(c, pl, x, y, key).0.queue, free, credit)
  {
    WithoutBacked(pl.queue, key, free, credit);
    var cleared := ClearCompletedSettle(c, pl, key);
    if key in cleared.claims {
      var e := ClaimEntry(c, x, y, key, Build, cleared.claims[key]);
      NoRequirements(c, cleared.queue, e, free, credit);
      var (queue, accepted) := Append(cleared.queue, e);
      DrainBacked(c, Player(cleared.manpower, queue, if accepted then cleared.claims - {key} else cleared.claims),
                  free, credit);
    }
  }

  // ---------- runs ----------

  lemma ApplyBacked(c: Conditions, pl: Player, op: Op, free: SlotResource -> int, credit: Credit)
    requires SlotStep(c, op, free, credit) && SlotsBacked(pl.queue, free, credit)
    ensures SlotsBacked(Apply(c, pl, op).0.queue, free, credit)
  {
    match op {
      case EnqueueOp(p) =>
        EnqueueBacked(c, pl, p, free, credit);
        DrainBacked(c, Enqueue(c, pl, p).player, free, credit);
      case CancelOp(key) => WithoutBacked(pl.queue, key, free, credit);
      case FrontOp(key) => FrontBacked(pl.queue, key, free, credit);
      case DrainOp => DrainBacked(c, pl, free, credit);
      case RefillOp =>
        RefillBacked(c, pl.manpower, pl.queue, free, credit);
        DrainBacked(c, RefillPlayer(c, pl), free, credit);
      case ReleaseOp(key) => WithoutBacked(pl.queue, key, free, credit);
      case SetClaimOp(x, y, key, structureType, owned) => SetClaimBacked(c, pl, x, y, key, structureType, owned, free,
                                                                         credit);
      case DrainClaimOp(x, y, key) => DrainClaimBacked(c, pl, x, y, key, free, credit);
      case BuildTailOp(x, y, key) => BuildTailBacked(c, pl, x, y, key, free, credit);
    }
  }

  /** Over any run the slots stay backed, whatever stands on the tiles built on. */
  lemma {:induction false} RunSlotsBacked(pl: Player, steps: seq<(Conditions, Op)>, free: SlotResource -> int,
                                          credit: Credit)
    requires SlotsBacked(pl.queue, free, credit) && forall s | s in steps :: SlotStep(s.0, s.1, free, credit)
    ensures SlotsBacked(Run(pl, steps).queue, free, credit)
    decreases |steps|
  {
    if steps != [] {
      var before, last := steps[..|steps| - 1], steps[|steps| - 1];
      assert forall s | s in before :: s in steps;
      assert last in steps;
      RunSlotsBacked(pl, before, free, credit);
      ApplyBacked(last.0, Run(pl, before), last.1, free, credit);
    }
  }

  // ---------- what backing means ----------

  ghost function Counts(queue: seq<Entry>, r: SlotResource): int -> int {
    i => if 0 <= i < |queue| then CountOf(queue[i].requirements, r) else 0
  }

  /** What some of the queue's entries, given by their places, reserve of a resource. */
  ghost function PartDemand(queue: seq<Entry>, part: set<int>, r: SlotResource): int {
    Sum(part, Counts(queue, r))
  }

  lemma {:induction false} PartWithinLevel(queue: seq<Entry>, part: set<int>, r: SlotResource, credit: Credit, h: nat)
    requires forall i | i in part :: 0 <= i < |queue| &&
               (CountOf(queue[i].requirements, r) == 0 || CreditOf(credit, queue[i], r) <= h)
    ensures PartDemand(queue, part, r) <= DemandUpTo(queue, r, credit, h)
    decreases |queue|
  {
    if queue == [] {
      if part != {} {
        var i := Member(part);
        assert false;
      }
    } else {
      var n := |queue| - 1;
      var before := queue[..n];
      var rest := part - {n};
      PartWithinLevel(before, rest, r, credit, h);
      SameTerms(rest, Counts(queue, r), Counts(before, r));
      assert queue == before + [queue[n]];
      DemandUpToAppend(before, [queue[n]], r, credit, h);
      if n in part {
        TakeOut(part, Counts(queue, r), n);
      } else {
        assert rest == part;
      }
    }
  }

  lemma {:induction false} HighestCredit(queue: seq<Entry>, part: set<int>, r: SlotResource, credit: Credit)
    returns (top: int)
    requires part != {} && forall i | i in part :: 0 <= i < |queue|
    ensures top in part && forall i | i in part :: CreditOf(credit, queue[i], r) <= CreditOf(credit, queue[top], r)
    decreases |part|
  {
    top := Member(part);
    if part != {top} {
      var best := HighestCredit(queue, part - {top}, r, credit);
      if CreditOf(credit, queue[best], r) > CreditOf(credit, queue[top], r) {
        top := best;
      }
    }
  }

  /** However some entries of a backed queue are picked: what they reserve of a resource is nothing, or fits the free
      slots and the occupant of one of them. */
  lemma AnyPartIsBacked(queue: seq<Entry>, free: SlotResource -> int, credit: Credit, part: set<int>, r: SlotResource)
    requires SlotsBacked(queue, free, credit) && forall i | i in part :: 0 <= i < |queue|
    ensures PartDemand(queue, part, r) <= 0 ||
            exists i | i in part :: PartDemand(queue, part, r) <= free(r) + CreditOf(credit, queue[i], r)
  {
    var reserving := set i | i in part && CountOf(queue[i].requirements, r) > 0;
    if reserving == {} {
      forall i | i in part ensures CountOf(queue[i].requirements, r) == 0 {
        assert i !in reserving;
      }
      PartWithNothing(queue, part, r);
    } else {
      var top := HighestCredit(queue, reserving, r, credit);
      PartWithinLevel(queue, part, r, credit, CreditOf(credit, queue[top], r));
      assert Backed(queue, queue[top], r, free, credit);
    }
  }

  lemma {:induction false} PartWithNothing(queue: seq<Entry>, part: set<int>, r: SlotResource)
    requires forall i | i in part :: 0 <= i < |queue| && CountOf(queue[i].requirements, r) == 0
    ensures PartDemand(queue, part, r) == 0
    decreases |part|
  {
    if part != {} {
      var i := Member(part);
      TakeOut(part, Counts(queue, r), i);
      PartWithNothing(queue, part - {i}, r);
    }
  }

  // ---------- without occupants ----------

  function NoCredit(structureType: string, x: int, y: int, r: SlotResource): nat { 0 }

  /** Each resource is reserved within what is free, or not at all. */
  ghost predicate SlotsFit(queue: seq<Entry>, free: SlotResource -> int) {
    forall r :: QueueDemand(queue, r) == 0 || QueueDemand(queue, r) <= free(r)
  }

  lemma {:induction false} NoCreditDemand(queue: seq<Entry>, r: SlotResource, h: nat)
    ensures DemandUpTo(queue, r, NoCredit, h) == QueueDemand(queue, r)
    ensures QueueDemand(queue, r) == 0 <==> forall e | e in queue :: CountOf(e.requirements, r) == 0
  {
    if queue != [] {
      NoCreditDemand(queue[1..], r, h);
      assert queue == [queue[0]] + queue[1..];
      assert queue[0] in queue;
    }
  }

  lemma FitIsBacked(queue: seq<Entry>, free: SlotResource -> int)
    ensures SlotsFit(queue, free) <==> SlotsBacked(queue, free, NoCredit)
  {
    forall r { NoCreditDemand(queue, r, 0); }
    if SlotsBacked(queue, free, NoCredit) {
      forall r | QueueDemand(queue, r) != 0 ensures QueueDemand(queue, r) <= free(r) {
        var e :| e in queue && CountOf(e.requirements, r) != 0;
        assert Backed(queue, e, r, free, NoCredit);
      }
    }
  }

  /** While nothing stands on the tiles that builds are queued for, no run queues more of a slot resource than is
      free. */
  lemma RunSlots(pl: Player, steps: seq<(Conditions, Op)>, free: SlotResource -> int)
    requires SlotsFit(pl.queue, free) && forall s | s in steps :: SlotStep(s.0, s.1, free, NoCredit)
    ensures SlotsFit(Run(pl, steps).queue, free)
  {
    FitIsBacked(pl.queue, free);
    RunSlotsBacked(pl, steps, free, NoCredit);
    FitIsBacked(Run(pl, steps).queue, free);
  }
}
