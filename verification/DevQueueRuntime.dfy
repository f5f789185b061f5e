/** The command handlers as they run, reassigning the queue, the claims table and the wallet. */
module DevQueueRuntime {
  import opened World
  import opened DevQueue
  import opened DevQueueLaws
  import opened DevQueueDecisions
  import opened DevQueueRuns
  import opened DevQueueTerms
  import opened ClaimPromises

  lemma {:induction false} DemandAppend(a: seq<Entry>, b: seq<Entry>, r: SlotResource)
    ensures QueueDemand(a + b, r) == QueueDemand(a, r) + QueueDemand(b, r)
  {
    if a == [] {
      assert a + b == b;
    } else {
      assert (a + b)[1..] == a[1..] + b;
      DemandAppend(a[1..], b, r);
    }
  }

  lemma {:induction false} DemandStep(queue: seq<Entry>, i: nat, r: SlotResource)
    requires i < |queue|
    ensures QueueDemand(queue[..i + 1], r) == QueueDemand(queue[..i], r) + CountOf(queue[i].requirements, r)
  {
    DemandAppend(queue[..i], [queue[i]], r);
    assert queue[..i + 1] == queue[..i] + [queue[i]];
  }

  lemma {:induction false} CountOfAppend(a: seq<Requirement>, q: Requirement, r: SlotResource)
    ensures CountOf(a + [q], r) == CountOf(a, r) + if q.resource == r then q.count else 0
  {
    if a == [] {
    } else {
      assert (a + [q])[1..] == a[1..] + [q];
      CountOfAppend(a[1..], q, r);
    }
  }

  /** Sums the slot requirements that queued builds already reserve. */
  method ReservedSlotDemand(queue: seq<Entry>) returns (totals: map<SlotResource, nat>)
    ensures forall r :: r in totals && totals[r] == QueueDemand(queue, r)
  {
    totals := map[Food := 0, SlotResource.Titanium := 0, Crystal := 0, SlotResource.Umbrite := 0];
    forall r ensures r in totals && totals[r] == 0 {
      match r {
        case Food =>
        case Titanium =>
        case Crystal =>
        case Umbrite =>
      }
    }
    for i := 0 to |queue|
      invariant forall r :: r in totals && totals[r] == QueueDemand(queue[..i], r)
    {
      var requirements := queue[i].requirements;
      for j := 0 to |requirements|
        invariant forall r :: r in totals && totals[r] == QueueDemand(queue[..i], r) + CountOf(requirements[..j], r)
      {
        var q := requirements[j];
        forall r { CountOfAppend(requirements[..j], q, r); }
        assert requirements[..j + 1] == requirements[..j] + [q];
        totals := totals[q.resource := totals[q.resource] + q.count];
      }
      assert requirements[..|requirements|] == requirements;
      forall r { DemandStep(queue, i, r); }
    }
    assert queue[..|queue|] == queue;
  }

  /** The first requirement that does not fit, given what the queue already reserves. */
  method FirstSlotShortfall(c: Conditions, p: Payload, ghost queue: seq<Entry>, totals: map<SlotResource, nat>,
                            requirements: seq<Requirement>)
    returns (shortfall: Option<Requirement>)
    requires forall r :: r in totals && totals[r] == QueueDemand(queue, r)
    ensures shortfall == FirstShortfall(c, p, queue, requirements)
    ensures shortfall.None? <==> forall q | q in requirements :: Fits(c, p, queue, q)
  {
    ShortfallIff(c, p, queue, requirements);
    for i := 0 to |requirements|
      invariant FirstShortfall(c, p, queue, requirements[i..]) == FirstShortfall(c, p, queue, requirements)
    {
      var q := requirements[i];
      assert requirements[i..][1..] == requirements[i + 1..];
      var free := c.supply(q.resource) - c.demand(q.resource) +
          c.occupied(p.structureType, p.x, p.y, q.resource) - totals[q.resource];
      if free < q.count {
        return Some(q);
      }
    }
    shortfall := None;
  }

  /** The refill of the entries from `index` on, with those before it as they are. */
  function RefillFrom(c: Conditions, manpower: real, queue: seq<Entry>, index: nat): (real, seq<Entry>)
    requires index <= |queue|
  {
    var (m, rest) := Refill(c, manpower, queue[index..]);
    (m, queue[..index] + rest)
  }

  lemma RefillStarts(c: Conditions, manpower: real, queue: seq<Entry>)
    ensures RefillFrom(c, manpower, queue, 0) == Refill(c, manpower, queue)
  {
    assert queue[0..] == queue;
    assert queue[..0] + Refill(c, manpower, queue).1 == Refill(c, manpower, queue).1;
  }

  /** At the end, and at a garrison the wallet cannot pay, the refill is done. */
  lemma RefillStops(c: Conditions, manpower: real, queue: seq<Entry>, index: nat)
    requires index <= |queue|
    requires index < |queue| ==> queue[index].awaiting && manpower < c.settleCost
    ensures RefillFrom(c, manpower, queue, index) == (manpower, queue)
  {
    assert queue[..index] + queue[index..] == queue;
  }

  lemma RefillStep(c: Conditions, manpower: real, queue: seq<Entry>, index: nat, manpower': real, queue': seq<Entry>)
    requires index < |queue|
    requires if queue[index].awaiting
             then && manpower >= c.settleCost && manpower' == Debit(manpower, c.settleCost)
                  && queue' == queue[index := queue[index].(reserved := c.settleCost, awaiting := false)]
             else manpower' == manpower && queue' == queue
    ensures RefillFrom(c, manpower', queue', index + 1) == RefillFrom(c, manpower, queue, index)
  {
    assert queue[index..] == [queue[index]] + queue[index + 1..] && queue'[index + 1..] == queue[index + 1..];
    var rest := Refill(c, manpower', queue'[index + 1..]).1;
    assert Refill(c, manpower, queue[index..]).1 == [queue'[index]] + rest;
    assert queue'[..index + 1] + rest == queue[..index] + ([queue'[index]] + rest);
  }

  /** Reordering keeps the player sound, the total, the entries and the order of the others. */
  lemma MovedToFront(pl: Player, key: string)
    requires Sound(pl)
    ensures var pl' := pl.(queue := MoveToFront(pl.queue, key));
            && Sound(pl') && Total(pl') == Total(pl) && multiset(pl'.queue) == multiset(pl.queue)
            && (HasTile(pl'.queue, key) ==> pl'.queue[0].tileKey == key)
            && Without(pl'.queue, key) == Without(pl.queue, key) && Fronted(pl, key, pl')
  {
    MoveToFrontSound(pl.queue, key);
    MoveToFrontPermutes(pl.queue, key);
    MoveToFrontKeepsOrder(pl.queue, key);
    FrontInTerms(pl, key);
    forall e | e in MoveToFront(pl.queue, key) ensures e in pl.queue {
      assert e in multiset(MoveToFront(pl.queue, key));
    }
  }

  class PlayerRuntime {
    var manpower: real
    var devQueue: seq<Entry>
    var claimContinuations: Claims

    constructor ()
      ensures Valid() && St() == Player(0.0, [], map[])
    {
      manpower, devQueue, claimContinuations := 0.0, [], map[];
    }

    function St(): Player
      reads this
    {
      Player(manpower, devQueue, claimContinuations)
    }

    /** One entry per tile, both tables within the cap, no entry both reserved and waiting, no negative wallet. */
    ghost predicate Valid()
      reads this
    {
      Sound(St())
    }

    /** What a queued build would hold, or why it is refused. */
    method EstimateBuildReservation(c: Conditions, p: Payload) returns (reservation: Reservation)
      ensures reservation == EstimateBuild(c, p, St())
    {
      var totals := ReservedSlotDemand(devQueue);
      var plan := c.plan(p.structureType, p.x, p.y, devQueue);
      if plan.None? {
        return Refused(UnknownStructure);
      }
      if manpower < plan.value.cost {
        return Refused(InsufficientManpower);
      }
      var shortfall := FirstSlotShortfall(c, p, devQueue, totals, plan.value.requirements);
      if shortfall.Some? {
        return Refused(InsufficientSlot);
      }
      reservation := Reserve(plan.value.cost, plan.value.requirements);
    }

    /** The bare enqueue: reserve, append or hand back, drain. */
    method ReserveAndAppend(c: Conditions, p: Payload) returns (rejection: Option<Rejection>, dispatched: Option<Entry>)
      modifies this`manpower, this`devQueue
      ensures (St(), dispatched) == Apply(c, old(St()), EnqueueOp(p))
      ensures rejection == match Enqueue(c, old(St()), p) case Accepted(_) => None case Rejected(_, code) => Some(code)
    {
      dispatched := None;
      if HasTile(devQueue, p.tileKey) {
        return Some(Full), None;
      }
      var reserved, requirements, awaiting := 0.0, [], false;
      if IsReservableBuild(p.kind, p.structureType) {
        var reservation := EstimateBuildReservation(c, p);
        if reservation.Refused? {
          return Some(reservation.code), None;
        }
        manpower := Debit(manpower, reservation.cost);
        reserved, requirements := reservation.cost, reservation.requirements;
      } else if p.kind == Settle {
        var reservation := EstimateSettle(c, manpower);
        if reservation.Reserve? {
          manpower := Debit(manpower, reservation.cost);
          reserved := reservation.cost;
        } else {
          awaiting := true;
        }
      }
      var (queue, accepted) := Append(devQueue, NewEntry(c, p, reserved, requirements, awaiting));
      if !accepted {
        manpower := Refund(c, manpower, reserved);
        return Some(Full), None;
      }
      devQueue := queue;
      rejection := None;
      dispatched := Dispatch(c);
    }

    /** Enqueues a build or a garrison and tries a drain. It is one step of the runs the ledger theorems are about,
        it is refused exactly when it is not admissible, and a refusal names its cause and takes nothing from a
        wallet within its ceiling. */
    method HandleEnqueue(c: Conditions, p: Payload) returns (rejection: Option<Rejection>, dispatched: Option<Entry>)
      requires Valid() && Sane(c)
      modifies this
      ensures Valid() && LedgerStep(c, old(St()), St())
      ensures (St(), dispatched) == Apply(c, old(St()), EnqueueOp(p))
      ensures Enqueued(c, old(St()), p, St(), dispatched)
      ensures PromisesKept(c, old(St()), EnqueueOp(p), St(), dispatched)
      ensures rejection.None? <==> Admissible(c, old(St()), p)
      ensures rejection.Some? ==>
                && IsCause(c, old(St()), p, rejection.value) && dispatched.None? && devQueue == old(devQueue)
                && (old(manpower) <= Ceiling(c) ==> manpower == old(manpower))
      ensures rejection.None? ==>
                && EntriesKept(old(devQueue), devQueue, dispatched)
                && (HasEntry(devQueue, p.tileKey, p.kind) ||
                    (dispatched.Some? && dispatched.value.tileKey == p.tileKey && dispatched.value.kind == p.kind))
    {
      ApplyLedger(c, St(), EnqueueOp(p));
      EnqueueInTerms(c, St(), p);
      EnqueueLedger(c, St(), p);
      EnqueueAcceptedIff(c, St(), p);
      StepKeepsPromises(c, St(), EnqueueOp(p));
      if Enqueue(c, St(), p).Accepted? {
        EnqueueKeepsEntries(c, St(), p);
      }
      rejection, dispatched := ReserveAndAppend(c, p);
    }

    /** Cancels a tile's entry: the tile leaves the queue, every other entry stays, and its hold is refunded. */
    method HandleCancel(c: Conditions, key: string)
      requires Valid() && Sane(c)
      modifies this`manpower, this`devQueue
      ensures Valid() && LedgerStep(c, old(St()), St())
      ensures St() == Apply(c, old(St()), CancelOp(key)).0 && Cancelled(c, old(St()), key, St())
      ensures forall e :: e in devQueue <==> e in old(devQueue) && e.tileKey != key
      ensures !HasTile(old(devQueue), key) ==> St() == old(St())
    {
      RemovalLedger(c, St(), key);
      CancelInTerms(c, St(), key);
      WithoutElements(devQueue, key);
      EntryForFinds(devQueue, key);
      if !HasTile(devQueue, key) {
        WithoutMissing(devQueue, key);
      }
      var entry := EntryFor(devQueue, key);
      if entry.Some? {
        manpower := Refund(c, manpower, entry.value.reserved);
      }
      devQueue := Without(devQueue, key);
    }

    /** Puts a tile's entry first; the queue is permuted, the other entries keep their order, and nothing is held
        differently. */
    method HandleMoveToFront(key: string)
      requires Valid()
      modifies this`devQueue
      ensures Valid() && Total(St()) == old(Total(St())) && multiset(devQueue) == multiset(old(devQueue))
      ensures Fronted(old(St()), key, St())
      ensures HasTile(devQueue, key) ==> devQueue[0].tileKey == key
      ensures Without(devQueue, key) == Without(old(devQueue), key)
      ensures forall c: Conditions :: St() == Apply(c, old(St()), FrontOp(key)).0
    {
      MovedToFront(St(), key);
      devQueue := MoveToFront(devQueue, key);
    }

    /** The bare drain step, shared by every handler. */
    method Dispatch(c: Conditions) returns (dispatched: Option<Entry>)
      modifies this`manpower, this`devQueue
      ensures (St(), dispatched) == Drain(c, old(St()))
    {
      if devQueue == [] || !c.slotFree {
        return None;
      }
      var i := FirstDrainable(c, manpower, devQueue);
      if i == |devQueue| {
        return None;
      }
      var entry := devQueue[i];
      devQueue := devQueue[..i] + devQueue[i + 1..];
      if entry.kind == Settle && entry.reserved != 0.0 {
        manpower := Release(manpower, entry.reserved);
      } else {
        manpower := Refund(c, manpower, entry.reserved);
      }
      dispatched := Some(entry);
    }

    /** One drain attempt: nothing leaves without a free slot or an entry that may leave; otherwise the first such entry
        does, its hold is refunded, and the others keep their order. */
    method TryDrain(c: Conditions) returns (dispatched: Option<Entry>)
      requires Valid() && Sane(c)
      modifies this`manpower, this`devQueue
      ensures Valid() && LedgerStep(c, old(St()), St())
      ensures (St(), dispatched) == Apply(c, old(St()), DrainOp) && Drained(c, old(St()), St(), dispatched)
      ensures dispatched.None? <==> !c.slotFree || forall e | e in old(devQueue) :: !MayLeave(c, old(manpower), e)
      ensures dispatched.None? ==> St() == old(St())
      ensures dispatched.Some? ==>
                exists i | 0 <= i < |old(devQueue)| ::
                  && old(devQueue)[i] == dispatched.value && MayLeave(c, old(manpower), dispatched.value)
                  && (forall j | 0 <= j < i :: !MayLeave(c, old(manpower), old(devQueue)[j]))
                  && devQueue == old(devQueue)[..i] + old(devQueue)[i + 1..]
    {
      DrainLedger(c, St());
      DrainInTerms(c, St());
      DrainDispatchesFirst(c, St());
      dispatched := Dispatch(c);
    }

    /** Walks the queue once, reserving for waiting garrisons until the wallet runs short. */
    method ReserveAwaiting(c: Conditions) returns (reserved: nat)
      modifies this`manpower, this`devQueue
      ensures St() == RefillPlayer(c, old(St()))
      ensures reserved > 0 || devQueue == old(devQueue)
      ensures Waiting(devQueue) == 0 || manpower < c.settleCost
    {
      reserved := 0;
      var queue := devQueue;
      var index := 0;
      RefillExhausts(c, manpower, devQueue);
      ghost var goal := Refill(c, manpower, devQueue);
      RefillStarts(c, manpower, queue);
      while index < |queue|
        invariant 0 <= index <= |queue|
        invariant devQueue == old(devQueue) && claimContinuations == old(claimContinuations)
        invariant RefillFrom(c, manpower, queue, index) == goal
        invariant reserved > 0 || queue == devQueue
      {
        var entry := queue[index];
        ghost var wallet, was := manpower, queue;
        if entry.awaiting {
          var reservation := EstimateSettle(c, manpower);
          if reservation.Refused? {
            break;
          }
          manpower := Debit(manpower, reservation.cost);
          queue := queue[index := entry.(reserved := reservation.cost, awaiting := false)];
          reserved := reserved + 1;
        }
        RefillStep(c, wallet, was, index, manpower, queue);
        index := index + 1;
      }
      RefillStops(c, manpower, queue, index);
      if reserved > 0 {
        devQueue := queue;
      }
    }

    /** The passive-income tick: refill waiting garrisons, then try one drain. Unless something is dispatched, no
        garrison is left waiting that the wallet could still pay for. */
    method TickAwaiting(c: Conditions) returns (dispatched: Option<Entry>)
      requires Valid() && Sane(c)
      modifies this`manpower, this`devQueue
      ensures Valid() && LedgerStep(c, old(St()), St())
      ensures (St(), dispatched) == Apply(c, old(St()), RefillOp)
      ensures exists mid :: Refilled(c, old(St()), mid) && Drained(c, mid, St(), dispatched)
      ensures dispatched.None? ==>
                Total(St()) == old(Total(St())) && (Waiting(devQueue) == 0 || manpower < c.settleCost)
    {
      ApplyLedger(c, St(), RefillOp);
      RefillPlayerLedger(c, St());
      RefillInTerms(c, St());
      DrainInTerms(c, RefillPlayer(c, St()));
      var reserved := ReserveAwaiting(c);
      DrainLedger(c, St());
      dispatched := Dispatch(c);
    }

    /** A garrison the player sent itself: its entry leaves the queue with its hold refunded in full; any other
        entry, and a claim's own settle step, stays. */
    method ReleaseQueuedSettle(key: string)
      requires Valid()
      modifies this`manpower, this`devQueue
      ensures Valid() && Total(St()) == old(Total(St()))
      ensures Released(old(St()), key, St())
      ensures forall c: Conditions :: St() == Apply(c, old(St()), ReleaseOp(key)).0
      ensures forall e :: e in devQueue <==>
                e in old(devQueue) && !(e.tileKey == key && e.kind == Settle && (e.reserved != 0.0 || e.awaiting))
    {
      ReleaseLedger(St(), key);
      ReleaseInTerms(St(), key);
      WithoutElements(devQueue, key);
      EntryForFinds(devQueue, key);
      OneEntryPerTile(devQueue, key);
      var entry := EntryFor(devQueue, key);
      if entry.None? || entry.value.kind != Settle || (entry.value.reserved == 0.0 && !entry.value.awaiting) {
        return;
      }
      if entry.value.reserved != 0.0 {
        manpower := Release(manpower, entry.value.reserved);
      }
      devQueue := Without(devQueue, key);
    }

    /** Queues a claim's step: true exactly when the step is in the queue, which fails only if the tile holds another
        entry or the queue is full; earlier entries stay in front, and the step holds no manpower. */
    method EnqueueClaimStep(c: Conditions, x: int, y: int, key: string, kind: Kind, structureType: string)
      returns (enqueued: bool)
      modifies this`devQueue
      ensures (devQueue, enqueued) == EnqueueStep(c, old(devQueue), x, y, key, kind, structureType)
      ensures enqueued <==> InQueue(devQueue, key, kind)
      ensures StepAppended(old(devQueue), StepEntry(c, x, y, key, kind, structureType), devQueue)
      ensures enqueued <==>
                InQueue(old(devQueue), key, kind) || (Absent(old(devQueue), key) && |old(devQueue)| < 20)
      ensures old(devQueue) <= devQueue && Held(devQueue) == Held(old(devQueue))
    {
      ClaimEntryQueued(c, devQueue, x, y, key, kind, structureType);
      StepInTerms(c, devQueue, x, y, key, kind, structureType);
      if HasEntry(devQueue, key, kind) {
        return true;
      }
      var (queue, accepted) := Append(devQueue, ClaimEntry(c, x, y, key, kind, structureType));
      devQueue := queue;
      enqueued := accepted;
    }

    /** The bare set command. */
    method ActOnClaim(c: Conditions, x: int, y: int, key: string, structureType: string, ownedFrontier: bool)
      returns (accepted: bool, dispatched: Option<Entry>)
      modifies this
      ensures var (outcome, d) := SetClaim(c, old(St()), x, y, key, structureType, ownedFrontier);
              St() == outcome.player && accepted == outcome.Accepted? && dispatched == d
    {
      if key !in claimContinuations && |claimContinuations| >= DEV_QUEUE_SERVER_CAP {
        return false, None;
      }
      if ownedFrontier {
        if structureType != SettleOnly() && SkipsSettled(structureType) {
          var enqueued := EnqueueClaimStep(c, x, y, key, Build, structureType);
          claimContinuations := if enqueued then claimContinuations - {key}
              else claimContinuations[key := structureType];
        } else {
          var enqueued := EnqueueClaimStep(c, x, y, key, Settle, "");
          if structureType != SettleOnly() || !enqueued {
            claimContinuations := claimContinuations[key := structureType];
          } else {
            claimContinuations := claimContinuations - {key};
          }
        }
        dispatched := Dispatch(c);
        return true, dispatched;
      }
      claimContinuations := claimContinuations[key := structureType];
      return true, None;
    }

    /** Sets a claim: refused only when the table is full and has no entry for the tile, without any effect; otherwise a
        claimed structure is promised or its build is under way, and no other promise is lost. */
    method HandleSetClaim(c: Conditions, x: int, y: int, key: string, structureType: string, ownedFrontier: bool)
      returns (accepted: bool, dispatched: Option<Entry>)
      requires Valid() && Sane(c)
      modifies this
      ensures Valid() && LedgerStep(c, old(St()), St())
      ensures var op := SetClaimOp(x, y, key, structureType, ownedFrontier);
              (St(), dispatched) == Apply(c, old(St()), op) && PromisesKept(c, old(St()), op, St(), dispatched)
      ensures ClaimSet(c, old(St()), x, y, key, structureType, ownedFrontier, St(), dispatched)
      ensures accepted <==> key in old(claimContinuations) || |old(claimContinuations)| < 20
      ensures !accepted ==> St() == old(St()) && dispatched.None?
      ensures accepted && structureType != SettleOnly() ==>
                Promised(St(), key, structureType) || BuildUnderWay(St(), dispatched, key)
    {
      ghost var op := SetClaimOp(x, y, key, structureType, ownedFrontier);
      ApplyLedger(c, St(), op);
      StepKeepsPromises(c, St(), op);
      SetClaimInTerms(c, St(), x, y, key, structureType, ownedFrontier);
      if structureType != SettleOnly() {
        SetClaimPromises(c, St(), x, y, key, structureType, ownedFrontier);
      }
      accepted, dispatched := ActOnClaim(c, x, y, key, structureType, ownedFrontier);
    }

    /** The expansion landed: the claim's next step is queued, and every promise is kept or honoured. */
    method TryDrainClaim(c: Conditions, x: int, y: int, key: string) returns (dispatched: Option<Entry>)
      requires Valid() && Sane(c)
      modifies this
      ensures Valid() && LedgerStep(c, old(St()), St())
      ensures (St(), dispatched) == Apply(c, old(St()), DrainClaimOp(x, y, key))
      ensures ClaimLanded(c, old(St()), x, y, key, St(), dispatched)
      ensures PromisesKept(c, old(St()), DrainClaimOp(x, y, key), St(), dispatched)
      ensures EntriesKept(old(devQueue), devQueue, dispatched)
      ensures key !in old(claimContinuations) ==> St() == old(St()) && dispatched.None?
    {
      ApplyLedger(c, St(), DrainClaimOp(x, y, key));
      StepKeepsPromises(c, St(), DrainClaimOp(x, y, key));
      DrainClaimInTerms(c, St(), x, y, key);
      if key !in claimContinuations {
        return None;
      }
      var structureType := claimContinuations[key];
      if structureType != SettleOnly() && SkipsSettled(structureType) {
        var enqueued := EnqueueClaimStep(c, x, y, key, Build, structureType);
        if enqueued {
          claimContinuations := claimContinuations - {key};
        }
      } else {
        var enqueued := EnqueueClaimStep(c, x, y, key, Settle, "");
        if structureType == SettleOnly() && enqueued {
          claimContinuations := claimContinuations - {key};
        }
      }
      DrainKeepsEntries(c, St());
      dispatched := Dispatch(c);
    }

    /** The tile's settlement is done: its settle entry, if any, leaves the queue with its hold refunded; all else
        stays. */
    method ClearCompletedSettleEntry(c: Conditions, key: string)
      requires Valid() && Sane(c)
      modifies this`manpower, this`devQueue
      ensures Valid() && LedgerStep(c, old(St()), St())
      ensures St() == ClearCompletedSettle(c, old(St()), key) && GarrisonCleared(c, old(St()), key, St())
      ensures forall e :: e in devQueue <==> e in old(devQueue) && !(e.tileKey == key && e.kind == Settle)
    {
      ClearCompletedLedger(c, St(), key);
      ClearInTerms(c, St(), key);
      WithoutElements(devQueue, key);
      EntryForFinds(devQueue, key);
      OneEntryPerTile(devQueue, key);
      var entry := EntryFor(devQueue, key);
      if entry.None? || entry.value.kind != Settle {
        return;
      }
      manpower := Refund(c, manpower, entry.value.reserved);
      devQueue := Without(devQueue, key);
    }

    /** The bare build tail. */
    method QueueBuildTail(c: Conditions, x: int, y: int, key: string) returns (dispatched: Option<Entry>)
      requires Valid() && Sane(c)
      modifies this
      ensures (St(), dispatched) == BuildTail(c, old(St()), x, y, key)
    {
      ClearCompletedSettleEntry(c, key);
      if key !in claimContinuations || claimContinuations[key] == SettleOnly() {
        return None;
      }
      var structureType := claimContinuations[key];
      if HasEntry(devQueue, key, Build) || (NeedsPlacement(structureType) && c.online) {
        claimContinuations := claimContinuations - {key};
        return None;
      }
      var (queue, accepted) := Append(devQueue, ClaimEntry(c, x, y, key, Build, structureType));
      devQueue := queue;
      if accepted {
        claimContinuations := claimContinuations - {key};
      }
      dispatched := Dispatch(c);
    }

    /** The settlement completed: every promise is kept or honoured, and the tile's own promise stays on the table
        only while the queue is full, has no build for the tile, and no online client is to place it. */
    method TryDrainBuildTail(c: Conditions, x: int, y: int, key: string) returns (dispatched: Option<Entry>)
      requires Valid() && Sane(c)
      modifies this
      ensures Valid() && LedgerStep(c, old(St()), St())
      ensures (St(), dispatched) == Apply(c, old(St()), BuildTailOp(x, y, key))
      ensures SettlementDone(c, old(St()), x, y, key, St(), dispatched)
      ensures PromisesKept(c, old(St()), BuildTailOp(x, y, key), St(), dispatched)
      ensures forall s | Promised(old(St()), key, s) ::
                Promised(St(), key, s) <==>
                  && |ClearCompletedSettle(c, old(St()), key).queue| >= 20
                  && !InQueue(old(devQueue), key, Build) && !(Overlay(s) && c.online)
    {
      ApplyLedger(c, St(), BuildTailOp(x, y, key));
      StepKeepsPromises(c, St(), BuildTailOp(x, y, key));
      BuildTailInTerms(c, St(), x, y, key);
      if key in claimContinuations && claimContinuations[key] != SettleOnly() {
        OnlyFullQueueBlocksBuildTail(c, St(), x, y, key, claimContinuations[key]);
      }
      dispatched := QueueBuildTail(c, x, y, key);
    }
  }
}
