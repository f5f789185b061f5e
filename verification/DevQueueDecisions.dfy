/** What the queue decides: which commands are accepted, which entry is dispatched, which step a claim takes. */
module DevQueueDecisions {
  import opened World
  import opened DevQueue
  import opened DevQueueLaws

  // ---------- enqueue ----------

  /** A requirement fits the free slots, net of what the tile already occupies and the queue already reserves. */
  predicate Fits(c: Conditions, p: Payload, queue: seq<Entry>, q: Requirement) {
    QueueDemand(queue, q.resource) + q.count <=
        c.supply(q.resource) - c.demand(q.resource) + c.occupied(p.structureType, p.x, p.y, q.resource)
  }

  lemma {:induction false} ShortfallIff(c: Conditions, p: Payload, queue: seq<Entry>, requirements: seq<Requirement>)
    ensures FirstShortfall(c, p, queue, requirements).None? <==> forall q | q in requirements :: Fits(c, p, queue, q)
  {
    if requirements != [] {
      ShortfallIff(c, p, queue, requirements[1..]);
      assert requirements[0] in requirements;
      assert forall q | q in requirements :: q == requirements[0] || q in requirements[1..];
    }
  }

  /** What a build has to satisfy to be reserved. */
  ghost predicate Affordable(c: Conditions, pl: Player, p: Payload, plan: Plan) {
    plan.cost <= pl.manpower && forall q | q in plan.requirements :: Fits(c, p, pl.queue, q)
  }

  /** The tile is not queued yet, the queue has room, and a build that reserves is known, affordable and has its
      slots; a garrison is never refused for manpower. */
  ghost predicate Admissible(c: Conditions, pl: Player, p: Payload) {
    && (forall e | e in pl.queue :: e.tileKey != p.tileKey) && |pl.queue| < 20
    && (p.kind == Build && p.structureType != "" && p.structureType != "REMOVE_STRUCTURE" ==>
          var plan := c.plan(p.structureType, p.x, p.y, pl.queue);
          plan.Some? && Affordable(c, pl, p, plan.value))
  }

  /** The first cause of a rejection: the tile, then the structure, its manpower, its slots, and last the room. */
  ghost predicate IsCause(c: Conditions, pl: Player, p: Payload, code: Rejection) {
    var plan := c.plan(p.structureType, p.x, p.y, pl.queue);
    var queued := exists e | e in pl.queue :: e.tileKey == p.tileKey;
    var build := p.kind == Build && p.structureType != "" && p.structureType != "REMOVE_STRUCTURE" && !queued;
    match code
    case UnknownStructure => build && plan.None?
    case InsufficientManpower => build && plan.Some? && pl.manpower < plan.value.cost
    case InsufficientSlot => build && plan.Some? && plan.value.cost <= pl.manpower && !Affordable(c, pl, p, plan.value)
    case Full =>
      queued || (|pl.queue| >= 20 && (build ==> plan.Some? && Affordable(c, pl, p, plan.value)))
    case ClaimsFull => false
  }

  /** An enqueue is accepted exactly when it is admissible, and a rejection names its first cause. */
  lemma EnqueueAcceptedIff(c: Conditions, pl: Player, p: Payload)
    ensures Enqueue(c, pl, p).Accepted? <==> Admissible(c, pl, p)
    ensures Enqueue(c, pl, p).Rejected? ==> forall code :: IsCause(c, pl, p, code) <==> code == Enqueue(c, pl, p).code
  {
    var plan := c.plan(p.structureType, p.x, p.y, pl.queue);
    if plan.Some? {
      ShortfallIff(c, p, pl.queue, plan.value.requirements);
    }
  }

  // ---------- reorder ----------

  /** Moving an entry to the front keeps the other entries in their order. */
  lemma MoveToFrontKeepsOrder(queue: seq<Entry>, key: string)
    requires DistinctTiles(queue)
    ensures Without(MoveToFront(queue, key), key) == Without(queue, key)
    ensures HasTile(queue, key) ==> MoveToFront(queue, key)[1..] == Without(queue, key)
  {
    var i := IndexOf(queue, key);
    if i == |queue| {
      IndexOfMisses(queue, key);
    } else {
      RemoveAtIsWithout(queue, i);
      WithoutElements(queue, key);
      WithoutMissing(Without(queue, key), key);
      if i > 0 {
        assert MoveToFront(queue, key) == [queue[i]] + Without(queue, key);
      } else {
        assert queue[..0] + queue[1..] == queue[1..];
      }
    }
  }

  // ---------- drain ----------

  /** An entry may be dispatched: its tile is not under attack, an online player is not about to dispatch it too, and a
      garrison that holds nothing can be paid for. */
  predicate MayLeave(c: Conditions, manpower: real, e: Entry) {
    && !c.underAttack(e.tileKey)
    && !(c.online && e.origin != Server)
    && !(e.kind == Settle && e.reserved == 0.0 && manpower < c.settleCost)
  }

  lemma {:induction false} NothingEarlierLeaves(c: Conditions, manpower: real, queue: seq<Entry>, j: nat)
    requires j < FirstDrainable(c, manpower, queue)
    ensures !MayLeave(c, manpower, queue[j])
  {
    if j > 0 {
      NothingEarlierLeaves(c, manpower, queue[1..], j - 1);
    }
  }

  /** A drain dispatches the first entry that may leave, if a development slot is free, and keeps the others in
      order. */
  lemma DrainDispatchesFirst(c: Conditions, pl: Player)
    ensures var (pl', dispatched) := Drain(c, pl);
            && (dispatched.None? <==> !c.slotFree || forall e | e in pl.queue :: !MayLeave(c, pl.manpower, e))
            && (dispatched.Some? ==>
                  exists i | 0 <= i < |pl.queue| ::
                    && pl.queue[i] == dispatched.value && MayLeave(c, pl.manpower, pl.queue[i])
                    && (forall j | 0 <= j < i :: !MayLeave(c, pl.manpower, pl.queue[j]))
                    && pl'.queue == pl.queue[..i] + pl.queue[i + 1..])
  {
    var i := FirstDrainable(c, pl.manpower, pl.queue);
    forall j | 0 <= j < i ensures !MayLeave(c, pl.manpower, pl.queue[j]) {
      NothingEarlierLeaves(c, pl.manpower, pl.queue, j);
    }
    if i < |pl.queue| {
      assert pl.queue[i] in pl.queue && MayLeave(c, pl.manpower, pl.queue[i]);
    }
  }

  /** No entry is lost in a drain: it stays queued or is the one dispatched. */
  ghost predicate EntriesKept(before: seq<Entry>, after: seq<Entry>, dispatched: Option<Entry>) {
    forall e | e in before :: e in after || dispatched == Some(e)
  }

  lemma DrainKeepsEntries(c: Conditions, pl: Player)
    ensures EntriesKept(pl.queue, Drain(c, pl).0.queue, Drain(c, pl).1)
  {
    var i := FirstDrainable(c, pl.manpower, pl.queue);
    if i < |pl.queue| {
      var rest := pl.queue[..i] + pl.queue[i + 1..];
      forall e | e in pl.queue ensures e in rest || e == pl.queue[i] {
        var j :| 0 <= j < |pl.queue| && pl.queue[j] == e;
        assert j != i ==> rest[if j < i then j else j - 1] == e;
      }
    }
  }

  /** An accepted enqueue loses no entry, its own included. */
  lemma EnqueueKeepsEntries(c: Conditions, pl: Player, p: Payload)
    requires Enqueue(c, pl, p).Accepted?
    ensures var (pl', dispatched) := Drain(c, Enqueue(c, pl, p).player);
            && EntriesKept(pl.queue, pl'.queue, dispatched)
            && (HasEntry(pl'.queue, p.tileKey, p.kind) ||
                (dispatched.Some? && dispatched.value.tileKey == p.tileKey && dispatched.value.kind == p.kind))
  {
    var queue := Enqueue(c, pl, p).player.queue;
    assert queue[|queue| - 1] in queue;
    assert queue[..|queue| - 1] == pl.queue;
    assert queue == pl.queue + [queue[|queue| - 1]];
    DrainKeepsEntries(c, Enqueue(c, pl, p).player);
  }

  // ---------- refill ----------

  /** A refill leaves no garrison waiting that the wallet could still pay for. */
  lemma {:induction false} RefillExhausts(c: Conditions, manpower: real, queue: seq<Entry>)
    ensures var (m, queue') := Refill(c, manpower, queue);
            Waiting(queue') == 0 || m < c.settleCost
    decreases |queue|
  {
    if queue != [] {
      RefillExhausts(c, if queue[0].awaiting then Debit(manpower, c.settleCost) else manpower, queue[1..]);
    }
  }

  // ---------- claim steps ----------

  /** What queueing a claim's step does: the step is in the queue unless the tile holds another entry or the queue is
      full, and it holds no manpower. */
  lemma ClaimEntryQueued(c: Conditions, queue: seq<Entry>, x: int, y: int, key: string, kind: Kind,
                         structureType: string)
    ensures var (queue', enqueued) := EnqueueStep(c, queue, x, y, key, kind, structureType);
            && (enqueued <==> HasEntry(queue', key, kind))
            && (enqueued <==> HasEntry(queue, key, kind) || (!HasTile(queue, key) && |queue| < DEV_QUEUE_SERVER_CAP))
            && queue <= queue' && Held(queue') == Held(queue)
            && (forall e | e in queue' && e !in queue :: e.tileKey == key && e.kind == kind)
  {
    var e := ClaimEntry(c, x, y, key, kind, structureType);
    HeldAppend(queue, [e]);
    assert (queue + [e])[|queue|] == e;
  }
}
