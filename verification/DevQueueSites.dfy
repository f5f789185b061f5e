/** Builds and garrisons go where they were ordered: every entry stays at the coordinates its tile key names. */
module DevQueueSites {
  import opened World
  import opened DevQueue
  import opened DevQueueLaws
  import opened DevQueueRuns
  import opened DevQueueTerms

  /** The coordinates a tile key names. */
  type Site = string -> (int, int)

  predicate InPlace(site: Site, e: Entry) {
    site(e.tileKey) == (e.x, e.y)
  }

  ghost predicate AllInPlace(site: Site, queue: seq<Entry>) {
    forall e | e in queue :: InPlace(site, e)
  }

  /** The operation's coordinates are those of the key it carries. */
  predicate NamesItsTile(site: Site, op: Op) {
    match op
    case EnqueueOp(p) => site(p.tileKey) == (p.x, p.y)
    case SetClaimOp(x, y, key, _, _) => site(key) == (x, y)
    case DrainClaimOp(x, y, key) => site(key) == (x, y)
    case BuildTailOp(x, y, key) => site(key) == (x, y)
    case _ => true
  }

  /** The queue and the entry sent off, if any, are in place. */
  ghost predicate Kept(site: Site, pl: Player, dispatched: Option<Entry>) {
    AllInPlace(site, pl.queue) && (dispatched.Some? ==> InPlace(site, dispatched.value))
  }

  lemma DrainedInPlace(site: Site, c: Conditions, pl: Player, pl': Player, dispatched: Option<Entry>)
    requires AllInPlace(site, pl.queue) && Drained(c, pl, pl', dispatched)
    ensures Kept(site, pl', dispatched)
  {}

  lemma PartInPlace(site: Site, queue: seq<Entry>, key: string, queue': seq<Entry>)
    requires AllInPlace(site, queue)
    requires Absent(queue, key) ==> queue' == queue
    requires forall i | StandsAt(queue, i, key) :: queue' == queue || queue' == WithoutIndex(queue, i) ||
                                                    queue' == [queue[i]] + WithoutIndex(queue, i)
    ensures AllInPlace(site, queue')
  {
    AbsentStandsNowhere(queue, key);
  }

  lemma RefilledInPlace(site: Site, c: Conditions, pl: Player, pl': Player)
    requires AllInPlace(site, pl.queue) && Refilled(c, pl, pl')
    ensures AllInPlace(site, pl'.queue)
  {
    forall e | e in pl'.queue ensures InPlace(site, e) {
      var i :| 0 <= i < |pl'.queue| && pl'.queue[i] == e;
      assert pl.queue[i] in pl.queue;
    }
  }

  lemma EnqueuedInPlace(site: Site, c: Conditions, pl: Player, p: Payload, pl': Player, dispatched: Option<Entry>)
    requires AllInPlace(site, pl.queue) && site(p.tileKey) == (p.x, p.y) && Enqueued(c, pl, p, pl', dispatched)
    ensures Kept(site, pl', dispatched)
  {
    if mid :| Appended(c, pl, p, mid) && Drained(c, mid, pl', dispatched) {
      assert mid.queue == pl.queue + [mid.queue[|pl.queue|]];
      DrainedInPlace(site, c, mid, pl', dispatched);
    }
  }

  lemma StepInPlace(site: Site, queue: seq<Entry>, step: Entry, queue': seq<Entry>)
    requires AllInPlace(site, queue) && InPlace(site, step) && StepAppended(queue, step, queue')
    ensures AllInPlace(site, queue')
  {}

  lemma TakenThenDrained(site: Site, c: Conditions, pl: Player, x: int, y: int, key: string, structureType: string,
                         mid: Player, pl': Player, dispatched: Option<Entry>)
    requires AllInPlace(site, pl.queue) && site(key) == (x, y)
    requires StepTaken(c, pl, x, y, key, structureType, mid) && Drained(c, mid, pl', dispatched)
    ensures Kept(site, pl', dispatched)
  {
    StepInPlace(site, pl.queue, FirstStep(c, x, y, key, structureType), mid.queue);
    DrainedInPlace(site, c, mid, pl', dispatched);
  }

  lemma ClaimSetInPlace(site: Site, c: Conditions, pl: Player, x: int, y: int, key: string, structureType: string,
                        owned: bool, pl': Player, dispatched: Option<Entry>)
    requires AllInPlace(site, pl.queue) && site(key) == (x, y)
    requires ClaimSet(c, pl, x, y, key, structureType, owned, pl', dispatched)
    ensures Kept(site, pl', dispatched)
  {
    if mid :| StepTaken(c, pl, x, y, key, structureType, mid) && Drained(c, mid, pl', dispatched) {
      TakenThenDrained(site, c, pl, x, y, key, structureType, mid, pl', dispatched);
    }
  }

  lemma ClaimLandedInPlace(site: Site, c: Conditions, pl: Player, x: int, y: int, key: string, pl': Player,
                           dispatched: Option<Entry>)
    requires AllInPlace(site, pl.queue) && site(key) == (x, y) && ClaimLanded(c, pl, x, y, key, pl', dispatched)
    ensures Kept(site, pl', dispatched)
  {
    if key in pl.claims {
      var mid :| StepTaken(c, pl, x, y, key, pl.claims[key], mid) && Drained(c, mid, pl', dispatched);
      TakenThenDrained(site, c, pl, x, y, key, pl.claims[key], mid, pl', dispatched);
    }
  }

  lemma TailInPlace(site: Site, c: Conditions, pl: Player, x: int, y: int, key: string, pl': Player,
                    dispatched: Option<Entry>)
    requires AllInPlace(site, pl.queue) && site(key) == (x, y) && TailTaken(c, pl, x, y, key, pl', dispatched)
    ensures Kept(site, pl', dispatched)
  {
    if key in pl.claims && pl.claims[key] != "" && !InQueue(pl.queue, key, Build) &&
       !(Overlay(pl.claims[key]) && c.online)
    {
      var mid :| TailQueued(c, pl, x, y, key, pl.claims[key], mid) && Drained(c, mid, pl', dispatched);
      StepInPlace(site, pl.queue, StepEntry(c, x, y, key, Build, pl.claims[key]), mid.queue);
      DrainedInPlace(site, c, mid, pl', dispatched);
    }
  }

  lemma SettlementInPlace(site: Site, c: Conditions, pl: Player, x: int, y: int, key: string, pl': Player,
                          dispatched: Option<Entry>)
    requires AllInPlace(site, pl.queue) && site(key) == (x, y) && SettlementDone(c, pl, x, y, key, pl', dispatched)
    ensures Kept(site, pl', dispatched)
  {
    var cleared :| GarrisonCleared(c, pl, key, cleared) && TailTaken(c, cleared, x, y, key, pl', dispatched);
    assert AllInPlace(site, cleared.queue) by {
      PartInPlace(site, pl.queue, key, cleared.queue);
    }
    TailInPlace(site, c, cleared, x, y, key, pl', dispatched);
  }

  lemma DoneInPlace(site: Site, c: Conditions, pl: Player, op: Op, pl': Player, dispatched: Option<Entry>)
    requires AllInPlace(site, pl.queue) && NamesItsTile(site, op) && StepDone(c, pl, op, pl', dispatched)
    ensures Kept(site, pl', dispatched)
  {
    match op {
      case EnqueueOp(p) => EnqueuedInPlace(site, c, pl, p, pl', dispatched);
      case CancelOp(key) => PartInPlace(site, pl.queue, key, pl'.queue);
      case FrontOp(key) => PartInPlace(site, pl.queue, key, pl'.queue);
      case DrainOp => DrainedInPlace(site, c, pl, pl', dispatched);
      case RefillOp =>
        var mid :| Refilled(c, pl, mid) && Drained(c, mid, pl', dispatched);
        RefilledInPlace(site, c, pl, mid);
        DrainedInPlace(site, c, mid, pl', dispatched);
      case ReleaseOp(key) => PartInPlace(site, pl.queue, key, pl'.queue);
      case SetClaimOp(x, y, key, structureType, owned) =>
        ClaimSetInPlace(site, c, pl, x, y, key, structureType, owned, pl', dispatched);
      case DrainClaimOp(x, y, key) => ClaimLandedInPlace(site, c, pl, x, y, key, pl', dispatched);
      case BuildTailOp(x, y, key) => SettlementInPlace(site, c, pl, x, y, key, pl', dispatched);
    }
  }

  lemma StepKeepsPlace(site: Site, c: Conditions, pl: Player, op: Op)
    requires Sane(c) && Sound(pl) && AllInPlace(site, pl.queue) && NamesItsTile(site, op)
    ensures Kept(site, Apply(c, pl, op).0, Apply(c, pl, op).1)
  {
    ApplyInTerms(c, pl, op);
    DoneInPlace(site, c, pl, op, Apply(c, pl, op).0, Apply(c, pl, op).1);
  }

  /** What step `i` of a run leaves queued and sends off. */
  ghost predicate InPlaceAt(site: Site, pl: Player, steps: seq<(Conditions, Op)>, i: nat)
    requires i < |steps|
  {
    var (c, op) := steps[i];
    Kept(site, Apply(c, Run(pl, steps[..i]), op).0, Apply(c, Run(pl, steps[..i]), op).1)
  }

  lemma {:induction false} RunStaysInPlace(site: Site, pl: Player, steps: seq<(Conditions, Op)>)
    requires Sound(pl) && AllSane(steps) && AllInPlace(site, pl.queue)
    requires forall s | s in steps :: NamesItsTile(site, s.1)
    ensures AllInPlace(site, Run(pl, steps).queue)
    decreases |steps|
  {
    if steps != [] {
      var before, last := steps[..|steps| - 1], steps[|steps| - 1];
      assert forall s | s in before :: s in steps;
      assert last in steps;
      RunStaysInPlace(site, pl, before);
      RunLedger(pl, before);
      StepKeepsPlace(site, last.0, Run(pl, before), last.1);
    }
  }

  /** Over any run of operations that carry the coordinates of their tile, every entry ever queued or sent off, whether
      enqueued by the player or by a claim, is at the coordinates its tile key names. */
  lemma RunKeepsPlace(site: Site, pl: Player, steps: seq<(Conditions, Op)>, i: nat)
    requires Sound(pl) && AllSane(steps) && AllInPlace(site, pl.queue) && i < |steps|
    requires forall s | s in steps :: NamesItsTile(site, s.1)
    ensures InPlaceAt(site, pl, steps, i)
  {
    assert forall s | s in steps[..i] :: s in steps;
    RunStaysInPlace(site, pl, steps[..i]);
    RunLedger(pl, steps[..i]);
    StepKeepsPlace(site, steps[i].0, Run(pl, steps[..i]), steps[i].1);
  }
}
