/** The server-durable development queue, its manpower wallet and its claim promises, as functions on their state. */
module DevQueue {
  import opened World

  const DEV_QUEUE_SERVER_CAP: nat := 20

  datatype Kind = Settle | Build

  /** `Unset` is how entries of clients, and old snapshots, are stored. */
  datatype Origin = Unset | Client | Server

  datatype SlotResource = Food | Titanium | Crystal | Umbrite

  datatype Requirement = Requirement(resource: SlotResource, count: nat)

  /** A queue entry. An empty structure type, a zero reservation and a false flag are the absent optional fields. */
  datatype Entry = Entry(
    tileKey: string, x: int, y: int, kind: Kind, structureType: string, queuedAt: int,
    reserved: real, requirements: seq<Requirement>, awaiting: bool, origin: Origin)

  datatype Payload = Payload(x: int, y: int, tileKey: string, kind: Kind, structureType: string)

  // ---------- the pure queue operations ----------

  predicate HasTile(queue: seq<Entry>, key: string) {
    exists e | e in queue :: e.tileKey == key
  }

  predicate HasEntry(queue: seq<Entry>, key: string, kind: Kind) {
    exists e | e in queue :: e.tileKey == key && e.kind == kind
  }

  /** Appends to the tail, capped, one entry per tile. */
  function Append(queue: seq<Entry>, e: Entry): (seq<Entry>, bool) {
    if HasTile(queue, e.tileKey) || |queue| >= DEV_QUEUE_SERVER_CAP then (queue, false) else (queue + [e], true)
  }

  function Without(queue: seq<Entry>, key: string): seq<Entry> {
    if queue == [] then []
    else (if queue[0].tileKey != key then [queue[0]] else []) + Without(queue[1..], key)
  }

  function EntryFor(queue: seq<Entry>, key: string): Option<Entry> {
    if queue == [] then None
    else if queue[0].tileKey == key then Some(queue[0])
    else EntryFor(queue[1..], key)
  }

  function IndexOf(queue: seq<Entry>, key: string): (i: nat)
    ensures i <= |queue|
    ensures i < |queue| ==> queue[i].tileKey == key
  {
    if queue == [] || queue[0].tileKey == key then 0 else 1 + IndexOf(queue[1..], key)
  }

  function MoveToFront(queue: seq<Entry>, key: string): seq<Entry> {
    var i := IndexOf(queue, key);
    if i == 0 || i == |queue| then queue else [queue[i]] + queue[..i] + queue[i + 1..]
  }

  // ---------- the player's state and the world around it ----------

  /** Claim promises by tile; an empty structure type promises a settlement only. */
  type Claims = map<string, string>

  datatype Player = Player(manpower: real, queue: seq<Entry>, claims: Claims)

  datatype Plan = Plan(cost: real, requirements: seq<Requirement>)

  /** What the handlers read from the world: the clock, the wallet ceiling, what things cost, which slots are free, and
      whether the player is online, has a development slot, and is being attacked. */
  datatype Conditions = Conditions(
    now: int,
    cap: real,
    overflow: real,
    settleCost: real,
    plan: (string, int, int, seq<Entry>) -> Option<Plan>,
    supply: SlotResource -> int,
    demand: SlotResource -> int,
    occupied: (string, int, int, SlotResource) -> nat,
    online: bool,
    slotFree: bool,
    underAttack: string -> bool)

  function MaxReal(a: real, b: real): real { if a >= b then a else b }

  function MinReal(a: real, b: real): real { if a <= b then a else b }

  /** The cap plus any unspent one-time overflow. */
  function Ceiling(c: Conditions): real {
    c.cap + MaxReal(0.0, c.overflow)
  }

  function Debit(manpower: real, amount: real): real { MaxReal(0.0, manpower - amount) }

  /** A clamped refund: credited manpower stops at the ceiling. */
  function Credit(c: Conditions, manpower: real, amount: real): real { MinReal(Ceiling(c), manpower + amount) }

  /** An unclamped refund, for a garrison that is charged straight after. */
  function Release(manpower: real, amount: real): real { MaxReal(0.0, manpower) + amount }

  /** Refunds what an entry holds; an entry that holds nothing triggers no credit at all. */
  function Refund(c: Conditions, manpower: real, reserved: real): real {
    if reserved != 0.0 then Credit(c, manpower, reserved) else manpower
  }

  // ---------- slots ----------

  function CountOf(requirements: seq<Requirement>, r: SlotResource): nat {
    if requirements == [] then 0
    else (if requirements[0].resource == r then requirements[0].count else 0) + CountOf(requirements[1..], r)
  }

  /** What the queued entries already reserve of a slot resource. */
  function QueueDemand(queue: seq<Entry>, r: SlotResource): nat {
    if queue == [] then 0 else CountOf(queue[0].requirements, r) + QueueDemand(queue[1..], r)
  }

  function FreeSlots(c: Conditions, p: Payload, queue: seq<Entry>, r: SlotResource): int {
    c.supply(r) - c.demand(r) + c.occupied(p.structureType, p.x, p.y, r) - QueueDemand(queue, r)
  }

  function FirstShortfall(c: Conditions, p: Payload, queue: seq<Entry>,
                          requirements: seq<Requirement>): Option<Requirement> {
    if requirements == [] then None
    else if FreeSlots(c, p, queue, requirements[0].resource) < requirements[0].count then Some(requirements[0])
    else FirstShortfall(c, p, queue, requirements[1..])
  }

  // ---------- enqueue, cancel, reorder ----------

  datatype Rejection = Full | UnknownStructure | InsufficientManpower | InsufficientSlot | ClaimsFull

  datatype Reservation = Reserve(cost: real, requirements: seq<Requirement>) | Refused(code: Rejection)

  function EstimateSettle(c: Conditions, manpower: real): Reservation {
    if manpower < c.settleCost then Refused(InsufficientManpower) else Reserve(c.settleCost, [])
  }

  function EstimateBuild(c: Conditions, p: Payload, pl: Player): Reservation {
    match c.plan(p.structureType, p.x, p.y, pl.queue)
    case None => Refused(UnknownStructure)
    case Some(plan) =>
      if pl.manpower < plan.cost then Refused(InsufficientManpower)
      else if FirstShortfall(c, p, pl.queue, plan.requirements).Some? then Refused(InsufficientSlot)
      else Reserve(plan.cost, plan.requirements)
  }

  /** Removals free a slot; every other build reserves. */
  predicate IsReservableBuild(kind: Kind, structureType: string) {
    kind == Build && structureType != "" && structureType != "REMOVE_STRUCTURE"
  }

  datatype Outcome = Accepted(player: Player) | Rejected(player: Player, code: Rejection)

  function NewEntry(c: Conditions, p: Payload, reserved: real, requirements: seq<Requirement>, awaiting: bool): Entry {
    Entry(p.tileKey, p.x, p.y, p.kind, p.structureType, c.now, reserved, requirements, awaiting, Unset)
  }

  /** Appends an entry whose reservation is already debited; if the queue is full, the reservation goes back. */
  function Admit(c: Conditions, pl: Player, e: Entry): Outcome {
    var (queue, accepted) := Append(pl.queue, e);
    if accepted then Accepted(pl.(queue := queue))
    else Rejected(pl.(manpower := Refund(c, pl.manpower, e.reserved)), Full)
  }

  /** The enqueue command, up to the drain it triggers. */
  function Enqueue(c: Conditions, pl: Player, p: Payload): Outcome {
    if HasTile(pl.queue, p.tileKey) then Rejected(pl, Full)
    else if IsReservableBuild(p.kind, p.structureType) then
      match EstimateBuild(c, p, pl)
      case Refused(code) => Rejected(pl, code)
      case Reserve(cost, reqs) =>
        Admit(c, pl.(manpower := Debit(pl.manpower, cost)), NewEntry(c, p, cost, reqs, false))
    else if p.kind == Settle then
      match EstimateSettle(c, pl.manpower)
      case Reserve(cost, _) => Admit(c, pl.(manpower := Debit(pl.manpower, cost)), NewEntry(c, p, cost, [], false))
      case Refused(code) =>
        if code == InsufficientManpower then Admit(c, pl, NewEntry(c, p, 0.0, [], true)) else Rejected(pl, code)
    else Admit(c, pl, NewEntry(c, p, 0.0, [], false))
  }

  function CancelEntry(c: Conditions, pl: Player, key: string): Player {
    var entry := EntryFor(pl.queue, key);
    pl.(manpower := if entry.Some? then Refund(c, pl.manpower, entry.value.reserved) else pl.manpower,
        queue := Without(pl.queue, key))
  }

  // ---------- drain, refill, release ----------

  predicate IsDrainable(c: Conditions, manpower: real, e: Entry) {
    !c.underAttack(e.tileKey) && (e.kind != Settle || e.reserved != 0.0 || EstimateSettle(c, manpower).Reserve?)
  }

  /** Online players dispatch their own entries, so only server-origin ones drain. */
  predicate Drains(c: Conditions, manpower: real, e: Entry) {
    (c.online ==> e.origin == Server) && IsDrainable(c, manpower, e)
  }

  function FirstDrainable(c: Conditions, manpower: real, queue: seq<Entry>): (i: nat)
    ensures i <= |queue|
    ensures i < |queue| ==> Drains(c, manpower, queue[i])
  {
    if queue == [] || Drains(c, manpower, queue[0]) then 0 else 1 + FirstDrainable(c, manpower, queue[1..])
  }

  /** The wallet once a dispatched entry has handed its reservation back. */
  function AfterDispatch(c: Conditions, manpower: real, e: Entry): real {
    if e.kind == Settle && e.reserved != 0.0 then Release(manpower, e.reserved) else Refund(c, manpower, e.reserved)
  }

  /** One drain attempt: at most one entry leaves the queue, refunded, and is dispatched. */
  function Drain(c: Conditions, pl: Player): (Player, Option<Entry>) {
    if pl.queue == [] || !c.slotFree then (pl, None)
    else
      var i := FirstDrainable(c, pl.manpower, pl.queue);
      if i == |pl.queue| then (pl, None)
      else
        var e := pl.queue[i];
        (pl.(queue := pl.queue[..i] + pl.queue[i + 1..], manpower := AfterDispatch(c, pl.manpower, e)), Some(e))
  }

  /** Reserves for waiting garrisons in queue order, stopping at the first the wallet cannot cover. */
  function Refill(c: Conditions, manpower: real, queue: seq<Entry>): (real, seq<Entry>)
    decreases |queue|
  {
    if queue == [] then (manpower, [])
    else if !queue[0].awaiting then
      var (m, rest) := Refill(c, manpower, queue[1..]);
      (m, [queue[0]] + rest)
    else
      match EstimateSettle(c, manpower)
      case Refused(_) => (manpower, queue)
      case Reserve(cost, _) =>
        var (m, rest) := Refill(c, Debit(manpower, cost), queue[1..]);
        (m, [queue[0].(reserved := cost, awaiting := false)] + rest)
  }

  function RefillPlayer(c: Conditions, pl: Player): Player {
    var (m, queue) := Refill(c, pl.manpower, pl.queue);
    pl.(manpower := m, queue := queue)
  }

  /** A garrison the client sent itself gives its reservation back unclamped and leaves the queue. */
  function ReleaseSettle(pl: Player, key: string): Player {
    var entry := EntryFor(pl.queue, key);
    if entry.None? || entry.value.kind != Settle || (entry.value.reserved == 0.0 && !entry.value.awaiting) then pl
    else pl.(manpower := if entry.value.reserved != 0.0 then
             Release(pl.manpower, entry.value.reserved) else pl.manpower,
             queue := Without(pl.queue, key))
  }

  // ---------- claim continuations ----------

  predicate SkipsSettled(structureType: string) {
    structureType == "SIEGE_BATTERY" || structureType == "SIEGE_TOWER" || structureType == "DREAD_TOWER"
  }

  predicate NeedsPlacement(structureType: string) {
    structureType == "ORE_REFINERY" || structureType == "HYDROWORKS"
  }

  function BuildOrigin(structureType: string): Origin {
    if NeedsPlacement(structureType) then Client else Server
  }

  function ClaimEntry(c: Conditions, x: int, y: int, key: string, kind: Kind, structureType: string): Entry {
    Entry(key, x, y, kind, structureType, c.now, 0.0, [], false,
          if kind == Build then BuildOrigin(structureType) else Unset)
  }

  function EnqueueStep(c: Conditions, queue: seq<Entry>, x: int, y: int, key: string, kind: Kind,
                       structureType: string):
    (seq<Entry>, bool)
  {
    if HasEntry(queue, key, kind) then (queue, true)
    else Append(queue, ClaimEntry(c, x, y, key, kind, structureType))
  }

  function SettleOnly(): string { "" }

  /** The step a claim takes on a tile that is owned and still frontier: whether it keeps its promise on the table. */
  function ClaimStep(c: Conditions, pl: Player, x: int, y: int, key: string, structureType: string): (Player, bool) {
    if structureType != SettleOnly() && SkipsSettled(structureType) then
      var (queue, enqueued) := EnqueueStep(c, pl.queue, x, y, key, Build, structureType);
      (pl.(queue := queue), !enqueued)
    else
      var (queue, enqueued) := EnqueueStep(c, pl.queue, x, y, key, Settle, "");
      (pl.(queue := queue), structureType != SettleOnly() || !enqueued)
  }

  /** The set command: registers the promise, or acts on it at once when no expansion is under way. */
  function SetClaim(c: Conditions, pl: Player, x: int, y: int, key: string, structureType: string, ownedFrontier: bool):
    (Outcome, Option<Entry>)
  {
    if key !in pl.claims && |pl.claims| >= DEV_QUEUE_SERVER_CAP then (Rejected(pl, ClaimsFull), None)
    else if ownedFrontier then
      var (pl1, keep) := ClaimStep(c, pl, x, y, key, structureType);
      var pl2 := pl1.(claims := if keep then pl.claims[key := structureType] else pl.claims - {key});
      var (pl3, dispatched) := Drain(c, pl2);
      (Accepted(pl3), dispatched)
    else (Accepted(pl.(claims := pl.claims[key := structureType])), None)
  }

  /** The expansion landed: take the claim's first step. */
  function DrainClaim(c: Conditions, pl: Player, x: int, y: int, key: string): (Player, Option<Entry>) {
    if key !in pl.claims then (pl, None)
    else
      var (pl1, keep) := ClaimStep(c, pl, x, y, key, pl.claims[key]);
      Drain(c, if keep then pl1 else pl1.(claims := pl1.claims - {key}))
  }

  function ClearCompletedSettle(c: Conditions, pl: Player, key: string): Player {
    var entry := EntryFor(pl.queue, key);
    if entry.None? || entry.value.kind != Settle then pl
    else pl.(manpower := Refund(c, pl.manpower, entry.value.reserved), queue := Without(pl.queue, key))
  }

  /** The settlement completed: drop its leftover entry, then queue the promised build. */
  function BuildTail(c: Conditions, pl: Player, x: int, y: int, key: string): (Player, Option<Entry>) {
    var cleared := ClearCompletedSettle(c, pl, key);
    if key !in cleared.claims || cleared.claims[key] == SettleOnly() then (cleared, None)
    else
      var structureType := cleared.claims[key];
      if HasEntry(cleared.queue, key, Build) || (NeedsPlacement(structureType) && c.online)
      then (cleared.(claims := cleared.claims - {key}), None)
      else
        var (queue, accepted) := Append(cleared.queue, ClaimEntry(c, x, y, key, Build, structureType));
        Drain(c, Player(cleared.manpower, queue, if accepted then cleared.claims - {key} else cleared.claims))
  }
}
