/** What each queue and claim operation does, command by command, in terms of entries, wallet and claims alone. */
module DevQueueTerms {
  import opened World
  import opened DevQueue
  import opened DevQueueLaws
  import opened DevQueueDecisions
  import opened DevQueueRuns

  // ---------- the wallet ----------

  /** The most a refund fills the wallet to: the cap and what is left of a one-time overflow. */
  function WalletLimit(c: Conditions): real {
    if c.overflow > 0.0 then c.cap + c.overflow else c.cap
  }

  /** A hold goes back into the wallet as far as its limit; an empty hold changes nothing. */
  predicate HandedBack(c: Conditions, was: real, hold: real, now: real) {
    if hold == 0.0 then now == was
    else if was + hold <= WalletLimit(c) then now == was + hold
    else now == WalletLimit(c)
  }

  // ---------- the queue ----------

  predicate StandsAt(queue: seq<Entry>, i: int, key: string) {
    0 <= i < |queue| && queue[i].tileKey == key
  }

  predicate Absent(queue: seq<Entry>, key: string) {
    forall e | e in queue :: e.tileKey != key
  }

  function WithoutIndex(queue: seq<Entry>, i: nat): seq<Entry>
    requires i < |queue|
  {
    queue[..i] + queue[i + 1..]
  }

  /** The cancelled entry is gone, its hold handed back. */
  ghost predicate Cancelled(c: Conditions, pl: Player, key: string, pl': Player) {
    && pl'.claims == pl.claims
    && (Absent(pl.queue, key) ==> pl' == pl)
    && forall i | StandsAt(pl.queue, i, key) ::
         pl'.queue == WithoutIndex(pl.queue, i) && HandedBack(c, pl.manpower, pl.queue[i].reserved, pl'.manpower)
  }

  /** The tile's entry stands first, the others follow as they were. */
  ghost predicate Fronted(pl: Player, key: string, pl': Player) {
    && pl'.claims == pl.claims && pl'.manpower == pl.manpower
    && (Absent(pl.queue, key) ==> pl'.queue == pl.queue)
    && forall i | StandsAt(pl.queue, i, key) :: pl'.queue == [pl.queue[i]] + WithoutIndex(pl.queue, i)
  }

  /** The entry at `i` is the first that may leave, and leaves: a garrison with its hold handed back in full, anything
      else with its hold handed back up to the wallet's limit. */
  ghost predicate Leaves(c: Conditions, pl: Player, i: int, pl': Player) {
    && 0 <= i < |pl.queue| && MayLeave(c, pl.manpower, pl.queue[i])
    && (forall j | 0 <= j < i :: !MayLeave(c, pl.manpower, pl.queue[j]))
    && pl'.queue == WithoutIndex(pl.queue, i)
    && var e := pl.queue[i];
       if e.kind == Settle && e.reserved != 0.0 then pl'.manpower == pl.manpower + e.reserved
       else HandedBack(c, pl.manpower, e.reserved, pl'.manpower)
  }

  /** One drain: with a slot free, the first entry that may leave does; otherwise nothing happens. */
  ghost predicate Drained(c: Conditions, pl: Player, pl': Player, dispatched: Option<Entry>) {
    && pl'.claims == pl.claims
    && match dispatched
       case None => pl' == pl && (!c.slotFree || forall e | e in pl.queue :: !MayLeave(c, pl.manpower, e))
       case Some(e) => c.slotFree && exists i :: Leaves(c, pl, i, pl') && pl.queue[i] == e
  }

  /** How many of the first `n` entries wait for manpower. */
  function WaitingAmong(queue: seq<Entry>, n: nat): nat
    requires n <= |queue|
  {
    if n == 0 then 0 else WaitingAmong(queue, n - 1) + if queue[n - 1].awaiting then 1 else 0
  }

  /** The first `n` waiting garrisons hold the cost, and nothing else in the queue changes. */
  ghost predicate FirstReserved(queue: seq<Entry>, queue': seq<Entry>, cost: real, n: nat) {
    && |queue'| == |queue|
    && forall i | 0 <= i < |queue| ::
         queue'[i] == if queue[i].awaiting && WaitingAmong(queue, i) < n
                      then queue[i].(reserved := cost, awaiting := false) else queue[i]
  }

  /** The first `n` waiting garrisons are paid for out of the wallet, and no other could be. */
  ghost predicate RefilledBy(c: Conditions, pl: Player, pl': Player, n: nat) {
    && FirstReserved(pl.queue, pl'.queue, c.settleCost, n)
    && pl'.manpower == pl.manpower - Price(n, c.settleCost) >= 0.0
    && n <= WaitingAmong(pl.queue, |pl.queue|)
    && (n == WaitingAmong(pl.queue, |pl.queue|) || pl'.manpower < c.settleCost)
  }

  ghost predicate Refilled(c: Conditions, pl: Player, pl': Player) {
    pl'.claims == pl.claims && exists n :: RefilledBy(c, pl, pl', n)
  }

  /** The garrison of a tile that holds manpower or waits for it is gone, its hold handed back in full. */
  ghost predicate Released(pl: Player, key: string, pl': Player) {
    && pl'.claims == pl.claims
    && (Absent(pl.queue, key) ==> pl' == pl)
    && forall i | StandsAt(pl.queue, i, key) ::
         var e := pl.queue[i];
         if e.kind == Settle && (e.reserved != 0.0 || e.awaiting)
         then pl'.queue == WithoutIndex(pl.queue, i) && pl'.manpower == pl.manpower + e.reserved
         else pl' == pl
  }

  // ---------- enqueue ----------

  /** The entry an accepted command appends: where and what the command says, as of now. A known build holds its
      price and its slots, a garrison its cost if the wallet has it and else waits, a removal holds nothing. */
  ghost predicate EntryOf(c: Conditions, pl: Player, p: Payload, e: Entry) {
    && e.tileKey == p.tileKey && e.x == p.x && e.y == p.y && e.kind == p.kind && e.structureType == p.structureType
    && e.queuedAt == c.now && e.origin == Unset
    && (p.kind == Settle ==>
          && e.requirements == [] && e.awaiting == (pl.manpower < c.settleCost)
          && e.reserved == if e.awaiting then 0.0 else c.settleCost)
    && (p.kind == Build ==>
          && !e.awaiting
          && if p.structureType == "" || p.structureType == "REMOVE_STRUCTURE" then
              e.reserved == 0.0 && e.requirements == []
             else c.plan(p.structureType, p.x, p.y, pl.queue) == Some(Plan(e.reserved, e.requirements)))
  }

  /** An accepted entry is appended and its hold comes out of the wallet. */
  ghost predicate Appended(c: Conditions, pl: Player, p: Payload, pl': Player) {
    && pl'.claims == pl.claims && |pl'.queue| == |pl.queue| + 1 && pl'.queue[..|pl.queue|] == pl.queue
    && EntryOf(c, pl, p, pl'.queue[|pl.queue|])
    && pl'.manpower == pl.manpower - pl'.queue[|pl.queue|].reserved
  }

  /** What the command holds at most: the price of a known build that fits, or the cost of a garrison. */
  ghost function HoldOf(c: Conditions, pl: Player, p: Payload): real {
    if p.kind == Settle then if pl.manpower < c.settleCost then 0.0 else c.settleCost
    else if p.structureType == "" || p.structureType == "REMOVE_STRUCTURE" then 0.0
    else
      match c.plan(p.structureType, p.x, p.y, pl.queue)
      case None => 0.0
      case Some(plan) => if Affordable(c, pl, p, plan) then plan.cost else 0.0
  }

  /** A refusal changes nothing, but a hold taken before the queue was found full comes back only up to the limit. */
  ghost predicate TurnedAway(c: Conditions, pl: Player, p: Payload, pl': Player) {
    && pl'.claims == pl.claims && pl'.queue == pl.queue
    && if Absent(pl.queue, p.tileKey) && |pl.queue| >= 20
       then HandedBack(c, pl.manpower - HoldOf(c, pl, p), HoldOf(c, pl, p), pl'.manpower)
       else pl'.manpower == pl.manpower
  }

  ghost predicate Enqueued(c: Conditions, pl: Player, p: Payload, pl': Player, dispatched: Option<Entry>) {
    if Admissible(c, pl, p) then exists mid :: Appended(c, pl, p, mid) && Drained(c, mid, pl', dispatched)
    else TurnedAway(c, pl, p, pl') && dispatched == None
  }

  // ---------- claims ----------

  predicate InQueue(queue: seq<Entry>, key: string, kind: Kind) {
    exists e | e in queue :: e.tileKey == key && e.kind == kind
  }

  /** A claim's step is appended unless the tile has an entry or twenty are queued. */
  predicate StepAppended(queue: seq<Entry>, step: Entry, queue': seq<Entry>) {
    queue' == if Absent(queue, step.tileKey) && |queue| < 20 then queue + [step] else queue
  }

  predicate Siege(structureType: string) {
    structureType in {"SIEGE_BATTERY", "SIEGE_TOWER", "DREAD_TOWER"}
  }

  predicate Overlay(structureType: string) {
    structureType in {"ORE_REFINERY", "HYDROWORKS"}
  }

  /** A claim's step, at the claimed tile, holding nothing: a build is the server's to dispatch unless the player has to
      place it. */
  function StepEntry(c: Conditions, x: int, y: int, key: string, kind: Kind, structureType: string): Entry {
    Entry(key, x, y, kind, structureType, c.now, 0.0, [], false,
          if kind == Settle then Unset else if Overlay(structureType) then Client else Server)
  }

  /** Siege structures are built on the spot; everything else needs the tile settled first. */
  function FirstStep(c: Conditions, x: int, y: int, key: string, structureType: string): Entry {
    if Siege(structureType) then StepEntry(c, x, y, key, Build, structureType)
    else StepEntry(c, x, y, key, Settle, "")
  }

  /** The first step is taken on an owned frontier tile; the promise stays unless the step was all there was to it. */
  ghost predicate StepTaken(c: Conditions, pl: Player, x: int, y: int, key: string, structureType: string,
                            mid: Player) {
    var step := FirstStep(c, x, y, key, structureType);
    && mid.manpower == pl.manpower && StepAppended(pl.queue, step, mid.queue)
    && (mid.claims == if InQueue(mid.queue, key, step.kind) && (Siege(structureType) || structureType == "")
                      then pl.claims - {key} else pl.claims[key := structureType])
  }

  ghost predicate ClaimSet(c: Conditions, pl: Player, x: int, y: int, key: string, structureType: string,
                           ownedFrontier: bool, pl': Player, dispatched: Option<Entry>) {
    if key !in pl.claims && |pl.claims| >= 20 then pl' == pl && dispatched == None
    else if !ownedFrontier then pl' == pl.(claims := pl.claims[key := structureType]) && dispatched == None
    else exists mid :: StepTaken(c, pl, x, y, key, structureType, mid) && Drained(c, mid, pl', dispatched)
  }

  ghost predicate ClaimLanded(c: Conditions, pl: Player, x: int, y: int, key: string, pl': Player,
                              dispatched: Option<Entry>) {
    if key !in pl.claims then pl' == pl && dispatched == None
    else exists mid :: StepTaken(c, pl, x, y, key, pl.claims[key], mid) && Drained(c, mid, pl', dispatched)
  }

  /** The tile's garrison entry is gone, its hold handed back. */
  ghost predicate GarrisonCleared(c: Conditions, pl: Player, key: string, pl': Player) {
    && pl'.claims == pl.claims
    && (Absent(pl.queue, key) ==> pl' == pl)
    && forall i | StandsAt(pl.queue, i, key) ::
         if pl.queue[i].kind == Settle
         then pl'.queue == WithoutIndex(pl.queue, i) && HandedBack(c, pl.manpower, pl.queue[i].reserved, pl'.manpower)
         else pl' == pl
  }

  /** The last step is queued, and then the promise is over. */
  ghost predicate TailQueued(c: Conditions, pl: Player, x: int, y: int, key: string, structureType: string,
                             mid: Player) {
    && mid.manpower == pl.manpower
    && StepAppended(pl.queue, StepEntry(c, x, y, key, Build, structureType), mid.queue)
    && mid.claims == if InQueue(mid.queue, key, Build) then pl.claims - {key} else pl.claims
  }

  /** What follows a settlement once its garrison entry is cleared. A build already queued, or left to an online
      player to place, ends the promise too. */
  ghost predicate TailTaken(c: Conditions, pl: Player, x: int, y: int, key: string, pl': Player,
                            dispatched: Option<Entry>) {
    if key !in pl.claims || pl.claims[key] == "" then pl' == pl && dispatched == None
    else if InQueue(pl.queue, key, Build) || (Overlay(pl.claims[key]) && c.online)
    then pl' == pl.(claims := pl.claims - {key}) && dispatched == None
    else exists mid :: TailQueued(c, pl, x, y, key, pl.claims[key], mid) && Drained(c, mid, pl', dispatched)
  }

  ghost predicate SettlementDone(c: Conditions, pl: Player, x: int, y: int, key: string, pl': Player,
                                 dispatched: Option<Entry>) {
    exists cleared :: GarrisonCleared(c, pl, key, cleared) && TailTaken(c, cleared, x, y, key, pl', dispatched)
  }

  // ---------- one step ----------

  ghost predicate StepDone(c: Conditions, pl: Player, op: Op, pl': Player, dispatched: Option<Entry>) {
    match op
    case EnqueueOp(p) => Enqueued(c, pl, p, pl', dispatched)
    case CancelOp(key) => Cancelled(c, pl, key, pl') && dispatched == None
    case FrontOp(key) => Fronted(pl, key, pl') && dispatched == None
    case DrainOp => Drained(c, pl, pl', dispatched)
    case RefillOp => exists mid :: Refilled(c, pl, mid) && Drained(c, mid, pl', dispatched)
    case ReleaseOp(key) => Released(pl, key, pl') && dispatched == None
    case SetClaimOp(x, y, key, structureType, owned) =>
      ClaimSet(c, pl, x, y, key, structureType, owned, pl', dispatched)
    case DrainClaimOp(x, y, key) => ClaimLanded(c, pl, x, y, key, pl', dispatched)
    case BuildTailOp(x, y, key) => SettlementDone(c, pl, x, y, key, pl', dispatched)
  }

  // ---------- proofs ----------

  lemma EntryForStands(queue: seq<Entry>, key: string)
    requires DistinctTiles(queue)
    ensures Absent(queue, key) <==> EntryFor(queue, key).None?
    ensures forall i | StandsAt(queue, i, key) ::
              EntryFor(queue, key) == Some(queue[i]) && Without(queue, key) == WithoutIndex(queue, i)
  {
    EntryForFinds(queue, key);
    forall i | StandsAt(queue, i, key)
      ensures EntryFor(queue, key) == Some(queue[i]) && Without(queue, key) == WithoutIndex(queue, i)
    {
      RemoveAtIsWithout(queue, i);
      assert queue[i] in queue;
      var e := EntryFor(queue, key).value;
      var j :| 0 <= j < |queue| && queue[j] == e;
      assert i == j;
    }
  }

  lemma RefundHandsBack(c: Conditions, was: real, hold: real)
    ensures HandedBack(c, was, hold, Refund(c, was, hold))
  {}

  lemma CancelInTerms(c: Conditions, pl: Player, key: string)
    requires DistinctTiles(pl.queue)
    ensures Cancelled(c, pl, key, CancelEntry(c, pl, key))
  {
    EntryForStands(pl.queue, key);
    EntryForFinds(pl.queue, key);
    if Absent(pl.queue, key) {
      WithoutMissing(pl.queue, key);
    }
  }

  lemma AbsentStandsNowhere(queue: seq<Entry>, key: string)
    ensures Absent(queue, key) <==> forall i :: !StandsAt(queue, i, key)
  {
    forall i | StandsAt(queue, i, key) ensures !Absent(queue, key) {
      assert queue[i] in queue;
    }
    if e :| e in queue && e.tileKey == key {
      var i :| 0 <= i < |queue| && queue[i] == e;
      assert StandsAt(queue, i, key);
    }
  }

  lemma FrontInTerms(pl: Player, key: string)
    requires DistinctTiles(pl.queue)
    ensures Fronted(pl, key, pl.(queue := MoveToFront(pl.queue, key)))
  {
    var queue, i := pl.queue, IndexOf(pl.queue, key);
    if i == |queue| {
      IndexOfMisses(queue, key);
      AbsentStandsNowhere(queue, key);
    } else {
      assert queue[i] in queue;
      forall j | StandsAt(queue, j, key) ensures MoveToFront(queue, key) == [queue[j]] + WithoutIndex(queue, j) {
        assert i == j;
        assert i == 0 ==> queue == [queue[0]] + (queue[..0] + queue[1..]);
        assert [queue[i]] + queue[..i] + queue[i + 1..] == [queue[i]] + (queue[..i] + queue[i + 1..]);
      }
    }
  }

  lemma DrainInTerms(c: Conditions, pl: Player)
    requires pl.manpower >= 0.0
    ensures Drained(c, pl, Drain(c, pl).0, Drain(c, pl).1)
  {
    var (pl', dispatched) := Drain(c, pl);
    DrainDispatchesFirst(c, pl);
    var i := FirstDrainable(c, pl.manpower, pl.queue);
    if dispatched.Some? {
      forall j | 0 <= j < i ensures !MayLeave(c, pl.manpower, pl.queue[j]) {
        NothingEarlierLeaves(c, pl.manpower, pl.queue, j);
      }
      assert Leaves(c, pl, i, pl');
    }
  }

  lemma ReleaseInTerms(pl: Player, key: string)
    requires DistinctTiles(pl.queue) && pl.manpower >= 0.0
    ensures Released(pl, key, ReleaseSettle(pl, key))
  {
    EntryForStands(pl.queue, key);
  }

  lemma ClearInTerms(c: Conditions, pl: Player, key: string)
    requires DistinctTiles(pl.queue)
    ensures GarrisonCleared(c, pl, key, ClearCompletedSettle(c, pl, key))
  {
    EntryForStands(pl.queue, key);
  }

  // ---------- enqueue, refill, claims ----------

  lemma AdmissibleIsAccepted(c: Conditions, pl: Player, p: Payload)
    requires Sane(c) && pl.manpower >= 0.0 && Admissible(c, pl, p)
    ensures Enqueue(c, pl, p).Accepted? && Appended(c, pl, p, Enqueue(c, pl, p).player)
  {
    EnqueueAcceptedIff(c, pl, p);
  }

  lemma InadmissibleIsTurnedAway(c: Conditions, pl: Player, p: Payload)
    requires Sane(c) && pl.manpower >= 0.0 && !Admissible(c, pl, p)
    ensures Enqueue(c, pl, p).Rejected? && TurnedAway(c, pl, p, Enqueue(c, pl, p).player)
  {
    EnqueueAcceptedIff(c, pl, p);
    var plan := c.plan(p.structureType, p.x, p.y, pl.queue);
    if plan.Some? {
      ShortfallIff(c, p, pl.queue, plan.value.requirements);
    }
  }

  lemma EnqueueInTerms(c: Conditions, pl: Player, p: Payload)
    requires Sane(c) && pl.manpower >= 0.0
    ensures Enqueued(c, pl, p, Apply(c, pl, EnqueueOp(p)).0, Apply(c, pl, EnqueueOp(p)).1)
  {
    if Admissible(c, pl, p) {
      AdmissibleIsAccepted(c, pl, p);
      var mid := Enqueue(c, pl, p).player;
      assert mid.manpower >= 0.0;
      DrainInTerms(c, mid);
    } else {
      InadmissibleIsTurnedAway(c, pl, p);
    }
  }

  lemma StepInTerms(c: Conditions, queue: seq<Entry>, x: int, y: int, key: string, kind: Kind, structureType: string)
    ensures var (queue', enqueued) := EnqueueStep(c, queue, x, y, key, kind, structureType);
            && StepAppended(queue, StepEntry(c, x, y, key, kind, structureType), queue')
            && (enqueued <==> InQueue(queue', key, kind))
  {
    ClaimEntryQueued(c, queue, x, y, key, kind, structureType);
  }

  lemma ClaimStepInTerms(c: Conditions, pl: Player, x: int, y: int, key: string, structureType: string, mid: Player)
    requires var (pl1, keep) := ClaimStep(c, pl, x, y, key, structureType);
             mid == pl1.(claims := if keep then pl.claims[key := structureType] else pl.claims - {key})
    ensures StepTaken(c, pl, x, y, key, structureType, mid)
  {
    var step := FirstStep(c, x, y, key, structureType);
    StepInTerms(c, pl.queue, x, y, key, step.kind, step.structureType);
  }

  lemma SetClaimInTerms(c: Conditions, pl: Player, x: int, y: int, key: string, structureType: string, owned: bool)
    requires pl.manpower >= 0.0
    ensures var (outcome, dispatched) := SetClaim(c, pl, x, y, key, structureType, owned);
            ClaimSet(c, pl, x, y, key, structureType, owned, outcome.player, dispatched)
  {
    var (pl1, keep) := ClaimStep(c, pl, x, y, key, structureType);
    var mid := pl1.(claims := if keep then pl.claims[key := structureType] else pl.claims - {key});
    ClaimStepInTerms(c, pl, x, y, key, structureType, mid);
    DrainInTerms(c, mid);
  }

  lemma DrainClaimInTerms(c: Conditions, pl: Player, x: int, y: int, key: string)
    requires pl.manpower >= 0.0
    ensures ClaimLanded(c, pl, x, y, key, DrainClaim(c, pl, x, y, key).0, DrainClaim(c, pl, x, y, key).1)
  {
    if key in pl.claims {
      var (pl1, keep) := ClaimStep(c, pl, x, y, key, pl.claims[key]);
      var mid := if keep then pl1 else pl1.(claims := pl1.claims - {key});
      assert pl.claims[key := pl.claims[key]] == pl.claims;
      ClaimStepInTerms(c, pl, x, y, key, pl.claims[key], mid);
      DrainInTerms(c, mid);
    }
  }

  lemma TailInTerms(c: Conditions, pl: Player, x: int, y: int, key: string, structureType: string, mid: Player)
    requires !HasEntry(pl.queue, key, Build)
    requires var (queue, accepted) := Append(pl.queue, ClaimEntry(c, x, y, key, Build, structureType));
             mid == Player(pl.manpower, queue, if accepted then pl.claims - {key} else pl.claims)
    ensures TailQueued(c, pl, x, y, key, structureType, mid)
  {
    StepInTerms(c, pl.queue, x, y, key, Build, structureType);
  }

  lemma BuildTailInTerms(c: Conditions, pl: Player, x: int, y: int, key: string)
    requires Sane(c) && Sound(pl)
    ensures SettlementDone(c, pl, x, y, key, BuildTail(c, pl, x, y, key).0, BuildTail(c, pl, x, y, key).1)
  {
    var cleared := ClearCompletedSettle(c, pl, key);
    ClearInTerms(c, pl, key);
    ClearCompletedLedger(c, pl, key);
    if key in cleared.claims && cleared.claims[key] != "" && !HasEntry(cleared.queue, key, Build) &&
       !(Overlay(cleared.claims[key]) && c.online)
    {
      var structureType := cleared.claims[key];
      var (queue, accepted) := Append(cleared.queue, ClaimEntry(c, x, y, key, Build, structureType));
      var mid := Player(cleared.manpower, queue, if accepted then cleared.claims - {key} else cleared.claims);
      TailInTerms(c, cleared, x, y, key, structureType, mid);
      DrainInTerms(c, mid);
    }
    assert TailTaken(c, cleared, x, y, key, BuildTail(c, pl, x, y, key).0, BuildTail(c, pl, x, y, key).1);
  }

  lemma {:induction false} WaitingTail(queue: seq<Entry>, n: nat)
    requires n < |queue|
    ensures WaitingAmong(queue, n + 1) == WaitingAmong(queue[1..], n) + if queue[0].awaiting then 1 else 0
  {
    if n > 0 {
      WaitingTail(queue, n - 1);
    }
  }

  lemma ReservedShifts(queue: seq<Entry>, rest: seq<Entry>, cost: real, k: nat, n: nat, queue': seq<Entry>)
    requires queue != [] && FirstReserved(queue[1..], rest, cost, k)
    requires n == if queue[0].awaiting then k + 1 else k
    requires queue' == [if queue[0].awaiting then queue[0].(reserved := cost, awaiting := false) else queue[0]] + rest
    ensures FirstReserved(queue, queue', cost, n)
  {
    forall i | 0 <= i < |queue|
      ensures queue'[i] == if queue[i].awaiting && WaitingAmong(queue, i) < n
                           then queue[i].(reserved := cost, awaiting := false) else queue[i]
    {
      if i > 0 {
        WaitingTail(queue, i - 1);
        assert queue[1..][i - 1] == queue[i] && queue'[i] == rest[i - 1];
      }
    }
  }

  /** The refill of a queue from that of its tail. */
  lemma RefillShifts(c: Conditions, pl: Player, left: real, m: real, rest: seq<Entry>, k: nat, n: nat, pl': Player)
    requires c.settleCost >= 0.0 && pl.queue != []
    requires RefilledBy(c, Player(left, pl.queue[1..], pl.claims), Player(m, rest, pl.claims), k)
    requires n == if pl.queue[0].awaiting then k + 1 else k
    requires left == if pl.queue[0].awaiting then pl.manpower - c.settleCost else pl.manpower
    requires pl'.manpower == m && FirstReserved(pl.queue, pl'.queue, c.settleCost, n)
    ensures RefilledBy(c, pl, pl', n)
  {
    WaitingTail(pl.queue, |pl.queue| - 1);
  }

  lemma {:induction false} RefillCounts(c: Conditions, pl: Player) returns (n: nat)
    requires c.settleCost >= 0.0 && pl.manpower >= 0.0
    ensures RefilledBy(c, pl, RefillPlayer(c, pl), n)
    decreases |pl.queue|
  {
    var queue, cost := pl.queue, c.settleCost;
    if queue == [] {
      n := 0;
    } else if queue[0].awaiting && pl.manpower < cost {
      n := 0;
    } else {
      var left := if queue[0].awaiting then pl.manpower - cost else pl.manpower;
      var (m, rest) := Refill(c, left, queue[1..]);
      var k := RefillCounts(c, Player(left, queue[1..], pl.claims));
      n := if queue[0].awaiting then k + 1 else k;
      ReservedShifts(queue, rest, cost, k, n, RefillPlayer(c, pl).queue);
      RefillShifts(c, pl, left, m, rest, k, n, RefillPlayer(c, pl));
    }
  }

  lemma RefillInTerms(c: Conditions, pl: Player)
    requires Sane(c) && pl.manpower >= 0.0
    ensures Refilled(c, pl, RefillPlayer(c, pl)) && RefillPlayer(c, pl).manpower >= 0.0
  {
    var n := RefillCounts(c, pl);
  }

  /** Every operation of a run does what the command says. */
  lemma ApplyInTerms(c: Conditions, pl: Player, op: Op)
    requires Sane(c) && Sound(pl)
    ensures StepDone(c, pl, op, Apply(c, pl, op).0, Apply(c, pl, op).1)
  {
    match op {
      case EnqueueOp(p) => EnqueueInTerms(c, pl, p);
      case CancelOp(key) => CancelInTerms(c, pl, key);
      case FrontOp(key) => FrontInTerms(pl, key);
      case DrainOp => DrainInTerms(c, pl);
      case RefillOp => RefillInTerms(c, pl); DrainInTerms(c, RefillPlayer(c, pl));
      case ReleaseOp(key) => ReleaseInTerms(pl, key);
      case SetClaimOp(x, y, key, structureType, owned) => SetClaimInTerms(c, pl, x, y, key, structureType, owned);
      case DrainClaimOp(x, y, key) => DrainClaimInTerms(c, pl, x, y, key);
      case BuildTailOp(x, y, key) => BuildTailInTerms(c, pl, x, y, key);
    }
  }
}
