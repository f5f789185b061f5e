/** Whole runs of queue and claim operations, and the manpower ledger that balances over them. */
module DevQueueRuns {
  import opened World
  import opened DevQueue
  import opened DevQueueLaws

  datatype Op =
    | EnqueueOp(payload: Payload)
    | CancelOp(key: string)
    | FrontOp(key: string)
    | DrainOp
    | RefillOp
    | ReleaseOp(key: string)
    | SetClaimOp(x: int, y: int, key: string, structureType: string, ownedFrontier: bool)
    | DrainClaimOp(x: int, y: int, key: string)
    | BuildTailOp(x: int, y: int, key: string)

  /** One operation, with the entry it dispatched, if any. */
  function Apply(c: Conditions, pl: Player, op: Op): (Player, Option<Entry>) {
    match op
    case EnqueueOp(p) =>
      var outcome := Enqueue(c, pl, p);
      if outcome.Accepted? then Drain(c, outcome.player) else (outcome.player, None)
    case CancelOp(key) => (CancelEntry(c, pl, key), None)
    case FrontOp(key) => (pl.(queue := MoveToFront(pl.queue, key)), None)
    case DrainOp => Drain(c, pl)
    case RefillOp => Drain(c, RefillPlayer(c, pl))
    case ReleaseOp(key) => (ReleaseSettle(pl, key), None)
    case SetClaimOp(x, y, key, structureType, owned) =>
      var (outcome, dispatched) := SetClaim(c, pl, x, y, key, structureType, owned);
      (outcome.player, dispatched)
    case DrainClaimOp(x, y, key) => DrainClaim(c, pl, x, y, key)
    case BuildTailOp(x, y, key) => BuildTail(c, pl, x, y, key)
  }

  function Run(pl: Player, steps: seq<(Conditions, Op)>): Player {
    if steps == [] then pl
    else
      var last := steps[|steps| - 1];
      Apply(last.0, Run(pl, steps[..|steps| - 1]), last.1).0
  }

  // ---------- the manpower ledger ----------

  lemma LedgerThenDrain(c: Conditions, pl: Player, mid: Player)
    requires Sane(c) && LedgerStep(c, pl, mid)
    ensures LedgerStep(c, pl, Drain(c, mid).0)
  {
    DrainLedger(c, mid);
  }

  lemma ClaimStepLedger(c: Conditions, pl: Player, x: int, y: int, key: string, structureType: string)
    requires Sound(pl)
    ensures var pl' := ClaimStep(c, pl, x, y, key, structureType).0;
            Sound(pl') && Total(pl') == Total(pl) && pl'.claims == pl.claims && pl'.manpower == pl.manpower
  {
    if structureType != SettleOnly() && SkipsSettled(structureType) {
      AppendSound(pl.queue, ClaimEntry(c, x, y, key, Build, structureType));
    } else {
      AppendSound(pl.queue, ClaimEntry(c, x, y, key, Settle, ""));
    }
  }

  lemma ClaimsStayCapped(claims: Claims, key: string, structureType: string)
    requires |claims| <= DEV_QUEUE_SERVER_CAP && (key in claims || |claims| < DEV_QUEUE_SERVER_CAP)
    ensures |claims[key := structureType]| <= DEV_QUEUE_SERVER_CAP
    ensures |claims - {key}| <= DEV_QUEUE_SERVER_CAP
  {
    assert claims[key := structureType].Keys == claims.Keys + {key};
    assert (claims - {key}).Keys == claims.Keys - {key};
    assert claims.Keys == if key in claims then (claims.Keys - {key}) + {key} else claims.Keys - {key};
  }

  lemma SetClaimLedger(c: Conditions, pl: Player, x: int, y: int, key: string, structureType: string, owned: bool)
    requires Sane(c) && Sound(pl)
    ensures LedgerStep(c, pl, SetClaim(c, pl, x, y, key, structureType, owned).0.player)
  {
    if key in pl.claims || |pl.claims| < DEV_QUEUE_SERVER_CAP {
      ClaimsStayCapped(pl.claims, key, structureType);
      if owned {
        ClaimStepLedger(c, pl, x, y, key, structureType);
        var (pl1, keep) := ClaimStep(c, pl, x, y, key, structureType);
        LedgerThenDrain(c, pl, pl1.(claims := if keep then pl.claims[key := structureType] else pl.claims - {key}));
      }
    }
  }

  lemma DrainClaimLedger(c: Conditions, pl: Player, x: int, y: int, key: string)
    requires Sane(c) && Sound(pl)
    ensures LedgerStep(c, pl, DrainClaim(c, pl, x, y, key).0)
  {
    if key in pl.claims {
      ClaimsStayCapped(pl.claims, key, "");
      ClaimStepLedger(c, pl, x, y, key, pl.claims[key]);
      var (pl1, keep) := ClaimStep(c, pl, x, y, key, pl.claims[key]);
      LedgerThenDrain(c, pl, if keep then pl1 else pl1.(claims := pl1.claims - {key}));
    }
  }

  lemma ClearCompletedLedger(c: Conditions, pl: Player, key: string)
    requires Sane(c) && Sound(pl)
    ensures LedgerStep(c, pl, ClearCompletedSettle(c, pl, key))
  {
    EntryForFinds(pl.queue, key);
    RemovalLedger(c, pl, key);
  }

  lemma BuildTailLedger(c: Conditions, pl: Player, x: int, y: int, key: string)
    requires Sane(c) && Sound(pl)
    ensures LedgerStep(c, pl, BuildTail(c, pl, x, y, key).0)
  {
    ClearCompletedLedger(c, pl, key);
    var cleared := ClearCompletedSettle(c, pl, key);
    if key in cleared.claims && cleared.claims[key] != SettleOnly() {
      ClaimsStayCapped(cleared.claims, key, "");
      var e := ClaimEntry(c, x, y, key, Build, cleared.claims[key]);
      AppendSound(cleared.queue, e);
      var (queue, accepted) := Append(cleared.queue, e);
      LedgerThenDrain(c, pl, Player(cleared.manpower, queue,
                                    if accepted then cleared.claims - {key} else cleared.claims));
    }
  }

  lemma ApplyLedger(c: Conditions, pl: Player, op: Op)
    requires Sane(c) && Sound(pl)
    ensures LedgerStep(c, pl, Apply(c, pl, op).0)
  {
    match op {
      case EnqueueOp(p) =>
        EnqueueLedger(c, pl, p);
        if Enqueue(c, pl, p).Accepted? { LedgerThenDrain(c, pl, Enqueue(c, pl, p).player); }
      case CancelOp(key) => RemovalLedger(c, pl, key);
      case FrontOp(key) => MoveToFrontSound(pl.queue, key); MoveToFrontPermutes(pl.queue, key);
      case DrainOp => DrainLedger(c, pl);
      case RefillOp => RefillPlayerLedger(c, pl); LedgerThenDrain(c, pl, RefillPlayer(c, pl));
      case ReleaseOp(key) => ReleaseLedger(pl, key);
      case SetClaimOp(x, y, key, structureType, owned) => SetClaimLedger(c, pl, x, y, key, structureType, owned);
      case DrainClaimOp(x, y, key) => DrainClaimLedger(c, pl, x, y, key);
      case BuildTailOp(x, y, key) => BuildTailLedger(c, pl, x, y, key);
    }
  }

  ghost predicate AllSane(steps: seq<(Conditions, Op)>) {
    forall s | s in steps :: Sane(s.0)
  }

  /** No run of operations mints manpower, whatever the world does between them; and while the ceiling stays at or
      above what the player owned at the start, no run loses any. */
  lemma {:induction false} RunLedger(pl: Player, steps: seq<(Conditions, Op)>)
    requires Sound(pl) && AllSane(steps)
    ensures Sound(Run(pl, steps)) && Total(Run(pl, steps)) <= Total(pl)
    ensures (forall s | s in steps :: Total(pl) <= Ceiling(s.0)) ==> Total(Run(pl, steps)) == Total(pl)
    decreases |steps|
  {
    if steps != [] {
      var before, last := steps[..|steps| - 1], steps[|steps| - 1];
      assert forall s | s in before :: s in steps;
      assert last in steps;
      RunLedger(pl, before);
      ApplyLedger(last.0, Run(pl, before), last.1);
    }
  }
}
