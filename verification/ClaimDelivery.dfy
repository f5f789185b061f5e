/** A promised structure is delivered: it is promised, queued or dispatched under its own name at every point of a
    run. */
module ClaimDelivery {
  import opened World
  import opened DevQueue
  import opened DevQueueLaws
  import opened DevQueueRuns
  import opened DevQueueDecisions
  import opened ClaimPromises

  /** What was claimed: a structure, for the tile with this key at these coordinates. */
  datatype Want = Want(key: string, x: int, y: int, structureType: string)

  /** A build of exactly this structure, at exactly this place. */
  predicate IsBuildOf(e: Entry, want: Want) {
    && e.tileKey == want.key && e.x == want.x && e.y == want.y
    && e.kind == Build && e.structureType == want.structureType
  }

  ghost predicate Queued(queue: seq<Entry>, want: Want) {
    exists e | e in queue :: IsBuildOf(e, want)
  }

  /** No build of any other structure is queued for the tile. */
  ghost predicate OnlyBuildOf(queue: seq<Entry>, want: Want) {
    forall e | e in queue && e.tileKey == want.key && e.kind == Build :: IsBuildOf(e, want)
  }

  /** The player leaves the claim alone: no new claim on the tile, no cancelling, no other build queued for it; and
      what happens on the tile happens at its coordinates. */
  predicate LeavesClaim(op: Op, want: Want) {
    match op
    case EnqueueOp(p) =>
      p.tileKey == want.key && p.kind == Build ==>
        p.x == want.x && p.y == want.y && p.structureType == want.structureType
    case CancelOp(key) => key != want.key
    case SetClaimOp(_, _, key, _, _) => key != want.key
    case DrainClaimOp(x, y, key) => key == want.key ==> x == want.x && y == want.y
    case BuildTailOp(x, y, key) => key == want.key ==> x == want.x && y == want.y
    case _ => true
  }

  /** The structure is promised or its build is queued. */
  ghost predicate InHand(pl: Player, want: Want) {
    Promised(pl, want.key, want.structureType) || Queued(pl.queue, want)
  }

  /** The step sends the build off, or leaves its placing to the client that is online. */
  ghost predicate Delivers(c: Conditions, op: Op, dispatched: Option<Entry>, want: Want) {
    || (dispatched.Some? && IsBuildOf(dispatched.value, want))
    || (op.BuildTailOp? && op.key == want.key && want.structureType in {"ORE_REFINERY", "HYDROWORKS"} && c.online)
  }

  // ---------- the queue's operations ----------

  lemma DrainDelivers(c: Conditions, pl: Player, want: Want)
    ensures var (pl', dispatched) := Drain(c, pl);
            && pl'.claims == pl.claims && (forall e | e in pl'.queue :: e in pl.queue)
            && (Queued(pl.queue, want) ==>
                  || Queued(pl'.queue, want)
                  || (dispatched.Some? && IsBuildOf(dispatched.value, want)))
  {
    var i := FirstDrainable(c, pl.manpower, pl.queue);
    if i < |pl.queue| {
      var rest := pl.queue[..i] + pl.queue[i + 1..];
      if e :| e in pl.queue && IsBuildOf(e, want) && e != pl.queue[i] {
        var j :| 0 <= j < |pl.queue| && pl.queue[j] == e;
        assert rest[if j < i then j else j - 1] == e;
      }
    }
  }

  lemma AppendKeeps(queue: seq<Entry>, e: Entry, want: Want)
    requires OnlyBuildOf(queue, want)
    requires e.tileKey == want.key && e.kind == Build ==> IsBuildOf(e, want)
    ensures OnlyBuildOf(Append(queue, e).0, want)
    ensures Queued(queue, want) ==> Queued(Append(queue, e).0, want)
    ensures Append(queue, e).1 && IsBuildOf(e, want) ==> Queued(Append(queue, e).0, want)
  {
    if Append(queue, e).1 {
      assert e in queue + [e];
    }
  }

  /** Removing a tile's garrison never removes its build. */
  lemma WithoutGarrisonKeeps(queue: seq<Entry>, at: string, want: Want)
    requires DistinctTiles(queue) && EntryFor(queue, at).Some? && EntryFor(queue, at).value.kind == Settle
    requires OnlyBuildOf(queue, want)
    ensures OnlyBuildOf(Without(queue, at), want)
    ensures Queued(queue, want) ==> Queued(Without(queue, at), want)
  {
    WithoutElements(queue, at);
    if e :| e in queue && IsBuildOf(e, want) {
      OneEntryPerTile(queue, at);
      assert e in Without(queue, at);
    }
  }

  lemma WithoutOtherKeeps(queue: seq<Entry>, at: string, want: Want)
    requires at != want.key && OnlyBuildOf(queue, want)
    ensures OnlyBuildOf(Without(queue, at), want)
    ensures Queued(queue, want) ==> Queued(Without(queue, at), want)
  {
    WithoutElements(queue, at);
  }

  lemma RefillKeepsBuilds(c: Conditions, manpower: real, queue: seq<Entry>, want: Want)
    requires Sane(c) && SoundQueue(queue) && OnlyBuildOf(queue, want)
    ensures OnlyBuildOf(Refill(c, manpower, queue).1, want)
    ensures Queued(queue, want) ==> Queued(Refill(c, manpower, queue).1, want)
  {
    var queue' := Refill(c, manpower, queue).1;
    RefillIdentity(c, manpower, queue);
    forall e | e in queue' ensures exists i :: 0 <= i < |queue| && queue'[i] == e && SameBuild(queue[i], e) {
      var i :| 0 <= i < |queue'| && queue'[i] == e;
    }
    if o :| o in queue && IsBuildOf(o, want) {
      var i :| 0 <= i < |queue| && queue[i] == o;
      assert SameBuild(queue[i], queue'[i]) && queue'[i] in queue';
    }
  }

  predicate SameBuild(a: Entry, b: Entry) {
    a.tileKey == b.tileKey && a.x == b.x && a.y == b.y && a.kind == b.kind && a.structureType == b.structureType
  }

  lemma {:induction false} RefillIdentity(c: Conditions, manpower: real, queue: seq<Entry>)
    ensures var queue' := Refill(c, manpower, queue).1;
            |queue'| == |queue| && forall i | 0 <= i < |queue| :: SameBuild(queue[i], queue'[i])
    decreases |queue|
  {
    if queue != [] {
      RefillIdentity(c, if queue[0].awaiting then Debit(manpower, c.settleCost) else manpower, queue[1..]);
    }
  }

  lemma FrontKeepsBuilds(queue: seq<Entry>, at: string, want: Want)
    requires OnlyBuildOf(queue, want)
    ensures OnlyBuildOf(MoveToFront(queue, at), want)
    ensures Queued(queue, want) ==> Queued(MoveToFront(queue, at), want)
  {
    MoveToFrontPermutes(queue, at);
    forall e ensures e in MoveToFront(queue, at) <==> e in queue {
      assert e in MoveToFront(queue, at) <==> e in multiset(MoveToFront(queue, at));
      assert e in queue <==> e in multiset(queue);
    }
  }

  // ---------- one step ----------

  /** Nothing but this structure is promised or queued for the tile. */
  ghost predicate Tidy(pl: Player, want: Want) {
    OnlyBuildOf(pl.queue, want) && (want.key in pl.claims ==> pl.claims[want.key] == want.structureType)
  }

  /** What one step owes the claim. */
  ghost predicate Served(c: Conditions, pl: Player, op: Op, pl': Player, dispatched: Option<Entry>,
                         want: Want)
  {
    && Tidy(pl', want)
    && (InHand(pl, want) ==>
          InHand(pl', want) || Delivers(c, op, dispatched, want))
  }

  /** A state that owes the claim no less, drained. */
  lemma DrainServes(c: Conditions, pl: Player, mid: Player, op: Op, want: Want)
    requires Tidy(mid, want)
    requires InHand(pl, want) ==> InHand(mid, want)
    ensures Served(c, pl, op, Drain(c, mid).0, Drain(c, mid).1, want)
  {
    DrainDelivers(c, mid, want);
  }

  lemma AcceptedAppends(c: Conditions, pl: Player, p: Payload) returns (e: Entry)
    requires Enqueue(c, pl, p).Accepted?
    ensures Enqueue(c, pl, p).player.queue == pl.queue + [e] && Enqueue(c, pl, p).player.claims == pl.claims
    ensures SameBuild(e, NewEntry(c, p, 0.0, [], false))
  {
    var queue := Enqueue(c, pl, p).player.queue;
    e := queue[|queue| - 1];
  }

  lemma EnqueueServes(c: Conditions, pl: Player, p: Payload, want: Want)
    requires LeavesClaim(EnqueueOp(p), want) && Tidy(pl, want)
    ensures var (pl', dispatched) := Apply(c, pl, EnqueueOp(p));
            Served(c, pl, EnqueueOp(p), pl', dispatched, want)
  {
    var outcome := Enqueue(c, pl, p);
    if outcome.Accepted? {
      var e := AcceptedAppends(c, pl, p);
      assert Queued(pl.queue, want) ==> Queued(pl.queue + [e], want);
      DrainServes(c, pl, outcome.player, EnqueueOp(p), want);
    }
  }

  /** A claim's step on any tile: another tile's claim is not touched, this one's stays promised or has its build
      queued. */
  lemma ClaimStepServes(c: Conditions, pl: Player, x: int, y: int, at: string, claimed: string, want: Want)
    requires OnlyBuildOf(pl.queue, want)
    requires at == want.key ==> claimed == want.structureType && x == want.x && y == want.y
    ensures var (pl1, keep) := ClaimStep(c, pl, x, y, at, claimed);
            && OnlyBuildOf(pl1.queue, want) && pl1.claims == pl.claims
            && (Queued(pl.queue, want) ==> Queued(pl1.queue, want))
            && (at == want.key && want.structureType != "" ==> keep || Queued(pl1.queue, want))
  {
    AppendKeeps(pl.queue, ClaimEntry(c, x, y, at, Build, claimed), want);
    AppendKeeps(pl.queue, ClaimEntry(c, x, y, at, Settle, ""), want);
    if e :| e in pl.queue && e.tileKey == want.key && e.kind == Build {
      assert IsBuildOf(e, want);
    }
  }

  lemma SetClaimServes(c: Conditions, pl: Player, x: int, y: int, at: string, claimed: string, owned: bool,
                       want: Want)
    requires at != want.key && Tidy(pl, want)
    ensures var op := SetClaimOp(x, y, at, claimed, owned);
            Served(c, pl, op, Apply(c, pl, op).0, Apply(c, pl, op).1, want)
  {
    ClaimStepServes(c, pl, x, y, at, claimed, want);
    var (pl1, keep) := ClaimStep(c, pl, x, y, at, claimed);
    var mid := pl1.(claims := if keep then pl.claims[at := claimed] else pl.claims - {at});
    DrainServes(c, pl, mid, SetClaimOp(x, y, at, claimed, owned), want);
  }

  lemma DrainClaimServes(c: Conditions, pl: Player, x: int, y: int, at: string, want: Want)
    requires Tidy(pl, want) && want.structureType != "" && LeavesClaim(DrainClaimOp(x, y, at), want)
    ensures var op := DrainClaimOp(x, y, at);
            Served(c, pl, op, Apply(c, pl, op).0, Apply(c, pl, op).1, want)
  {
    if at in pl.claims {
      ClaimStepServes(c, pl, x, y, at, pl.claims[at], want);
      var (pl1, keep) := ClaimStep(c, pl, x, y, at, pl.claims[at]);
      DrainServes(c, pl, if keep then pl1 else pl1.(claims := pl1.claims - {at}), DrainClaimOp(x, y, at), want);
    }
  }

  lemma ClearServes(c: Conditions, pl: Player, at: string, want: Want)
    requires DistinctTiles(pl.queue) && Tidy(pl, want)
    ensures var cleared := ClearCompletedSettle(c, pl, at);
            && Tidy(cleared, want) && cleared.claims == pl.claims
            && (InHand(pl, want) ==> InHand(cleared, want))
  {
    var entry := EntryFor(pl.queue, at);
    if entry.Some? && entry.value.kind == Settle {
      WithoutGarrisonKeeps(pl.queue, at, want);
    }
  }

  lemma BuildTailServes(c: Conditions, pl: Player, x: int, y: int, at: string, want: Want)
    requires DistinctTiles(pl.queue) && Tidy(pl, want) && LeavesClaim(BuildTailOp(x, y, at), want)
    ensures var op := BuildTailOp(x, y, at);
            Served(c, pl, op, Apply(c, pl, op).0, Apply(c, pl, op).1, want)
  {
    ClearServes(c, pl, at, want);
    var cleared := ClearCompletedSettle(c, pl, at);
    if at in cleared.claims && cleared.claims[at] != SettleOnly() {
      var claimed := cleared.claims[at];
      if e :| e in cleared.queue && e.tileKey == at && e.kind == Build && at == want.key {
        assert IsBuildOf(e, want);
      }
      var e := ClaimEntry(c, x, y, at, Build, claimed);
      AppendKeeps(cleared.queue, e, want);
      var (queue, accepted) := Append(cleared.queue, e);
      if !HasEntry(cleared.queue, at, Build) && !(NeedsPlacement(claimed) && c.online) {
        DrainServes(c, pl, Player(cleared.manpower, queue, if accepted then cleared.claims - {at} else cleared.claims),
                    BuildTailOp(x, y, at), want);
      }
    }
  }

  lemma StepServes(c: Conditions, pl: Player, op: Op, want: Want)
    requires Sane(c) && Sound(pl) && want.structureType != ""
    requires LeavesClaim(op, want) && Tidy(pl, want)
    ensures Served(c, pl, op, Apply(c, pl, op).0, Apply(c, pl, op).1, want)
  {
    match op {
      case EnqueueOp(p) => EnqueueServes(c, pl, p, want);
      case CancelOp(at) => WithoutOtherKeeps(pl.queue, at, want);
      case FrontOp(at) => FrontKeepsBuilds(pl.queue, at, want);
      case DrainOp => DrainServes(c, pl, pl, op, want);
      case RefillOp =>
        RefillKeepsBuilds(c, pl.manpower, pl.queue, want);
        DrainServes(c, pl, RefillPlayer(c, pl), op, want);
      case ReleaseOp(at) =>
        var entry := EntryFor(pl.queue, at);
        if entry.Some? && entry.value.kind == Settle {
          WithoutGarrisonKeeps(pl.queue, at, want);
        }
      case SetClaimOp(x, y, at, claimed, owned) => SetClaimServes(c, pl, x, y, at, claimed, owned, want);
      case DrainClaimOp(x, y, at) => DrainClaimServes(c, pl, x, y, at, want);
      case BuildTailOp(x, y, at) => BuildTailServes(c, pl, x, y, at, want);
    }
  }

  // ---------- runs ----------

  /** Step `i` of a run delivers the structure. */
  ghost predicate DeliveredAt(pl: Player, steps: seq<(Conditions, Op)>, i: nat, want: Want)
    requires i < |steps|
  {
    var (c, op) := steps[i];
    Delivers(c, op, Apply(c, Run(pl, steps[..i]), op).1, want)
  }

  /** A promised structure is never lost or swapped for another: over any run that leaves the claim alone it stays
      promised or queued under its own name until a step dispatches it, or leaves its placing to a client that is
      online. */
  lemma {:induction false} PromisedBuildIsDelivered(pl: Player, steps: seq<(Conditions, Op)>, want: Want)
    requires Sound(pl) && AllSane(steps) && Promised(pl, want.key, want.structureType) &&
               OnlyBuildOf(pl.queue, want)
    requires forall s | s in steps :: LeavesClaim(s.1, want)
    ensures Tidy(Run(pl, steps), want)
    ensures InHand(Run(pl, steps), want) ||
            exists i | 0 <= i < |steps| :: DeliveredAt(pl, steps, i, want)
    decreases |steps|
  {
    if steps != [] {
      var n := |steps| - 1;
      var before, last := steps[..n], steps[n];
      assert forall s | s in before :: s in steps;
      assert last in steps;
      PromisedBuildIsDelivered(pl, before, want);
      RunLedger(pl, before);
      StepServes(last.0, Run(pl, before), last.1, want);
      if InHand(Run(pl, before), want) {
        assert InHand(Run(pl, steps), want) || DeliveredAt(pl, steps, n, want);
      } else {
        var i :| 0 <= i < n && DeliveredAt(pl, before, i, want);
        assert before[..i] == steps[..i];
        assert DeliveredAt(pl, steps, i, want);
      }
    }
  }

  // ---------- how long a queued build waits ----------

  /** What a row of drains dispatches, and the state it leaves. */
  function DrainRow(pl: Player, row: seq<Conditions>): (Player, seq<Entry>)
    decreases |row|
  {
    if row == [] then (pl, [])
    else
      var (pl1, dispatched) := Drain(row[0], pl);
      var (pl2, rest) := DrainRow(pl1, row[1..]);
      (pl2, (if dispatched.Some? then [dispatched.value] else []) + rest)
  }

  /** A drain at which a development slot is free and a build may leave. */
  predicate Lets(c: Conditions, e: Entry) {
    c.slotFree && !c.underAttack(e.tileKey) && !(c.online && e.origin != Server)
  }

  /** A build with `i` entries ahead of it leaves within the first i + 1 drains that let it, whatever is ahead. */
  lemma {:induction false} BuildLeavesInTurn(pl: Player, row: seq<Conditions>, i: nat)
    requires i < |pl.queue| && pl.queue[i].kind == Build && |row| > i
    requires forall c | c in row :: Lets(c, pl.queue[i])
    ensures pl.queue[i] in DrainRow(pl, row).1
    decreases i
  {
    var c := row[0];
    var e := pl.queue[i];
    assert c in row && MayLeave(c, pl.manpower, e) && e in pl.queue;
    DrainDispatchesFirst(c, pl);
    var (pl1, dispatched) := Drain(c, pl);
    var j :| 0 <= j < |pl.queue| && pl.queue[j] == dispatched.value && pl1.queue == pl.queue[..j] + pl.queue[j + 1..]
             && forall k | 0 <= k < j :: !MayLeave(c, pl.manpower, pl.queue[k]);
    if j < i {
      assert pl1.queue[i - 1] == e;
      assert forall d | d in row[1..] :: d in row;
      BuildLeavesInTurn(pl1, row[1..], i - 1);
    }
  }
}
