/** A claimed structure stays promised until its build is queued, or is the online player's own to place. */
module ClaimPromises {
  import opened World
  import opened DevQueue
  import opened DevQueueLaws
  import opened DevQueueRuns

  /** The promise of a structure for a tile is on the table. */
  predicate Promised(pl: Player, key: string, structureType: string) {
    key in pl.claims && pl.claims[key] == structureType && structureType != SettleOnly()
  }

  /** A build for the tile is queued, or this very operation has just dispatched it. */
  predicate BuildUnderWay(pl: Player, dispatched: Option<Entry>, key: string) {
    HasEntry(pl.queue, key, Build) ||
    (dispatched.Some? && dispatched.value.tileKey == key && dispatched.value.kind == Build)
  }

  /** What may end a promise. */
  predicate Honoured(c: Conditions, pl: Player, dispatched: Option<Entry>, op: Op, key: string, structureType: string) {
    BuildUnderWay(pl, dispatched, key) ||
        (op.BuildTailOp? && op.key == key && NeedsPlacement(structureType) && c.online)
  }

  predicate SetsClaim(op: Op, key: string) {
    op.SetClaimOp? && op.key == key
  }

  /** A drain takes at most the entry it dispatches, so a queued build is still queued or is the one on its way. */
  lemma DrainKeepsBuild(c: Conditions, pl: Player, key: string)
    requires HasEntry(pl.queue, key, Build)
    ensures BuildUnderWay(Drain(c, pl).0, Drain(c, pl).1, key)
  {
    var e :| e in pl.queue && e.tileKey == key && e.kind == Build;
    var i := FirstDrainable(c, pl.manpower, pl.queue);
    if i < |pl.queue| && pl.queue[i] != e {
      var j :| 0 <= j < |pl.queue| && pl.queue[j] == e;
      var rest := pl.queue[..i] + pl.queue[i + 1..];
      assert e in rest by {
        assert rest[if j < i then j else j - 1] == e;
      }
    }
  }

  lemma AppendHasEntry(queue: seq<Entry>, e: Entry)
    ensures Append(queue, e).1 ==> HasEntry(Append(queue, e).0, e.tileKey, e.kind)
    ensures forall key, kind :: HasEntry(queue, key, kind) ==> HasEntry(Append(queue, e).0, key, kind)
  {
    if Append(queue, e).1 {
      assert e in queue + [e];
    }
  }

  /** A step that gives its promise up has a build in the queue to show for it. */
  lemma ClaimStepPromises(c: Conditions, pl: Player, x: int, y: int, key: string, structureType: string)
    requires structureType != SettleOnly()
    ensures var (pl1, keep) := ClaimStep(c, pl, x, y, key, structureType);
            pl1.claims == pl.claims && (keep || HasEntry(pl1.queue, key, Build))
  {
    AppendHasEntry(pl.queue, ClaimEntry(c, x, y, key, Build, structureType));
  }

  lemma DrainLeavesClaims(c: Conditions, pl: Player)
    ensures Drain(c, pl).0.claims == pl.claims
  {}

  /** Setting a claim for a structure leaves it promised, or with its build already under way. */
  lemma SetClaimPromises(c: Conditions, pl: Player, x: int, y: int, key: string, structureType: string, owned: bool)
    requires structureType != SettleOnly()
    ensures var (outcome, dispatched) := SetClaim(c, pl, x, y, key, structureType, owned);
            outcome.Accepted? ==>
              Promised(outcome.player, key, structureType) || BuildUnderWay(outcome.player, dispatched, key)
    ensures SetClaim(c, pl, x, y, key, structureType, owned).0.Rejected? <==>
              key !in pl.claims && |pl.claims| >= DEV_QUEUE_SERVER_CAP
  {
    if owned {
      ClaimStepPromises(c, pl, x, y, key, structureType);
      var (pl1, keep) := ClaimStep(c, pl, x, y, key, structureType);
      var pl2 := pl1.(claims := if keep then pl.claims[key := structureType] else pl.claims - {key});
      DrainLeavesClaims(c, pl2);
      if !keep {
        DrainKeepsBuild(c, pl2, key);
      }
    }
  }

  lemma DrainClaimKeepsPromise(c: Conditions, pl: Player, x: int, y: int, at: string, key: string,
                               structureType: string)
    requires Promised(pl, key, structureType)
    ensures var (pl', dispatched) := DrainClaim(c, pl, x, y, at);
            Promised(pl', key, structureType) || BuildUnderWay(pl', dispatched, key)
  {
    if at == key {
      AppendHasEntry(pl.queue, ClaimEntry(c, x, y, key, Build, structureType));
      var (pl1, keep) := ClaimStep(c, pl, x, y, key, structureType);
      if !keep {
        DrainKeepsBuild(c, pl1.(claims := pl1.claims - {key}), key);
      }
    }
  }

  lemma BuildTailKeepsPromise(c: Conditions, pl: Player, x: int, y: int, at: string, key: string, structureType: string)
    requires Promised(pl, key, structureType)
    ensures var (pl', dispatched) := BuildTail(c, pl, x, y, at);
            || Promised(pl', key, structureType) || BuildUnderWay(pl', dispatched, key)
            || (at == key && NeedsPlacement(structureType) && c.online)
  {
    var cleared := ClearCompletedSettle(c, pl, at);
    if at == key {
      AppendHasEntry(cleared.queue, ClaimEntry(c, x, y, key, Build, structureType));
      var (queue, accepted) := Append(cleared.queue, ClaimEntry(c, x, y, key, Build, structureType));
      if accepted {
        DrainKeepsBuild(c, Player(cleared.manpower, queue, cleared.claims - {key}), key);
      }
    }
  }

  /** No operation but a new claim on the tile ends a promise, unless it honours it. */
  lemma StepKeepsPromise(c: Conditions, pl: Player, op: Op, key: string, structureType: string)
    requires Promised(pl, key, structureType) && !SetsClaim(op, key)
    ensures var (pl', dispatched) := Apply(c, pl, op);
            Promised(pl', key, structureType) || Honoured(c, pl', dispatched, op, key, structureType)
  {
    match op {
      case DrainClaimOp(x, y, at) => DrainClaimKeepsPromise(c, pl, x, y, at, key, structureType);
      case BuildTailOp(x, y, at) => BuildTailKeepsPromise(c, pl, x, y, at, key, structureType);
      case _ =>
    }
  }

  /** Every promise survives an operation that does not claim its tile anew, or is honoured by it. */
  ghost predicate PromisesKept(c: Conditions, pl: Player, op: Op, pl': Player, dispatched: Option<Entry>) {
    forall key, structureType | Promised(pl, key, structureType) && !SetsClaim(op, key) ::
      Promised(pl', key, structureType) || Honoured(c, pl', dispatched, op, key, structureType)
  }

  lemma StepKeepsPromises(c: Conditions, pl: Player, op: Op)
    ensures PromisesKept(c, pl, op, Apply(c, pl, op).0, Apply(c, pl, op).1)
  {
    forall key, structureType | Promised(pl, key, structureType) && !SetsClaim(op, key)
      ensures Promised(Apply(c, pl, op).0, key, structureType) ||
              Honoured(c, Apply(c, pl, op).0, Apply(c, pl, op).1, op, key, structureType)
    {
      StepKeepsPromise(c, pl, op, key, structureType);
    }
  }

  /** Step `i` of a run honours the promise. */
  ghost predicate HonouredAt(pl: Player, steps: seq<(Conditions, Op)>, i: nat, key: string, structureType: string)
    requires i < |steps|
  {
    var (c, op) := steps[i];
    var (pl', dispatched) := Apply(c, Run(pl, steps[..i]), op);
    Honoured(c, pl', dispatched, op, key, structureType)
  }

  /** Step `i` of a run takes the promise off the table, and honours it. */
  ghost predicate EndsHonouredAt(pl: Player, steps: seq<(Conditions, Op)>, i: nat, key: string, structureType: string)
    requires i < |steps|
  {
    && Promised(Run(pl, steps[..i]), key, structureType)
    && !Promised(Run(pl, steps[..i + 1]), key, structureType)
    && HonouredAt(pl, steps, i, key, structureType)
  }

  /** The last step of a run, if it takes the promise off the table, honours it. */
  lemma LastStepHonours(pl: Player, steps: seq<(Conditions, Op)>, key: string, structureType: string)
    requires steps != [] && !SetsClaim(steps[|steps| - 1].1, key)
    requires Promised(Run(pl, steps[..|steps| - 1]), key, structureType) &&
               !Promised(Run(pl, steps), key, structureType)
    ensures EndsHonouredAt(pl, steps, |steps| - 1, key, structureType)
  {
    var n := |steps| - 1;
    assert steps[..n + 1] == steps;
    StepKeepsPromise(steps[n].0, Run(pl, steps[..n]), steps[n].1, key, structureType);
  }

  lemma EarlierStepHonours(pl: Player, steps: seq<(Conditions, Op)>, n: nat, i: nat, key: string, structureType: string)
    requires i < n <= |steps| && EndsHonouredAt(pl, steps[..n], i, key, structureType)
    ensures EndsHonouredAt(pl, steps, i, key, structureType)
  {
    assert steps[..n][..i] == steps[..i] && steps[..n][..i + 1] == steps[..i + 1];
  }

  /** Over any run without a new claim on the tile, a promise is still on the table unless the very step that took it
      off honoured it. */
  lemma {:induction false} PromiseOutlivesRun(pl: Player, steps: seq<(Conditions, Op)>, key: string,
                                              structureType: string)
    requires Promised(pl, key, structureType) && forall s | s in steps :: !SetsClaim(s.1, key)
    ensures Promised(Run(pl, steps), key, structureType) ||
            exists i | 0 <= i < |steps| :: EndsHonouredAt(pl, steps, i, key, structureType)
    decreases |steps|
  {
    if steps != [] {
      var n := |steps| - 1;
      var before, last := steps[..n], steps[n];
      assert forall s | s in before :: s in steps;
      assert last in steps;
      PromiseOutlivesRun(pl, before, key, structureType);
      if !Promised(Run(pl, before), key, structureType) {
        var i :| 0 <= i < n && EndsHonouredAt(pl, before, i, key, structureType);
        EarlierStepHonours(pl, steps, n, i, key, structureType);
      } else if !Promised(Run(pl, steps), key, structureType) {
        LastStepHonours(pl, steps, key, structureType);
      }
    }
  }

  /** When a settlement completes, only a full queue can keep the promised build out of it: a leftover settle entry for
      the tile never does. */
  lemma OnlyFullQueueBlocksBuildTail(c: Conditions, pl: Player, x: int, y: int, key: string, structureType: string)
    requires Promised(pl, key, structureType) && DistinctTiles(pl.queue)
    ensures var (pl', _) := BuildTail(c, pl, x, y, key);
            Promised(pl', key, structureType) <==>
              && |ClearCompletedSettle(c, pl, key).queue| >= DEV_QUEUE_SERVER_CAP
              && !HasEntry(pl.queue, key, Build) && !(NeedsPlacement(structureType) && c.online)
  {
    var cleared := ClearCompletedSettle(c, pl, key);
    EntryForFinds(pl.queue, key);
    WithoutElements(pl.queue, key);
    OneEntryPerTile(pl.queue, key);
    assert HasTile(cleared.queue, key) <==> HasEntry(pl.queue, key, Build);
    assert HasEntry(cleared.queue, key, Build) <==> HasEntry(pl.queue, key, Build);
  }

  lemma {:induction false} OneEntryPerTile(queue: seq<Entry>, key: string)
    requires DistinctTiles(queue)
    ensures forall e | e in queue && e.tileKey == key :: EntryFor(queue, key) == Some(e)
  {
    if queue != [] {
      HeadIsUnique(queue);
      assert queue == [queue[0]] + queue[1..];
      OneEntryPerTile(queue[1..], key);
    }
  }
}
