# Border Empires simulation: verified models

The simulation server of Border Empires keeps the world of a territory game: a toroidal map of tiles, the players'
holdings, and the queues that drive both. These modules model six of its stateful components and prove what they
guarantee over every input and every run. `dafny verify dfyconfig.toml` checks everything.

- **Auto-fill** (`AutoFill`, `AutoFillApply`, `AutoFillTerms`, `AutoFillLaws`, `AutoFillRuntime`): a capped
  breadth-first flood decides whether a pocket of land is sealed by a player's walls, and sealed pockets are claimed.
  The answer is characterised exactly as a property of the map, and filling is idempotent, safe and complete. The two
  caps, the cooldown and the reach test are parameters.
- **Resource deposits** (`Sorting`, `Deposits`, `DepositLaws`, `DepositAccounting`, `DepositTheorems`,
  `DepositSaturation`, `DepositShapes`, `DepositTerms`, `DepositRules`, `DepositSeeding`): greedy placement from
  sorted per-sector pools. Deposits stay small, connected and apart; counters are exact; every deposit is placed by a
  rule read off the map before it; a target is missed only on a saturated map; the result does not depend on the
  iteration order of the tile map; the nested loops end.
- **Job scheduler** (`JobQueue`, `JobQueueLaws`, `JobQueueYielding`, `JobQueueWaiting`, `JobQueueFairness`,
  `JobQueueRuntime`): four priority lanes with a fairness counter, put-backs and two scheduling flags. No wakeup is
  lost, every lane is first in, first out, waiting is bounded, and no lane overtakes another but by the rule of five.
  A job carries the jobs that running it enqueues and whether it throws, so every behaviour of a finite job is
  covered.
- **Reach vision** (`ReachVision`, `ReachVisionTerms`, `ReachVisionSync`): reference counts maintained under border
  diffs and alliance changes equal a recount from scratch, whatever offsets the vision table gives each position.
- **Development queue** (`DevQueue`, `DevQueueLaws`, `DevQueueDecisions`, `DevQueueRuns`, `DevQueueTerms`,
  `DevQueueSites`, `DevQueueSlots`, `ClaimPromises`, `ClaimDelivery`, `DevQueueRuntime`): manpower and slot
  reservations balance over any run of commands, and a claimed structure, left alone, stays promised or queued until
  it is dispatched at its place. Manpower is a real number; costs, ceilings, supply, the clock and who is online may
  change at every step.
- **Derived indexes** (`PlayerSummary`, `PlayerSummaryLaws`, `PlayerSummaryTerms`, `PlayerSummaryRuntime`,
  `Defensibility`, `PlannerKeys`, `PlannerMirror`) and the **reconnection search** (`Reconnection`,
  `ReconnectionTerms`, `ReconnectionRuntime`): incremental summaries and key arrays equal what a recount gives, and a
  capped search clears exactly the reachable marks or nothing.

`Torus`, `World`, `Reachability` and `Sums` hold the shared map, tile, path and summation vocabulary. Code that
updates state in place is a class whose methods are proved against functions on its state; the theorems are lemmas
about those functions. The functions follow the code; the modules named `...Terms` say the same independently of them, in
the fields of tiles, entries and borders, and prove the two equal, so the methods' contracts can be read without the
functions.

## What the proofs turned up

- The interior the auto-fill flood walks is wider than the set of origins it accepts: land owned by the enclosing
  player that is neither settled nor frontier is traversed (runtime-auto-fill.ts:98) but refused as an origin
  (runtime-auto-fill.ts:59). The regions found are therefore the pockets with an eligible uncooled neighbour.
- A clamped refund lowers the wallet of a player who stands above the ceiling: `creditManpower` takes a minimum with
  the ceiling even when the wallet already exceeds it (`DevQueueLaws.RefundLaw`). A rejected enqueue to a full queue
  thus leaves the wallet unchanged exactly when nothing was reserved or the wallet was not above the ceiling
  (`DevQueueLaws.AdmitLedger`).
- The alliance sync pushes border without looking at who owns it, while the border sync skips barbarian owners: the
  two agree exactly when no barbarian of the pair holds border to show
  (`ReachVision.AllyingExactIffNoBarbarianBorder`, `ReachVisionSync.ReachVisionRuntime.HandleSyncAlliance`). Ending
  such an alliance takes away border vision that the recount never had, down to zero.
- A background interactive job in front of an immediate one is put back by every drain and the immediate one behind it
  never runs (`JobQueueLaws.BackgroundHumanWorkStalls`); `JobQueueLaws.DrainProgress` gives the exact condition for
  progress.
- `runtime-encirclement-application.ts` tests its cap before each step, so the bound on what an uncapped search has
  looked at is the cap plus the links of one tile
  (`ReconnectionRuntime.EncirclementRuntime.ApplyEncirclementForExpand`).
- The relic limit raises an error after the territory has been extended; it fires exactly when the tile's owner would
  hold more than nine relics (`PlayerSummaryLaws.RefusedIffOverLimit`).

## Model

| member | source | states |
|---|---|---|
| `Torus.Wrap` | apps/simulation/src/player-defensibility-metrics.ts:4-10 | Whatever the coordinate, negative ones under the truncating remainder included, the wrapped value lies on the map. |
| `Torus.WrapCongruent` | apps/simulation/src/player-defensibility-metrics.ts:4-10 | Wrapping moves a coordinate by whole maps only, for every coordinate under the truncating remainder. |
| `Torus.WrapNear` | apps/simulation/src/player-defensibility-metrics.ts:4-10 | Up to one map away, wrapping is a single shift by the map's size. |
| `Torus.Grid.CardinalsSymmetric` | apps/simulation/src/runtime-auto-fill.ts:75-83 | The four edge neighbours are a symmetric relation, across both seams. |
| `Torus.Grid.RingSymmetric` | apps/simulation/src/resource-networks-worldgen.ts:65-69 | The eight surrounding tiles are a symmetric relation, across both seams. |
| `Torus.Grid.RingIsTouching` | apps/simulation/src/runtime-encirclement-application.ts:12-16 | The surrounding ring of a tile is exactly the tiles at most one column and one row away, other than by no step at all; corners and seams included. |
| `Torus.Grid.CardinalsAreBorders` | apps/simulation/src/runtime-auto-fill.ts:9-9 | The four neighbours the floods scan are exactly the tiles one column or one row away. |
| `Torus.Grid.CompassAreBorders` | apps/simulation/src/resource-networks-worldgen.ts:27-27 | So are the four neighbours onto which deposits grow. |
| `AutoFill.FindEnclosedRegion` | apps/simulation/src/runtime-auto-fill.ts:33-118 | The early-exit flood answers with a region exactly when the origin is eligible and its whole 4-connected pocket has no foreign neighbour, only in-reach walls and barriers around it, at most the main cap of tiles, and at most the barrier cap when a barrier bounds it; the region is then exactly that pocket. The cap flag is raised only for a pocket really above the main cap, and always for one that leaks nowhere. |
| `AutoFill.ScanNeighbour` | apps/simulation/src/runtime-auto-fill.ts:75-112 | One neighbour either keeps the flood invariant or proves that the pocket is not enclosed; a cap exit proves the pocket larger than the cap. |
| `AutoFill.FloodComplete` | apps/simulation/src/runtime-auto-fill.ts:72-117 | When the queue is exhausted the region found is the pocket, and the barrier-cap test decides enclosure. |
| `AutoFill.LeakBreaksEnclosure` | apps/simulation/src/runtime-auto-fill.ts:88-94 | A foreign tile, or a wall or barrier out of reach, anywhere around the pocket rules the whole pocket out. |
| `AutoFill.TooBig` | apps/simulation/src/runtime-auto-fill.ts:98-103 | Exceeding the cap during the flood means that the complete pocket exceeds it. |
| `AutoFill.SameComponent` | apps/simulation/src/runtime-auto-fill.ts:72-113 | Every tile of a pocket spans the same pocket, so the verdict does not depend on the origin. |
| `AutoFill.ComponentsDisjoint` | apps/simulation/src/runtime-auto-fill.ts:72-113 | Two pockets are equal or disjoint. |
| `AutoFillRuntime.AutoFiller.FindEnclosedRegionsAdjacentTo` | apps/simulation/src/runtime-auto-fill.ts:134-169 | The regions returned are exactly the enclosed pockets spanned by an uncooled eligible neighbour, pairwise disjoint; cooldowns change only for uncooled neighbours whose pocket really exceeds the main cap, and then to now plus the window; an uncooled neighbour whose pocket exceeds the cap and leaks nowhere is always recorded. |
| `AutoFillApply.FoundRegionIsNew` | apps/simulation/src/runtime-auto-fill.ts:151-160 | Skipping neighbours already seen in a found region loses no pocket and repeats none. |
| `AutoFillApply.ScanFinished` | apps/simulation/src/runtime-auto-fill.ts:147-168 | After the fourth neighbour the results are all the pockets to fill, no more. |
| `AutoFillRuntime.AutoFiller.FillTiles` | apps/simulation/src/runtime-auto-fill.ts:211-236 | Every tile of one pocket that is in reach and is unowned, or is the owner's frontier with no capture hold running at the hold time, becomes the owner's settled land without decay time and kind, and is listed once; every other tile of the map stays as it was, whatever the order the pocket's tiles come in. |
| `AutoFillRuntime.AutoFiller.ApplyAutoFill` | apps/simulation/src/runtime-auto-fill.ts:187-240 | Read off the tiles before: a tile changes exactly if it is in reach, unowned or the owner's unheld frontier, and can be walked to, over land that is unowned or the owner's but not settled, from an uncooled edge neighbour of the settled tile that is free land or own frontier, where everything beside that pocket is in reach and is the owner's settled tile or water, mountain or unknown in nobody else's hands, within the two caps. It then is the owner's settled land without decay, otherwise as it was, and the returned list names it once. |
| `AutoFillLaws.FillIsIdempotent` | apps/simulation/src/runtime-auto-fill.ts:187-240 | A second run from the same tile, at the same time and reach and with the cooldowns the first one left, changes nothing. |
| `AutoFillLaws.SecondScanStaysInside` | apps/simulation/src/runtime-auto-fill.ts:134-169 | A second scan finds only pockets whose origin the first run already filled around. |
| `AutoFillLaws.SecondFillClaimsNothing` | apps/simulation/src/runtime-auto-fill.ts:210-236 | A second run finds no tile left to claim. |
| `AutoFillLaws.OtherPocketsUnchanged` | apps/simulation/src/runtime-auto-fill.ts:72-113 | Filling one pocket leaves every other pocket the same set of tiles. |
| `AutoFillLaws.SurroundingsUnchanged` | apps/simulation/src/runtime-auto-fill.ts:84-112 | Filling one pocket changes neither the tiles of another pocket nor the kind of anything beside them: distinct pockets are never adjacent. |
| `AutoFillLaws.VerdictUnchanged` | apps/simulation/src/runtime-auto-fill.ts:55-117 | Filling one pocket cannot change the verdict on another. |
| `AutoFillLaws.FillIsSafe` | apps/simulation/src/runtime-auto-fill.ts:210-236 | A changed tile was land in reach, unowned or the owner's own frontier out of capture hold, in an enclosed pocket touching the settled tile, and becomes the owner's settled land. |
| `AutoFillLaws.SealedPocketIsFilled` | apps/simulation/src/runtime-auto-fill.ts:147-236 | In a sealed pocket around an uncooled start beside the settled tile, every tile that is in reach and unowned, or the owner's frontier with no capture hold running, ends owned, settled and without decay, otherwise as it was. |
| `AutoFillTerms.PocketIsComponent` | apps/simulation/src/runtime-auto-fill.ts:72-113 | The pocket the flood explores is what can be walked to, step by unit step, over land that is unowned or the owner's but not settled. |
| `AutoFillTerms.EnclosedIsSealed` | apps/simulation/src/runtime-auto-fill.ts:84-117 | The flood's verdict in terms of the tiles beside the pocket: all in reach, all the owner's settled tiles or natural barriers in nobody else's hands, and the pocket within the main cap, and within the barrier cap if a barrier is among them. |
| `AutoFillTerms.FillInTerms` | apps/simulation/src/runtime-auto-fill.ts:187-240 | A fill changes exactly the due tiles and lists each of them once, with due read off the tiles as they were: start, pocket, seal, reach, ownership and capture hold. |
| `JobQueueLaws.NextSchedulingAgrees` | apps/simulation/src/runtime-job-queue.ts:74-113 | The reported scheduling is that of the job that would be taken next, fairness override included; nothing is taken only from an empty queue. |
| `JobQueueLaws.DrainConserves` | apps/simulation/src/runtime-job-queue.ts:161-249 | For every lane: contents before plus jobs enqueued by the jobs run equals jobs run plus contents after, as sequences, put-backs and throwing jobs included. |
| `JobQueueLaws.DrainStaysInBounds` | apps/simulation/src/runtime-job-queue.ts:176-227 | At most a batch of system and ai jobs run in a drain, and after an immediate job has run no background job runs in it. |
| `JobQueueLaws.DrainProgress` | apps/simulation/src/runtime-job-queue.ts:176-199 | A drain runs a job if and only if the queue is not empty and the first job is not held back by waiting immediate human work, a pause or an exhausted batch. |
| `JobQueueLaws.PromptDrainProgress` | apps/simulation/src/runtime-job-queue.ts:161-227 | With immediate human-lane jobs, room in the batch and no pause, every drain of a non-empty queue runs a job. |
| `JobQueueLaws.BackgroundHumanWorkStalls` | apps/simulation/src/runtime-job-queue.ts:179-189 | A background interactive job in front of an immediate one is put back by every drain: nothing runs, however many drains follow. |
| `JobQueueYielding.DrainIsPolite` | apps/simulation/src/runtime-job-queue.ts:176-248 | In a drain no ai job runs while the planner asks for a pause, no background job runs while immediate human work is left behind it, only the last job may have thrown, and otherwise the drain yields if and only if it leaves work queued. |
| `JobQueueYielding.DrainYieldsForCause` | apps/simulation/src/runtime-job-queue.ts:180-226 | A drain that yields leaves at the front of a lane a job it had to hold back: a background job behind immediate work, an ai job during a pause, or a system or ai job once the batch is used up. |
| `JobQueueWaiting.BoundedWaiting` | apps/simulation/src/runtime-job-queue.ts:49-89 | With immediate human-lane jobs, a non-interactive job with k ahead of it in its lane runs after at most 5(k+1) interactive, k non-interactive and no system or ai jobs, over any arrivals and drains; it is the job at that place, and 6(k+1) drains suffice. |
| `JobQueueFairness.TurnsRespectPriority` | apps/simulation/src/runtime-job-queue.ts:49-89 | At every turn of every run, put-backs included: a non-interactive job is taken ahead of a waiting interactive one only after five interactive turns since the last non-interactive one, an interactive job ahead of a waiting non-interactive one only before five, a system job only when no human job waits, an ai job only when no human or system job waits. |
| `JobQueueFairness.FiveRunBeforeOvertaking` | apps/simulation/src/runtime-job-queue.ts:49-89 | With immediate human-lane jobs, in counts of the jobs run: a non-interactive job runs while an interactive one waits only if five interactive jobs have run since the last non-interactive one, and an interactive job runs while a non-interactive one waits only if fewer have; the log holds every job run, in order. |
| `JobQueueFairness.RunsItsTurns` | apps/simulation/src/runtime-job-queue.ts:161-249 | The jobs that ran in the log of turns are exactly the jobs the run ran, in order. |
| `JobQueueWaiting.DrainFromIsFair` | apps/simulation/src/runtime-job-queue.ts:176-227 | One drain keeps the waiting bounds, and unless a job throws it runs the waiting job. |
| `JobQueueWaiting.RunConserves` | apps/simulation/src/runtime-job-queue.ts:115-249 | First in, first out in every lane over any interleaving of arrivals and drains. |
| `JobQueueRuntime.NoLostWakeup` | apps/simulation/src/runtime-job-queue.ts:115-249 | In every reachable state with work queued and no drain running a drain task is pending, and each flag is up exactly while its own timer is pending, whatever jobs enqueue or throw. |
| `JobQueueRuntime.RunIsExec` | apps/simulation/src/runtime-job-queue.ts:115-249 | Every run of enqueues and firing timers is a run of arrivals and drains, so the fairness and waiting laws hold of it. |
| `JobQueueRuntime.RuntimeJobQueue.constructor` | apps/simulation/src/runtime-job-queue-state.ts:51-68 | A queue starts empty, with no flag up and no timer pending. |
| `JobQueueRuntime.RuntimeJobQueue.ShiftNextJob` | apps/simulation/src/runtime-job-queue.ts:64-89 | After five interactive jobs in a row takes the front of the non-interactive lane if it has one and else of the first non-empty lane in the order interactive, non-interactive, system, ai; an interactive job raises the streak by one, a non-interactive one resets it to zero, the others leave it; the other lanes are untouched. |
| `JobQueueRuntime.RuntimeJobQueue.ScheduleDrain` | apps/simulation/src/runtime-job-queue.ts:131-152 | Arms one timer, soon or after a zero delay as asked, unless draining, an immediate drain is already scheduled, or a background one is when a background one is asked for. |
| `JobQueueRuntime.RuntimeJobQueue.EnqueueJob` | apps/simulation/src/runtime-job-queue.ts:115-129 | Appends to the job's lane, makes the enqueue step of the reachable runs, and outside a drain leaves an immediate drain pending, or for a background job at least a background one. |
| `JobQueueRuntime.RuntimeJobQueue.RunJob` | apps/simulation/src/runtime-job-queue.ts:206-206 | Jobs enqueued by a running job land at the tails of their lanes and arm nothing. |
| `JobQueueRuntime.RuntimeJobQueue.DrainQueues` | apps/simulation/src/runtime-job-queue.ts:161-249 | The loop runs exactly the jobs the drain policy prescribes, leaves exactly its queue, clears the draining flag even when a job throws, and leaves scheduled nothing for an empty queue, one resumption after a yield, and else the timer the next job asks for. |
| `JobQueueRuntime.RuntimeJobQueue.FireTimer` | apps/simulation/src/runtime-job-queue.ts:140-151 | Firing a timer clears its flag, drains, and makes the fire step of the reachable runs. |
| `Sorting.SortIgnoresOrder` | apps/simulation/src/resource-networks-worldgen.ts:77-79 | Under a total order a set has one sorted listing, whatever order its elements came in. |
| `Sorting.SortIsStable` | apps/simulation/src/resource-networks-worldgen.ts:102-102 | Under any order by a key, sorting puts nothing after a greater element and leaves tied elements in the order they came in. |
| `DepositLaws.StampKeepsDeposit` | apps/simulation/src/resource-networks-worldgen.ts:60-71 | The availability test keeps every finished deposit apart from a newly placed tile. |
| `DepositLaws.OpenKeepsInv` | apps/simulation/src/resource-networks-worldgen.ts:84-98 | Placing a centre keeps the deposit invariant. |
| `DepositLaws.AddKeepsInv` | apps/simulation/src/resource-networks-worldgen.ts:99-106 | Adding an edge neighbour keeps the deposit invariant. |
| `DepositAccounting.GrowKeepsInv` | apps/simulation/src/resource-networks-worldgen.ts:99-106 | Growing a deposit to at most six tiles keeps the deposit invariant. |
| `DepositAccounting.GrowCounts` | apps/simulation/src/resource-networks-worldgen.ts:94-106 | Growing keeps each counter equal to a recount and stays within the desired size. |
| `DepositAccounting.PlaceKeeps` | apps/simulation/src/resource-networks-worldgen.ts:91-108 | Placing a deposit keeps the invariant and both counters exact, and does not overshoot the target. |
| `DepositAccounting.SweepKeeps` | apps/simulation/src/resource-networks-worldgen.ts:83-109 | One pass over the pools keeps the invariant and both counters exact, and does not overshoot the target. |
| `DepositAccounting.RoundsKeeps` | apps/simulation/src/resource-networks-worldgen.ts:81-110 | So does the whole round loop, which ends because pools only shrink. |
| `DepositAccounting.SeedKeeps` | apps/simulation/src/resource-networks-worldgen.ts:72-113 | So does the loop over resources, each staying within the larger of its start and its target. |
| `DepositTheorems.VeinIsDeposit` | apps/simulation/src/resource-networks-worldgen.ts:65-69 | The vein of one resource around a placed tile, connected through tiles at most one column and one row apart, is exactly one deposit: it merges with no other deposit and no earlier resource tile, corners included, and has at most six tiles. |
| `DepositTheorems.TouchingTilesShareDeposit` | apps/simulation/src/resource-networks-worldgen.ts:65-69 | Two tiles of one resource at most one column and one row apart, at least one newly placed, belong to the same deposit. |
| `DepositTheorems.ChangedTile` | apps/simulation/src/resource-networks-worldgen.ts:39-45 | A changed tile was unprotected land without resource, town, dock, complex, wonder, watchtower, waystation or economic structure; only its resource changed, and exactly one deposit accounts for it. |
| `DepositTheorems.PlacementIsSound` | apps/simulation/src/resource-networks-worldgen.ts:37-118 | The final map keeps the deposit invariant, each placed counter is the number of tiles carrying the resource and at most the larger of its start and its target, and each cluster counter is the number of deposits. |
| `DepositSaturation.ShortfallMeansSaturated` | apps/simulation/src/resource-networks-worldgen.ts:76-112 | Where a resource falls short of its target, no site of a habitat the map may use is available for it on the finished map. |
| `DepositSaturation.RoundsSaturate` | apps/simulation/src/resource-networks-worldgen.ts:80-110 | A round loop ends with the target met or with every tile of its pools unavailable. |
| `DepositSaturation.GrowthStopsHemmedIn` | apps/simulation/src/resource-networks-worldgen.ts:99-106 | A deposit stays below its desired size only when no neighbour of any of its members is available. |
| `DepositShapes.SmallDepositsExplained` | apps/simulation/src/resource-networks-worldgen.ts:91-111 | On the finished map every deposit under the least size has no available neighbour for a phase the map uses, or is the last deposit of its resource and met the target. |
| `DepositTerms.UsableIsAvailable` | apps/simulation/src/resource-networks-worldgen.ts:60-71 | A site is available exactly if it is unprotected bare land without a deposit, suits the resource in this phase, and neither it nor any tile at most one column and row away carries the resource outside the deposit being grown. |
| `DepositTerms.TargetIsBudget` | apps/simulation/src/resource-networks-worldgen.ts:18-23 | The target is 1.5 tiles a town for luxury biota where there are towns, and else 540, 90 or 160 tiles per 640 by 320 of map, rounded to the nearest whole number, halves up. |
| `DepositRules.NextIsWellGrown` | apps/simulation/src/resource-networks-worldgen.ts:99-106 | A deposit grows onto a usable edge neighbour before which no other comes in growth order; of tied ones onto the first around the deposit, member by member and clockwise from north. |
| `DepositRules.FinishByRule` | apps/simulation/src/resource-networks-worldgen.ts:91-107 | A deposit has three plus the hash of its centre modulo four tiles, or what is left of the budget if that is less, or it is smaller and no neighbour of it is usable. |
| `DepositRules.CentreIsWellCentred` | apps/simulation/src/resource-networks-worldgen.ts:77-89 | The centre taken is usable, no usable site suits the resource better, and in its 32 by 32 sector every other usable site ranks behind it by hash, row and column; the sectors passed by since the last deposit have no usable site. |
| `DepositRules.PlacementFollowsRules` | apps/simulation/src/resource-networks-worldgen.ts:37-118 | Over the whole placement every deposit, in the order placed, continues those before it by the rules for centre, growth, size and budget, the five resources in their order and the secondary habitat on smaller maps only after the preferred one. |
| `DepositRules.PlacementLeavesNothing` | apps/simulation/src/resource-networks-worldgen.ts:80-112 | The placement ends with every resource at its budget or without any usable site of an allowed habitat. |
| `DepositRules.PlacementIsFinished` | apps/simulation/src/resource-networks-worldgen.ts:37-118 | With neighbours ranked by their hash the finished map satisfies all of it: rules, nothing left, only members changed, exact counters. |
| `DepositTheorems.PlacementIgnoresIterationOrder` | apps/simulation/src/resource-networks-worldgen.ts:39-79 | Two insertion orders of one tile map give the same map, counters and deposits. |
| `DepositTheorems.PoolOrderIsTotal` | apps/simulation/src/resource-networks-worldgen.ts:77-79 | The pool comparator ranks any two different tiles, ties on the hash included. |
| `DepositTheorems.InitialCountsExact` | apps/simulation/src/resource-networks-worldgen.ts:59-59 | The initial counters are a recount of the map. |
| `DepositSeeding.DepositSeeder.GrowNewest` | apps/simulation/src/resource-networks-worldgen.ts:99-106 | The growth loop adds, one at a time, the first available neighbour in growth order until the size is reached or none is left. |
| `DepositSeeding.DepositSeeder.PlaceDeposit` | apps/simulation/src/resource-networks-worldgen.ts:91-107 | Writes the centre, grows it to the size the hash asks for but not past the target, and counts one cluster. |
| `DepositSeeding.DepositSeeder.TakeCentre` | apps/simulation/src/resource-networks-worldgen.ts:84-88 | Pops tiles off the end of a pool until one is available. |
| `DepositSeeding.DepositSeeder.SweepPools` | apps/simulation/src/resource-networks-worldgen.ts:83-109 | One pass: at most one deposit from each pool, stopping in mid-pass once the target is met. |
| `DepositSeeding.DepositSeeder.SeedPhase` | apps/simulation/src/resource-networks-worldgen.ts:80-110 | Repeats passes while they make progress and the target is not met. |
| `DepositSeeding.DepositSeeder.SeedResource` | apps/simulation/src/resource-networks-worldgen.ts:76-112 | Runs the phases in turn, stopping once the target is met. |
| `DepositSeeding.DepositSeeder.Run` | apps/simulation/src/resource-networks-worldgen.ts:37-118 | The finished map follows, deposit by deposit, from the map it started from: each deposit is placed by the rule (centre, growth, size, budget) on top of those before it, resource after resource; each resource ends with its budget or without a usable site; only members changed, by their resource; and both counters are recounts. |
| `ReachVision.RecountAfterChange` | apps/simulation/src/reach-border-vision.ts:21-33 | Changing the owner of one border tile moves exactly the old owner's share out of every recount and the new owner's share in. |
| `ReachVision.RecountAfterAllying` | apps/simulation/src/reach-border-vision.ts:37-54 | Allying two non-barbarians adds to the recount exactly the border each shows the other. |
| `ReachVision.UnallyingReverses` | apps/simulation/src/runtime-alliance-sync-command.ts:39-42 | Ending an alliance is undone by making it again. |
| `ReachVision.AllyingIsMutual` | apps/simulation/src/runtime-alliance-sync-command.ts:36-42 | Allying keeps the relation symmetric; a repeated command changes nothing. |
| `ReachVision.AllyingExactIffNoBarbarianBorder` | apps/simulation/src/reach-border-vision.ts:45-53 | The alliance sync agrees with the recount if and only if no barbarian of the pair holds border of which the other, a non-barbarian, would be shown anything. |
| `ReachVisionTerms.RecountInTerms` | apps/simulation/src/runtime/runtime.ts:2238-2238 | The recount is the number of offsets landing on the cell over all border tiles whose owner is no barbarian and is the viewer or lists it as an ally, and zero for a barbarian viewer. |
| `ReachVisionTerms.ExchangeInTerms` | apps/simulation/src/reach-border-vision.ts:45-53 | What an alliance moves is what each one's border shows, and nothing for a barbarian viewer. |
| `ReachVisionSync.ReachVisionRuntime.AddFootprint` | apps/simulation/src/visibility-coverage-cache.ts:126-141 | Raises the viewer's count on each cell by the number of offsets of the position, whatever the table holds for it, that land there; no other viewer's. |
| `ReachVisionSync.ReachVisionRuntime.RemoveFootprint` | apps/simulation/src/visibility-coverage-cache.ts:148-169 | Lowers them by as much, down to zero at most, and leaves no counter at zero. |
| `ReachVisionSync.ReachVisionRuntime.SyncReachVision` | apps/simulation/src/reach-border-vision.ts:15-35 | After a duplicate-free diff covering the change, a non-barbarian viewer's count on each cell is, on top of whatever other sources contribute, the number of offsets landing there of each border tile whose owner is no barbarian and is the viewer or lists it as an ally; a barbarian's count gets nothing. No counter is left at zero. |
| `ReachVisionSync.ReachVisionRuntime.ReplaceBorder` | apps/simulation/src/reach-border-vision.ts:15-35 | After a border mutation and its sync every count is what the new border shows the viewer, its own tiles and its allies', on top of the other sources; the alliances stay mutual. |
| `ReachVisionSync.ReachVisionRuntime.SyncReachVisionAlliance` | apps/simulation/src/reach-border-vision.ts:37-54 | Each of the pair, unless a barbarian, gains exactly what the border of the other shows, or loses it down to zero at most. |
| `ReachVisionSync.ReachVisionRuntime.HandleSyncAlliance` | apps/simulation/src/runtime-alliance-sync-command.ts:19-68 | Refuses unknown players and oneself without effect; otherwise each of the two lists the other exactly if they are now allied, and nobody else's list changes; a repeated command changes no count, a real change moves exactly what each one's border shows. Exact counts stay exact, except if and only if a barbarian of the pair has border shown by a new alliance, or hidden by an ended one where a counter stood above zero. |
| `Reconnection.IndexBridges` | apps/simulation/src/runtime-encirclement-application.ts:32-48 | The index lists, at each tile, the far ends of the bridges that touch it, in order. |
| `Reconnection.BridgesSymmetric` | apps/simulation/src/runtime-encirclement-application.ts:37-46 | Bridges link both ways. |
| `Reconnection.SearchComplete` | apps/simulation/src/runtime-encirclement-application.ts:142-177 | An exhausted search has found exactly the marked tiles reachable from the target, and looked at exactly the tiles beside them. |
| `ReconnectionTerms.LinksInTerms` | apps/simulation/src/runtime-encirclement-application.ts:55-66 | A tile is linked to those it touches, to the far end of every bridge at it, whichever end it is, and along the listed sea lanes. |
| `ReconnectionTerms.ReachedIsReconnected` | apps/simulation/src/runtime-encirclement-application.ts:142-177 | What the search reaches is what a chain of cut-off frontier tiles of the player, each linked to the one before, leads to from the target. |
| `Reconnection.ReachedMarked` | apps/simulation/src/runtime-encirclement-application.ts:163-175 | Only the player's marked frontier tiles are reached. |
| `Reconnection.NoMarkedNeighbourLeft` | apps/simulation/src/runtime-encirclement-application.ts:158-186 | No tile one link from a cleared tile is still marked. |
| `Reconnection.NoMarkedTileLinksBack` | apps/simulation/src/runtime-encirclement-application.ts:158-186 | With two-way sea lanes, no tile that links to a cleared one is still marked. |
| `ReconnectionRuntime.EncirclementRuntime.FindSeeds` | apps/simulation/src/runtime-encirclement-application.ts:126-139 | The seeds are exactly the player's frontier tiles marked as cut off that touch the target, corners included, or are linked to it by a bridge or sea lane. |
| `ReconnectionRuntime.EncirclementRuntime.Expand` | apps/simulation/src/runtime-encirclement-application.ts:154-176 | One queue entry keeps the search invariant, and either finds something new or shortens the queue. |
| `ReconnectionRuntime.EncirclementRuntime.ClearMarks` | apps/simulation/src/runtime-encirclement-application.ts:179-186 | Exactly the given tiles end without decay time and kind, otherwise as they were; no other tile changes. |
| `ReconnectionRuntime.EncirclementRuntime.ApplyEncirclementForExpand` | apps/simulation/src/runtime-encirclement-application.ts:113-190 | All or nothing: a capped search changes no tile and really had more than the cap to look at; otherwise exactly the cut-off frontier tiles of the player that the target leads to, from touching or linked tile to touching or linked tile, end without decay time and kind, all else as it was; and what was looked at exceeds the cap by at most the links of one tile. |
| `DevQueueLaws.MoveToFrontPermutes` | apps/simulation/src/runtime-dev-queue.ts:88-93 | Reordering is a permutation that holds the same manpower and puts the tile's entry first. |
| `DevQueueLaws.WithoutHeld` | apps/simulation/src/runtime-dev-queue.ts:81-86 | Cancelling removes exactly what the tile's entry held. |
| `DevQueueLaws.RefundLaw` | apps/simulation/src/runtime-manpower-ceiling.ts:12-22 | A clamped refund never mints, is exact if and only if it fits under the ceiling, and lowers the wallet if and only if something is refunded to a wallet above the ceiling. |
| `DevQueueLaws.EnqueueLedger` | apps/simulation/src/runtime-dev-queue-command-handlers.ts:73-129 | An accepted enqueue keeps wallet plus reservations, appends one entry, and makes a garrison wait exactly when the wallet is short of its cost; a rejected one changes nothing unless the queue was full and the wallet above the ceiling. |
| `DevQueueLaws.AdmitLedger` | apps/simulation/src/runtime-dev-queue-command-handlers.ts:108-125 | A rejected insertion hands the reservation back: the wallet is as before if and only if nothing was reserved or it stood at or below the ceiling. |
| `DevQueueDecisions.EnqueueAcceptedIff` | apps/simulation/src/runtime-dev-queue-build-reservation.ts:106-182 | An enqueue is accepted if and only if the tile is not queued, the queue has room, and a build that reserves is known, affordable and finds each required slot free net of the tile's occupant and the queue; a garrison is never refused for manpower. A rejection's code is the one cause that comes first in the order tile, structure, manpower, slots, room. |
| `DevQueueDecisions.MoveToFrontKeepsOrder` | apps/simulation/src/runtime-dev-queue.ts:88-93 | Reordering keeps the other entries in their order. |
| `DevQueueLaws.RemovalLedger` | apps/simulation/src/runtime-dev-queue-command-handlers.ts:131-139 | Cancelling never mints, and keeps the total while it is within the ceiling. |
| `DevQueueLaws.DrainLedger` | apps/simulation/src/runtime-dev-queue-command-handlers.ts:171-229 | A drain takes at most one drainable entry and keeps the total, except that a build's refund may meet the ceiling. |
| `DevQueueDecisions.DrainDispatchesFirst` | apps/simulation/src/runtime-dev-queue-command-handlers.ts:171-196 | A drain dispatches the first entry whose tile is not under attack, that an online client is not to send itself, and whose garrison holds or can be paid its cost; it dispatches nothing if and only if there is none or no development slot. |
| `DevQueueLaws.ReleaseLedger` | apps/simulation/src/runtime-dev-queue-command-handlers.ts:253-263 | Handing a self-sent garrison its hold back keeps the total and removes its entry. |
| `DevQueueLaws.RefillReservesFirst` | apps/simulation/src/runtime-dev-queue-settle-manpower-wait.ts:27-47 | At cost c a refill reserves exactly the first min(waiting, wallet div c) waiting garrisons and pays exactly for them. |
| `DevQueueLaws.QuotientIsFloor` | apps/simulation/src/runtime-dev-queue-settle-manpower-wait.ts:34-43 | The number a wallet can pay for is the floor of wallet over cost. |
| `DevQueueLaws.RefillLedger` | apps/simulation/src/runtime-dev-queue-settle-manpower-wait.ts:27-47 | A refill moves manpower from the wallet into reservations without changing the total. |
| `DevQueueLaws.RefillKeepsEntries` | apps/simulation/src/runtime-dev-queue-settle-manpower-wait.ts:33-45 | A refill keeps every entry in place, on its tile, and never both reserved and waiting. |
| `DevQueueDecisions.RefillExhausts` | apps/simulation/src/runtime-dev-queue-settle-manpower-wait.ts:34-43 | After a refill no garrison waits that the wallet could still pay for. |
| `DevQueueRuns.RunLedger` | apps/simulation/src/runtime-dev-queue-command-handlers.ts:73-263 | Over any run of operations under any changing conditions: tiles stay distinct, both tables within the cap, no entry both reserved and waiting, no negative wallet, and wallet plus reservations never grows; while the ceiling stays at or above the starting total it does not change. |
| `DevQueueSlots.RunSlotsBacked` | apps/simulation/src/runtime-dev-queue-build-reservation.ts:145-182 | Whatever occupies the tiles built on: over any run, each reserving entry, together with all entries whose tiles give back no more, fits the largest number of free slots any enqueue found plus what its own tile gives back. |
| `DevQueueSlots.AnyPartIsBacked` | apps/simulation/src/runtime-dev-queue-build-reservation.ts:162-182 | However some queued entries are picked, what they reserve of a resource is nothing or at most the free slots plus what the tile of one of them gives back. |
| `DevQueueSlots.RunSlots` | apps/simulation/src/runtime-dev-queue-build-reservation.ts:145-182 | While no occupant stands on the tiles that builds are queued for, over any run each resource's queued reservation is zero or at most the free slots. |
| `DevQueueSlots.EnqueueBacked` | apps/simulation/src/runtime-dev-queue-build-reservation.ts:164-182 | The slot check nets out what the queue already reserves and credits the tile's own occupant, so an accepted build stays backed. |
| `DevQueueRuns.ClaimStepLedger` | apps/simulation/src/runtime-claim-continuation-command-handlers.ts:67-72 | Queueing a claim's step reserves nothing and moves no manpower. |
| `ClaimPromises.SetClaimPromises` | apps/simulation/src/runtime-claim-continuation-command-handlers.ts:118-154 | An accepted claim for a structure leaves it promised or its build under way; it is refused if and only if the table is full and has no entry for the tile. |
| `ClaimPromises.StepKeepsPromise` | apps/simulation/src/runtime-claim-continuation-command-handlers.ts:118-229 | Any operation but a new claim on the tile keeps the promise, or a build for the tile is queued or on its way, or the structure needs placement by a client that is online. |
| `ClaimPromises.PromiseOutlivesRun` | apps/simulation/src/runtime-claim-continuation-command-handlers.ts:118-229 | Over any run without a new claim on the tile, the promise is still on the table unless the very step that took it off honoured it: it put a build for the tile in the queue or on its way, or left the placing to an online client. |
| `ClaimDelivery.PromisedBuildIsDelivered` | apps/simulation/src/runtime-claim-continuation-command-handlers.ts:67-229 | Over any run that leaves the claim alone, the promised structure stays promised or queued under its own name and coordinates until a step dispatches a build of exactly that structure at exactly that place, or leaves its placing to an online client; no other build is ever queued for the tile. |
| `ClaimDelivery.BuildLeavesInTurn` | apps/simulation/src/runtime-dev-queue-command-handlers.ts:171-196 | A queued build with i entries ahead of it is dispatched within the first i + 1 drains that let it, whatever is ahead. |
| `DevQueueSites.RunKeepsPlace` | apps/simulation/src/runtime-dev-queue-command-handlers.ts:201-229 | Over any run of operations that carry the coordinates their tile key names, every entry ever queued or dispatched, enqueued by a command or by a claim alike, is at those coordinates. |
| `DevQueueTerms.ApplyInTerms` | apps/simulation/src/runtime-dev-queue-command-handlers.ts:73-263 | Every operation of a run does what its command says in entries, wallet and claims: which entry is appended with which fields, which leaves, what comes out of the wallet or goes back and how far, and which claim is set or ends. |
| `DevQueueTerms.EnqueueInTerms` | apps/simulation/src/runtime-dev-queue-command-handlers.ts:73-129 | An accepted command appends one entry with its tile, coordinates, kind and structure, holding the plan's price and slots, a garrison's cost or nothing while it waits, taken from the wallet; a refused one changes nothing, but a hold taken before a full queue was found comes back only up to the wallet's limit. |
| `DevQueueTerms.DrainInTerms` | apps/simulation/src/runtime-dev-queue-command-handlers.ts:171-203 | With a slot free the first entry that may leave does: a garrison with its hold handed back in full, anything else with its hold handed back up to the cap plus unspent overflow; otherwise nothing changes. |
| `DevQueueTerms.RefillInTerms` | apps/simulation/src/runtime-dev-queue-settle-manpower-wait.ts:27-47 | The first garrisons that wait come to hold the cost, in queue order, as many as the wallet can pay for, and the wallet falls by exactly that; nothing else in the queue changes. |
| `DevQueueTerms.SetClaimInTerms` | apps/simulation/src/runtime-claim-continuation-command-handlers.ts:118-154 | A claim on an owned frontier tile queues a build at the claimed tile for the three siege structures and a settlement for all else, unless the tile has an entry or twenty are queued; its promise ends exactly if that step is queued and was all there was to it. Elsewhere the promise is recorded. |
| `DevQueueTerms.BuildTailInTerms` | apps/simulation/src/runtime-claim-continuation-command-handlers.ts:193-229 | After a settlement the tile's garrison entry goes with its hold handed back; then the promised build is queued at the claimed tile, dispatched by the server unless it is an ore refinery or hydroworks, and the promise ends once a build of the tile is queued or an online player is to place it. |
| `ClaimPromises.OnlyFullQueueBlocksBuildTail` | apps/simulation/src/runtime-claim-continuation-command-handlers.ts:193-229 | After a completed settlement the promise stays on the table if and only if the queue is full without the settle entry, holds no build for the tile, and no online client is to place it: a leftover settle entry never blocks. |
| `DevQueueRuntime.ReservedSlotDemand` | apps/simulation/src/runtime-dev-queue-build-reservation.ts:62-71 | The nested loop's totals equal the queue's demand for every resource. |
| `DevQueueRuntime.FirstSlotShortfall` | apps/simulation/src/runtime-dev-queue-build-reservation.ts:164-182 | The loop over the requirements finds the first that does not fit, and none if and only if each fits the free slots net of the queue and the tile's occupant. |
| `DevQueueRuntime.PlayerRuntime.HandleEnqueue` | apps/simulation/src/runtime-dev-queue-command-handlers.ts:73-129 | An admissible command appends an entry with its tile, coordinates, kind and structure, holding what the plan or a garrison costs, taken from the wallet, and a drain follows; an inadmissible one is refused with the first cause and gives back what it took, up to the wallet's limit. Keeps the queue's invariant and the ledger (no minting; nothing lost under the ceiling), every promise and every entry. |
| `DevQueueRuntime.PlayerRuntime.HandleCancel` | apps/simulation/src/runtime-dev-queue-command-handlers.ts:131-139 | Exactly the tile's entry leaves the queue, the others keep their order, and its hold goes back up to the cap plus unspent overflow; nothing changes if the tile had none. Keeps invariant and ledger. |
| `DevQueueRuntime.PlayerRuntime.HandleMoveToFront` | apps/simulation/src/runtime-dev-queue-command-handlers.ts:141-148 | The tile's entry comes first and the others follow as they were; wallet and claims are untouched. Keeps the invariant and the total. |
| `DevQueueRuntime.PlayerRuntime.TryDrain` | apps/simulation/src/runtime-dev-queue-command-handlers.ts:171-203 | With a slot free the first entry that may leave does and the others keep their order, a garrison's hold going back in full and any other up to the wallet's limit; otherwise nothing changes. Keeps invariant and ledger. |
| `DevQueueRuntime.PlayerRuntime.ReserveAwaiting` | apps/simulation/src/runtime-dev-queue-settle-manpower-wait.ts:27-47 | The single pass over the queue reserves exactly what the refill law says, and leaves no garrison waiting that the wallet could still pay for. |
| `DevQueueRuntime.PlayerRuntime.TickAwaiting` | apps/simulation/src/runtime-dev-queue-command-handlers.ts:236-241 | As many waiting garrisons as the wallet can pay for come to hold their cost, in queue order, and then one drain is tried. Keeps invariant and ledger; unless something is dispatched the total is unchanged and no garrison is left waiting that the wallet could still pay for. |
| `DevQueueRuntime.PlayerRuntime.ReleaseQueuedSettle` | apps/simulation/src/runtime-dev-queue-command-handlers.ts:253-263 | Exactly the tile's garrison that held or awaited manpower leaves the queue, and its hold goes back in full; otherwise nothing changes. Keeps the invariant and the total. |
| `DevQueueRuntime.PlayerRuntime.EnqueueClaimStep` | apps/simulation/src/runtime-claim-continuation-command-handlers.ts:67-116 | Appends the step at the claimed tile and coordinates, of the kind and structure asked for, now, holding nothing, and a build to be dispatched by the server unless the player has to place it, unless the tile has an entry or twenty are queued; true if and only if such a step is then queued. |
| `DevQueueRuntime.PlayerRuntime.HandleSetClaim` | apps/simulation/src/runtime-claim-continuation-command-handlers.ts:118-154 | Refused without effect if and only if the table is full and has no entry for the tile; otherwise the claim is recorded, or on an owned frontier tile its first step is queued at its coordinates and the promise kept or ended with it, and a drain follows. Keeps invariant, ledger and every other promise; a claimed structure is promised or its build under way. |
| `DevQueueRuntime.PlayerRuntime.TryDrainClaim` | apps/simulation/src/runtime-claim-continuation-command-handlers.ts:165-184 | The claim's first step is queued at its coordinates, the promise kept or ended with it, and a drain follows; without a claim on the tile nothing changes. Keeps invariant and ledger, loses no entry, and keeps or honours every promise. |
| `DevQueueRuntime.PlayerRuntime.ClearCompletedSettleEntry` | apps/simulation/src/runtime-claim-continuation-command-handlers.ts:94-104 | Exactly the tile's settle entry leaves the queue, with its hold handed back up to the wallet's limit. Keeps invariant and ledger. |
| `DevQueueRuntime.PlayerRuntime.TryDrainBuildTail` | apps/simulation/src/runtime-claim-continuation-command-handlers.ts:193-229 | The tile's garrison entry goes, then the promised build is queued at its coordinates and a drain follows. Keeps invariant and ledger and keeps or honours every promise; the tile's own promise stays if and only if the queue is full, holds no build for the tile, and no online client is to place it. |
| `PlannerKeys.KeyArray.NoDuplicates` | apps/simulation/src/planner-tile-keys-cache.ts:66-103 | A valid key array has no duplicates and its reverse index is the exact inverse. |
| `PlannerKeys.KeyArray.Add` | apps/simulation/src/planner-tile-keys-cache.ts:69-73 | Adds the key to the set the array represents and keeps the reverse index exact. |
| `PlannerKeys.KeyArray.Remove` | apps/simulation/src/planner-tile-keys-cache.ts:79-90 | Swap and pop takes exactly that key out and keeps the reverse index exact. |
| `PlannerKeys.KeyArray.ResetFrom` | apps/simulation/src/planner-tile-keys-cache.ts:96-103 | The array represents exactly the source set. |
| `PlannerKeys.CandidateArrays.ResetFromSummary` | apps/simulation/src/planner-tile-keys-cache.ts:113-117 | The three candidate arrays represent exactly the summary's three sets. |
| `PlannerKeys.CandidateArrays.Mirror` | apps/simulation/src/planner-tile-keys-cache.ts:125-132 | Each affected key is in an array exactly when it is in the summary's set; other keys are left alone. |
| `PlannerKeys.CandidateArrays.MirrorChange` | apps/simulation/src/planner-tile-keys-cache.ts:125-132 | When the affected keys cover the change, mirroring restores agreement with the summary. |
| `PlannerMirror.MirroredPlayer.constructor` | apps/simulation/src/planner-tile-keys-cache.ts:149-170 | The arrays built on first access hold exactly the summary's territory and frontier. |
| `PlannerMirror.MirroredPlayer.ReplaceTile` | apps/simulation/src/runtime/runtime.ts:1669-1691 | An accepted tile write keeps both arrays equal to the summary's sets and the summary equal to a recount; it is accepted if and only if the player's relics then fit. |
| `PlannerMirror.MirroredPlayer.Replay` | apps/simulation/src/runtime/runtime.ts:1669-1691 | Over any run of tile writes, accepted if and only if the player never holds a tenth relic, the arrays hold exactly the tiles the player owns and exactly those it holds as frontier. |
| `PlannerKeys.ReportedOnce` | apps/simulation/src/planner-tile-keys-cache.ts:202-212 | A marked dirty tile is reported by exactly one later export, an unmarked one by none. |
| `PlannerKeys.DirtyTiles.Drain` | apps/simulation/src/planner-tile-keys-cache.ts:207-212 | An export reports exactly the marked tiles and clears them. |
| `PlayerSummaryLaws.RemoveIsExact` | apps/simulation/src/player-runtime-summary.ts:366-396 | Taking a tile out of its owner's exact summary gives the recount of the map without it, and no max-with-zero clamp fires. |
| `PlayerSummaryLaws.ApplyIsExact` | apps/simulation/src/player-runtime-summary.ts:329-364 | Adding an accepted tile to its owner's exact summary gives the recount of the map with it. |
| `PlayerSummaryLaws.RefusedIffOverLimit` | apps/simulation/src/player-runtime-summary.ts:336-340 | A tile is refused if and only if its owner would then hold more than nine relics. |
| `PlayerSummaryLaws.OthersUnaffected` | apps/simulation/src/runtime/runtime.ts:1669-1671 | A tile changes no summary but its owner's. |
| `PlayerSummaryLaws.DetachIsExact` | apps/simulation/src/runtime/runtime.ts:1681-1683 | Taking any tile off the map keeps every player's summary exact. |
| `PlayerSummaryLaws.AttachIsExact` | apps/simulation/src/runtime/runtime.ts:1669-1671 | Putting a tile on the map is accepted if and only if no player then exceeds the relic limit, and exactly then every player's summary stays exact. |
| `PlayerSummaryLaws.RefusedIsInexact` | apps/simulation/src/player-runtime-summary.ts:335-340 | A refused tile leaves its owner's summary inexact: the territory was extended and nothing else. |
| `PlayerSummaryLaws.ReplaceIsExact` | apps/simulation/src/runtime/runtime.ts:1693-1723 | Replacing a tile is accepted if and only if the relics then fit, and exactly then keeps every summary exact. |
| `PlayerSummaryLaws.SummariesStayExact` | apps/simulation/src/runtime/runtime.ts:1693-1723 | Over any run of tile replacements: none is refused if and only if no intermediate map gives a player too many relics, and then every set, map and counter of every player equals a recount of the final tiles. |
| `PlayerSummaryTerms.RecountInTerms` | apps/simulation/src/player-runtime-summary.ts:216-261 | A summary equals the recount exactly if its sets list the tiles they are named for and its counters are the numbers of settled tiles, towns, controlled complexes, fish tiles and structures under construction or removal, and the income of towns by tier, of complexes without a town and of docks with neither. |
| `PlayerSummaryTerms.SummariesReadOffMap` | apps/simulation/src/runtime/runtime.ts:1693-1723 | Over any run of tile replacements: none is refused if and only if no map on the way gives a player a tenth relic, and then every player's summary reads off the final map. |
| `PlayerSummaryRuntime.PlayerSummaryRecord.CountIn` | apps/simulation/src/player-runtime-summary.ts:342-363 | Each counter grows by exactly what the tile adds. |
| `PlayerSummaryRuntime.PlayerSummaryRecord.CountOut` | apps/simulation/src/player-runtime-summary.ts:374-395 | Each counter falls by exactly what the tile added, clamped at zero. |
| `PlayerSummaryRuntime.PlayerSummaryRecord.ApplyTile` | apps/simulation/src/player-runtime-summary.ts:329-364 | The record updated in place equals the summary's apply step; a relic over the limit is refused after the territory was extended. |
| `PlayerSummaryRuntime.PlayerSummaryRecord.RemoveTile` | apps/simulation/src/player-runtime-summary.ts:366-396 | The record updated in place equals the summary's remove step. |
| `PlayerSummaryRuntime.SummaryIndex.SummaryForPlayer` | apps/simulation/src/runtime/runtime.ts:1470-1477 | Creates an empty summary on first use, changing no player's summary. |
| `PlayerSummaryRuntime.SummaryIndex.ReplaceTileState` | apps/simulation/src/runtime/runtime.ts:1693-1723 | A tile write is accepted if and only if no player then holds a tenth relic, and exactly then every player's record lists and counts the tiles of the map: its own, its relics, frontier, operating complexes and town tiers, its settled tiles, towns, complexes, fish tiles, busy structures and income. |
| `Defensibility.ExposedEdgesFor` | apps/simulation/src/player-defensibility-metrics.ts:17-38 | Counts exactly the sides, of the four one column or one row away, whose tile is unknown or is land the player does not hold, settled or, unless only settled land counts, as frontier. |
| `Defensibility.BuildPlayerDefensibilityMetrics` | apps/simulation/src/player-defensibility-metrics.ts:47-99 | The numbers of land tiles the player holds and has settled, at least one each, and the sums of their sides that face open land, over the index or over the whole map; the first sum is zero if it is skipped. |
| `Defensibility.IndexedIsFullScan` | apps/simulation/src/player-defensibility-metrics.ts:76-92 | An index that misses no owned land tile gives the full-scan counts. |
| `Defensibility.SummaryIndexIsFullScan` | apps/simulation/src/player-defensibility-metrics.ts:76-92 | After any run of accepted tile writes the counts over a summary's territory equal those of the full scan. |
| `Defensibility.AtMostFourEdgesPerTile` | apps/simulation/src/player-defensibility-metrics.ts:94-98 | E is at most 4T and Es at most 4Ts, and Ts at most T. |
| `Defensibility.SettledNeighboursShield` | apps/simulation/src/player-defensibility-metrics.ts:23-37 | Between two adjacent settled tiles of one player neither side counts an edge, across the seams as well. |

## Left out

- Everything outside the rules engine: transports, stores, process start-up, dashboards, scripts.
- Command payload parsing, event emission, metrics and logging: parsed payloads are inputs and events are dropped.
- The order in which JavaScript sets and maps list their elements, wherever the result does not depend on it; loops
  over them take any element.
- `emitAutoFillForSettlement` and the reveal deltas around auto-fill (runtime-auto-fill.ts:249 onward).
- Terrain hashes, the placement hash, biome priorities, protected landing keys, the sector listing order and the
  growth comparator of the deposit placement: parameters. The sector order is taken to be total, and where the
  finished map is read off the map before it the growth comparator compares the hash.
- Drains that never end because jobs keep enqueueing jobs for ever: a job's future enqueues are a finite tree.
- Metric hooks of the job queue are taken not to throw.
- How the vision table computes the offsets of a position, and terrain edits that change it while footprints stand:
  the offsets are an arbitrary but fixed function of the position.
- The visibility tracker beyond its counters: transitions and reasons; what territory and the other sources contribute
  is an arbitrary but fixed part of every counter.
- `applyEncirclement`, `clearCutOffFrontierTiles` and the sea-lane release: they rest on `computeEncirclementDeltas`
  and `findStrandedFrontier`, which are not part of this model.
- The settle, build and removal handlers behind the queue's dispatch: dispatch is the entry handed out after its
  refund.
- How a structure's cost, tier and slot requirements are computed: one parameter maps a structure, a tile and the
  queue to a price and its requirements, which name each resource once in the slot theorems.
- DevQueueSlots.RunSlots: supposes that no occupant stands on the tiles builds are enqueued for; with occupants the
  bound is that of `DevQueueSlots.RunSlotsBacked` and `DevQueueSlots.AnyPartIsBacked`.
- The withdrawal of a defeated player, which clears the queue and the claims at once
  (afc-owned-site/afc-withdraw.ts:27-28): runs of queue operations do not contain it.
- Manpower regeneration and spending outside the queue: the ledger follows what the queue's own operations do.
- Commands for players that do not exist: the handlers' guards for a missing player are not modelled.
- The waypoint queue, pending settlements, and snapshots of the summary.
- Summary fields that are constantly zero (strategic production), the town profile and coast maps, and fish food in
  fractions of a unit: fish tiles are counted, and gold rates are exact naturals instead of floating point.
- The normalisation of a tile before it is written (capture holds, war scars, relic activation) and the other caches
  refreshed by the same write.
- The planner export beyond its key arrays and dirty set: versions are passed through unchanged.
- The attack and expand lock ledger, combat, income and plunder formulas, abilities, monuments and modules.
