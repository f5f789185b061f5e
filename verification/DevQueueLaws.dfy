/** The manpower ledger and the slot ledger of the development queue, over any run of operations. */
module DevQueueLaws {
  import opened World
  import opened DevQueue

  // ---------- what every operation keeps ----------

  ghost predicate DistinctTiles(queue: seq<Entry>) {
    forall i, j | 0 <= i < j < |queue| :: queue[i].tileKey != queue[j].tileKey
  }

  predicate SoundEntry(e: Entry) {
    e.reserved >= 0.0 && !(e.reserved > 0.0 && e.awaiting) && (e.awaiting ==> e.kind == Settle)
  }

  ghost predicate SoundQueue(queue: seq<Entry>) {
    DistinctTiles(queue) && |queue| <= DEV_QUEUE_SERVER_CAP && forall e | e in queue :: SoundEntry(e)
  }

  /** One entry per tile, both tables within the cap, no entry both reserved and waiting, no negative wallet. */
  ghost predicate Sound(pl: Player) {
    SoundQueue(pl.queue) && |pl.claims| <= DEV_QUEUE_SERVER_CAP && pl.manpower >= 0.0
  }

  /** Costs and the ceiling are never negative. */
  ghost predicate Sane(c: Conditions) {
    c.settleCost >= 0.0 && c.cap >= 0.0 &&
    forall t, x, y, queue :: c.plan(t, x, y, queue).Some? ==> c.plan(t, x, y, queue).value.cost >= 0.0
  }

  function Held(queue: seq<Entry>): real {
    if queue == [] then 0.0 else queue[0].reserved + Held(queue[1..])
  }

  /** The wallet and everything the queue holds for it. */
  function Total(pl: Player): real {
    pl.manpower + Held(pl.queue)
  }

  // ---------- queue algebra ----------

  lemma {:induction false} HeldAppend(a: seq<Entry>, b: seq<Entry>)
    ensures Held(a + b) == Held(a) + Held(b)
  {
    if a == [] {
      assert a + b == b;
    } else {
      assert (a + b)[1..] == a[1..] + b;
      HeldAppend(a[1..], b);
    }
  }

  lemma HeldRemove(queue: seq<Entry>, i: nat)
    requires i < |queue|
    ensures Held(queue) == queue[i].reserved + Held(queue[..i] + queue[i + 1..])
  {
    HeldAppend(queue[..i], queue[i..]);
    HeldAppend(queue[..i], queue[i + 1..]);
    assert queue == queue[..i] + queue[i..];
    assert queue[i..][1..] == queue[i + 1..];
  }

  lemma {:induction false} WithoutElements(queue: seq<Entry>, key: string)
    ensures forall e :: e in Without(queue, key) <==> e in queue && e.tileKey != key
    ensures |Without(queue, key)| <= |queue|
  {
    if queue != [] {
      assert queue == [queue[0]] + queue[1..];
      WithoutElements(queue[1..], key);
    }
  }

  lemma {:induction false} WithoutMissing(queue: seq<Entry>, key: string)
    requires !HasTile(queue, key)
    ensures Without(queue, key) == queue
  {
    if queue != [] {
      assert queue == [queue[0]] + queue[1..];
      assert forall e | e in queue[1..] :: e in queue;
      WithoutMissing(queue[1..], key);
    }
  }

  lemma HeadIsUnique(queue: seq<Entry>)
    requires DistinctTiles(queue) && queue != []
    ensures DistinctTiles(queue[1..]) && !HasTile(queue[1..], queue[0].tileKey)
  {
    forall e | e in queue[1..] ensures e.tileKey != queue[0].tileKey {
      var j :| 0 <= j < |queue| - 1 && queue[1..][j] == e;
      assert queue[0].tileKey != queue[j + 1].tileKey;
    }
  }

  lemma {:induction false} WithoutDistinct(queue: seq<Entry>, key: string)
    requires DistinctTiles(queue)
    ensures DistinctTiles(Without(queue, key))
  {
    if queue != [] {
      HeadIsUnique(queue);
      WithoutDistinct(queue[1..], key);
      WithoutElements(queue[1..], key);
      var rest := Without(queue[1..], key);
      assert forall j | 0 <= j < |rest| :: rest[j] in rest && rest[j].tileKey != queue[0].tileKey;
    }
  }

  lemma {:induction false} EntryForFinds(queue: seq<Entry>, key: string)
    ensures EntryFor(queue, key).Some? <==> HasTile(queue, key)
    ensures EntryFor(queue, key).Some? ==>
              EntryFor(queue, key).value in queue && EntryFor(queue, key).value.tileKey == key
  {
    if queue != [] {
      assert queue == [queue[0]] + queue[1..];
      EntryForFinds(queue[1..], key);
    }
  }

  /** Removing a tile's entry removes exactly what it held. */
  lemma {:induction false} WithoutHeld(queue: seq<Entry>, key: string)
    requires DistinctTiles(queue)
    ensures Held(Without(queue, key)) ==
            Held(queue) - if EntryFor(queue, key).Some? then EntryFor(queue, key).value.reserved else 0.0
  {
    if queue != [] {
      HeadIsUnique(queue);
      if queue[0].tileKey == key {
        WithoutMissing(queue[1..], key);
        assert Without(queue, key) == queue[1..];
      } else {
        WithoutHeld(queue[1..], key);
        assert Without(queue, key)[1..] == Without(queue[1..], key);
      }
    }
  }

  /** Moving an entry to the front permutes the queue: nothing is added, lost or held differently. */
  lemma MoveToFrontPermutes(queue: seq<Entry>, key: string)
    ensures multiset(MoveToFront(queue, key)) == multiset(queue)
    ensures Held(MoveToFront(queue, key)) == Held(queue)
    ensures HasTile(queue, key) ==> MoveToFront(queue, key)[0].tileKey == key
  {
    var i := IndexOf(queue, key);
    if i == |queue| {
      IndexOfMisses(queue, key);
    } else if i > 0 {
      HeldRemove(queue, i);
      var others := queue[..i] + queue[i + 1..];
      assert MoveToFront(queue, key) == [queue[i]] + others;
      assert queue == queue[..i] + ([queue[i]] + queue[i + 1..]);
    }
  }

  lemma MoveToFrontSound(queue: seq<Entry>, key: string)
    requires SoundQueue(queue)
    ensures SoundQueue(MoveToFront(queue, key))
  {
    var moved := MoveToFront(queue, key);
    MoveToFrontPermutes(queue, key);
    forall e | e in moved ensures e in queue {
      assert e in multiset(moved);
    }
  }

  lemma {:induction false} IndexOfMisses(queue: seq<Entry>, key: string)
    requires IndexOf(queue, key) == |queue|
    ensures !HasTile(queue, key)
  {
    if queue != [] {
      assert queue == [queue[0]] + queue[1..];
      IndexOfMisses(queue[1..], key);
    }
  }

  lemma AppendSound(queue: seq<Entry>, e: Entry)
    requires SoundQueue(queue) && SoundEntry(e)
    ensures SoundQueue(Append(queue, e).0)
    ensures Append(queue, e).1 ==> Held(Append(queue, e).0) == Held(queue) + e.reserved
  {
    if Append(queue, e).1 {
      HeldAppend(queue, [e]);
      forall i | 0 <= i < |queue| ensures queue[i].tileKey != e.tileKey {
        assert queue[i] in queue;
      }
    }
  }

  // ---------- refunds ----------

  /** A clamped refund never mints, loses nothing while it fits under the ceiling, and shrinks the wallet exactly when
      the wallet already stood above the ceiling. */
  lemma RefundLaw(c: Conditions, manpower: real, reserved: real)
    requires Sane(c) && manpower >= 0.0 && reserved >= 0.0
    ensures var m := Refund(c, manpower, reserved);
            && 0.0 <= m <= manpower + reserved
            && (m == manpower + reserved <==> reserved == 0.0 || manpower + reserved <= Ceiling(c))
            && (m < manpower <==> reserved > 0.0 && manpower > Ceiling(c))
  {}

  /** One operation on the ledger: soundness is kept, nothing is minted, and nothing is lost if the total fits. */
  ghost predicate LedgerStep(c: Conditions, pl: Player, pl': Player) {
    && Sound(pl') && Total(pl') <= Total(pl)
    && (Total(pl) <= Ceiling(c) ==> Total(pl') == Total(pl))
  }

  lemma {:induction false} HeldNonNegative(queue: seq<Entry>)
    requires forall e | e in queue :: SoundEntry(e)
    ensures Held(queue) >= 0.0
    ensures forall e | e in queue :: e.reserved <= Held(queue)
  {
    if queue != [] {
      assert queue == [queue[0]] + queue[1..];
      assert queue[0] in queue;
      assert forall e | e in queue[1..] :: e in queue;
      HeldNonNegative(queue[1..]);
    }
  }

  lemma RemovalLedger(c: Conditions, pl: Player, key: string)
    requires Sane(c) && Sound(pl)
    ensures SoundQueue(Without(pl.queue, key))
    ensures LedgerStep(c, pl, CancelEntry(c, pl, key))
  {
    WithoutElements(pl.queue, key);
    WithoutDistinct(pl.queue, key);
    WithoutHeld(pl.queue, key);
    EntryForFinds(pl.queue, key);
    HeldNonNegative(pl.queue);
    if EntryFor(pl.queue, key).Some? {
      RefundLaw(c, pl.manpower, EntryFor(pl.queue, key).value.reserved);
    }
  }

  // ---------- the operations ----------

  lemma AdmitLedger(c: Conditions, pl: Player, paid: Player, e: Entry)
    requires Sane(c) && Sound(pl) && SoundEntry(e)
    requires paid == pl.(manpower := pl.manpower - e.reserved) && paid.manpower >= 0.0
    ensures LedgerStep(c, pl, Admit(c, paid, e).player)
    ensures Admit(c, paid, e).Accepted? ==>
              Total(Admit(c, paid, e).player) == Total(pl) && Admit(c, paid, e).player.queue == pl.queue + [e]
    ensures Admit(c, paid, e).Rejected? ==>
              var m := Admit(c, paid, e).player.manpower;
              Admit(c, paid, e).player == pl.(manpower := m) &&
              (m == pl.manpower <==> e.reserved == 0.0 || pl.manpower <= Ceiling(c))
  {
    AppendSound(pl.queue, e);
    RefundLaw(c, paid.manpower, e.reserved);
    HeldNonNegative(pl.queue);
  }

  /** The enqueue command conserves wallet plus reservations when it accepts. A rejection leaves the queue alone, and
      the wallet too, except that a reservation taken before a full queue is found comes back clamped: the wallet is
      then unchanged exactly when it was not above the ceiling. */
  lemma EnqueueLedger(c: Conditions, pl: Player, p: Payload)
    requires Sane(c) && Sound(pl)
    ensures LedgerStep(c, pl, Enqueue(c, pl, p).player)
    ensures Enqueue(c, pl, p).Accepted? ==>
              var pl' := Enqueue(c, pl, p).player;
              && Total(pl') == Total(pl) && |pl'.queue| == |pl.queue| + 1 && pl'.queue[..|pl.queue|] == pl.queue
              && pl'.queue[|pl.queue|].tileKey == p.tileKey && pl'.claims == pl.claims
              && (pl'.queue[|pl.queue|].awaiting <==> p.kind == Settle && pl.manpower < c.settleCost)
    ensures Enqueue(c, pl, p).Rejected? ==>
              var pl' := Enqueue(c, pl, p).player;
              && pl'.queue == pl.queue && pl'.claims == pl.claims
              && (pl.manpower <= Ceiling(c) ==> pl' == pl)
              && (Enqueue(c, pl, p).code != Full ==> pl' == pl)
  {
    HeldNonNegative(pl.queue);
    if !HasTile(pl.queue, p.tileKey) {
      if IsReservableBuild(p.kind, p.structureType) {
        var est := EstimateBuild(c, p, pl);
        if est.Reserve? {
          AdmitLedger(c, pl, pl.(manpower := Debit(pl.manpower, est.cost)),
                      NewEntry(c, p, est.cost, est.requirements, false));
        }
      } else if p.kind == Settle && EstimateSettle(c, pl.manpower).Reserve? {
        AdmitLedger(c, pl, pl.(manpower := Debit(pl.manpower, c.settleCost)), NewEntry(c, p, c.settleCost, [], false));
      } else {
        assert pl == pl.(manpower := pl.manpower - 0.0);
        AdmitLedger(c, pl, pl, NewEntry(c, p, 0.0, [], p.kind == Settle));
      }
    }
  }

  /** A drain takes at most one entry, and hands back exactly what it held unless a build's refund meets the ceiling. */
  lemma DrainLedger(c: Conditions, pl: Player)
    requires Sane(c) && Sound(pl)
    ensures var (pl', dispatched) := Drain(c, pl);
            && LedgerStep(c, pl, pl') && pl'.claims == pl.claims
            && (dispatched.None? ==> pl' == pl)
            && (dispatched.Some? ==>
                  && dispatched.value in pl.queue && Drains(c, pl.manpower, dispatched.value)
                  && pl'.queue == Without(pl.queue, dispatched.value.tileKey)
                  && (dispatched.value.kind == Settle ==> Total(pl') == Total(pl)))
  {
    var i := FirstDrainable(c, pl.manpower, pl.queue);
    HeldNonNegative(pl.queue);
    if pl.queue != [] && c.slotFree && i < |pl.queue| {
      var e := pl.queue[i];
      assert e in pl.queue;
      HeldRemove(pl.queue, i);
      RemoveAtIsWithout(pl.queue, i);
      WithoutElements(pl.queue, e.tileKey);
      WithoutDistinct(pl.queue, e.tileKey);
      RefundLaw(c, pl.manpower, e.reserved);
    }
  }

  lemma {:induction false} RemoveAtIsWithout(queue: seq<Entry>, i: nat)
    requires DistinctTiles(queue) && i < |queue|
    ensures queue[..i] + queue[i + 1..] == Without(queue, queue[i].tileKey)
  {
    var tail := queue[1..];
    HeadIsUnique(queue);
    if i == 0 {
      WithoutMissing(tail, queue[0].tileKey);
      assert queue[..0] + tail == tail;
    } else {
      RemoveAtIsWithout(tail, i - 1);
      assert queue[0].tileKey != queue[i].tileKey;
      assert queue[..i] + queue[i + 1..] == [queue[0]] + (tail[..i - 1] + tail[i..]);
    }
  }

  /** Handing a self-sent garrison its reservation back never clamps, so nothing is lost. */
  lemma ReleaseLedger(pl: Player, key: string)
    requires Sound(pl)
    ensures Sound(ReleaseSettle(pl, key)) && Total(ReleaseSettle(pl, key)) == Total(pl)
    ensures ReleaseSettle(pl, key) == pl ||
            (!HasTile(ReleaseSettle(pl, key).queue, key) && EntryFor(pl.queue, key).Some? &&
             EntryFor(pl.queue, key).value.kind == Settle)
  {
    WithoutElements(pl.queue, key);
    WithoutDistinct(pl.queue, key);
    WithoutHeld(pl.queue, key);
    EntryForFinds(pl.queue, key);
    HeldNonNegative(pl.queue);
  }

  // ---------- refill ----------

  function Waiting(queue: seq<Entry>): nat {
    if queue == [] then 0 else (if queue[0].awaiting then 1 else 0) + Waiting(queue[1..])
  }

  /** The queue with its first `n` waiting garrisons reserved at cost `cost`. */
  function ReserveFirst(queue: seq<Entry>, n: nat, cost: real): seq<Entry> {
    if queue == [] || n == 0 then queue
    else if queue[0].awaiting then
        [queue[0].(reserved := cost, awaiting := false)] + ReserveFirst(queue[1..], n - 1, cost)
    else [queue[0]] + ReserveFirst(queue[1..], n, cost)
  }

  /** What `n` garrisons cost. */
  function Price(n: nat, cost: real): real {
    if n == 0 then 0.0 else cost + Price(n - 1, cost)
  }

  lemma {:induction false} PriceIsProduct(n: nat, cost: real)
    ensures Price(n, cost) == n as real * cost
  {
    if n > 0 {
      PriceIsProduct(n - 1, cost);
      assert n as real * cost == (n - 1) as real * cost + cost;
    }
  }

  /** `k` is the wallet divided by the cost, rounded down. */
  predicate Quotient(manpower: real, cost: real, k: nat) {
    Price(k, cost) <= manpower < Price(k + 1, cost)
  }

  lemma QuotientIsFloor(manpower: real, cost: real)
    requires manpower >= 0.0 && cost > 0.0
    ensures (manpower / cost).Floor >= 0 && Quotient(manpower, cost, (manpower / cost).Floor)
  {
    var q := manpower / cost;
    var k := q.Floor;
    Scale(q, 0.0, cost);
    PriceBounds(manpower, cost, q, k);
  }

  lemma PriceBounds(manpower: real, cost: real, q: real, k: nat)
    requires cost > 0.0 && q * cost == manpower && k as real <= q < (k + 1) as real
    ensures Quotient(manpower, cost, k)
  {
    var low, high := k as real, (k + 1) as real;
    PriceIsProduct(k, cost);
    PriceIsProduct(k + 1, cost);
    assert Price(k, cost) == low * cost;
    assert Price(k + 1, cost) == high * cost;
    assert low * cost <= q * cost by { Scale(low, q, cost); }
    assert q * cost < high * cost by { Scale(q, high, cost); }
    assert Price(k, cost) <= manpower;
    assert manpower < Price(k + 1, cost);
  }

  lemma Scale(a: real, b: real, f: real)
    requires f > 0.0
    ensures a <= b ==> a * f <= b * f
    ensures a < b ==> a * f < b * f
  {
    assert b * f - a * f == (b - a) * f;
  }

  lemma {:induction false} PriceNonNegative(n: nat, cost: real)
    requires cost >= 0.0
    ensures Price(n, cost) >= 0.0
  {
    if n > 0 {
      PriceNonNegative(n - 1, cost);
    }
  }

  function Min(a: nat, b: nat): nat { if a <= b then a else b }

  /** A refill reserves exactly the first min(waiting, wallet div cost) waiting garrisons, and pays exactly for them. */
  lemma {:induction false} RefillReservesFirst(c: Conditions, manpower: real, queue: seq<Entry>, k: nat)
    requires c.settleCost > 0.0 && manpower >= 0.0 && Quotient(manpower, c.settleCost, k)
    ensures var n := Min(Waiting(queue), k);
            Refill(c, manpower, queue) == (manpower - Price(n, c.settleCost), ReserveFirst(queue, n, c.settleCost))
    decreases |queue|
  {
    var cost := c.settleCost;
    if queue == [] {
    } else if !queue[0].awaiting {
      RefillReservesFirst(c, manpower, queue[1..], k);
      assert [queue[0]] + queue[1..] == queue;
      assert ReserveFirst(queue[1..], 0, cost) == queue[1..];
    } else if k > 0 {
      PriceNonNegative(k - 1, cost);
      RefillReservesFirst(c, manpower - cost, queue[1..], k - 1);
    }
  }

  /** A refill keeps every entry in place, on its tile and sound. */
  lemma {:induction false} RefillKeepsEntries(c: Conditions, manpower: real, queue: seq<Entry>)
    requires c.settleCost >= 0.0
    requires forall e | e in queue :: SoundEntry(e)
    ensures var queue' := Refill(c, manpower, queue).1;
            |queue'| == |queue| && forall i | 0 <= i < |queue| ::
                queue'[i].tileKey == queue[i].tileKey && SoundEntry(queue'[i])
    decreases |queue|
  {
    if queue != [] {
      assert queue[0] in queue;
      RefillKeepsEntries(c, if queue[0].awaiting && manpower >= c.settleCost then
                         Debit(manpower, c.settleCost) else manpower, queue[1..]);
    }
  }

  /** What a refill takes from the wallet it puts into reservations. */
  lemma {:induction false} RefillLedger(c: Conditions, manpower: real, queue: seq<Entry>)
    requires c.settleCost >= 0.0 && manpower >= 0.0
    requires forall e | e in queue :: SoundEntry(e)
    ensures var (m, queue') := Refill(c, manpower, queue);
            m >= 0.0 && m + Held(queue') == manpower + Held(queue)
    decreases |queue|
  {
    if queue != [] {
      assert queue[0] in queue;
      RefillLedger(c, if queue[0].awaiting && manpower >= c.settleCost then
                   Debit(manpower, c.settleCost) else manpower, queue[1..]);
    }
  }

  lemma RefillPlayerLedger(c: Conditions, pl: Player)
    requires Sane(c) && Sound(pl)
    ensures Sound(RefillPlayer(c, pl)) && Total(RefillPlayer(c, pl)) == Total(pl)
  {
    RefillLedger(c, pl.manpower, pl.queue);
    RefillKeepsEntries(c, pl.manpower, pl.queue);
    var queue' := RefillPlayer(c, pl).queue;
    forall e | e in queue' ensures SoundEntry(e) {
      var i :| 0 <= i < |queue'| && queue'[i] == e;
    }
  }
}
