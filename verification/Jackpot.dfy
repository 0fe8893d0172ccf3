/** Jackpot discount offers: every ten daily tickets a buyer takes inside one jackpot cycle unlock
    the next offer. The counter row is read at the start of a purchase and written at its end, so
    the row a purchase has read may be older than the row it updates. */
module Jackpot {
  import opened Wrappers

  const TICKETS_PER_OFFER: nat := 10

  /** A buyer's counter row. */
  datatype Accumulation = Accumulation(cycleDraw: Option<string>, cumulativeCount: nat, lifetimeCount: nat)

  datatype OfferKey = OfferKey(buyer: string, draw: string)

  /** The two tables: one counter row per buyer, and the offers with their unique key. */
  datatype Tables = Tables(rows: map<string, Accumulation>, offers: map<OfferKey, set<nat>>)

  datatype Purchase = Purchase(buyer: string, ticketCount: nat, openDraw: Option<string>)

  datatype Unlock = Unlock(offersUnlocked: nat, weeklyTicketCount: nat, ticketsToNextOffer: nat)

  function TicketsToNextOffer(count: nat): nat {
    var remainder := count % TICKETS_PER_OFFER;
    if remainder == 0 then TICKETS_PER_OFFER else TICKETS_PER_OFFER - remainder
  }

  /** The answer is the distance to the next multiple of ten above the count. */
  lemma NextOfferIsNextMultiple(count: nat)
    ensures 1 <= TicketsToNextOffer(count) <= TICKETS_PER_OFFER
    ensures (count + TicketsToNextOffer(count)) % TICKETS_PER_OFFER == 0
    ensures (count + TicketsToNextOffer(count)) / TICKETS_PER_OFFER == count / TICKETS_PER_OFFER + 1
  {
  }

  function Row(t: Tables, buyer: string): Option<Accumulation> {
    if buyer in t.rows then Some(t.rows[buyer]) else None
  }

  function Offers(t: Tables, buyer: string, draw: string): set<nat> {
    var key := OfferKey(buyer, draw);
    if key in t.offers then t.offers[key] else {}
  }

  predicate InCycle(row: Option<Accumulation>, draw: string) {
    row.Some? && row.value.cycleDraw == Some(draw)
  }

  function CycleCount(row: Option<Accumulation>, draw: string): nat {
    if InCycle(row, draw) then row.value.cumulativeCount else 0
  }

  /** The thresholds from `lo` (exclusive) to `hi` (inclusive). */
  function Range(lo: nat, hi: nat): set<nat> {
    set k: nat | k <= hi && Above(lo, k)
  }

  predicate Above(lo: nat, k: nat) {
    lo < k
  }

  /** Inserts the offers of a range, skipping those already stored. */
  method CreateMany(stored: set<nat>, lo: nat, hi: nat) returns (held: set<nat>, created: nat)
    ensures held == stored + Range(lo, hi)
    ensures created == |held - stored|
  {
    held, created := stored, 0;
    for number := 0 to hi
      invariant held == stored + Range(lo, number)
      invariant created == |held - stored|
    {
      var next := number + 1;
      assert Range(lo, next) == Range(lo, number) + if lo < next then {next} else {};
      if lo < next && next !in held {
        assert held + {next} - stored == (held - stored) + {next};
        held, created := held + {next}, created + 1;
      }
    }
  }

  /** The upsert of the counter row inside an open cycle. */
  function Upsert(row: Option<Accumulation>, n: nat, draw: string, sameCycle: bool): Accumulation {
    match row
    case None => Accumulation(Some(draw), n, n)
    case Some(r) =>
      if sameCycle then r.(cumulativeCount := r.cumulativeCount + n, lifetimeCount := r.lifetimeCount + n)
      else Accumulation(Some(draw), n, r.lifetimeCount + n)
  }

  /** The tables after one purchase that had read `seen` as the buyer's row. */
  function Record(t: Tables, p: Purchase, seen: Option<Accumulation>): Tables {
    match p.openDraw
    case None =>
      var row := match Row(t, p.buyer)
                 case None => Accumulation(None, 0, p.ticketCount)
                 case Some(r) => r.(lifetimeCount := r.lifetimeCount + p.ticketCount);
      t.(rows := t.rows[p.buyer := row])
    case Some(draw) =>
      var row := Upsert(Row(t, p.buyer), p.ticketCount, draw, InCycle(seen, draw));
      var unlocked := Range(CycleCount(seen, draw) / TICKETS_PER_OFFER, row.cumulativeCount / TICKETS_PER_OFFER);
      Tables(t.rows[p.buyer := row],
             t.offers[OfferKey(p.buyer, draw) := Offers(t, p.buyer, draw) + unlocked])
  }

  class JackpotAccumulationService {
    var rows: map<string, Accumulation>
    var offers: map<OfferKey, set<nat>>

    function View(): Tables
      reads this
    {
      Tables(rows, offers)
    }

    constructor ()
      ensures View() == Tables(map[], map[])
    {
      rows, offers := map[], map[];
    }

    method RecordDailyPurchase(p: Purchase, existing: Option<Accumulation>) returns (unlock: Option<Unlock>)
      modifies this
      ensures View() == Record(old(View()), p, existing)
      ensures unlock.Some? <==> p.openDraw.Some?
      ensures unlock.Some? ==>
                var (draw, u) := (p.openDraw.value, unlock.value);
                && u.weeklyTicketCount == rows[p.buyer].cumulativeCount
                && u.ticketsToNextOffer == TicketsToNextOffer(u.weeklyTicketCount)
                && u.offersUnlocked
                   == |Offers(View(), p.buyer, draw) - Offers(old(View()), p.buyer, draw)|
    {
      var stored := Row(View(), p.buyer);
      if p.openDraw.None? {
        var row := if stored.None? then Accumulation(None, 0, p.ticketCount)
                   else stored.value.(lifetimeCount := stored.value.lifetimeCount + p.ticketCount);
        rows := rows[p.buyer := row];
        return None;
      }
      var draw := p.openDraw.value;
      var sameCycle := InCycle(existing, draw);
      var previousCycleCount := if sameCycle then existing.value.cumulativeCount else 0;
      var accum := Upsert(stored, p.ticketCount, draw, sameCycle);
      rows := rows[p.buyer := accum];

      var previousThreshold := previousCycleCount / TICKETS_PER_OFFER;
      var currentThreshold := accum.cumulativeCount / TICKETS_PER_OFFER;
      var held, offersUnlocked := CreateMany(Offers(View(), p.buyer, draw), previousThreshold, currentThreshold);
      offers := offers[OfferKey(p.buyer, draw) := held];
      unlock := Some(Unlock(offersUnlocked, accum.cumulativeCount, TicketsToNextOffer(accum.cumulativeCount)));
    }
  }

  // ---------------------------------------------------------------- offers form a prefix

  lemma {:induction false} RangeSize(k: nat)
    ensures |Range(0, k)| == k
  {
    if k == 0 {
      assert Range(0, 0) == {};
    } else {
      RangeSize(k - 1);
      assert Range(0, k) == Range(0, k - 1) + {k};
    }
  }

  /** Without gaps or duplicates: the offers are 1, 2, ... up to their number. */
  predicate IsPrefix(s: set<nat>) {
    s == Range(0, |s|)
  }

  /** A row that was stored at some earlier time: its cycle's offers have been issued since. */
  predicate Plausible(t: Tables, buyer: string, row: Option<Accumulation>) {
    row.Some? && row.value.cycleDraw.Some? ==>
      row.value.cumulativeCount / TICKETS_PER_OFFER <= |Offers(t, buyer, row.value.cycleDraw.value)|
  }

  ghost predicate Inv(t: Tables) {
    && (forall b, d :: IsPrefix(Offers(t, b, d)))
    && (forall b :: Plausible(t, b, Row(t, b)))
  }

  /** Joining the thresholds from a count that is not above the true one keeps the prefix. */
  lemma PrefixGrows(s: set<nat>, lo: nat, hi: nat)
    requires IsPrefix(s) && lo <= |s|
    ensures IsPrefix(s + Range(lo, hi))
    ensures |s + Range(lo, hi)| == if hi > |s| then hi else |s|
  {
    var top := if hi > |s| then hi else |s|;
    RangeSize(top);
    assert s + Range(lo, hi) == Range(0, top);
  }

  /** The purchase read a row of the open cycle, but by the time it writes, the row counts for a
      different jackpot draw: its tickets are added there without being checked for offers. */
  predicate CycleMoved(t: Tables, p: Purchase, seen: Option<Accumulation>) {
    && p.openDraw.Some? && InCycle(seen, p.openDraw.value)
    && Row(t, p.buyer).Some? && Row(t, p.buyer).value.cycleDraw.Some?
    && !InCycle(Row(t, p.buyer), p.openDraw.value)
  }

  /** The moved row crosses a multiple of ten that no offer was issued for. */
  predicate SkipsOffer(t: Tables, p: Purchase, seen: Option<Accumulation>) {
    && CycleMoved(t, p, seen)
    && var row := t.rows[p.buyer];
       (row.cumulativeCount + p.ticketCount) / TICKETS_PER_OFFER > |Offers(t, p.buyer, row.cycleDraw.value)|
  }

  /** However stale the row a purchase has read, no offer is ever withdrawn or issued out of
      order, and the rows other purchases have read stay plausible. */
  lemma PurchaseKeepsPrefix(t: Tables, p: Purchase, seen: Option<Accumulation>)
    requires Inv(t) && Plausible(t, p.buyer, seen)
    ensures forall b, d :: IsPrefix(Offers(Record(t, p, seen), b, d))
    ensures forall b, d :: Offers(t, b, d) <= Offers(Record(t, p, seen), b, d)
    ensures forall b, row :: Plausible(t, b, row) ==> Plausible(Record(t, p, seen), b, row)
  {
    var t' := Record(t, p, seen);
    forall b, d
      ensures IsPrefix(Offers(t', b, d)) && Offers(t, b, d) <= Offers(t', b, d)
      ensures |Offers(t, b, d)| <= |Offers(t', b, d)|
    {
      assert IsPrefix(Offers(t, b, d));
      if p.openDraw == Some(d) && b == p.buyer {
        PrefixGrows(Offers(t, b, d), CycleCount(seen, d) / TICKETS_PER_OFFER,
                    t'.rows[b].cumulativeCount / TICKETS_PER_OFFER);
      } else {
        assert Offers(t', b, d) == Offers(t, b, d);
      }
    }
  }

  /** The counter stays in step with the offers exactly when the purchase does not skip one. */
  lemma InvariantKeptIff(t: Tables, p: Purchase, seen: Option<Accumulation>)
    requires Inv(t) && Plausible(t, p.buyer, seen)
    ensures Inv(Record(t, p, seen)) <==> !SkipsOffer(t, p, seen)
  {
    var t' := Record(t, p, seen);
    PurchaseKeepsPrefix(t, p, seen);
    forall b | b != p.buyer ensures Plausible(t', b, Row(t', b)) {
      assert Plausible(t, b, Row(t, b)) && Row(t', b) == Row(t, b);
    }
    var (b, stored, row) := (p.buyer, Row(t, p.buyer), t'.rows[p.buyer]);
    assert Plausible(t, b, stored) && Row(t', b) == Some(row);
    if p.openDraw.Some? && row.cycleDraw == p.openDraw {
      var d := p.openDraw.value;
      assert IsPrefix(Offers(t, b, d));
      PrefixGrows(Offers(t, b, d), CycleCount(seen, d) / TICKETS_PER_OFFER, row.cumulativeCount / TICKETS_PER_OFFER);
      assert Plausible(t', b, Some(row)) && !SkipsOffer(t, p, seen);
    } else if p.openDraw.Some? {
      var d := row.cycleDraw;
      assert CycleMoved(t, p, seen) <==> d.Some?;
      assert d.Some? ==> Offers(t', b, d.value) == Offers(t, b, d.value);
      assert Plausible(t', b, Some(row)) <==> !SkipsOffer(t, p, seen);
    }
  }

  /** A purchase touches no other buyer, and no offer of another draw; with no jackpot open it counts for
      nothing but the buyer's lifetime. */
  lemma PurchaseTouches(t: Tables, p: Purchase, seen: Option<Accumulation>)
    ensures var t' := Record(t, p, seen);
            && (forall b :: b != p.buyer ==> Row(t', b) == Row(t, b))
            && (forall b, d :: b != p.buyer || p.openDraw != Some(d) ==> Offers(t', b, d) == Offers(t, b, d))
            && Row(t', p.buyer).Some?
            && (p.openDraw.None? ==>
                  Row(t', p.buyer).value.cumulativeCount == (if Row(t, p.buyer).Some? then Row(t, p.buyer).value.cumulativeCount else 0))
            && Row(t', p.buyer).value.lifetimeCount
               == (if Row(t, p.buyer).Some? then Row(t, p.buyer).value.lifetimeCount else 0) + p.ticketCount
  {
  }

  /** One purchase of a run; the row it reads is the one stored after `readAt` earlier purchases. */
  datatype Event = Event(purchase: Purchase, readAt: nat)

  ghost predicate IsRun(states: seq<Tables>, events: seq<Event>) {
    && |states| == |events| + 1
    && states[0] == Tables(map[], map[])
    && forall i :: 0 <= i < |events| ==> StepAt(states, events, i)
  }

  ghost predicate StepAt(states: seq<Tables>, events: seq<Event>, i: nat)
    requires i < |events| && |states| == |events| + 1
  {
    && events[i].readAt <= i
    && states[i + 1] == Record(states[i], events[i].purchase, SeenAt(states, events, i))
  }

  function SeenAt(states: seq<Tables>, events: seq<Event>, i: nat): Option<Accumulation>
    requires i < |events| && |states| == |events| + 1 && events[i].readAt <= i
  {
    Row(states[events[i].readAt], events[i].purchase.buyer)
  }

  /** Over a whole run of concurrent purchases, none of which skips an offer in a moved cycle, every
      buyer's offers for every draw are exactly 1, 2, ..., k, however stale the rows that were read. */
  lemma {:induction false} OffersArePrefixesInEveryRun(states: seq<Tables>, events: seq<Event>, n: nat)
    requires IsRun(states, events) && n <= |events|
    requires forall i :: 0 <= i < n && StepAt(states, events, i) ==>
               !SkipsOffer(states[i], events[i].purchase, SeenAt(states, events, i))
    ensures Inv(states[n])
    ensures forall m, b :: 0 <= m <= n ==> Plausible(states[n], b, Row(states[m], b))
  {
    if n > 0 {
      OffersArePrefixesInEveryRun(states, events, n - 1);
      assert StepAt(states, events, n - 1);
      var (t, p, seen) := (states[n - 1], events[n - 1].purchase, SeenAt(states, events, n - 1));
      PurchaseKeepsPrefix(t, p, seen);
      InvariantKeptIff(t, p, seen);
      forall m, b | 0 <= m <= n ensures Plausible(states[n], b, Row(states[m], b)) {
        if m < n {
          assert Plausible(t, b, Row(states[m], b));
        }
      }
    }
  }

  /** The purchase issues offers, and the first of them is not the next one: what was read counts for
      more offers than there are. */
  predicate JumpsOffer(t: Tables, p: Purchase, seen: Option<Accumulation>) {
    && p.openDraw.Some?
    && var draw := p.openDraw.value;
       var from := CycleCount(seen, draw) / TICKETS_PER_OFFER;
       |Offers(t, p.buyer, draw)| < from
       < Upsert(Row(t, p.buyer), p.ticketCount, draw, InCycle(seen, draw)).cumulativeCount / TICKETS_PER_OFFER
  }

  ghost predicate PrefixesOnly(t: Tables) {
    forall b, d :: IsPrefix(Offers(t, b, d))
  }

  lemma PrefixHasAll(s: set<nat>, k: nat, hi: nat)
    requires IsPrefix(s) && hi in s && 0 < k <= hi
    ensures k in s
  {
    assert hi in Range(0, |s|) && k in Range(0, |s|);
  }

  lemma PrefixBreaksIff(s: set<nat>, lo: nat, hi: nat)
    requires IsPrefix(s)
    ensures IsPrefix(s + Range(lo, hi)) <==> lo <= |s| || hi <= lo
  {
    if lo <= |s| {
      PrefixGrows(s, lo, hi);
    } else if hi <= lo {
      assert Range(lo, hi) == {} && s + {} == s;
    } else {
      var k := |s| + 1;
      var all := s + Range(lo, hi);
      assert k !in s && k !in Range(lo, hi) && hi in all;
      if IsPrefix(all) {
        PrefixHasAll(all, k, hi);
      }
    }
  }

  /** The offers stay gap-free prefixes exactly when the purchase does not jump over one. Nothing is
      asked of the counters. */
  lemma PrefixesKeptIff(t: Tables, p: Purchase, seen: Option<Accumulation>)
    requires PrefixesOnly(t)
    ensures PrefixesOnly(Record(t, p, seen)) <==> !JumpsOffer(t, p, seen)
  {
    var t' := Record(t, p, seen);
    if p.openDraw.Some? {
      var (b, d) := (p.buyer, p.openDraw.value);
      assert forall b', d' :: OfferKey(b', d') != OfferKey(b, d) ==> Offers(t', b', d') == Offers(t, b', d');
      assert IsPrefix(Offers(t, b, d));
      PrefixBreaksIff(Offers(t, b, d), CycleCount(seen, d) / TICKETS_PER_OFFER, t'.rows[b].cumulativeCount / TICKETS_PER_OFFER);
      assert JumpsOffer(t, p, seen) <==> !IsPrefix(Offers(t', b, d));
    } else {
      assert forall b', d' :: Offers(t', b', d') == Offers(t, b', d');
    }
  }

  /** Over any run: the offers are prefixes after every purchase exactly when no purchase jumped. */
  lemma {:induction false} PrefixesInRunIff(states: seq<Tables>, events: seq<Event>, n: nat)
    requires IsRun(states, events) && n <= |events|
    ensures (forall m :: 0 <= m <= n ==> PrefixesOnly(states[m])) <==> (forall i :: 0 <= i < n ==> !JumpsAt(states, events, i))
  {
    if n > 0 {
      PrefixesInRunIff(states, events, n - 1);
      if forall m :: 0 <= m <= n - 1 ==> PrefixesOnly(states[m]) {
        PrefixesStep(states, events, n - 1);
      }
    }
  }

  lemma PrefixesStep(states: seq<Tables>, events: seq<Event>, i: nat)
    requires IsRun(states, events) && i < |events| && PrefixesOnly(states[i])
    ensures PrefixesOnly(states[i + 1]) <==> !JumpsAt(states, events, i)
  {
    assert StepAt(states, events, i);
    PrefixesKeptIff(states[i], events[i].purchase, SeenAt(states, events, i));
  }

  ghost predicate JumpsAt(states: seq<Tables>, events: seq<Event>, i: nat)
    requires i < |events| && |states| == |events| + 1
  {
    StepAt(states, events, i) && JumpsOffer(states[i], events[i].purchase, SeenAt(states, events, i))
  }

  /** The moved cycle is a real gap: with three purchases of one buyer the second offer of a draw
      is issued and the first never is. */
  lemma MovedCycleLosesAnOffer(buyer: string, d: string, e: string)
    requires d != e
    ensures var t0 := Tables(map[], map[]);
            var t1 := Record(t0, Purchase(buyer, 1, Some(d)), None);
            var t2 := Record(t1, Purchase(buyer, 9, Some(e)), Row(t1, buyer));
            var t3 := Record(t2, Purchase(buyer, 1, Some(d)), Row(t1, buyer));
            var t4 := Record(t3, Purchase(buyer, 10, Some(e)), Row(t3, buyer));
            && CycleMoved(t2, Purchase(buyer, 1, Some(d)), Row(t1, buyer))
            && Offers(t4, buyer, e) == {2}
  {
    var t1 := Record(Tables(map[], map[]), Purchase(buyer, 1, Some(d)), None);
    var t2 := Record(t1, Purchase(buyer, 9, Some(e)), Row(t1, buyer));
    assert Range(0, 0) == {} && t2.rows[buyer] == Accumulation(Some(e), 9, 10);
    var t3 := Record(t2, Purchase(buyer, 1, Some(d)), Row(t1, buyer));
    assert t3.rows[buyer] == Accumulation(Some(e), 10, 11) && Offers(t3, buyer, e) == {};
    assert Range(1, 2) == {2};
  }

  // ---------------------------------------------------------------- exactly one offer per ten tickets

  /** The buyer has one offer for every ten tickets of the current cycle. */
  predicate Exact(t: Tables, buyer: string) {
    var row := Row(t, buyer);
    row.Some? && row.value.cycleDraw.Some? ==>
      |Offers(t, buyer, row.value.cycleDraw.value)| == row.value.cumulativeCount / TICKETS_PER_OFFER
  }

  /** When a purchase keeps the count exact: it continues the cycle its row is in; or it opens a
      cycle that has no more offers yet than it earns; or its row has moved to another cycle
      and stays below that cycle's next multiple of ten. */
  predicate KeepsExact(t: Tables, p: Purchase, seen: Option<Accumulation>) {
    match p.openDraw
    case None => true
    case Some(draw) =>
      var stored := Row(t, p.buyer);
      if stored.Some? && InCycle(seen, draw) then
        || InCycle(stored, draw)
        || stored.value.cycleDraw.None?
        || (stored.value.cumulativeCount + p.ticketCount) / TICKETS_PER_OFFER
           == stored.value.cumulativeCount / TICKETS_PER_OFFER
      else
        |Offers(t, p.buyer, draw)| <= p.ticketCount / TICKETS_PER_OFFER
  }

  lemma ExactKeptIff(t: Tables, p: Purchase, seen: Option<Accumulation>)
    requires Inv(t) && Plausible(t, p.buyer, seen) && Exact(t, p.buyer)
    ensures Exact(Record(t, p, seen), p.buyer) <==> KeepsExact(t, p, seen)
  {
    if p.openDraw.Some? {
      var (b, d) := (p.buyer, p.openDraw.value);
      var row := Record(t, p, seen).rows[b];
      assert IsPrefix(Offers(t, b, d));
      PrefixGrows(Offers(t, b, d), CycleCount(seen, d) / TICKETS_PER_OFFER, row.cumulativeCount / TICKETS_PER_OFFER);
    }
  }

  /** A purchase that keeps its own buyer's count exact skips no offer. */
  lemma ExactSkipsNothing(t: Tables, p: Purchase, seen: Option<Accumulation>)
    requires Exact(t, p.buyer) && KeepsExact(t, p, seen)
    ensures !SkipsOffer(t, p, seen)
  {
  }

  lemma OtherBuyersExact(t: Tables, p: Purchase, seen: Option<Accumulation>, buyer: string)
    requires buyer != p.buyer
    ensures Exact(Record(t, p, seen), buyer) <==> Exact(t, buyer)
  {
    var t' := Record(t, p, seen);
    assert Row(t', buyer) == Row(t, buyer) && forall d :: Offers(t', buyer, d) == Offers(t, buyer, d);
  }

  ghost predicate AllExact(t: Tables) {
    forall b :: Exact(t, b)
  }

  /** Over any run of concurrent purchases: after every one of them each buyer has an offer for every
      ten tickets of the current cycle, exactly when every purchase kept its own buyer's count. */
  lemma {:induction false} ExactInRunIff(states: seq<Tables>, events: seq<Event>, n: nat)
    requires IsRun(states, events) && n <= |events|
    ensures (forall m :: 0 <= m <= n ==> AllExact(states[m])) <==> (forall i :: 0 <= i < n ==> KeepsExactAt(states, events, i))
    ensures (forall m :: 0 <= m <= n ==> AllExact(states[m])) ==> forall i :: 0 <= i < n ==> SkipsNothingAt(states, events, i)
  {
    if n > 0 {
      ExactInRunIff(states, events, n - 1);
      if forall m :: 0 <= m <= n - 1 ==> AllExact(states[m]) {
        ExactStep(states, events, n - 1);
      }
    }
  }

  ghost predicate KeepsExactAt(states: seq<Tables>, events: seq<Event>, i: nat)
    requires i < |events| && |states| == |events| + 1
  {
    StepAt(states, events, i) && KeepsExact(states[i], events[i].purchase, SeenAt(states, events, i))
  }

  ghost predicate SkipsNothingAt(states: seq<Tables>, events: seq<Event>, i: nat)
    requires i < |events| && |states| == |events| + 1
  {
    StepAt(states, events, i) ==> !SkipsOffer(states[i], events[i].purchase, SeenAt(states, events, i))
  }

  lemma ExactStep(states: seq<Tables>, events: seq<Event>, i: nat)
    requires IsRun(states, events) && i < |events| && AllExact(states[i])
    requires forall k :: 0 <= k < i ==> SkipsNothingAt(states, events, k)
    ensures AllExact(states[i + 1]) <==> KeepsExactAt(states, events, i)
    ensures AllExact(states[i + 1]) ==> SkipsNothingAt(states, events, i)
  {
    assert StepAt(states, events, i);
    assert forall k :: 0 <= k < i && StepAt(states, events, k) ==> SkipsNothingAt(states, events, k);
    OffersArePrefixesInEveryRun(states, events, i);
    PurchaseIsExactIff(states[i], events[i].purchase, SeenAt(states, events, i));
  }

  lemma PurchaseIsExactIff(t: Tables, p: Purchase, seen: Option<Accumulation>)
    requires Inv(t) && Plausible(t, p.buyer, seen) && AllExact(t)
    ensures AllExact(Record(t, p, seen)) <==> KeepsExact(t, p, seen)
    ensures AllExact(Record(t, p, seen)) ==> !SkipsOffer(t, p, seen)
  {
    assert Exact(t, p.buyer);
    ExactKeptIff(t, p, seen);
    forall b | b != p.buyer ensures Exact(Record(t, p, seen), b) {
      OtherBuyersExact(t, p, seen, b);
    }
    if KeepsExact(t, p, seen) {
      ExactSkipsNothing(t, p, seen);
    }
    assert AllExact(Record(t, p, seen)) ==> Exact(Record(t, p, seen), p.buyer);
  }

  /** The tickets a buyer takes between two points of a run. */
  function Bought(events: seq<Event>, buyer: string, from: nat, upTo: nat): nat
    requires from <= upTo <= |events|
    decreases upTo
  {
    if from == upTo then 0
    else
      var p := events[upTo - 1].purchase;
      Bought(events, buyer, from, upTo - 1) + if p.buyer == buyer then p.ticketCount else 0
  }

  /** Over any run, however stale the reads and whatever moves, the lifetime count is the number of
      tickets the buyer has bought. */
  lemma {:induction false} LifetimeIsAllBought(states: seq<Tables>, events: seq<Event>, buyer: string, n: nat)
    requires IsRun(states, events) && n <= |events|
    ensures (if Row(states[n], buyer).Some? then Row(states[n], buyer).value.lifetimeCount else 0) == Bought(events, buyer, 0, n)
  {
    if n > 0 {
      LifetimeIsAllBought(states, events, buyer, n - 1);
      assert StepAt(states, events, n - 1);
      PurchaseTouches(states[n - 1], events[n - 1].purchase, SeenAt(states, events, n - 1));
    }
  }

  /** Batching is irrelevant under stale reads as well. Once a buyer's row is in a cycle with the
      offers it has earned, purchases for that cycle that read the row anywhere from there on, in any
      batches and interleaved with anybody else's, count every ticket and leave exactly the offers
      that the count earns. */
  lemma {:induction false} StaleBatching(states: seq<Tables>, events: seq<Event>, buyer: string, draw: string, from: nat, n: nat)
    requires IsRun(states, events) && from <= n <= |events|
    requires InCycle(Row(states[from], buyer), draw)
    requires Offers(states[from], buyer, draw) == Range(0, CycleCount(Row(states[from], buyer), draw) / TICKETS_PER_OFFER)
    requires forall i :: from <= i < n && events[i].purchase.buyer == buyer ==>
               events[i].purchase.openDraw == Some(draw) && events[i].readAt >= from
    ensures forall m :: from <= m <= n ==>
              && InCycle(Row(states[m], buyer), draw)
              && CycleCount(Row(states[m], buyer), draw) == CycleCount(Row(states[from], buyer), draw) + Bought(events, buyer, from, m)
              && CycleCount(Row(states[m], buyer), draw) <= CycleCount(Row(states[n], buyer), draw)
              && Offers(states[m], buyer, draw) == Range(0, CycleCount(Row(states[m], buyer), draw) / TICKETS_PER_OFFER)
    decreases n
  {
    if from < n {
      StaleBatching(states, events, buyer, draw, from, n - 1);
      assert StepAt(states, events, n - 1);
      var (t, p, seen) := (states[n - 1], events[n - 1].purchase, SeenAt(states, events, n - 1));
      if p.buyer == buyer {
        InCyclePurchase(t, p, seen, draw);
      } else {
        assert Row(states[n], buyer) == Row(t, buyer) && Offers(states[n], buyer, draw) == Offers(t, buyer, draw);
      }
    }
  }

  lemma InCyclePurchase(t: Tables, p: Purchase, seen: Option<Accumulation>, draw: string)
    requires p.openDraw == Some(draw) && InCycle(Row(t, p.buyer), draw) && InCycle(seen, draw)
    requires CycleCount(seen, draw) <= CycleCount(Row(t, p.buyer), draw)
    requires Offers(t, p.buyer, draw) == Range(0, CycleCount(Row(t, p.buyer), draw) / TICKETS_PER_OFFER)
    ensures var t' := Record(t, p, seen);
            && InCycle(Row(t', p.buyer), draw)
            && CycleCount(Row(t', p.buyer), draw) == CycleCount(Row(t, p.buyer), draw) + p.ticketCount
            && Offers(t', p.buyer, draw) == Range(0, CycleCount(Row(t', p.buyer), draw) / TICKETS_PER_OFFER)
  {
    var (lo, mid) := (CycleCount(seen, draw) / TICKETS_PER_OFFER, CycleCount(Row(t, p.buyer), draw) / TICKETS_PER_OFFER);
    var hi := (CycleCount(Row(t, p.buyer), draw) + p.ticketCount) / TICKETS_PER_OFFER;
    assert lo <= mid <= hi;
    assert Range(0, mid) + Range(lo, hi) == Range(0, hi);
  }

  function Total(batches: seq<nat>): nat {
    if batches == [] then 0 else Total(batches[..|batches| - 1]) + batches[|batches| - 1]
  }

  /** One buyer's purchases in one cycle, each reading the row the previous one left. */
  function BuyAll(t: Tables, buyer: string, draw: string, batches: seq<nat>): Tables {
    if batches == [] then t
    else
      var t' := BuyAll(t, buyer, draw, batches[..|batches| - 1]);
      Record(t', Purchase(buyer, batches[|batches| - 1], Some(draw)), Row(t', buyer))
  }

  /** Batching is irrelevant: only the number of tickets bought in the cycle decides the offers. */
  lemma {:induction false} BatchingIsIrrelevant(t: Tables, buyer: string, draw: string, batches: seq<nat>)
    requires Offers(t, buyer, draw) == {} && !InCycle(Row(t, buyer), draw) && batches != []
    ensures var t' := BuyAll(t, buyer, draw, batches);
            && Offers(t', buyer, draw) == Range(0, Total(batches) / TICKETS_PER_OFFER)
            && InCycle(Row(t', buyer), draw) && CycleCount(Row(t', buyer), draw) == Total(batches)
  {
    var init := batches[..|batches| - 1];
    if init == [] {
      assert BuyAll(t, buyer, draw, init) == t && Total(init) == 0;
    } else {
      BatchingIsIrrelevant(t, buyer, draw, init);
    }
    assert Range(0, Total(init) / TICKETS_PER_OFFER)
           + Range(Total(init) / TICKETS_PER_OFFER, Total(batches) / TICKETS_PER_OFFER)
           == Range(0, Total(batches) / TICKETS_PER_OFFER);
    assert Range(0, 0) == {};
  }
}
