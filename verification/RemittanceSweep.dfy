/** The sweep that writes an agent's day: what was sold, what the agent kept and paid out, and what
    is due, once per agent and day. */
module RemittanceSweep {
  import opened Wrappers
  import opened Sums
  import Remittance
  import RemittanceLaws

  /** A cash sale; `backed` says that its collection journal touches the agent's receivable. */
  datatype Payment = Payment(agent: string, amount: int, agentCash: bool, confirmed: bool, confirmedAt: int, backed: bool)

  datatype Ticket = Ticket(payment: nat, agent: Option<string>, jackpot: bool, faceValue: int)

  /** A prize claim; `viaWallet` says that its payout journal did not go through the receivable. */
  datatype Claim = Claim(paidBy: Option<string>, paidAt: int, net: int, viaWallet: bool)

  datatype Window = Window(period: int, startUtc: int, endUtc: int)

  datatype Tally = Tally(standardTickets: int, jackpotTickets: int, standardSales: int, jackpotSales: int)

  datatype Record = Record(agent: string, period: int, tally: Tally, commission: int, winnings: int, amountDue: int)

  datatype Tables = Tables(payments: seq<Payment>, tickets: seq<Ticket>, claims: seq<Claim>)

  // ---------------------------------------------------------------- what counts

  predicate CountedPayment(w: Window, p: Payment) {
    p.agentCash && p.confirmed && w.startUtc <= p.confirmedAt < w.endUtc && p.backed
  }

  predicate Counted(d: Tables, w: Window, t: Ticket) {
    t.agent.Some? && t.payment < |d.payments| && CountedPayment(w, d.payments[t.payment])
  }

  predicate CountedClaim(w: Window, c: Claim) {
    c.paidBy.Some? && w.startUtc <= c.paidAt < w.endUtc && !c.viaWallet
  }

  function FaceIf(d: Tables, w: Window, agent: string, jackpot: bool): Ticket -> int {
    (t: Ticket) => if Counted(d, w, t) && t.agent == Some(agent) && t.jackpot == jackpot then t.faceValue else 0
  }

  function OneIf(d: Tables, w: Window, agent: string, jackpot: bool): Ticket -> int {
    (t: Ticket) => if Counted(d, w, t) && t.agent == Some(agent) && t.jackpot == jackpot then 1 else 0
  }

  function NetIf(w: Window, agent: string): Claim -> int {
    (c: Claim) => if CountedClaim(w, c) && c.paidBy == Some(agent) then c.net else 0
  }

  function Sold(d: Tables, w: Window, agent: string, jackpot: bool): int {
    Sum(d.tickets, FaceIf(d, w, agent, jackpot))
  }

  function TicketsSold(d: Tables, w: Window, agent: string, jackpot: bool): int {
    Sum(d.tickets, OneIf(d, w, agent, jackpot))
  }

  function PaidOut(d: Tables, w: Window, agent: string): int {
    Sum(d.claims, NetIf(w, agent))
  }

  function TallyOf(d: Tables, w: Window, agent: string): Tally {
    Tally(TicketsSold(d, w, agent, false), TicketsSold(d, w, agent, true), Sold(d, w, agent, false), Sold(d, w, agent, true))
  }

  /** The whole naira of an agent's share. */
  function Share(gross: int, rate: real): int {
    (gross as real * rate).Floor
  }

  /** The day of an agent who keeps `rate` of the sales. */
  function RecordOf(d: Tables, w: Window, agent: string, rate: real): Record {
    var tally := TallyOf(d, w, agent);
    var gross := tally.standardSales + tally.jackpotSales;
    var commission := Share(gross, rate);
    Record(agent, w.period, tally, commission, PaidOut(d, w, agent), gross - commission - PaidOut(d, w, agent))
  }

  /** The agents with a sale or a prize that counts. */
  predicate Active(d: Tables, w: Window, agent: string) {
    || (exists k :: 0 <= k < |d.tickets| && Counted(d, w, d.tickets[k]) && d.tickets[k].agent == Some(agent))
    || (exists k :: 0 <= k < |d.claims| && CountedClaim(w, d.claims[k]) && d.claims[k].paidBy == Some(agent))
  }

  predicate Filed(records: seq<Record>, agent: string, period: int) {
    exists i :: 0 <= i < |records| && records[i].agent == agent && records[i].period == period
  }

  predicate OneADay(records: seq<Record>) {
    forall i, j :: 0 <= i < j < |records| ==> (records[i].agent, records[i].period) != (records[j].agent, records[j].period)
  }

  // ---------------------------------------------------------------- what GROUP BY returns

  datatype SoldRow = SoldRow(agent: string, jackpot: bool, sales: int, count: int)
  datatype PayoutRow = PayoutRow(agent: string, net: int)

  predicate HasSoldRow(rows: seq<SoldRow>, agent: string, jackpot: bool) {
    exists i :: 0 <= i < |rows| && rows[i].agent == agent && rows[i].jackpot == jackpot
  }

  predicate HasPayoutRow(rows: seq<PayoutRow>, agent: string) {
    exists i :: 0 <= i < |rows| && rows[i].agent == agent
  }

  ghost predicate IsSoldGrouping(d: Tables, w: Window, rows: seq<SoldRow>) {
    && (forall i, j :: 0 <= i < j < |rows| ==> (rows[i].agent, rows[i].jackpot) != (rows[j].agent, rows[j].jackpot))
    && (forall i :: 0 <= i < |rows| ==>
          && rows[i].sales == Sold(d, w, rows[i].agent, rows[i].jackpot)
          && rows[i].count == TicketsSold(d, w, rows[i].agent, rows[i].jackpot)
          && Active(d, w, rows[i].agent))
    && (forall k :: 0 <= k < |d.tickets| && Counted(d, w, d.tickets[k]) ==>
          HasSoldRow(rows, d.tickets[k].agent.value, d.tickets[k].jackpot))
  }

  ghost predicate IsPayoutGrouping(d: Tables, w: Window, rows: seq<PayoutRow>) {
    && (forall i, j :: 0 <= i < j < |rows| ==> rows[i].agent != rows[j].agent)
    && (forall i :: 0 <= i < |rows| ==> rows[i].net == PaidOut(d, w, rows[i].agent) && Active(d, w, rows[i].agent))
    && (forall k :: 0 <= k < |d.claims| && CountedClaim(w, d.claims[k]) ==> HasPayoutRow(rows, d.claims[k].paidBy.value))
  }

  /** No row means nothing to count. */
  lemma NothingSold(d: Tables, w: Window, rows: seq<SoldRow>, agent: string, jackpot: bool)
    requires IsSoldGrouping(d, w, rows) && !HasSoldRow(rows, agent, jackpot)
    ensures Sold(d, w, agent, jackpot) == 0 && TicketsSold(d, w, agent, jackpot) == 0
  {
    SumZero(d.tickets, FaceIf(d, w, agent, jackpot));
    SumZero(d.tickets, OneIf(d, w, agent, jackpot));
  }

  lemma NothingPaid(d: Tables, w: Window, rows: seq<PayoutRow>, agent: string)
    requires IsPayoutGrouping(d, w, rows) && !HasPayoutRow(rows, agent)
    ensures PaidOut(d, w, agent) == 0
  {
    SumZero(d.claims, NetIf(w, agent));
  }

  // ---------------------------------------------------------------- the tick

  /** The running tally of an agent after the first `n` rows. */
  predicate Tallied(d: Tables, w: Window, rows: seq<SoldRow>, n: nat, tallies: map<string, Tally>, agent: string)
    requires n <= |rows|
  {
    var tally := if agent in tallies then tallies[agent] else Tally(0, 0, 0, 0);
    && (agent in tallies <==> HasSoldRow(rows[..n], agent, true) || HasSoldRow(rows[..n], agent, false))
    && tally.standardSales == (if HasSoldRow(rows[..n], agent, false) then Sold(d, w, agent, false) else 0)
    && tally.standardTickets == (if HasSoldRow(rows[..n], agent, false) then TicketsSold(d, w, agent, false) else 0)
    && tally.jackpotSales == (if HasSoldRow(rows[..n], agent, true) then Sold(d, w, agent, true) else 0)
    && tally.jackpotTickets == (if HasSoldRow(rows[..n], agent, true) then TicketsSold(d, w, agent, true) else 0)
  }

  lemma OneMoreSoldRow(rows: seq<SoldRow>, n: nat, agent: string, jackpot: bool)
    requires n < |rows|
    ensures HasSoldRow(rows[..n + 1], agent, jackpot) <==>
              HasSoldRow(rows[..n], agent, jackpot) || (rows[n].agent == agent && rows[n].jackpot == jackpot)
  {
    assert rows[..n + 1][n] == rows[n];
    assert forall i :: 0 <= i < n ==> rows[..n + 1][i] == rows[..n][i];
  }

  method TallySales(ghost d: Tables, ghost w: Window, sold: seq<SoldRow>) returns (tallies: map<string, Tally>)
    requires IsSoldGrouping(d, w, sold)
    ensures forall agent :: Tallied(d, w, sold, |sold|, tallies, agent)
  {
    tallies := map[];
    for i := 0 to |sold|
      invariant forall agent :: Tallied(d, w, sold, i, tallies, agent)
    {
      var row := sold[i];
      ghost var before := tallies;
      ghost var next := i + 1;
      assert Tallied(d, w, sold, i, before, row.agent);
      var tally := if row.agent in tallies then tallies[row.agent] else Tally(0, 0, 0, 0);
      if row.jackpot {
        tally := tally.(jackpotTickets := tally.jackpotTickets + row.count, jackpotSales := tally.jackpotSales + row.sales);
      } else {
        tally := tally.(standardTickets := tally.standardTickets + row.count, standardSales := tally.standardSales + row.sales);
      }
      tallies := tallies[row.agent := tally];
      assert !HasSoldRow(sold[..i], row.agent, row.jackpot);
      forall agent ensures Tallied(d, w, sold, next, tallies, agent) {
        assert Tallied(d, w, sold, i, before, agent);
        OneMoreSoldRow(sold, i, agent, true);
        OneMoreSoldRow(sold, i, agent, false);
      }
    }
  }

  predicate PaidSoFar(d: Tables, w: Window, rows: seq<PayoutRow>, n: nat, payouts: map<string, int>, agent: string)
    requires n <= |rows|
  {
    && (agent in payouts <==> HasPayoutRow(rows[..n], agent))
    && (agent in payouts ==> payouts[agent] == PaidOut(d, w, agent))
  }

  method CollectPayouts(ghost d: Tables, ghost w: Window, rows: seq<PayoutRow>) returns (payouts: map<string, int>)
    requires IsPayoutGrouping(d, w, rows)
    ensures forall agent :: PaidSoFar(d, w, rows, |rows|, payouts, agent)
  {
    payouts := map[];
    for i := 0 to |rows|
      invariant forall agent :: PaidSoFar(d, w, rows, i, payouts, agent)
    {
      ghost var before, next := payouts, i + 1;
      payouts := payouts[rows[i].agent := rows[i].net];
      forall agent ensures PaidSoFar(d, w, rows, next, payouts, agent) {
        assert PaidSoFar(d, w, rows, i, before, agent);
      }
    }
  }

  /** New records: each for an active agent who had none for the day, and as the tables say. */
  predicate Appended(d: Tables, w: Window, rates: map<string, real>, before: seq<Record>, after: seq<Record>) {
    && before <= after
    && forall k :: |before| <= k < |after| ==>
         && after[k].agent in rates && Active(d, w, after[k].agent)
         && !Filed(before, after[k].agent, w.period)
         && after[k] == RecordOf(d, w, after[k].agent, rates[after[k].agent])
  }

  class RemittanceSweepService {
    var records: seq<Record>

    constructor ()
      ensures OneADay(records)
    {
      records := [];
    }

    /** After a tick every active agent has exactly one record for the day; what was filed before
        is untouched, and what is new says what the tables say. */
    method Tick(ghost d: Tables, w: Window, rates: map<string, real>, sold: seq<SoldRow>, payouts: seq<PayoutRow>)
      requires IsSoldGrouping(d, w, sold) && IsPayoutGrouping(d, w, payouts) && OneADay(records)
      modifies this
      ensures OneADay(records)
      ensures Appended(d, w, rates, old(records), records)
      ensures forall agent :: agent in rates && Active(d, w, agent) ==> Filed(records, agent, w.period)
    {
      var salesByAgent := TallySales(d, w, sold);
      var payoutsByAgent := CollectPayouts(d, w, payouts);
      var agentIds := salesByAgent.Keys + payoutsByAgent.Keys;
      ghost var all := agentIds;
      UnionIsActive(d, w, sold, payouts, salesByAgent, payoutsByAgent);
      ghost var before := records;
      while agentIds != {}
        invariant agentIds <= all && OneADay(records) && Appended(d, w, rates, before, records)
        invariant forall agent :: agent in all && agent !in agentIds && agent in rates ==> Filed(records, agent, w.period)
        decreases agentIds
      {
        var agent :| agent in agentIds;
        agentIds := agentIds - {agent};
        if agent in rates {
          var tally := if agent in salesByAgent then salesByAgent[agent] else Tally(0, 0, 0, 0);
          var payout := if agent in payoutsByAgent then payoutsByAgent[agent] else 0;
          FindsItsFigures(d, w, sold, payouts, salesByAgent, payoutsByAgent, agent);
          FileAgent(d, w, rates, agent, tally, payout, before);
        }
      }
    }

    method FileAgent(ghost d: Tables, w: Window, rates: map<string, real>, agent: string, tally: Tally, payout: int,
                     ghost before: seq<Record>)
      requires OneADay(records) && tally == TallyOf(d, w, agent) && payout == PaidOut(d, w, agent)
      requires agent in rates && Active(d, w, agent) && Appended(d, w, rates, before, records)
      modifies this
      ensures OneADay(records) && Appended(d, w, rates, before, records) && Filed(records, agent, w.period)
      ensures forall other :: old(Filed(records, other, w.period)) ==> Filed(records, other, w.period)
    {
      ghost var soFar := records;
      FileDay(d, w, agent, rates[agent], tally, payout);
      OneMoreFiled(d, w, rates, before, soFar, records, agent);
    }

    method FileDay(ghost d: Tables, w: Window, agent: string, rate: real, tally: Tally, payout: int)
      requires OneADay(records) && tally == TallyOf(d, w, agent) && payout == PaidOut(d, w, agent)
      modifies this
      ensures OneADay(records)
      ensures records == if old(Filed(records, agent, w.period)) then old(records) else old(records) + [RecordOf(d, w, agent, rate)]
    {
      var gross := tally.standardSales + tally.jackpotSales;
      var commission := (gross as real * rate).Floor;
      var amountDue := gross - commission - payout;
      var record := Record(agent, w.period, tally, commission, payout, amountDue);
      assert record == RecordOf(d, w, agent, rate);
      File(record);
    }

    /** The insert; the unique constraint on agent and day turns a second one into nothing. */
    method File(record: Record)
      requires OneADay(records)
      modifies this
      ensures OneADay(records)
      ensures records == if old(Filed(records, record.agent, record.period)) then old(records) else old(records) + [record]
    {
      if !Filed(records, record.agent, record.period) {
        records := records + [record];
      }
    }
  }

  lemma UnionIsActive(d: Tables, w: Window, sold: seq<SoldRow>, payouts: seq<PayoutRow>, tallies: map<string, Tally>,
                      paid: map<string, int>)
    requires IsSoldGrouping(d, w, sold) && IsPayoutGrouping(d, w, payouts)
    requires forall agent :: Tallied(d, w, sold, |sold|, tallies, agent)
    requires forall agent :: PaidSoFar(d, w, payouts, |payouts|, paid, agent)
    ensures forall agent :: agent in tallies.Keys + paid.Keys <==> Active(d, w, agent)
  {
    assert sold[..|sold|] == sold && payouts[..|payouts|] == payouts;
    forall agent ensures agent in tallies.Keys + paid.Keys <==> Active(d, w, agent) {
      assert Tallied(d, w, sold, |sold|, tallies, agent) && PaidSoFar(d, w, payouts, |payouts|, paid, agent);
    }
  }

  lemma OneMoreFiled(d: Tables, w: Window, rates: map<string, real>, before: seq<Record>, soFar: seq<Record>, after: seq<Record>,
                     agent: string)
    requires Appended(d, w, rates, before, soFar) && agent in rates && Active(d, w, agent)
    requires after == if Filed(soFar, agent, w.period) then soFar else soFar + [RecordOf(d, w, agent, rates[agent])]
    ensures Appended(d, w, rates, before, after) && Filed(after, agent, w.period) && soFar <= after
    ensures forall other :: Filed(soFar, other, w.period) ==> Filed(after, other, w.period)
  {
    if !Filed(soFar, agent, w.period) {
      assert after[|soFar|].agent == agent && after[|soFar|].period == w.period;
      forall other | Filed(soFar, other, w.period) ensures Filed(after, other, w.period) {
        var i :| 0 <= i < |soFar| && soFar[i].agent == other && soFar[i].period == w.period;
        assert after[i] == soFar[i];
      }
      forall i | 0 <= i < |before| ensures (before[i].agent, before[i].period) != (agent, w.period) {
        assert soFar[i] == before[i];
      }
    }
  }

  lemma FindsItsFigures(d: Tables, w: Window, sold: seq<SoldRow>, payouts: seq<PayoutRow>, tallies: map<string, Tally>,
                        paid: map<string, int>, agent: string)
    requires IsSoldGrouping(d, w, sold) && IsPayoutGrouping(d, w, payouts)
    requires Tallied(d, w, sold, |sold|, tallies, agent) && PaidSoFar(d, w, payouts, |payouts|, paid, agent)
    ensures TallyOf(d, w, agent) == if agent in tallies then tallies[agent] else Tally(0, 0, 0, 0)
    ensures PaidOut(d, w, agent) == if agent in paid then paid[agent] else 0
  {
    assert sold[..|sold|] == sold && payouts[..|payouts|] == payouts;
    forall jackpot | !HasSoldRow(sold, agent, jackpot)
      ensures Sold(d, w, agent, jackpot) == 0 && TicketsSold(d, w, agent, jackpot) == 0
    {
      NothingSold(d, w, sold, agent, jackpot);
    }
    if agent !in paid {
      NothingPaid(d, w, payouts, agent);
    }
  }

  // ---------------------------------------------------------------- what the figures mean

  function FaceOf(p: nat): Ticket -> int {
    (t: Ticket) => if t.payment == p then t.faceValue else 0
  }

  /** What `sell` writes: the tickets of a sale are its agent's and add up to its amount. */
  ghost predicate Coherent(d: Tables) {
    && (forall k :: 0 <= k < |d.tickets| ==>
          d.tickets[k].payment < |d.payments| && d.tickets[k].agent == Some(d.payments[d.tickets[k].payment].agent))
    && (forall p :: 0 <= p < |d.payments| ==> Sum(d.tickets, FaceOf(p)) == d.payments[p].amount)
  }

  /** The amounts of an agent's counted payments, from the first `n` of them. */
  function Collected(d: Tables, w: Window, agent: string, n: nat): int
    requires n <= |d.payments|
  {
    if n == 0 then 0
    else
      var p := d.payments[n - 1];
      Collected(d, w, agent, n - 1)
      + if p.agent == agent && p.agentCash && p.confirmed && p.backed && w.startUtc <= p.confirmedAt < w.endUtc then p.amount else 0
  }

  /** The face values of an agent's counted tickets whose payment is among the first `n`. */
  function FacesUpTo(d: Tables, w: Window, agent: string, n: nat): Ticket -> int {
    (t: Ticket) => if Counted(d, w, t) && t.agent == Some(agent) && t.payment < n then t.faceValue else 0
  }

  lemma {:induction false} OneMorePayment(d: Tables, w: Window, agent: string, n: nat, tickets: seq<Ticket>)
    requires n < |d.payments|
    requires forall k :: 0 <= k < |tickets| ==>
               tickets[k].payment < |d.payments| && tickets[k].agent == Some(d.payments[tickets[k].payment].agent)
    ensures Sum(tickets, FacesUpTo(d, w, agent, n + 1))
            == Sum(tickets, FacesUpTo(d, w, agent, n))
               + if CountedPayment(w, d.payments[n]) && d.payments[n].agent == agent then Sum(tickets, FaceOf(n)) else 0
  {
    if tickets != [] {
      OneMorePayment(d, w, agent, n, tickets[1..]);
    }
  }

  lemma {:induction false} FacesAreCollected(d: Tables, w: Window, agent: string, n: nat)
    requires Coherent(d) && n <= |d.payments|
    ensures Sum(d.tickets, FacesUpTo(d, w, agent, n)) == Collected(d, w, agent, n)
  {
    if n == 0 {
      SumZero(d.tickets, FacesUpTo(d, w, agent, 0));
    } else {
      FacesAreCollected(d, w, agent, n - 1);
      OneMorePayment(d, w, agent, n - 1, d.tickets);
    }
  }

  lemma {:induction false} GrossSplits(d: Tables, w: Window, agent: string, tickets: seq<Ticket>)
    ensures Sum(tickets, FaceIf(d, w, agent, false)) + Sum(tickets, FaceIf(d, w, agent, true))
            == Sum(tickets, FacesUpTo(d, w, agent, |d.payments|))
  {
    if tickets != [] {
      GrossSplits(d, w, agent, tickets[1..]);
    }
  }

  /** Counting tickets counts the money: the gross of a record is the total of the agent's payments
      confirmed in the day, however many tickets of whichever kind they bought. */
  lemma GrossIsWhatWasCollected(d: Tables, w: Window, agent: string, rate: real)
    requires Coherent(d)
    ensures var record := RecordOf(d, w, agent, rate);
            record.tally.standardSales + record.tally.jackpotSales == Collected(d, w, agent, |d.payments|)
  {
    FacesAreCollected(d, w, agent, |d.payments|);
    GrossSplits(d, w, agent, d.tickets);
  }

  /** The net prizes of the first `n` claims that an agent paid in the day, not reimbursed in the wallet. */
  function TillPrizes(d: Tables, w: Window, agent: string, n: nat): int
    requires n <= |d.claims|
  {
    if n == 0 then 0
    else
      var c := d.claims[n - 1];
      TillPrizes(d, w, agent, n - 1) + if c.paidBy == Some(agent) && !c.viaWallet && w.startUtc <= c.paidAt < w.endUtc then c.net else 0
  }

  lemma {:induction false} PaidUpTo(d: Tables, w: Window, agent: string, n: nat)
    requires n <= |d.claims|
    ensures Sum(d.claims[..n], NetIf(w, agent)) == TillPrizes(d, w, agent, n)
  {
    if n > 0 {
      PaidUpTo(d, w, agent, n - 1);
      assert d.claims[..n] == d.claims[..n - 1] + [d.claims[n - 1]];
      SumAppend(d.claims[..n - 1], d.claims[n - 1], NetIf(w, agent));
    }
  }

  /** A record in figures: the commission is the whole naira of the rate's share of what was collected,
      the winnings are the prizes paid from the till, and what is due is what is left. */
  lemma RecordSays(d: Tables, w: Window, agent: string, rate: real)
    requires Coherent(d)
    ensures var (record, gross) := (RecordOf(d, w, agent, rate), Collected(d, w, agent, |d.payments|));
            && record.agent == agent && record.period == w.period
            && record.commission as real <= gross as real * rate < (record.commission + 1) as real
            && record.winnings == TillPrizes(d, w, agent, |d.claims|)
            && record.amountDue == gross - record.commission - record.winnings
  {
    GrossIsWhatWasCollected(d, w, agent, rate);
    PaidUpTo(d, w, agent, |d.claims|);
    assert d.claims[..|d.claims|] == d.claims;
  }

  function AsRow(r: Record): Remittance.Row
    requires r.commission >= 0 && r.tally.standardSales + r.tally.jackpotSales >= 0 && r.winnings >= 0
  {
    Remittance.Row(r.agent, r.period, r.tally.standardSales + r.tally.jackpotSales, r.commission, r.winnings, r.amountDue,
                   Remittance.Pending, None, None, None, None)
  }

  lemma {:induction false} SumNonNegative<T>(s: seq<T>, f: T -> int)
    requires forall i :: 0 <= i < |s| ==> f(s[i]) >= 0
    ensures Sum(s, f) >= 0
  {
    if s != [] {
      SumNonNegative(s[1..], f);
    }
  }

  predicate NoNegativeAmounts(d: Tables) {
    && (forall k :: 0 <= k < |d.tickets| ==> d.tickets[k].faceValue >= 0)
    && (forall k :: 0 <= k < |d.claims| ==> d.claims[k].net >= 0)
  }

  lemma FloorBounds(gross: int, rate: real)
    requires gross >= 0 && 0.0 <= rate
    ensures 0 <= Share(gross, rate) && (rate <= 1.0 ==> Share(gross, rate) <= gross)
  {
    assert gross as real * rate >= 0.0;
    if rate <= 1.0 {
      assert gross as real * rate <= gross as real * 1.0;
    }
  }

  /** What the sweep files is what remittance accounting starts from. With a rate of at most one the
      commission never exceeds the sales. */
  lemma FiledRowsAreFresh(d: Tables, w: Window, agent: string, rate: real)
    requires NoNegativeAmounts(d) && 0.0 <= rate
    ensures var record := RecordOf(d, w, agent, rate);
            var gross := record.tally.standardSales + record.tally.jackpotSales;
            && record.commission >= 0 && gross >= 0 && record.winnings >= 0
            && RemittanceLaws.FreshRow(AsRow(record))
            && (rate <= 1.0 ==> record.commission <= gross && record.amountDue >= -record.winnings)
  {
    SumNonNegative(d.tickets, FaceIf(d, w, agent, false));
    SumNonNegative(d.tickets, FaceIf(d, w, agent, true));
    SumNonNegative(d.claims, NetIf(w, agent));
    FloorBounds(Sold(d, w, agent, false) + Sold(d, w, agent, true), rate);
    FreshIf(RecordOf(d, w, agent, rate));
  }

  lemma FreshIf(record: Record)
    requires record.commission >= 0 && record.winnings >= 0 && record.tally.standardSales + record.tally.jackpotSales >= 0
    requires record.amountDue == record.tally.standardSales + record.tally.jackpotSales - record.commission - record.winnings
    ensures RemittanceLaws.FreshRow(AsRow(record))
  {
  }
}
