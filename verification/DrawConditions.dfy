/** When each step of the draw system does something, and what: on the rows, before the step. */
module DrawConditions {
  import opened Wrappers
  import opened Hashing
  import opened DrawEngine
  import opened DrawRuns
  import DrawMath
  import Json

  /** The status of a draw after a step. A draw opens before its cutoff with a seed committed, closes from
      its cutoff on, is claimed once closed and due, completes with its result, and is cancelled by an
      administrator's write or for want of participants. */
  function StatusAfter(c: Crypto, s: State, op: Op, d: nat): DrawStatus
    requires Legal(c, s, op) && d < |s.draws|
  {
    var draw := s.draws[d];
    match op
    case Open(e, now) => if e == d && draw.status == Scheduled && now < draw.cutoffAt && draw.seedHash != None then Active else draw.status
    case Close(e, now) =>
      if e == d && (draw.status == Scheduled || draw.status == Active) && draw.cutoffAt <= now then SalesClosed else draw.status
    case ClaimDraw(e, now) => if e == d && draw.status == SalesClosed && draw.scheduledAt <= now then Executing else draw.status
    case WriteCancellation(e) => if e == d then Cancelled else draw.status
    case FinishDraw(e, seed, _) =>
      if s.engines[e].draw != d then draw.status
      else if s.engines[e].stage.pool == [] then Cancelled
      else if draw.seedHash == Some(c.h(seed)) && draw.result == None then Completed
      else draw.status
    case _ => draw.status
  }

  lemma StatusChangesAsStated(c: Crypto, s: State, op: Op, d: nat)
    requires Legal(c, s, op) && d < |s.draws|
    ensures d < |After(c, s, op).draws| && After(c, s, op).draws[d].status == StatusAfter(c, s, op, d)
  {
    if !LifecycleOp(op) && !EngineOp(op) {
      TableKeepsDraws(c, s, op);
    }
  }

  /** A commitment is written exactly on a draw without one. */
  lemma CommitIff(c: Crypto, s: State, d: nat, hash: Digest)
    ensures var t := After(c, s, Commit(d, hash));
            && (t != s <==> d < |s.draws| && s.draws[d].seedHash == None)
            && (t != s ==> t == s.(draws := s.draws[d := s.draws[d].(seedHash := Some(hash))]))
  {
    if d < |s.draws| && s.draws[d].seedHash == None {
      assert After(c, s, Commit(d, hash)).draws[d].seedHash == Some(hash);
    }
  }

  /** Who may ask to cancel, and to sell: the draw has to be scheduled, active or closed; active and before
      its cutoff. */
  lemma AskingIff(c: Crypto, s: State, d: nat, now: int, refs: seq<string>)
    ensures WriteCancel(d) in After(c, s, AskToCancel(d)).intents
            <==> WriteCancel(d) in s.intents || (d < |s.draws| && s.draws[d].status in {Scheduled, Active, SalesClosed})
    ensures FinishSale(d, refs) in After(c, s, AskToSell(d, now, refs)).intents
            <==> FinishSale(d, refs) in s.intents || (d < |s.draws| && s.draws[d].status == Active && now < s.draws[d].cutoffAt)
  {
  }

  /** An online purchase sells exactly into an active draw before its cutoff: one confirmed payment and a
      live ticket of the draw for each reference. */
  lemma PurchaseIff(c: Crypto, s: State, d: nat, now: int, refs: seq<string>)
    requires Legal(c, s, BuyOnline(d, now, refs))
    ensures var t := After(c, s, BuyOnline(d, now, refs));
            && (t != s <==> d < |s.draws| && s.draws[d].status == Active && now < s.draws[d].cutoffAt)
            && (t != s ==> Sold(s, t, d, refs) && t.intents == s.intents)
  {
    SellIs(s, d, refs);
    if OpenForSale(s, d, now) {
      assert |After(c, s, BuyOnline(d, now, refs)).payments| == |s.payments| + 1;
    }
  }

  predicate Sold(s: State, t: State, d: nat, refs: seq<string>) {
    && t.draws == s.draws && t.entries == s.entries && t.engines == s.engines
    && t.payments == s.payments + [Payment(Confirmed, false)]
    && |t.tickets| == |s.tickets| + |refs| && s.tickets <= t.tickets
    && forall i :: 0 <= i < |refs| ==> t.tickets[|s.tickets| + i] == Ticket(refs[i], d, |s.payments|, Live, false)
  }

  lemma SellIs(s: State, d: nat, refs: seq<string>)
    ensures Sold(s, Sell(s, d, refs), d, refs) && Sell(s, d, refs).intents == s.intents
  {
    var tickets := NewTickets(refs, d, |s.payments|);
    assert forall i :: 0 <= i < |refs| ==> (s.tickets + tickets)[|s.tickets| + i] == tickets[i];
  }

  /** An agent's sale, once its draw has been read, is written whatever has become of the draw. */
  lemma SaleIs(c: Crypto, s: State, d: nat, refs: seq<string>)
    requires Legal(c, s, WriteSale(d, refs))
    ensures Sold(s, After(c, s, WriteSale(d, refs)), d, refs)
  {
    SellIs(s, d, refs);
  }

  /** A refund is reserved exactly for a payment never refunded, confirmed or held, none of whose tickets
      has value, and, if confirmed, none of whose draws is executing or completed; its live tickets are
      quarantined and nothing else changes. */
  lemma ReservationIff(s: State, p: nat)
    ensures var t := ReserveRefund(s, p);
            && (t != s <==> && p < |s.payments| && !s.payments[p].refundStarted
                            && (s.payments[p].status == Confirmed || s.payments[p].status == ReviewRequired)
                            && forall k :: 0 <= k < |s.tickets| && s.tickets[k].payment == p ==>
                                 Refunding(s, s.tickets[k], s.payments[p].status == Confirmed))
            && (t != s ==>
                  && t == s.(tickets := t.tickets, payments := s.payments[p := Payment(RefundPending, true)])
                  && |t.tickets| == |s.tickets|
                  && forall k :: 0 <= k < |s.tickets| ==>
                       t.tickets[k] == if s.tickets[k].payment == p && s.tickets[k].status == Live then s.tickets[k].(status := Quarantined)
                                       else s.tickets[k])
  {
    if MayRefund(s, p) {
      assert ReserveRefund(s, p).payments[p] == Payment(RefundPending, true);
      forall k | 0 <= k < |s.tickets| && s.tickets[k].payment == p ensures Refunding(s, s.tickets[k], s.payments[p].status == Confirmed) {
      }
    }
  }

  predicate Refunding(s: State, t: Ticket, confirmed: bool) {
    && !t.isWinner && t.status != Winning && t.status != RolledOver
    && (confirmed ==> t.draw < |s.draws| && s.draws[t.draw].status != Executing && s.draws[t.draw].status != Completed)
  }
}
