/** When a refund starts, what each step makes of a payment's row, and which accounts each journal moves:
    on the row, before the step. */
module RefundsConditions {
  import opened Wrappers
  import opened Journals
  import opened Accounts
  import opened Refunds
  import opened RefundsInv
  import opened RefundsRuns
  import opened RefundsLaws

  // ---------------------------------------------------------------- reserving

  /** A payment that may be reserved: never refunded before, paid for, online, known to the provider where
      that is needed, without a ticket that has won, and out of the engine's reach. */
  predicate Reservable(payment: Payment, drawsOk: bool) {
    && payment.refundStatus.None? && (payment.status.Confirmed? || payment.status.ReviewRequired?)
    && (payment.gateway.Paystack? || ((payment.gateway.Monnify? || payment.gateway.Flutterwave?) && payment.hasProviderTxn))
    && (forall i :: 0 <= i < |payment.tickets| ==>
          !payment.tickets[i].isWinner && !payment.tickets[i].status.Winning? && !payment.tickets[i].status.RolledOver?)
    && (payment.status.Confirmed? && payment.tickets != [] ==> drawsOk)
  }

  lemma ErrorIff(payment: Payment, drawsOk: bool)
    ensures ReserveError(payment, drawsOk).None? <==> Reservable(payment, drawsOk)
  {
  }

  /** What a reservation writes on the row, its links aside. */
  predicate IsReserved(payment: Payment, payment': Payment) {
    && payment'.status.RefundPending? && payment'.refundStatus == Some(Requested) && payment'.refundProvider == Some(payment.gateway)
    && payment' == payment.(status := payment'.status, refundStatus := payment'.refundStatus, refundProvider := payment'.refundProvider,
                            tickets := payment'.tickets, collectionTxn := payment'.collectionTxn, accrualTxn := payment'.accrualTxn)
    && |payment'.tickets| == |payment.tickets|
    && (forall i :: 0 <= i < |payment.tickets| ==>
          payment'.tickets[i] == if payment.tickets[i].status.Active? then Ticket(Quarantined, payment.tickets[i].isWinner) else payment.tickets[i])
    && (payment.gateway.Paystack? ==> payment'.collectionTxn == payment.collectionTxn && payment'.accrualTxn == payment.accrualTxn)
    && (!payment.gateway.Paystack? ==> payment'.collectionTxn.Some? && payment'.accrualTxn.Some?)
  }

  lemma ReservedIs(s: State, p: nat)
    requires p < |s.payments| && !s.payments[p].gateway.AgentCash?
    requires WithProvider(s.payments[p].gateway) ==> s.payments[p].collectionTxn.Some? && s.payments[p].accrualTxn.Some?
    ensures IsReserved(s.payments[p], Reserved(s, p).payments[p])
    ensures Reserved(s, p) == s.(payments := s.payments[p := Reserved(s, p).payments[p]], intents := s.intents + multiset{Call(p)})
  {
  }

  lemma ReservesOnBooks(s: State, p: nat, drawsOk: bool) returns (u: State)
    requires Inv(s) && p < |s.payments| && Reservable(s.payments[p], drawsOk)
    ensures |u.payments| == |s.payments| && Reserve(s, p, drawsOk) == Ok(Reserved(u, p))
    ensures u.intents == s.intents && u.sent == s.sent
    ensures u.payments == s.payments[p := s.payments[p].(collectionTxn := u.payments[p].collectionTxn, accrualTxn := u.payments[p].accrualTxn)]
    ensures if s.payments[p].gateway.Paystack? then u == s
            else u.payments[p].collectionTxn.Some? && u.payments[p].accrualTxn.Some?
  {
    ErrorIff(s.payments[p], drawsOk);
    if s.payments[p].gateway.Paystack? {
      u := s;
      assert s.payments[p := s.payments[p]] == s.payments;
    } else {
      var source := SourceByStatus(s.payments[p]);
      CollectKeeps(s, p, source);
      var t := RecordCollection(s, p, source).value;
      AccrualPosted(t, p, source);
      u := RecordAccrual(t, p, source).value;
      ReserveIs(s, p, drawsOk, t, u);
    }
  }

  /** A reservation changes the tables exactly for a reservable payment. Then the payment is reserved, the
      provider is to be called once, and no other payment changes. */
  lemma RefundStartsIff(s: State, p: nat, drawsOk: bool)
    requires Inv(s)
    ensures var t := After(s, Initiate(p, drawsOk));
            && (t != s <==> p < |s.payments| && Reservable(s.payments[p], drawsOk))
            && (t != s ==>
                  && |t.payments| == |s.payments| && IsReserved(s.payments[p], t.payments[p])
                  && (forall q :: 0 <= q < |s.payments| && q != p ==> t.payments[q] == s.payments[q])
                  && t.intents == s.intents + multiset{Call(p)} && t.sent == s.sent)
  {
    if p < |s.payments| {
      ErrorIff(s.payments[p], drawsOk);
      if Reservable(s.payments[p], drawsOk) {
        var u := ReservesOnBooks(s, p, drawsOk);
        ReservedIs(u, p);
        assert After(s, Initiate(p, drawsOk)).payments[p] != s.payments[p];
      }
    }
  }

  // ---------------------------------------------------------------- a payment that was never paid

  /** The payment has been paid for at some time: verified, or held for review. */
  predicate PaidFor(s: State, p: nat) {
    p < |s.payments| && (s.payments[p].status.Confirmed? || s.payments[p].status.ReviewRequired?)
  }

  predicate NoRefund(s: State, p: nat) {
    p < |s.payments| ==> s.payments[p].refundStatus.None? && s.payments[p].accrualTxn.None?
  }

  /** Only a reservation starts a refund, and only of a payment that has been paid for. */
  lemma StepStartsRefundIff(s: State, op: Op, p: nat)
    requires Inv(s) && Legal(s, op) && InBounds(s, op) && NoRefund(s, p)
    ensures !NoRefund(After(s, op), p)
            <==> op.Initiate? && op.p == p && p < |s.payments| && Reservable(s.payments[p], op.drawsOk)
  {
    match op
    case Initiate(q, drawsOk) => RefundStartsIff(s, q, drawsOk);
    case Verify(q, outcome) => ConfirmStartsNone(s, q, outcome, p);
    case Deliver(q, result, first) => DeliverStartsNone(s, q, result, first, p);
    case Act(i) => ActStartsNone(s, i, p);
    case _ =>
  }

  lemma ConfirmStartsNone(s: State, q: nat, outcome: Outcome, p: nat)
    requires Inv(s) && NoRefund(s, p)
    ensures NoRefund(After(s, Verify(q, outcome)), p)
  {
    if q < |s.payments| && s.payments[q].status.Pending? {
      CollectKeeps(s, q, Suspense);
      CollectKeeps(s, q, Revenue);
    }
  }

  lemma DeliverStartsNone(s: State, q: nat, result: ProviderResult, first: bool, p: nat)
    requires Inv(s) && NoRefund(s, p) && q < |s.payments|
    ensures NoRefund(After(s, Deliver(q, result, first)), p)
  {
    assert PaymentOk(s.journals, q, s.payments[q]);
    if InProgress(s.payments[q].refundStatus) {
      SettledKeepsOthers(s, q, p);
    }
  }

  lemma SettledKeepsOthers(s: State, q: nat, p: nat)
    requires Inv(s) && q < |s.payments| && s.payments[q].refundStatus.Some? && NoRefund(s, p)
    ensures MarkSucceeded(s, q).Ok? ==> NoRefund(MarkSucceeded(s, q).value, p)
  {
    var payment := s.payments[q];
    if payment.status.RefundPending? && InProgress(payment.refundStatus) {
      assert PaymentOk(s.journals, q, payment);
      var t := SetPayment(s, q, payment.(status := Refunded, refundStatus := Some(Succeeded)));
      RestateKeepsInv(s, q, t.payments[q]);
      SettlementPosted(t, q, RefundSettlement);
    }
  }

  lemma ActStartsNone(s: State, i: Intent, p: nat)
    requires Inv(s) && i in s.intents && i.p < |s.payments| && NoRefund(s, p) && (i.Collect? || i.Accrue? || i.Settle?)
    ensures NoRefund(After(s, Act(i)), p)
  {
    assert IntentOk(s, i);
    PerformStartsNone(s, i, p);
  }

  lemma PerformStartsNone(s: State, i: Intent, p: nat)
    requires Inv(s) && i.p < |s.payments| && NoRefund(s, p) && IntentOk(s, i)
    ensures Perform(s, i).Ok? ==> NoRefund(Perform(s, i).value, p)
  {
    match i
    case Collect(q, d) =>
      if s.payments[q].collectionTxn.None? {
        CollectsOnly(s, q, d, p);
      } else {
        CollectsAgain(s, q, d, p);
      }
    case Accrue(q, source) => AccruesOnly(s, q, source, p);
    case Settle(q) => SettlesOnly(s, q, p);
    case _ =>
  }

  lemma AccruesOnly(s: State, q: nat, source: Disposition, p: nat)
    requires Inv(s) && q < |s.payments| && s.payments[q].refundStatus.Some? && s.payments[q].collectionTxn.Some? && NoRefund(s, p)
    ensures RecordAccrual(s, q, source).Ok? ==> NoRefund(RecordAccrual(s, q, source).value, p)
  {
    AccrualPosted(s, q, source);
  }

  lemma SettlesOnly(s: State, q: nat, p: nat)
    requires Inv(s) && q < |s.payments| && NoRefund(s, p)
    ensures BackfillSettlement(s, q).Ok? ==> NoRefund(BackfillSettlement(s, q).value, p)
  {
    SettlementPosted(s, q, if s.payments[q].gateway.Paystack? then PaystackSettlement else RefundSettlement);
  }

  lemma CollectsOnly(s: State, q: nat, d: Disposition, p: nat)
    requires Inv(s) && q < |s.payments| && s.payments[q].collectionTxn.None? && NoRefund(s, p)
    ensures BackfillCollection(s, q, d).Ok? ==> NoRefund(BackfillCollection(s, q, d).value, p)
  {
    match s.payments[q].gateway
    case AgentCash => CollectionPosted(s, q, LegacyAgentSale, d);
    case Paystack => CollectionPosted(s, q, PaystackCollection, d);
    case _ => CollectionPosted(s, q, ProviderCollection, d);
  }

  lemma CollectsAgain(s: State, q: nat, d: Disposition, p: nat)
    requires q < |s.payments| && s.payments[q].collectionTxn.Some? && NoRefund(s, p)
    ensures BackfillCollection(s, q, d).Ok? ==> NoRefund(BackfillCollection(s, q, d).value, p)
  {
  }

  ghost predicate NeverPaidFor(s: State, ops: seq<Op>, p: nat)
    requires LegalRun(s, ops)
    decreases |ops|
  {
    !PaidFor(s, p) && (ops != [] ==> NeverPaidFor(After(s, ops[0]), ops[1..], p))
  }

  lemma {:induction false} StaysUnrefunded(s: State, ops: seq<Op>, p: nat)
    requires Inv(s) && LegalRun(s, ops) && NeverPaidFor(s, ops, p) && NoRefund(s, p)
    ensures NoRefund(Run(s, ops), p)
    decreases |ops|
  {
    if ops != [] {
      StepKeepsInv(s, ops[0]);
      StepStartsRefundIff(s, ops[0], p);
      StaysUnrefunded(After(s, ops[0]), ops[1..], p);
    }
  }

  /** In any run, for a payment that was never confirmed nor held for review, and had no refund to begin
      with: no refund starts, no provider is or will be told to send its money, and nothing is accrued. */
  lemma NeverPaidNeverRefunded(s: State, ops: seq<Op>, p: nat)
    requires Initial(s) && LegalRun(s, ops) && NeverPaidFor(s, ops, p)
    requires p < |s.payments| ==> s.payments[p].refundStatus.None?
    ensures var t := Run(s, ops);
            && Call(p) !in t.intents && p !in t.sent
            && (p < |t.payments| ==>
                  && t.payments[p].refundStatus.None? && t.payments[p].accrualTxn.None?
                  && !Has(t.journals, Key(RefundAccrual, p)))
  {
    InitialInv(s);
    RunKeepsInv(s, ops);
    StaysUnrefunded(s, ops, p);
    var t := Run(s, ops);
    assert SendOk(t, p);
    assert p in t.sent ==> multiset(t.sent)[p] > 0;
    if p < |t.payments| {
      assert PaymentOk(t.journals, p, t.payments[p]);
      assert !Links(t.payments[p], Key(RefundAccrual, p));
    }
  }
}
