/** What a payment can and cannot go through: final results, quarantined tickets, links, and where a
    mismatched accrual comes from. */
module RefundsHistory {
  import opened Wrappers
  import opened Journals
  import opened Accounts
  import opened Sums
  import opened Refunds
  import opened RefundsInv
  import opened RefundsRuns
  import opened RefundsLaws

  predicate Final(r: Option<RefundStatus>) {
    r == Some(Succeeded) || r == Some(RefundFailed)
  }

  predicate OutOfPlay(t: Ticket) {
    t.status.Quarantined? || t.status.Expired?
  }

  predicate KeepsLink(link: Option<Key>, link': Option<Key>) {
    link.Some? ==> link' == link
  }

  predicate TicketsKept(tickets: seq<Ticket>, tickets': seq<Ticket>) {
    |tickets'| == |tickets| && forall k :: 0 <= k < |tickets| && OutOfPlay(tickets[k]) ==> OutOfPlay(tickets'[k])
  }

  /** What any step keeps of any payment. */
  predicate Evolves(payment: Payment, payment': Payment) {
    && payment'.gateway == payment.gateway && payment'.agent == payment.agent && payment'.amount == payment.amount
    && (Final(payment.refundStatus) ==> payment'.refundStatus == payment.refundStatus && payment'.status == payment.status)
    && KeepsLink(payment.collectionTxn, payment'.collectionTxn) && KeepsLink(payment.accrualTxn, payment'.accrualTxn)
    && KeepsLink(payment.settlementTxn, payment'.settlementTxn)
    && (payment.status.Pending? || TicketsKept(payment.tickets, payment'.tickets))
  }

  ghost predicate StateEvolves(s: State, t: State) {
    && |s.payments| <= |t.payments| && s.journals <= t.journals
    && forall p :: 0 <= p < |s.payments| ==> Evolves(s.payments[p], t.payments[p])
  }

  lemma OneRowEvolves(s: State, t: State, p: nat)
    requires p < |s.payments| && s.journals <= t.journals && |t.payments| == |s.payments|
    requires t.payments == s.payments[p := t.payments[p]] && Evolves(s.payments[p], t.payments[p])
    ensures StateEvolves(s, t)
  {
  }

  lemma CollectEvolves(s: State, p: nat, d: Disposition)
    requires p < |s.payments| && RecordCollection(s, p, d).Ok?
    ensures var t := RecordCollection(s, p, d).value;
            && s.journals <= t.journals && t.payments == s.payments[p := t.payments[p]]
            && t.payments[p] == s.payments[p].(collectionTxn := t.payments[p].collectionTxn)
            && KeepsLink(s.payments[p].collectionTxn, t.payments[p].collectionTxn) && t.intents == s.intents
  {
  }

  lemma AccrualEvolves(s: State, p: nat, d: Disposition)
    requires p < |s.payments| && RecordAccrual(s, p, d).Ok?
    ensures var t := RecordAccrual(s, p, d).value;
            && s.journals <= t.journals && t.payments == s.payments[p := t.payments[p]]
            && t.payments[p] == s.payments[p].(accrualTxn := t.payments[p].accrualTxn)
            && KeepsLink(s.payments[p].accrualTxn, t.payments[p].accrualTxn) && t.intents == s.intents
  {
  }

  lemma SettlementEvolves(s: State, p: nat, purpose: Purpose)
    requires p < |s.payments| && PostSettlement(s, p, purpose).Ok?
    ensures var t := PostSettlement(s, p, purpose).value;
            && s.journals <= t.journals && t.payments == s.payments[p := t.payments[p]]
            && t.payments[p] == s.payments[p].(settlementTxn := t.payments[p].settlementTxn)
            && KeepsLink(s.payments[p].settlementTxn, t.payments[p].settlementTxn) && t.intents == s.intents
  {
  }

  lemma BackfillEvolves(s: State, p: nat, d: Disposition)
    requires p < |s.payments| && PaymentOk(s.journals, p, s.payments[p]) && BackfillCollection(s, p, d).Ok?
    ensures var t := BackfillCollection(s, p, d).value;
            && s.journals <= t.journals && |t.payments| == |s.payments| && t.payments == s.payments[p := t.payments[p]]
            && t.payments[p] == s.payments[p].(collectionTxn := t.payments[p].collectionTxn)
            && KeepsLink(s.payments[p].collectionTxn, t.payments[p].collectionTxn)
  {
    if s.payments[p].gateway.AgentCash? && s.payments[p].collectionTxn.Some? {
      assert s.payments[p].collectionTxn == Some(Key(LegacyAgentSale, p));
    }
  }

  lemma ConfirmEvolves(s: State, p: nat, outcome: Outcome)
    requires p < |s.payments| && PaymentOk(s.journals, p, s.payments[p]) && Confirm(s, p, outcome).Ok?
    ensures StateEvolves(s, Confirm(s, p, outcome).value)
    ensures !s.payments[p].status.Pending? ==> Confirm(s, p, outcome).value == s
  {
    if s.payments[p].status.Pending? {
      if outcome.Held? && outcome.collect {
        CollectEvolves(s, p, Suspense);
      } else if outcome.Paid? {
        CollectEvolves(s, p, Revenue);
      }
      OneRowEvolves(s, Confirm(s, p, outcome).value, p);
    }
  }

  lemma ReserveEvolves(s: State, p: nat, drawsOk: bool)
    requires Inv(s) && p < |s.payments| && Reserve(s, p, drawsOk).Ok?
    ensures StateEvolves(s, Reserve(s, p, drawsOk).value)
  {
    if !s.payments[p].status.Refunded? {
      if WithProvider(s.payments[p].gateway) {
        var source := SourceByStatus(s.payments[p]);
        var t, u := ReserveBooks(s, p, source);
        ReserveIs(s, p, drawsOk, t, u);
        CollectEvolves(s, p, source);
        AccrualEvolves(t, p, source);
        OneRowEvolves(s, Reserved(u, p), p);
      } else {
        OneRowEvolves(s, Reserved(s, p), p);
      }
    }
  }

  lemma SucceededEvolves(s: State, p: nat)
    requires p < |s.payments| && MarkSucceeded(s, p).Ok?
    ensures StateEvolves(s, MarkSucceeded(s, p).value)
  {
    var payment := s.payments[p];
    if payment.status.RefundPending? && InProgress(payment.refundStatus) {
      var t := SetPayment(s, p, payment.(status := Refunded, refundStatus := Some(Succeeded)));
      if !payment.gateway.AgentCash? {
        SettlementEvolves(t, p, RefundSettlement);
      }
      OneRowEvolves(s, MarkSucceeded(s, p).value, p);
    }
  }

  lemma ApplyEvolves(s: State, p: nat, result: ProviderResult)
    requires p < |s.payments| && ApplyResult(s, p, result).Ok?
    ensures StateEvolves(s, ApplyResult(s, p, result).value)
  {
    if Believed(s.payments[p], result).Succeeded? {
      SucceededEvolves(s, p);
    } else {
      OneRowEvolves(s, ApplyResult(s, p, result).value, p);
    }
  }

  lemma PerformEvolves(s: State, i: Intent)
    requires i.p < |s.payments| && PaymentOk(s.journals, i.p, s.payments[i.p]) && Perform(s, i).Ok?
    ensures StateEvolves(s, Perform(s, i).value)
  {
    match i
    case Collect(p, d) =>
      BackfillEvolves(s, p, d);
      OneRowEvolves(s, Perform(s, i).value, p);
    case Accrue(p, source) =>
      AccrualEvolves(s, p, source);
      OneRowEvolves(s, Perform(s, i).value, p);
    case Settle(p) =>
      SettlementEvolves(s, p, if s.payments[p].gateway.Paystack? then PaystackSettlement else RefundSettlement);
      OneRowEvolves(s, Perform(s, i).value, p);
    case _ =>
  }

  lemma DeliverEvolves(s: State, p: nat, result: ProviderResult, first: bool)
    requires p < |s.payments|
    ensures StateEvolves(s, After(s, Deliver(p, result, first)))
  {
    if ApplyResult(s, p, result).Ok? {
      ApplyEvolves(s, p, result);
    }
  }

  lemma QuietStepEvolves(s: State, op: Op)
    requires !op.Verify? && !op.Initiate? && !op.Deliver? && !op.Act? && Legal(s, op) && InBounds(s, op)
    ensures StateEvolves(s, After(s, op))
  {
    if op.EngineWins? {
      OneRowEvolves(s, After(s, op), op.p);
    }
  }

  lemma StepEvolves(s: State, op: Op)
    requires Inv(s) && Legal(s, op) && InBounds(s, op)
    ensures StateEvolves(s, After(s, op))
  {
    match op
    case Verify(p, outcome) =>
      if Confirm(s, p, outcome).Ok? {
        ConfirmEvolves(s, p, outcome);
      }
    case Initiate(p, drawsOk) =>
      if Reserve(s, p, drawsOk).Ok? {
        ReserveEvolves(s, p, drawsOk);
      }
    case Deliver(p, result, first) => DeliverEvolves(s, p, result, first);
    case Act(i) =>
      assert PaymentOk(s.journals, i.p, s.payments[i.p]);
      if Perform(s, i).Ok? {
        PerformEvolves(s, i);
      }
    case _ => QuietStepEvolves(s, op);
  }

  // ---------------------------------------------------------------- over runs

  /** A refund that succeeded or failed for good stays so, whatever arrives late. */
  lemma {:induction false} ResultsAreFinal(s: State, ops: seq<Op>, p: nat)
    requires Inv(s) && LegalRun(s, ops) && p < |s.payments| && Final(s.payments[p].refundStatus)
    ensures var t := Run(s, ops);
            && p < |t.payments|
            && t.payments[p].refundStatus == s.payments[p].refundStatus && t.payments[p].status == s.payments[p].status
    decreases |ops|
  {
    if ops != [] {
      StepEvolves(s, ops[0]);
      StepKeepsInv(s, ops[0]);
      assert Evolves(s.payments[p], After(s, ops[0]).payments[p]);
      ResultsAreFinal(After(s, ops[0]), ops[1..], p);
    }
  }

  /** A ticket taken out of the pool for a refund never goes back into it. */
  lemma {:induction false} QuarantineIsForEver(s: State, ops: seq<Op>, p: nat, k: nat)
    requires Inv(s) && LegalRun(s, ops) && p < |s.payments| && k < |s.payments[p].tickets| && OutOfPlay(s.payments[p].tickets[k])
    ensures var t := Run(s, ops);
            p < |t.payments| && k < |t.payments[p].tickets| && OutOfPlay(t.payments[p].tickets[k])
    decreases |ops|
  {
    if ops != [] {
      StepEvolves(s, ops[0]);
      StepKeepsInv(s, ops[0]);
      assert PaymentOk(s.journals, p, s.payments[p]);
      assert Evolves(s.payments[p], After(s, ops[0]).payments[p]);
      QuarantineIsForEver(After(s, ops[0]), ops[1..], p, k);
    }
  }

  // ---------------------------------------------------------------- completing a refund

  /** A confirmed success completes a refund exactly when the refund was accrued; otherwise nothing
      changes and the refund stays under way. */
  lemma SuccessCompletesIff(s: State, p: nat, result: ProviderResult)
    requires Inv(s) && p < |s.payments| && InProgress(s.payments[p].refundStatus) && !s.payments[p].gateway.AgentCash?
    requires s.payments[p].refundProvider == None || s.payments[p].refundProvider == Some(result.provider)
    requires Believed(s.payments[p], result).Succeeded?
    ensures var r := ApplyResult(s, p, result);
            && (r.Ok? <==> s.payments[p].accrualTxn.Some?)
            && (r.Err? ==> r == Err(NoAccrual))
            && (r.Ok? ==> |r.value.payments| == |s.payments| && r.value.payments[p].status.Refunded?
                          && r.value.payments[p].settlementTxn.Some?)
  {
    var payment := s.payments[p];
    assert PaymentOk(s.journals, p, payment);
    var t := SetPayment(s, p, payment.(status := Refunded, refundStatus := Some(Succeeded)));
    RestateKeepsInv(s, p, t.payments[p]);
    SettlementPosted(t, p, RefundSettlement);
  }

  predicate BackfillsAccrual(op: Op, p: nat) {
    op.Act? && op.intent.Accrue? && op.intent.p == p
  }

  predicate PaystackUnaccrued(s: State, p: nat) {
    p < |s.payments| && s.payments[p].gateway.Paystack? && s.payments[p].accrualTxn.None? && !s.payments[p].status.Refunded?
  }

  /** A Paystack refund reserves without an accrual, so however often the provider reports success it
      is never completed before the migration back-fills one. */
  lemma {:induction false} PaystackWaitsForBackfill(s: State, ops: seq<Op>, p: nat)
    requires Inv(s) && LegalRun(s, ops) && PaystackUnaccrued(s, p)
    requires forall k :: 0 <= k < |ops| ==> !BackfillsAccrual(ops[k], p)
    ensures PaystackUnaccrued(Run(s, ops), p)
    decreases |ops|
  {
    if ops != [] {
      PaystackStepWaits(s, ops[0], p);
      StepKeepsInv(s, ops[0]);
      assert forall k :: 0 <= k < |ops[1..]| ==> ops[1..][k] == ops[k + 1];
      PaystackWaitsForBackfill(After(s, ops[0]), ops[1..], p);
    }
  }

  lemma PaystackStepWaits(s: State, op: Op, p: nat)
    requires Inv(s) && Legal(s, op) && InBounds(s, op) && PaystackUnaccrued(s, p) && !BackfillsAccrual(op, p)
    ensures PaystackUnaccrued(After(s, op), p)
  {
    match op
    case Verify(q, outcome) =>
      if q < |s.payments| && s.payments[q].status.Pending? {
        if outcome.Held? && outcome.collect && RecordCollection(s, q, Suspense).Ok? {
          CollectEvolves(s, q, Suspense);
        } else if outcome.Paid? && RecordCollection(s, q, Revenue).Ok? {
          CollectEvolves(s, q, Revenue);
        }
      }
    case Initiate(q, drawsOk) => PaystackReserveWaits(s, q, drawsOk, p);
    case Deliver(q, result, first) => PaystackDeliverWaits(s, q, result, first, p);
    case Act(i) => PaystackActWaits(s, i, p);
    case _ =>
  }

  lemma PaystackReserveWaits(s: State, q: nat, drawsOk: bool, p: nat)
    requires Inv(s) && PaystackUnaccrued(s, p)
    ensures PaystackUnaccrued(Commit(s, Reserve(s, q, drawsOk)), p)
  {
    if q < |s.payments| && !s.payments[q].status.Refunded? && WithProvider(s.payments[q].gateway) {
      var source := SourceByStatus(s.payments[q]);
      var t, u := ReserveBooks(s, q, source);
      ReserveIs(s, q, drawsOk, t, u);
      CollectEvolves(s, q, source);
      AccrualEvolves(t, q, source);
    }
  }

  lemma PaystackDeliverWaits(s: State, q: nat, result: ProviderResult, first: bool, p: nat)
    requires q < |s.payments| && PaystackUnaccrued(s, p)
    ensures PaystackUnaccrued(After(s, Deliver(q, result, first)), p)
  {
    if ApplyResult(s, q, result).Ok? {
      DeliveredTables(s, q, result, first);
    } else {
      DeliveredTables(s, q, result, first);
    }
  }

  lemma DeliveredTables(s: State, q: nat, result: ProviderResult, first: bool)
    requires q < |s.payments|
    ensures After(s, Deliver(q, result, first)).payments == Commit(s, ApplyResult(s, q, result)).payments
  {
  }

  lemma PaystackActWaits(s: State, i: Intent, p: nat)
    requires Inv(s) && i.p < |s.payments| && PaystackUnaccrued(s, p) && !(i.Accrue? && i.p == p)
    ensures PaystackUnaccrued(After(s, Act(i)), p)
  {
    assert PaymentOk(s.journals, i.p, s.payments[i.p]);
    if Perform(s, i).Ok? {
      match i
      case Collect(q, d) => BackfillEvolves(s, q, d);
      case Accrue(q, source) => AccrualEvolves(s, q, source);
      case Settle(q) => SettlementEvolves(s, q, if s.payments[q].gateway.Paystack? then PaystackSettlement else RefundSettlement);
      case _ =>
    }
  }
}
