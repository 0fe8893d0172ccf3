/** The money behind a payment's journals, account by account, and what verification and provider results
    make of the row. */
module RefundsMoney {
  import opened Wrappers
  import opened Journals
  import opened Accounts
  import opened Refunds
  import opened RefundsInv
  import opened RefundsRuns

  /** The same journals but for one transfer at the end. */
  predicate OneTransfer(s: State, t: State, key: Key, debit: string, credit: string, amount: int) {
    t.journals == s.journals + [Journal(key, [Line(debit, Debit, amount, None), Line(credit, Credit, amount, None)])]
  }

  lemma TransferMoves(s: State, t: State, key: Key, debit: string, credit: string, amount: int, account: string)
    requires OneTransfer(s, t, key, debit, credit, amount)
    ensures Balance(t.journals, account)
            == Balance(s.journals, account) + (if account == debit then amount else 0) - (if account == credit then amount else 0)
  {
    BalanceAppend(s.journals, Journal(key, Transfer(debit, credit, amount)), account);
    NetOfTransfer(debit, credit, amount, account);
  }

  /** Collecting a payment debits the clearing account of the provider that took the money, in agent cash
      the agent's receivable, and credits revenue or suspense. */
  lemma CollectionMoves(s: State, p: nat, purpose: Purpose, d: Disposition)
    requires Inv(s) && p < |s.payments| && s.payments[p].collectionTxn.None? && CollectionPurpose(s.payments[p].gateway, purpose)
    ensures PostCollection(s, p, purpose, d).Ok?
    ensures var (payment, t) := (s.payments[p], PostCollection(s, p, purpose, d).value);
            var credit := if d == Revenue then TICKET_SALES_REVENUE else SUSPENSE;
            && (payment.gateway == Paystack ==> OneTransfer(s, t, Key(purpose, p), PAYSTACK_CLEARING, credit, payment.amount))
            && (payment.gateway == Monnify ==> OneTransfer(s, t, Key(purpose, p), MONNIFY_CLEARING, credit, payment.amount))
            && (payment.gateway == Flutterwave ==> OneTransfer(s, t, Key(purpose, p), FLUTTERWAVE_CLEARING, credit, payment.amount))
            && (payment.gateway == AgentCash ==> OneTransfer(s, t, Key(purpose, p), Receivable(payment.agent), credit, payment.amount))
            && t == s.(journals := t.journals, payments := s.payments[p := payment.(collectionTxn := Some(Key(purpose, p)))])
  {
    CollectionPosted(s, p, purpose, d);
    assert PaymentOk(s.journals, p, s.payments[p]);
    FreeKey(s.journals, p, s.payments[p], purpose);
  }

  /** Which purpose, key and account a back-filled collection has. */
  lemma BackfillMoves(s: State, p: nat, d: Disposition)
    requires Inv(s) && p < |s.payments| && s.payments[p].collectionTxn.None?
    ensures BackfillCollection(s, p, d).Ok?
    ensures var (payment, t) := (s.payments[p], BackfillCollection(s, p, d).value);
            var credit := if d == Revenue then TICKET_SALES_REVENUE else SUSPENSE;
            match payment.gateway
            case Paystack => OneTransfer(s, t, Key(PaystackCollection, p), PAYSTACK_CLEARING, credit, payment.amount)
            case Monnify => OneTransfer(s, t, Key(ProviderCollection, p), MONNIFY_CLEARING, credit, payment.amount)
            case Flutterwave => OneTransfer(s, t, Key(ProviderCollection, p), FLUTTERWAVE_CLEARING, credit, payment.amount)
            case AgentCash => OneTransfer(s, t, Key(LegacyAgentSale, p), Receivable(payment.agent), credit, payment.amount)
  {
    match s.payments[p].gateway
    case Paystack => CollectionMoves(s, p, PaystackCollection, d);
    case AgentCash => CollectionMoves(s, p, LegacyAgentSale, d);
    case _ => CollectionMoves(s, p, ProviderCollection, d);
  }

  /** Accruing takes the amount off revenue or suspense and owes it. */
  lemma AccrualMoves(s: State, p: nat, source: Disposition)
    requires Inv(s) && p < |s.payments| && s.payments[p].collectionTxn.Some? && s.payments[p].accrualTxn.None?
    ensures RecordAccrual(s, p, source).Ok?
    ensures var (payment, t) := (s.payments[p], RecordAccrual(s, p, source).value);
            && OneTransfer(s, t, Key(RefundAccrual, p), if source == Revenue then TICKET_SALES_REVENUE else SUSPENSE, REFUND_PAYABLE, payment.amount)
            && t == s.(journals := t.journals, payments := s.payments[p := payment.(accrualTxn := Some(Key(RefundAccrual, p)))])
  {
    AccrualPosted(s, p, source);
    assert PaymentOk(s.journals, p, s.payments[p]);
    FreeKey(s.journals, p, s.payments[p], RefundAccrual);
  }

  /** Settling pays what is owed out of the account the provider pays refunds from. */
  lemma SettlementMoves(s: State, p: nat, purpose: Purpose)
    requires Inv(s) && p < |s.payments| && s.payments[p].accrualTxn.Some? && s.payments[p].settlementTxn.None?
    requires SettlementPurpose(s.payments[p].gateway, purpose) && !s.payments[p].gateway.AgentCash?
    ensures PostSettlement(s, p, purpose).Ok?
    ensures var (payment, t) := (s.payments[p], PostSettlement(s, p, purpose).value);
            && (payment.gateway == Paystack ==> OneTransfer(s, t, Key(purpose, p), REFUND_PAYABLE, PAYSTACK_CLEARING, payment.amount))
            && (payment.gateway == Monnify ==> OneTransfer(s, t, Key(purpose, p), REFUND_PAYABLE, MONNIFY_PAYOUT_CLEARING, payment.amount))
            && (payment.gateway == Flutterwave ==> OneTransfer(s, t, Key(purpose, p), REFUND_PAYABLE, FLUTTERWAVE_PAYOUT_CLEARING, payment.amount))
            && t == s.(journals := t.journals, payments := s.payments[p := payment.(settlementTxn := Some(Key(purpose, p)))])
  {
    SettlementPosted(s, p, purpose);
    assert PaymentOk(s.journals, p, s.payments[p]);
    FreeKey(s.journals, p, s.payments[p], purpose);
  }

  // ---------------------------------------------------------------- verification

  /** Verifying acts exactly on a pending payment. A refusal fails it; a hold sends it to review, collected
      into suspense if the money came; a paid one is confirmed with its tickets and collected as revenue. */
  lemma VerifyIs(s: State, p: nat, outcome: Outcome)
    requires Inv(s)
    ensures var t := After(s, Verify(p, outcome));
            && (p >= |s.payments| || !s.payments[p].status.Pending? ==> t == s)
            && (p < |s.payments| && s.payments[p].status.Pending? ==>
                  var payment := s.payments[p];
                  match outcome
                  case Refused => t == s.(payments := s.payments[p := payment.(status := PaymentStatus.Failed)])
                  case Held(false) => t == s.(payments := s.payments[p := payment.(status := ReviewRequired)])
                  case Held(true) => Collected(s, t, p, Suspense, ReviewRequired, payment.tickets)
                  case Paid(tickets) => Collected(s, t, p, Revenue, Confirmed, tickets))
  {
    if p < |s.payments| && s.payments[p].status.Pending? {
      match outcome
      case Refused =>
      case Held(false) =>
      case Held(true) => VerifiedCollection(s, p, Suspense);
      case Paid(_) => VerifiedCollection(s, p, Revenue);
    }
  }

  /** The row after a verified collection. In agent cash there is nothing to verify and nothing changes. */
  predicate Collected(s: State, t: State, p: nat, d: Disposition, status: PaymentStatus, tickets: seq<Ticket>)
    requires p < |s.payments|
  {
    var payment := s.payments[p];
    if payment.collectionTxn.None? && payment.gateway.AgentCash? then t == s
    else
      var link := if payment.collectionTxn.Some? then payment.collectionTxn else Some(Key(ProviderCollection, p));
      && t == s.(journals := t.journals, payments := s.payments[p := payment.(status := status, tickets := tickets, collectionTxn := link)])
      && t.journals == if payment.collectionTxn.Some? then s.journals
                       else s.journals + [Journal(Key(ProviderCollection, p), CollectionLines(payment, d))]
  }

  lemma VerifiedCollection(s: State, p: nat, d: Disposition)
    requires Inv(s) && p < |s.payments|
    ensures var (payment, r) := (s.payments[p], RecordCollection(s, p, d));
            if payment.collectionTxn.None? && payment.gateway.AgentCash? then r.Err?
            else
              var link := if payment.collectionTxn.Some? then payment.collectionTxn else Some(Key(ProviderCollection, p));
              && r.Ok? && r.value == s.(journals := r.value.journals, payments := s.payments[p := payment.(collectionTxn := link)])
              && r.value.journals == if payment.collectionTxn.Some? then s.journals
                                     else s.journals + [Journal(Key(ProviderCollection, p), CollectionLines(payment, d))]
  {
    if s.payments[p].collectionTxn.Some? {
      assert s.payments[p := s.payments[p]] == s.payments;
    } else if !s.payments[p].gateway.AgentCash? {
      CollectionPosted(s, p, ProviderCollection, d);
      assert PaymentOk(s.journals, p, s.payments[p]);
      FreeKey(s.journals, p, s.payments[p], ProviderCollection);
    }
  }

  /** What the migration decides on, from the row it reads: to collect an uncollected payment, into suspense
      if it is held for review or has no tickets; to accrue a started refund on the account its collection
      credited; to settle a succeeded one. */
  lemma IntendIff(s: State, p: nat, d: Disposition)
    requires p < |s.payments|
    ensures MayIntend(s, Collect(p, d))
            <==> s.payments[p].collectionTxn == None
                 && (d == Suspense <==> s.payments[p].status == ReviewRequired || |s.payments[p].tickets| == 0)
    ensures MayIntend(s, Accrue(p, d))
            <==> s.payments[p].refundStatus != None && s.payments[p].accrualTxn == None && s.payments[p].collectionTxn.Some?
                 && RefundSource(LinesOf(s.journals, s.payments[p].collectionTxn.value)) == Some(d)
    ensures MayIntend(s, Settle(p)) <==> s.payments[p].refundStatus == Some(Succeeded) && s.payments[p].settlementTxn == None
  {
  }

  // ---------------------------------------------------------------- provider results

  /** A result changes the row exactly while the refund is under way and it comes from the provider that
      was asked. */
  lemma ResultMattersIff(s: State, p: nat, result: ProviderResult)
    requires Inv(s) && p < |s.payments|
    ensures var payment := s.payments[p];
            var asked := payment.refundProvider.None? || payment.refundProvider == Some(result.provider);
            && (ApplyResult(s, p, result).Ok? && ApplyResult(s, p, result).value != s ==> asked && InProgress(payment.refundStatus))
            && (!asked ==> ApplyResult(s, p, result) == Err(WrongProvider))
            && (asked && InProgress(payment.refundStatus) ==>
                  match Believed(payment, result)
                  case Succeeded => true
                  case RefundFailed =>
                    ApplyResult(s, p, result)
                    == Ok(s.(payments := s.payments[p := payment.(status := ReviewRequired, refundStatus := Some(RefundFailed))]))
                  case news =>
                    ApplyResult(s, p, result)
                    == Ok(s.(payments := s.payments[p := payment.(status := RefundPending, refundStatus := Some(news))])))
  {
    assert PaymentOk(s.journals, p, s.payments[p]);
  }

  /** A believed success of an accrued refund: refunded, settled, and the quarantined tickets expired. */
  lemma SuccessIs(s: State, p: nat, result: ProviderResult)
    requires Inv(s) && p < |s.payments| && InProgress(s.payments[p].refundStatus) && !s.payments[p].gateway.AgentCash?
    requires s.payments[p].refundProvider.None? || s.payments[p].refundProvider == Some(result.provider)
    requires Believed(s.payments[p], result).Succeeded? && s.payments[p].accrualTxn.Some?
    ensures ApplyResult(s, p, result).Ok? && |ApplyResult(s, p, result).value.payments| == |s.payments|
    ensures var (payment, payment') := (s.payments[p], ApplyResult(s, p, result).value.payments[p]);
            && payment'.status.Refunded? && payment'.refundStatus == Some(Succeeded) && payment'.settlementTxn.Some?
            && |payment'.tickets| == |payment.tickets|
            && forall i :: 0 <= i < |payment.tickets| ==>
                 payment'.tickets[i] == if payment.tickets[i].status.Quarantined? then Ticket(Expired, payment.tickets[i].isWinner) else payment.tickets[i]
  {
    var payment := s.payments[p];
    assert PaymentOk(s.journals, p, payment);
    var t := SetPayment(s, p, payment.(status := Refunded, refundStatus := Some(Succeeded)));
    RestateKeepsInv(s, p, t.payments[p]);
    SettlementPosted(t, p, RefundSettlement);
    SucceededUnfolds(s, p, PostSettlement(t, p, RefundSettlement).value);
  }

  lemma SucceededUnfolds(s: State, p: nat, u: State)
    requires p < |s.payments| && s.payments[p].status.RefundPending? && InProgress(s.payments[p].refundStatus) && !s.payments[p].gateway.AgentCash?
    requires var t := SetPayment(s, p, s.payments[p].(status := Refunded, refundStatus := Some(Succeeded)));
             PostSettlement(t, p, RefundSettlement) == Ok(u) && |u.payments| == |s.payments|
    ensures MarkSucceeded(s, p) == Ok(SetPayment(u, p, u.payments[p].(tickets := Release(u.payments[p].tickets))))
  {
  }
}
