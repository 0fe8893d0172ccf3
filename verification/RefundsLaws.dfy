/** What the refund flows promise. */
module RefundsLaws {
  import opened Wrappers
  import opened Journals
  import opened Accounts
  import opened Sums
  import opened Refunds
  import opened RefundsInv
  import opened RefundsRuns

  ghost predicate LegalRun(s: State, ops: seq<Op>)
    decreases |ops|
  {
    ops != [] ==> Legal(s, ops[0]) && InBounds(s, ops[0]) && LegalRun(After(s, ops[0]), ops[1..])
  }

  ghost function Run(s: State, ops: seq<Op>): State
    requires LegalRun(s, ops)
    decreases |ops|
  {
    if ops == [] then s else Run(After(s, ops[0]), ops[1..])
  }

  lemma {:induction false} RunKeepsInv(s: State, ops: seq<Op>)
    requires Inv(s) && LegalRun(s, ops)
    ensures Inv(Run(s, ops))
    decreases |ops|
  {
    if ops != [] {
      StepKeepsInv(s, ops[0]);
      RunKeepsInv(After(s, ops[0]), ops[1..]);
    }
  }

  /** Payments from before the ledger, of any legal status, with nothing posted. */
  predicate Initial(s: State) {
    && s.journals == [] && s.intents == multiset{} && s.sent == []
    && forall p :: 0 <= p < |s.payments| ==>
         && s.payments[p].collectionTxn.None? && s.payments[p].accrualTxn.None? && s.payments[p].settlementTxn.None?
         && LegalPair(s.payments[p].status, s.payments[p].refundStatus) && TicketsOk(s.payments[p])
  }

  lemma InitialInv(s: State)
    requires Initial(s)
    ensures Inv(s)
  {
    SumZero(s.payments, Owed());
    forall p: nat ensures SendOk(s, p) {
    }
  }

  // ---------------------------------------------------------------- money

  /** In every run the refund payable account holds exactly the amounts accrued and not settled, a
      failed refund's amount with them, and no payment settles without an accrual or accrues
      without a collection. */
  lemma PayableIsWhatIsOwed(s: State, ops: seq<Op>)
    requires Initial(s) && LegalRun(s, ops)
    ensures var t := Run(s, ops);
            && -Balance(t.journals, REFUND_PAYABLE) == Sum(t.payments, Owed())
            && forall p :: 0 <= p < |t.payments| ==>
                 && (t.payments[p].settlementTxn.Some? ==> t.payments[p].accrualTxn.Some?)
                 && (t.payments[p].accrualTxn.Some? ==> t.payments[p].collectionTxn.Some?)
  {
    InitialInv(s);
    RunKeepsInv(s, ops);
    var t := Run(s, ops);
    forall p | 0 <= p < |t.payments|
      ensures t.payments[p].settlementTxn.Some? ==> t.payments[p].accrualTxn.Some?
      ensures t.payments[p].accrualTxn.Some? ==> t.payments[p].collectionTxn.Some?
    {
      assert PaymentOk(t.journals, p, t.payments[p]);
    }
  }

  /** No interleaving tells a provider twice to send the same payment's money back. */
  lemma SentAtMostOnce(s: State, ops: seq<Op>, p: nat)
    requires Initial(s) && LegalRun(s, ops)
    ensures Sent(Run(s, ops).sent, p) <= 1
  {
    InitialInv(s);
    RunKeepsInv(s, ops);
    assert SendOk(Run(s, ops), p);
  }

  // ---------------------------------------------------------------- the effect of a refunded payment

  function NetOf(journals: seq<Journal<Key>>, link: Option<Key>, account: string): int {
    if link.None? then 0 else Net(LinesOf(journals, link.value), account)
  }

  /** What the journals of a payment do to an account together. */
  function EffectOf(journals: seq<Journal<Key>>, payment: Payment, account: string): int {
    NetOf(journals, payment.collectionTxn, account) + NetOf(journals, payment.accrualTxn, account)
    + NetOf(journals, payment.settlementTxn, account)
  }

  /** The accrual takes back what the collection gave. */
  predicate Matched(journals: seq<Journal<Key>>, payment: Payment) {
    payment.collectionTxn.Some? && payment.accrualTxn.Some? ==>
      (LinesOf(journals, payment.collectionTxn.value) == CollectionLines(payment, Revenue)
       <==> LinesOf(journals, payment.accrualTxn.value) == AccrualLines(payment, Revenue))
  }

  function DispositionOf(journals: seq<Journal<Key>>, payment: Payment): Disposition
    requires payment.collectionTxn.Some?
  {
    if LinesOf(journals, payment.collectionTxn.value) == CollectionLines(payment, Revenue) then Revenue else Suspense
  }

  function SourceOf(journals: seq<Journal<Key>>, payment: Payment): Disposition
    requires payment.accrualTxn.Some?
  {
    if LinesOf(journals, payment.accrualTxn.value) == AccrualLines(payment, Revenue) then Revenue else Suspense
  }

  /** A settled refund in numbers: the money in, the money out, and whatever the accrual took from
      another account than the collection had credited. */
  lemma EffectOfRefund(s: State, p: nat, account: string)
    requires Inv(s) && p < |s.payments| && s.payments[p].settlementTxn.Some?
    ensures s.payments[p].accrualTxn.Some? && s.payments[p].collectionTxn.Some?
    ensures var payment := s.payments[p];
            EffectOf(s.journals, payment, account)
            == Moved(MoneyIn(payment), PayoutClearing(payment.gateway), payment.amount, account)
               + Moved(Destination(SourceOf(s.journals, payment)), Destination(DispositionOf(s.journals, payment)), payment.amount, account)
  {
    var payment := s.payments[p];
    assert PaymentOk(s.journals, p, payment);
    NetOfTransfer(MoneyIn(payment), Destination(DispositionOf(s.journals, payment)), payment.amount, account);
    NetOfTransfer(Destination(SourceOf(s.journals, payment)), REFUND_PAYABLE, payment.amount, account);
    NetOfTransfer(REFUND_PAYABLE, PayoutClearing(payment.gateway), payment.amount, account);
  }

  /** A refunded payment leaves revenue and suspense as if it had never been exactly when its
      accrual was drawn on the account its collection had credited; then only the clearing accounts
      have moved. */
  lemma RefundIsNeutralIff(s: State, p: nat)
    requires Inv(s) && p < |s.payments| && s.payments[p].settlementTxn.Some? && s.payments[p].amount != 0
    ensures var payment := s.payments[p];
            && (EffectOf(s.journals, payment, TICKET_SALES_REVENUE) == 0 && EffectOf(s.journals, payment, SUSPENSE) == 0
                <==> Matched(s.journals, payment))
            && (Matched(s.journals, payment) ==>
                  forall account :: EffectOf(s.journals, payment, account)
                                    == Moved(MoneyIn(payment), PayoutClearing(payment.gateway), payment.amount, account))
  {
    var payment := s.payments[p];
    CodesOfRefunds(payment);
    forall account ensures EffectOf(s.journals, payment, account)
                           == Moved(MoneyIn(payment), PayoutClearing(payment.gateway), payment.amount, account)
                              + Moved(Destination(SourceOf(s.journals, payment)), Destination(DispositionOf(s.journals, payment)), payment.amount, account) {
      EffectOfRefund(s, p, account);
    }
    assert Destination(Revenue) == TICKET_SALES_REVENUE && Destination(Suspense) == SUSPENSE;
    SystemCodesDiffer();
    assert EffectOf(s.journals, payment, TICKET_SALES_REVENUE) == 0 <==> SourceOf(s.journals, payment) == DispositionOf(s.journals, payment);
  }
}
