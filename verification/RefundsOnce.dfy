/** Each journal of a payment is posted once, live or back-filled. */
module RefundsOnce {
  import opened Wrappers
  import opened Journals
  import opened Refunds
  import opened RefundsInv
  import opened RefundsRuns
  import opened RefundsLaws

  lemma CollectionKeepsUnique(s: State, p: nat, purpose: Purpose, d: Disposition)
    requires Unique(s.journals) && p < |s.payments|
    ensures PostCollection(s, p, purpose, d).Ok? ==> Unique(PostCollection(s, p, purpose, d).value.journals)
    ensures RecordCollection(s, p, d).Ok? ==> Unique(RecordCollection(s, p, d).value.journals)
  {
    PostKeepsUnique(s.journals, Key(purpose, p), CollectionLines(s.payments[p], d));
    PostKeepsUnique(s.journals, Key(ProviderCollection, p), CollectionLines(s.payments[p], d));
  }

  lemma AccrualKeepsUnique(s: State, p: nat, source: Disposition)
    requires Unique(s.journals) && p < |s.payments|
    ensures RecordAccrual(s, p, source).Ok? ==> Unique(RecordAccrual(s, p, source).value.journals)
  {
    PostKeepsUnique(s.journals, Key(RefundAccrual, p), AccrualLines(s.payments[p], source));
  }

  lemma SettlementKeepsUnique(s: State, p: nat, purpose: Purpose)
    requires Unique(s.journals) && p < |s.payments|
    ensures PostSettlement(s, p, purpose).Ok? ==> Unique(PostSettlement(s, p, purpose).value.journals)
  {
    PostKeepsUnique(s.journals, Key(purpose, p), SettlementLines(s.payments[p]));
  }

  lemma ConfirmKeepsUnique(s: State, p: nat, outcome: Outcome)
    requires Unique(s.journals)
    ensures Confirm(s, p, outcome).Ok? ==> Unique(Confirm(s, p, outcome).value.journals)
  {
    if p < |s.payments| {
      CollectionKeepsUnique(s, p, ProviderCollection, Suspense);
      CollectionKeepsUnique(s, p, ProviderCollection, Revenue);
    }
  }

  lemma ReserveKeepsUnique(s: State, p: nat, drawsOk: bool)
    requires Unique(s.journals)
    ensures Reserve(s, p, drawsOk).Ok? ==> Unique(Reserve(s, p, drawsOk).value.journals)
  {
    if p < |s.payments| {
      var source := SourceByStatus(s.payments[p]);
      CollectionKeepsUnique(s, p, ProviderCollection, source);
      if RecordCollection(s, p, source).Ok? {
        AccrualKeepsUnique(RecordCollection(s, p, source).value, p, source);
      }
    }
  }

  lemma ApplyKeepsUnique(s: State, p: nat, result: ProviderResult)
    requires Unique(s.journals)
    ensures ApplyResult(s, p, result).Ok? ==> Unique(ApplyResult(s, p, result).value.journals)
  {
    if p < |s.payments| {
      SettlementKeepsUnique(SetPayment(s, p, s.payments[p].(status := Refunded, refundStatus := Some(Succeeded))), p, RefundSettlement);
    }
  }

  lemma PerformKeepsUnique(s: State, i: Intent)
    requires Unique(s.journals) && i.p < |s.payments|
    ensures Perform(s, i).Ok? ==> Unique(Perform(s, i).value.journals)
  {
    match i
    case Collect(p, d) =>
      CollectionKeepsUnique(s, p, LegacyAgentSale, d);
      CollectionKeepsUnique(s, p, PaystackCollection, d);
    case Accrue(p, source) => AccrualKeepsUnique(s, p, source);
    case Settle(p) =>
      SettlementKeepsUnique(s, p, PaystackSettlement);
      SettlementKeepsUnique(s, p, RefundSettlement);
    case _ =>
  }

  /** No step of any flow posts under a used key. */
  lemma StepKeepsUnique(s: State, op: Op)
    requires Unique(s.journals) && InBounds(s, op)
    ensures Unique(After(s, op).journals)
  {
    match op
    case Verify(p, outcome) => ConfirmKeepsUnique(s, p, outcome);
    case Initiate(p, drawsOk) => ReserveKeepsUnique(s, p, drawsOk);
    case Deliver(p, result, _) => ApplyKeepsUnique(s, p, result);
    case Act(i) => PerformKeepsUnique(s, i);
    case Other(id, lines) => PostKeepsUnique(s.journals, Key(OtherMovement, id), lines);
    case _ =>
  }

  lemma {:induction false} RunKeepsUnique(s: State, ops: seq<Op>)
    requires Unique(s.journals) && LegalRun(s, ops)
    ensures Unique(Run(s, ops).journals)
    decreases |ops|
  {
    if ops != [] {
      StepKeepsUnique(s, ops[0]);
      RunKeepsUnique(After(s, ops[0]), ops[1..]);
    }
  }

  function Collections(journals: seq<Journal<Key>>, p: nat): nat {
    Times(journals, Key(ProviderCollection, p)) + Times(journals, Key(PaystackCollection, p)) + Times(journals, Key(LegacyAgentSale, p))
  }

  function Accruals(journals: seq<Journal<Key>>, p: nat): nat {
    Times(journals, Key(RefundAccrual, p))
  }

  function Settlements(journals: seq<Journal<Key>>, p: nat): nat {
    Times(journals, Key(RefundSettlement, p)) + Times(journals, Key(PaystackSettlement, p))
  }

  /** The journals about a payment are counted by its links. */
  lemma CountedByLinks(journals: seq<Journal<Key>>, p: nat, payment: Payment)
    requires Unique(journals) && PaymentOk(journals, p, payment)
    ensures Collections(journals, p) == (if payment.collectionTxn.Some? then 1 else 0)
    ensures Accruals(journals, p) == (if payment.accrualTxn.Some? then 1 else 0)
    ensures Settlements(journals, p) == (if payment.settlementTxn.Some? then 1 else 0)
  {
    forall purpose: Purpose | !purpose.OtherMovement?
      ensures Times(journals, Key(purpose, p)) == if Links(payment, Key(purpose, p)) then 1 else 0
    {
      UsedOnce(journals, Key(purpose, p));
      assert Has(journals, Key(purpose, p)) <==> Links(payment, Key(purpose, p));
    }
  }

  /** In every interleaving of the live services, the migration and crashes, each payment has at most
      one collection, at most one accrual and at most one settlement journal, whichever way it was
      posted; there is one exactly when the payment is linked to one; and what has been settled was
      accrued, and what has been accrued was collected. */
  lemma PostedAtMostOnce(s: State, ops: seq<Op>, p: nat)
    requires Initial(s) && LegalRun(s, ops) && p < |Run(s, ops).payments|
    ensures var (t, payment) := (Run(s, ops), Run(s, ops).payments[p]);
            && Collections(t.journals, p) == (if payment.collectionTxn.Some? then 1 else 0)
            && Accruals(t.journals, p) == (if payment.accrualTxn.Some? then 1 else 0)
            && Settlements(t.journals, p) == (if payment.settlementTxn.Some? then 1 else 0)
            && Settlements(t.journals, p) <= Accruals(t.journals, p) <= Collections(t.journals, p) <= 1
            && LegalPair(payment.status, payment.refundStatus)
  {
    InitialInv(s);
    RunKeepsInv(s, ops);
    RunKeepsUnique(s, ops);
    var t := Run(s, ops);
    assert PaymentOk(t.journals, p, t.payments[p]);
    CountedByLinks(t.journals, p, t.payments[p]);
  }
}
