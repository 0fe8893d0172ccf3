/** What the migration does with payments, and why it can be restarted. */
module MigrationDispatch {
  import opened Wrappers
  import opened Journals
  import opened Refunds
  import opened RefundsInv
  import RefundsRuns
  import RefundsHistory
  import RefundsMatching
  import opened RefundsOnce
  import opened Migration

  function LegacyDisposition(payment: Payment): Disposition {
    if payment.status.ReviewRequired? || payment.tickets == [] then Suspense else Revenue
  }

  function MigrateCollection(s: Refunds.State, p: nat): (Refunds.State, Outcome) {
    if p >= |s.payments| then (s, NeedsReview)
    else if s.payments[p].collectionTxn.Some? then (s, Migrated(true))
    else
      match BackfillCollection(s, p, LegacyDisposition(s.payments[p]))
      case Ok(t) => (t, Migrated(false))
      case Err(_) => (s, Outcome.Error)
  }

  predicate NeedsSettlement(payment: Payment) {
    payment.refundStatus == Some(Succeeded) && payment.settlementTxn.None?
  }

  /** Accrual and settlement are two transactions: the second may fail after the first. */
  function MigrateRefund(s: Refunds.State, p: nat): (Refunds.State, Outcome) {
    if p >= |s.payments| then (s, NeedsReview)
    else
      var payment := s.payments[p];
      if payment.refundStatus.None? then (s, Migrated(true))
      else if payment.collectionTxn.None? then (s, NeedsReview)
      else
        match RefundSource(LinesOf(s.journals, payment.collectionTxn.value))
        case None => (s, NeedsReview)
        case Some(source) =>
          match RecordAccrual(s, p, source)
          case Err(_) => (s, Outcome.Error)
          case Ok(t) =>
            if !NeedsSettlement(payment) then (t, Migrated(payment.accrualTxn.Some?))
            else SettleRefund(t, p)
  }

  function SettleRefund(s: Refunds.State, p: nat): (Refunds.State, Outcome)
    requires p < |s.payments|
  {
    if s.payments[p].gateway.AgentCash? then (s, NeedsReview)
    else
      match BackfillSettlement(s, p)
      case Ok(t) => (t, Migrated(false))
      case Err(_) => (s, Outcome.Error)
  }

  /** The kinds that concern payments; the others leave these tables alone. */
  function PaymentDispatch(s: Refunds.State, kind: Kind, source: nat): (Refunds.State, Outcome) {
    match kind
    case PaymentCollection => MigrateCollection(s, source)
    case PaymentRefund => MigrateRefund(s, source)
    case _ => (s, Migrated(true))
  }

  /** The tables when the accrual is in and the settlement is not. */
  function AccruedOnly(s: Refunds.State, p: nat): Refunds.State {
    if p >= |s.payments| || s.payments[p].refundStatus.None? || s.payments[p].collectionTxn.None? then s
    else
      match RefundSource(LinesOf(s.journals, s.payments[p].collectionTxn.value))
      case None => s
      case Some(source) =>
        match RecordAccrual(s, p, source)
        case Err(_) => s
        case Ok(t) => t
  }

  /** A collection is one transaction, a refund two. */
  function PaymentPartial(s: Refunds.State, kind: Kind, source: nat, transactions: nat): Refunds.State {
    if transactions == 0 then s
    else if kind.PaymentRefund? && transactions == 1 then AccruedOnly(s, source)
    else PaymentDispatch(s, kind, source).0
  }

  /** What the payment tables always satisfy: the invariant of the refund flows, and no key used twice. */
  predicate UniqueKeys(s: Refunds.State) {
    Unique(s.journals)
  }

  ghost predicate Sound(s: Refunds.State) {
    RefundsInv.Inv(s) && UniqueKeys(s)
  }

  // ---------------------------------------------------------------- restarting

  /** Back-filling a missing collection always goes through, and moves nothing but its link. */
  lemma BackfillPosts(s: Refunds.State, p: nat, d: Disposition)
    requires RefundsInv.Inv(s) && p < |s.payments| && s.payments[p].collectionTxn.None?
    ensures var r := BackfillCollection(s, p, d);
            && r.Ok? && RefundsInv.Inv(r.value) && |r.value.payments| == |s.payments|
            && r.value.payments == s.payments[p := s.payments[p].(collectionTxn := r.value.payments[p].collectionTxn)]
            && r.value.payments[p].collectionTxn.Some?
  {
    match s.payments[p].gateway
    case AgentCash => CollectionPosted(s, p, LegacyAgentSale, d);
    case Paystack => CollectionPosted(s, p, PaystackCollection, d);
    case _ => CollectionPosted(s, p, ProviderCollection, d);
  }

  /** Where a back-filled collection goes: into suspense for a payment held for review or without tickets,
      and otherwise into revenue. */
  lemma CollectionGoes(s: Refunds.State, p: nat)
    requires RefundsInv.Inv(s) && p < |s.payments| && s.payments[p].collectionTxn.None?
    ensures var d := if s.payments[p].status.ReviewRequired? || |s.payments[p].tickets| == 0 then Suspense else Revenue;
            BackfillCollection(s, p, d).Ok? && MigrateCollection(s, p) == (BackfillCollection(s, p, d).value, Migrated(false))
  {
    BackfillPosts(s, p, LegacyDisposition(s.payments[p]));
  }

  lemma CollectionRepeats(s: Refunds.State, p: nat)
    requires RefundsInv.Inv(s)
    ensures var t := MigrateCollection(s, p).0;
            && RefundsInv.Inv(t) && MigrateCollection(t, p).0 == t
            && SameOutcome(MigrateCollection(t, p).1, MigrateCollection(s, p).1)
    ensures p < |s.payments| ==>
              var t := MigrateCollection(s, p).0;
              && p < |t.payments| && t.payments[p].collectionTxn.Some?
              && t.payments[p] == s.payments[p].(collectionTxn := t.payments[p].collectionTxn)
  {
    if p < |s.payments| && s.payments[p].collectionTxn.None? {
      BackfillPosts(s, p, LegacyDisposition(s.payments[p]));
    }
  }

  /** A readable collection always names an account the accrual can be drawn on. */
  lemma SourceIsReadable(s: Refunds.State, p: nat)
    requires RefundsInv.Inv(s) && p < |s.payments| && s.payments[p].collectionTxn.Some?
    ensures RefundSource(LinesOf(s.journals, s.payments[p].collectionTxn.value)).Some?
  {
    assert PaymentOk(s.journals, p, s.payments[p]);
    RefundsMatching.SourceReadsBack(s.payments[p], Revenue);
    RefundsMatching.SourceReadsBack(s.payments[p], Suspense);
  }

  /** Once accrued, only the settlement can still be missing. */
  lemma RefundTwice(s: Refunds.State, p: nat)
    requires RefundsInv.Inv(s) && p < |s.payments| && s.payments[p].refundStatus.Some? && s.payments[p].accrualTxn.Some?
    requires s.payments[p].collectionTxn.Some?
    ensures MigrateRefund(s, p) == if NeedsSettlement(s.payments[p]) then SettleRefund(s, p) else (s, Migrated(true))
  {
    SourceIsReadable(s, p);
  }

  lemma SettlementRepeats(s: Refunds.State, p: nat)
    requires RefundsInv.Inv(s) && p < |s.payments| && NeedsSettlement(s.payments[p]) && s.payments[p].accrualTxn.Some?
    requires s.payments[p].collectionTxn.Some?
    ensures var t := SettleRefund(s, p).0;
            && RefundsInv.Inv(t) && MigrateRefund(t, p).0 == t && SameOutcome(MigrateRefund(t, p).1, SettleRefund(s, p).1)
            && (!s.payments[p].gateway.AgentCash? ==> p < |t.payments| && t.payments[p].settlementTxn.Some?)
  {
    SettlementPosted(s, p, if s.payments[p].gateway.Paystack? then PaystackSettlement else RefundSettlement);
    RefundTwice(SettleRefund(s, p).0, p);
  }

  /** Taken up again after either of its transactions, a refund comes out the same. */
  lemma RefundRestarts(s: Refunds.State, p: nat)
    requires RefundsInv.Inv(s)
    ensures var (t, u) := (MigrateRefund(s, p).0, AccruedOnly(s, p));
            && RefundsInv.Inv(t) && MigrateRefund(t, p).0 == t && SameOutcome(MigrateRefund(t, p).1, MigrateRefund(s, p).1)
            && RefundsInv.Inv(u) && MigrateRefund(u, p).0 == t && SameOutcome(MigrateRefund(u, p).1, MigrateRefund(s, p).1)
  {
    if p < |s.payments| && s.payments[p].refundStatus.Some? && s.payments[p].collectionTxn.Some? {
      SourceIsReadable(s, p);
      var source := RefundSource(LinesOf(s.journals, s.payments[p].collectionTxn.value)).value;
      AccrualPosted(s, p, source);
      var u := RecordAccrual(s, p, source).value;
      RefundTwice(u, p);
      if NeedsSettlement(s.payments[p]) {
        SettlementRepeats(u, p);
      }
    }
  }

  lemma DispatchKeepsUnique(s: Refunds.State, kind: Kind, p: nat)
    requires UniqueKeys(s)
    ensures UniqueKeys(PaymentDispatch(s, kind, p).0) && UniqueKeys(AccruedOnly(s, p))
  {
    if p < |s.payments| {
      RefundsOnce.PerformKeepsUnique(s, Collect(p, LegacyDisposition(s.payments[p])));
      CollectionKeepsUnique(s, p, ProviderCollection, LegacyDisposition(s.payments[p]));
      AccrualKeepsUnique(s, p, Revenue);
      AccrualKeepsUnique(s, p, Suspense);
      var u := AccruedOnly(s, p);
      if p < |u.payments| {
        SettlementKeepsUnique(u, p, PaystackSettlement);
        SettlementKeepsUnique(u, p, RefundSettlement);
      }
    }
  }

  lemma ItemRestarts(s: Refunds.State, kind: Kind, source: nat, t: nat)
    requires Sound(s)
    ensures var torn := PaymentPartial(s, kind, source, t);
            && Sound(PaymentDispatch(s, kind, source).0) && Sound(torn)
            && PaymentDispatch(torn, kind, source).0 == PaymentDispatch(s, kind, source).0
            && SameOutcome(PaymentDispatch(torn, kind, source).1, PaymentDispatch(s, kind, source).1)
  {
    DispatchKeepsUnique(s, kind, source);
    match kind
    case PaymentCollection => CollectionRepeats(s, source);
    case PaymentRefund =>
      RefundRestarts(s, source);
      DispatchesRefund(s, source, t);
    case _ =>
  }

  lemma DispatchesRefund(s: Refunds.State, p: nat, t: nat)
    ensures PaymentDispatch(s, PaymentRefund, p) == MigrateRefund(s, p)
    ensures PaymentPartial(s, PaymentRefund, p, t) == if t == 0 then s else if t == 1 then AccruedOnly(s, p) else MigrateRefund(s, p).0
    ensures forall u :: PaymentDispatch(u, PaymentRefund, p) == MigrateRefund(u, p)
  {
  }

  /** Any payment item can be taken up again after any of its transactions, from any state a run can
      be in: it comes out as if it had gone through at once. */
  lemma PaymentsAreRestartable(ok: Refunds.State -> bool)
    requires forall s :: ok(s) <==> Sound(s)
    ensures Restartable(PaymentDispatch, PaymentPartial, ok)
  {
    forall s: Refunds.State, kind, source | ok(s) ensures ok(PaymentDispatch(s, kind, source).0) {
      ItemRestarts(s, kind, source, 0);
    }
    forall s: Refunds.State, kind, source, t: nat | ok(s)
      ensures var torn := PaymentPartial(s, kind, source, t);
              && ok(torn) && PaymentDispatch(torn, kind, source).0 == PaymentDispatch(s, kind, source).0
              && SameOutcome(PaymentDispatch(torn, kind, source).1, PaymentDispatch(s, kind, source).1)
    {
      ItemRestarts(s, kind, source, t);
    }
  }

  /** A refund is accrued only on a linked collection, and the order of the kinds sees to it that the
      collection is there: handled in that order, any refund is accrued, on the account its collection
      credited. */
  lemma CollectedThenAccrued(s: Refunds.State, p: nat)
    requires RefundsInv.Inv(s) && p < |s.payments| && s.payments[p].refundStatus.Some?
    ensures s.payments[p].collectionTxn.None? ==> MigrateRefund(s, p) == (s, NeedsReview)
    ensures var t := MigrateCollection(s, p).0;
            var u := MigrateRefund(t, p).0;
            && p < |t.payments| && t.payments[p].collectionTxn.Some?
            && p < |u.payments| && u.payments[p].accrualTxn.Some?
            && (NeedsSettlement(s.payments[p]) && !s.payments[p].gateway.AgentCash? ==> u.payments[p].settlementTxn.Some?)
  {
    CollectionRepeats(s, p);
    var t := MigrateCollection(s, p).0;
    SourceIsReadable(t, p);
    var source := RefundSource(LinesOf(t.journals, t.payments[p].collectionTxn.value)).value;
    AccrualPosted(t, p, source);
    var u := RecordAccrual(t, p, source).value;
    if NeedsSettlement(s.payments[p]) {
      SettlementRepeats(u, p);
      SettlementPosted(u, p, if u.payments[p].gateway.Paystack? then PaystackSettlement else RefundSettlement);
    }
  }

  /** Any applies and retries of the payment part, each dying any number of times, also between the
      accrual and the settlement of one refund, and applied again until it gets through: the tables
      and the statuses are those of the same calls without a crash. */
  lemma PaymentCrashesAreInvisible(w: Work<Refunds.State>, commands: seq<Command>)
    requires Sound(w.world) && AllInReach(commands, |w.items|)
    ensures AllInReach(Calm(commands), |w.items|)
    ensures SameWork(Campaign(PaymentDispatch, PaymentPartial, w, commands), Campaign(PaymentDispatch, PaymentPartial, w, Calm(commands)))
  {
    var ok := (s: Refunds.State) => Sound(s);
    PaymentsAreRestartable(ok);
    CampaignIsCalm(PaymentDispatch, PaymentPartial, ok, w, commands);
  }
}
