/** Where a refund can be drawn on the wrong account: exactly when one is reserved for a payment whose
    collection the migration had put in the other account. */
module RefundsMatching {
  import opened Wrappers
  import opened Journals
  import opened Accounts
  import opened Refunds
  import opened RefundsInv
  import opened RefundsRuns
  import opened RefundsLaws
  import opened RefundsHistory

  // ---------------------------------------------------------------- lines stay readable

  lemma {:induction false} FindInPrefix(a: seq<Journal<Key>>, b: seq<Journal<Key>>, key: Key)
    requires a <= b && Has(a, key)
    ensures Find(b, key) == Find(a, key)
  {
    if a[0].key != key {
      assert a[1..] <= b[1..];
      FindInPrefix(a[1..], b[1..], key);
    }
  }

  lemma LinkedLinesStay(s: State, t: State, p: nat)
    requires Inv(s) && StateEvolves(s, t) && p < |s.payments|
    ensures s.payments[p].collectionTxn.Some? ==>
              LinesOf(t.journals, s.payments[p].collectionTxn.value) == LinesOf(s.journals, s.payments[p].collectionTxn.value)
    ensures s.payments[p].accrualTxn.Some? ==>
              LinesOf(t.journals, s.payments[p].accrualTxn.value) == LinesOf(s.journals, s.payments[p].accrualTxn.value)
  {
    var payment := s.payments[p];
    assert PaymentOk(s.journals, p, payment);
    if payment.collectionTxn.Some? {
      assert Links(payment, Key(payment.collectionTxn.value.purpose, p));
      FindInPrefix(s.journals, t.journals, payment.collectionTxn.value);
    }
    if payment.accrualTxn.Some? {
      assert Links(payment, Key(RefundAccrual, p));
      FindInPrefix(s.journals, t.journals, payment.accrualTxn.value);
    }
  }

  /** Reading the credited account back from a collection's entries gives what was recorded. */
  lemma SourceReadsBack(payment: Payment, d: Disposition)
    ensures RefundSource(CollectionLines(payment, d)) == Some(d)
  {
    var lines := CollectionLines(payment, d);
    assert lines[0].side == Debit && lines[1] == Line(Destination(d), Credit, payment.amount, None);
    SystemCodesDiffer();
  }

  ghost predicate SourcesRead(s: State) {
    forall p: nat, source :: Accrue(p, source) in s.intents ==>
      && p < |s.payments| && s.payments[p].collectionTxn.Some?
      && RefundSource(LinesOf(s.journals, s.payments[p].collectionTxn.value)) == Some(source)
  }

  /** A pending back-fill names the account its payment's collection credited, and keeps doing so. */
  lemma StepKeepsSources(s: State, op: Op)
    requires Inv(s) && SourcesRead(s) && Legal(s, op) && InBounds(s, op)
    ensures SourcesRead(After(s, op))
  {
    var t := After(s, op);
    StepEvolves(s, op);
    forall p: nat, source | Accrue(p, source) in t.intents
      ensures p < |t.payments| && t.payments[p].collectionTxn.Some?
      ensures RefundSource(LinesOf(t.journals, t.payments[p].collectionTxn.value)) == Some(source)
    {
      NewIntents(s, op, Accrue(p, source));
      assert Evolves(s.payments[p], t.payments[p]);
      LinkedLinesStay(s, t, p);
    }
  }

  lemma NewIntents(s: State, op: Op, i: Intent)
    requires Inv(s) && InBounds(s, op) && i in After(s, op).intents && i.Accrue?
    ensures i in s.intents || op == Decide(i)
  {
    match op
    case Verify(p, outcome) =>
      if p < |s.payments| && s.payments[p].status.Pending? {
        if outcome.Held? && outcome.collect && RecordCollection(s, p, Suspense).Ok? {
          CollectEvolves(s, p, Suspense);
        } else if outcome.Paid? && RecordCollection(s, p, Revenue).Ok? {
          CollectEvolves(s, p, Revenue);
        }
      }
    case Initiate(p, drawsOk) => ReserveIntents(s, p, drawsOk, i);
    case Deliver(p, result, first) => DeliverIntents(s, p, result, first);
    case Act(j) => PerformIntents(s, j);
    case _ =>
  }

  lemma ReserveIntents(s: State, p: nat, drawsOk: bool, i: Intent)
    requires Inv(s) && i in Commit(s, Reserve(s, p, drawsOk)).intents && i.Accrue?
    ensures i in s.intents
  {
    if p < |s.payments| && !s.payments[p].status.Refunded? && WithProvider(s.payments[p].gateway) {
      var t, u := ReserveBooks(s, p, SourceByStatus(s.payments[p]));
      ReserveIs(s, p, drawsOk, t, u);
    }
  }

  lemma DeliverIntents(s: State, p: nat, result: ProviderResult, first: bool)
    requires p < |s.payments|
    ensures forall i :: i in After(s, Deliver(p, result, first)).intents && i.Accrue? ==> i in s.intents
  {
  }

  lemma PerformIntents(s: State, i: Intent)
    requires Inv(s) && i.p < |s.payments|
    ensures Commit(s, Perform(s, i)).intents == s.intents
  {
  }

  // ---------------------------------------------------------------- who accrues

  predicate Reserves(op: Op, p: nat) {
    op.Initiate? && op.p == p
  }

  /** Only reserving and the back-fill accrue. */
  lemma OnlyTheseAccrue(s: State, op: Op, p: nat)
    requires Inv(s) && Legal(s, op) && InBounds(s, op) && p < |s.payments| && !Reserves(op, p) && !BackfillsAccrual(op, p)
    ensures p < |After(s, op).payments| && After(s, op).payments[p].accrualTxn == s.payments[p].accrualTxn
  {
    match op
    case Verify(q, outcome) =>
      if q < |s.payments| && s.payments[q].status.Pending? {
        if outcome.Held? && outcome.collect && RecordCollection(s, q, Suspense).Ok? {
          CollectEvolves(s, q, Suspense);
        } else if outcome.Paid? && RecordCollection(s, q, Revenue).Ok? {
          CollectEvolves(s, q, Revenue);
        }
      }
    case Initiate(q, drawsOk) => ReserveTouchesOnly(s, q, drawsOk, p);
    case Deliver(q, result, first) => DeliverKeepsAccrual(s, q, result, first, p);
    case Act(i) => ActKeepsAccrual(s, i, p);
    case _ =>
  }

  lemma ReserveTouchesOnly(s: State, q: nat, drawsOk: bool, p: nat)
    requires Inv(s) && p < |s.payments| && q != p
    ensures var t := Commit(s, Reserve(s, q, drawsOk)); p < |t.payments| && t.payments[p] == s.payments[p]
  {
    if q < |s.payments| && !s.payments[q].status.Refunded? && WithProvider(s.payments[q].gateway) {
      var source := SourceByStatus(s.payments[q]);
      var t, u := ReserveBooks(s, q, source);
      ReserveIs(s, q, drawsOk, t, u);
      CollectEvolves(s, q, source);
      AccrualEvolves(t, q, source);
    }
  }

  lemma DeliverKeepsAccrual(s: State, q: nat, result: ProviderResult, first: bool, p: nat)
    requires q < |s.payments| && p < |s.payments|
    ensures var t := After(s, Deliver(q, result, first)); p < |t.payments| && t.payments[p].accrualTxn == s.payments[p].accrualTxn
  {
    DeliveredTables(s, q, result, first);
  }

  lemma ActKeepsAccrual(s: State, i: Intent, p: nat)
    requires Inv(s) && i.p < |s.payments| && p < |s.payments| && !(i.Accrue? && i.p == p)
    ensures var t := After(s, Act(i)); p < |t.payments| && t.payments[p].accrualTxn == s.payments[p].accrualTxn
  {
    assert PaymentOk(s.journals, i.p, s.payments[i.p]);
    if Perform(s, i).Ok? {
      match i
      case Collect(q, d) => BackfillEvolves(s, q, d);
      case Accrue(q, source) => AccrualEvolves(s, q, source);
      case Settle(q) => SettlementEvolves(s, q, if s.payments[q].gateway.Paystack? then PaystackSettlement else RefundSettlement);
      case _ =>
    }
  }

  // ---------------------------------------------------------------- the exact condition

  /** A refund reserved from CONFIRMED takes the money from revenue, from REVIEW_REQUIRED from suspense,
      and this payment's collection went to the other one. */
  predicate AccruesAgainstCollection(s: State, op: Op, p: nat)
    requires p < |s.payments|
  {
    var payment := s.payments[p];
    && Reserves(op, p) && !payment.status.Refunded? && ReserveError(payment, op.drawsOk).None? && WithProvider(payment.gateway)
    && payment.accrualTxn.None? && payment.collectionTxn.Some?
    && DispositionOf(s.journals, payment) != SourceByStatus(payment)
  }

  /** After any step a matched payment is matched still, unless the step reserves a refund against its
      collection's disposition; and then it is not. */
  lemma StaysMatchedIff(s: State, op: Op, p: nat)
    requires Inv(s) && SourcesRead(s) && Legal(s, op) && InBounds(s, op)
    requires p < |s.payments| && s.payments[p].amount != 0 && Matched(s.journals, s.payments[p])
    ensures p < |After(s, op).payments|
    ensures Matched(After(s, op).journals, After(s, op).payments[p]) <==> !AccruesAgainstCollection(s, op, p)
  {
    StepEvolves(s, op);
    assert Evolves(s.payments[p], After(s, op).payments[p]);
    LinkedLinesStay(s, After(s, op), p);
    if s.payments[p].accrualTxn.Some? {
      assert PaymentOk(s.journals, p, s.payments[p]);
    } else if Reserves(op, p) {
      ReserveMatches(s, p, op.drawsOk);
    } else if BackfillsAccrual(op, p) {
      BackfillMatches(s, p, op.intent.source);
    } else {
      OnlyTheseAccrue(s, op, p);
    }
  }

  lemma BackfillMatches(s: State, p: nat, source: Disposition)
    requires Inv(s) && SourcesRead(s) && Accrue(p, source) in s.intents && p < |s.payments|
    requires s.payments[p].accrualTxn.None? && s.payments[p].amount != 0
    ensures var t := After(s, Act(Accrue(p, source))); p < |t.payments| && Matched(t.journals, t.payments[p])
  {
    assert PaymentOk(s.journals, p, s.payments[p]);
    FreeKey(s.journals, p, s.payments[p], RefundAccrual);
    BackfilledLines(s.journals, p, s.payments[p], source);
  }

  lemma BackfilledLines(journals: seq<Journal<Key>>, p: nat, payment: Payment, source: Disposition)
    requires PaymentOk(journals, p, payment) && payment.accrualTxn.None? && payment.amount != 0 && payment.collectionTxn.Some?
    requires !Has(journals, Key(RefundAccrual, p)) && RefundSource(LinesOf(journals, payment.collectionTxn.value)) == Some(source)
    ensures var j := Journal(Key(RefundAccrual, p), AccrualLines(payment, source));
            Matched(journals + [j], payment.(accrualTxn := Some(j.key)))
  {
    SourceReadsBack(payment, Revenue);
    SourceReadsBack(payment, Suspense);
    var j := Journal(Key(RefundAccrual, p), AccrualLines(payment, source));
    LinesAppend(journals, j, j.key);
    LinesAppend(journals, j, payment.collectionTxn.value);
  }

  lemma ReserveMatches(s: State, p: nat, drawsOk: bool)
    requires Inv(s) && p < |s.payments| && s.payments[p].accrualTxn.None? && s.payments[p].amount != 0
    ensures var t := After(s, Initiate(p, drawsOk));
            && p < |t.payments|
            && (Matched(t.journals, t.payments[p]) <==> !AccruesAgainstCollection(s, Initiate(p, drawsOk), p))
  {
    var payment := s.payments[p];
    assert PaymentOk(s.journals, p, payment);
    if !payment.status.Refunded? && ReserveError(payment, drawsOk).None? && WithProvider(payment.gateway) {
      var source := SourceByStatus(payment);
      var t, u := ReserveBooks(s, p, source);
      ReserveIs(s, p, drawsOk, t, u);
      ReservedLines(s, p, source, t, u);
    }
  }

  lemma ReservedLines(s: State, p: nat, source: Disposition, t: State, u: State)
    requires Inv(s) && p < |s.payments| && s.payments[p].accrualTxn.None? && !s.payments[p].gateway.AgentCash?
    requires RecordCollection(s, p, source) == Ok(t) && |t.payments| == |s.payments| && RecordAccrual(t, p, source) == Ok(u)
    requires |u.payments| == |s.payments|
    ensures var (payment, payment') := (s.payments[p], u.payments[p]);
            && payment'.collectionTxn.Some? && payment'.accrualTxn.Some?
            && LinesOf(u.journals, payment'.collectionTxn.value)
               == CollectionLines(payment', if payment.collectionTxn.Some? then DispositionOf(s.journals, payment) else source)
            && LinesOf(u.journals, payment'.accrualTxn.value) == AccrualLines(payment', source)
  {
    var payment := s.payments[p];
    assert PaymentOk(s.journals, p, payment);
    if payment.collectionTxn.None? {
      CollectionPosted(s, p, ProviderCollection, source);
      FreeKey(s.journals, p, payment, ProviderCollection);
      var c := Journal(Key(ProviderCollection, p), CollectionLines(payment, source));
      LinesAppend(s.journals, c, c.key);
    }
    assert PaymentOk(t.journals, p, t.payments[p]);
    FreeKey(t.journals, p, t.payments[p], RefundAccrual);
    var j := Journal(Key(RefundAccrual, p), AccrualLines(payment, source));
    LinesAppend(t.journals, j, j.key);
    LinesAppend(t.journals, j, t.payments[p].collectionTxn.value);
  }

  // ---------------------------------------------------------------- a run that gets there

  const LEGACY := Payment(Monnify, "", 500, true, Confirmed, None, None, [], None, None, None)

  lemma RunStep(s: State, op: Op, rest: seq<Op>)
    requires Legal(s, op) && InBounds(s, op) && LegalRun(After(s, op), rest)
    ensures LegalRun(s, [op] + rest) && Run(s, [op] + rest) == Run(After(s, op), rest)
  {
    assert ([op] + rest)[1..] == rest;
  }

  const DECIDE := Decide(Collect(0, Suspense))
  const COLLECT := Act(Collect(0, Suspense))
  const REFUND := Initiate(0, true)

  /** The migration puts a confirmed payment without tickets in suspense; refunding it later draws on
      revenue. */
  lemma MigratedThenRefunded(s: State)
    requires s == State([LEGACY], [], multiset{}, [])
    ensures var ops := [DECIDE] + ([COLLECT] + ([REFUND] + []));
            && Initial(s) && LegalRun(s, ops)
            && |Run(s, ops).payments| == 1 && !Matched(Run(s, ops).journals, Run(s, ops).payments[0])
  {
    InitialInv(s);
    StepKeepsInv(s, DECIDE);
    var a := After(s, DECIDE);
    StepKeepsInv(a, COLLECT);
    var b := After(a, COLLECT);
    RefundedFromRevenue(b);
    RunStep(b, REFUND, []);
    RunStep(a, COLLECT, [REFUND] + []);
    RunStep(s, DECIDE, [COLLECT] + ([REFUND] + []));
  }

  lemma RefundedFromRevenue(b: State)
    requires Inv(b) && b.payments == [LEGACY.(collectionTxn := Some(Key(ProviderCollection, 0)))]
    requires DispositionOf(b.journals, b.payments[0]) == Suspense
    ensures |After(b, REFUND).payments| == 1 && !Matched(After(b, REFUND).journals, After(b, REFUND).payments[0])
  {
    ReserveMatches(b, 0, true);
  }

}
