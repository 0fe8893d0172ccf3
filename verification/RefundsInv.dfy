/** What every step of the refund flows keeps. */
module RefundsInv {
  import opened Wrappers
  import opened Journals
  import opened Accounts
  import opened Sums
  import opened Refunds

  predicate Has(journals: seq<Journal<Key>>, key: Key) {
    Find(journals, key).Some?
  }

  lemma {:induction false} FindAppend(journals: seq<Journal<Key>>, j: Journal<Key>, key: Key)
    ensures Find(journals + [j], key) == if Has(journals, key) then Find(journals, key) else if j.key == key then Some(j) else None
  {
    if journals == [] {
      assert journals + [j] == [j] && [j][1..] == [];
    } else {
      assert (journals + [j])[1..] == journals[1..] + [j];
      FindAppend(journals[1..], j, key);
    }
  }

  // ---------------------------------------------------------------- links and journals

  predicate Links(payment: Payment, key: Key) {
    payment.collectionTxn == Some(key) || payment.accrualTxn == Some(key) || payment.settlementTxn == Some(key)
  }

  predicate CollectionPurpose(g: Gateway, purpose: Purpose) {
    match purpose
    case ProviderCollection => !g.AgentCash?
    case PaystackCollection => g.Paystack?
    case LegacyAgentSale => g.AgentCash?
    case _ => false
  }

  predicate SettlementPurpose(g: Gateway, purpose: Purpose) {
    purpose.RefundSettlement? || (purpose.PaystackSettlement? && g.Paystack?)
  }

  /** Each link names a journal of the right kind with the lines that kind has. */
  predicate LinesOk(journals: seq<Journal<Key>>, p: nat, payment: Payment) {
    && (payment.collectionTxn.Some? ==>
          && payment.collectionTxn.value.id == p && CollectionPurpose(payment.gateway, payment.collectionTxn.value.purpose)
          && (|| LinesOf(journals, payment.collectionTxn.value) == CollectionLines(payment, Revenue)
              || LinesOf(journals, payment.collectionTxn.value) == CollectionLines(payment, Suspense)))
    && (payment.accrualTxn.Some? ==>
          && payment.collectionTxn.Some? && payment.accrualTxn == Some(Key(RefundAccrual, p))
          && (|| LinesOf(journals, payment.accrualTxn.value) == AccrualLines(payment, Revenue)
              || LinesOf(journals, payment.accrualTxn.value) == AccrualLines(payment, Suspense)))
    && (payment.settlementTxn.Some? ==>
          && payment.accrualTxn.Some?
          && payment.settlementTxn.value.id == p && SettlementPurpose(payment.gateway, payment.settlementTxn.value.purpose)
          && LinesOf(journals, payment.settlementTxn.value) == SettlementLines(payment))
  }

  /** The journals about a payment are exactly those it links to. */
  predicate KeysOk(journals: seq<Journal<Key>>, p: nat, payment: Payment) {
    forall purpose: Purpose :: !purpose.OtherMovement? ==> (Has(journals, Key(purpose, p)) <==> Links(payment, Key(purpose, p)))
  }

  /** The pairs of payment status and refund status there can be. */
  predicate LegalPair(status: PaymentStatus, refund: Option<RefundStatus>) {
    match refund
    case None => !status.RefundPending? && !status.Refunded?
    case Some(Succeeded) => status.Refunded?
    case Some(RefundFailed) => status.ReviewRequired?
    case Some(_) => status.RefundPending?
  }

  predicate TicketsOk(payment: Payment) {
    && (payment.refundStatus.Some? ==>
          forall i :: 0 <= i < |payment.tickets| ==> !payment.tickets[i].status.Active? && !HasValue(payment.tickets[i]))
    && (payment.status.Pending? ==> payment.tickets == [])
  }

  predicate PaymentOk(journals: seq<Journal<Key>>, p: nat, payment: Payment) {
    && LinesOk(journals, p, payment) && KeysOk(journals, p, payment)
    && LegalPair(payment.status, payment.refundStatus) && TicketsOk(payment)
  }

  ghost predicate PaymentsOk(s: State) {
    forall p :: 0 <= p < |s.payments| ==> PaymentOk(s.journals, p, s.payments[p])
  }

  // ---------------------------------------------------------------- money owed

  function Owed(): Payment -> int {
    (payment: Payment) => if payment.accrualTxn.Some? && payment.settlementTxn.None? then payment.amount else 0
  }

  predicate PayableOk(s: State) {
    Balance(s.journals, REFUND_PAYABLE) == -Sum(s.payments, Owed())
  }

  // ---------------------------------------------------------------- sending money

  function Sent(sent: seq<nat>, p: nat): nat {
    multiset(sent)[p]
  }

  predicate SendOk(s: State, p: nat) {
    && s.intents[Call(p)] + Sent(s.sent, p) <= 1
    && (p < |s.payments| && s.payments[p].refundStatus.None? ==> s.intents[Call(p)] + Sent(s.sent, p) == 0)
    && (p >= |s.payments| ==> s.intents[Call(p)] + Sent(s.sent, p) == 0)
  }

  ghost predicate SendsOk(s: State) {
    forall p: nat :: SendOk(s, p)
  }

  predicate IntentOk(s: State, i: Intent) {
    && i.p < |s.payments|
    && (i.Accrue? ==> s.payments[i.p].refundStatus.Some? && s.payments[i.p].collectionTxn.Some?)
  }

  ghost predicate IntentsOk(s: State) {
    forall i :: i in s.intents ==> IntentOk(s, i)
  }

  ghost predicate Inv(s: State) {
    PaymentsOk(s) && PayableOk(s) && SendsOk(s) && IntentsOk(s)
  }

  // ---------------------------------------------------------------- one payment, one journal

  /** Nothing about a payment but its own row and its own journals can change how it stands. */
  lemma OthersKept(journals: seq<Journal<Key>>, j: Journal<Key>, p: nat, payment: Payment)
    requires PaymentOk(journals, p, payment) && (j.key.id != p || j.key.purpose.OtherMovement?)
    ensures PaymentOk(journals + [j], p, payment)
  {
    forall purpose: Purpose ensures Find(journals + [j], Key(purpose, p)) == Find(journals, Key(purpose, p)) || purpose.OtherMovement? {
      FindAppend(journals, j, Key(purpose, p));
    }
  }

  lemma PostKeepsPayments(s: State, p: nat, j: Journal<Key>, payment: Payment)
    requires PaymentsOk(s) && p < |s.payments| && j.key.id == p && !j.key.purpose.OtherMovement?
    requires PaymentOk(s.journals + [j], p, payment)
    ensures PaymentsOk(SetPayment(s, p, payment).(journals := s.journals + [j]))
  {
    forall q | 0 <= q < |s.payments| && q != p ensures PaymentOk(s.journals + [j], q, s.payments[q]) {
      OthersKept(s.journals, j, q, s.payments[q]);
    }
  }

  lemma FreeKey(journals: seq<Journal<Key>>, p: nat, payment: Payment, purpose: Purpose)
    requires PaymentOk(journals, p, payment) && !purpose.OtherMovement? && !Links(payment, Key(purpose, p))
    ensures !Has(journals, Key(purpose, p))
  {
  }

  /** A posted journal and the link that names it. */
  lemma Linked(journals: seq<Journal<Key>>, j: Journal<Key>, p: nat, payment: Payment, payment': Payment)
    requires PaymentOk(journals, p, payment) && j.key.id == p && !j.key.purpose.OtherMovement? && !Has(journals, j.key)
    requires payment' == payment.(collectionTxn := payment'.collectionTxn, accrualTxn := payment'.accrualTxn,
                                  settlementTxn := payment'.settlementTxn)
    requires forall key :: Links(payment', key) <==> Links(payment, key) || key == j.key
    requires LinesOk(journals + [j], p, payment')
    ensures PaymentOk(journals + [j], p, payment')
  {
    forall purpose: Purpose | !purpose.OtherMovement?
      ensures Has(journals + [j], Key(purpose, p)) <==> Links(payment', Key(purpose, p))
    {
      FindAppend(journals, j, Key(purpose, p));
    }
  }

  lemma LinesAppend(journals: seq<Journal<Key>>, j: Journal<Key>, key: Key)
    requires !Has(journals, j.key)
    ensures LinesOf(journals + [j], key) == if key == j.key then j.lines else LinesOf(journals, key)
  {
    FindAppend(journals, j, key);
  }

  // ---------------------------------------------------------------- what posting does to the invariant

  predicate SameButLinks(payment: Payment, payment': Payment) {
    payment' == payment.(collectionTxn := payment'.collectionTxn, accrualTxn := payment'.accrualTxn,
                         settlementTxn := payment'.settlementTxn)
  }

  lemma LinkKeepsRest(s: State, p: nat, payment: Payment, journals: seq<Journal<Key>>)
    requires SendsOk(s) && IntentsOk(s) && p < |s.payments| && SameButLinks(s.payments[p], payment)
    requires s.payments[p].collectionTxn.Some? ==> payment.collectionTxn.Some?
    ensures SendsOk(SetPayment(s, p, payment).(journals := journals)) && IntentsOk(SetPayment(s, p, payment).(journals := journals))
  {
    var t := SetPayment(s, p, payment).(journals := journals);
    forall q: nat ensures SendOk(t, q) {
      assert SendOk(s, q);
    }
    forall i | i in t.intents ensures IntentOk(t, i) {
      assert IntentOk(s, i);
    }
  }

  /** The accounts of a payment's journals are all different. */
  lemma CodesOfRefunds(payment: Payment)
    ensures forall d: Disposition :: MoneyIn(payment) != Destination(d) && PayoutClearing(payment.gateway) != Destination(d)
                                     && REFUND_PAYABLE != Destination(d)
    ensures MoneyIn(payment) != REFUND_PAYABLE && PayoutClearing(payment.gateway) != REFUND_PAYABLE
  {
    SystemCodesDiffer();
    CodesDiffer(payment.agent, payment.agent);
    assert IsSystem(TICKET_SALES_REVENUE) && IsSystem(SUSPENSE) && IsSystem(REFUND_PAYABLE);
  }

  lemma CollectionSparesPayable(payment: Payment, d: Disposition)
    ensures Net(CollectionLines(payment, d), REFUND_PAYABLE) == 0
  {
    CodesOfRefunds(payment);
    NetOfTransfer(MoneyIn(payment), Destination(d), payment.amount, REFUND_PAYABLE);
  }

  lemma AccrualOwes(payment: Payment, d: Disposition)
    ensures Net(AccrualLines(payment, d), REFUND_PAYABLE) == -payment.amount
  {
    CodesOfRefunds(payment);
    NetOfTransfer(Destination(d), REFUND_PAYABLE, payment.amount, REFUND_PAYABLE);
  }

  lemma SettlementPays(payment: Payment)
    ensures Net(SettlementLines(payment), REFUND_PAYABLE) == payment.amount
  {
    CodesOfRefunds(payment);
    NetOfTransfer(REFUND_PAYABLE, PayoutClearing(payment.gateway), payment.amount, REFUND_PAYABLE);
  }

  /** The payable follows when a journal and the link that names it are written together. */
  lemma PayableFollows(s: State, p: nat, payment: Payment, j: Journal<Key>)
    requires PayableOk(s) && p < |s.payments| && Net(j.lines, REFUND_PAYABLE) == Owed()(s.payments[p]) - Owed()(payment)
    ensures PayableOk(SetPayment(s, p, payment).(journals := s.journals + [j]))
  {
    SumUpdate(s.payments, p, payment, Owed());
    BalanceAppend(s.journals, j, REFUND_PAYABLE);
  }

  lemma CollectionPosted(s: State, p: nat, purpose: Purpose, d: Disposition)
    requires Inv(s) && p < |s.payments| && s.payments[p].collectionTxn.None? && CollectionPurpose(s.payments[p].gateway, purpose)
    ensures PostCollection(s, p, purpose, d).Ok?
    ensures var t := PostCollection(s, p, purpose, d).value;
            Inv(t) && t == SetPayment(s, p, s.payments[p].(collectionTxn := Some(Key(purpose, p)))).(journals := t.journals)
  {
    var payment := s.payments[p];
    var j := Journal(Key(purpose, p), CollectionLines(payment, d));
    var payment' := payment.(collectionTxn := Some(j.key));
    assert PaymentOk(s.journals, p, payment);
    FreeKey(s.journals, p, payment, purpose);
    CollectionLink(s.journals, j, p, payment, d);
    PostKeepsPayments(s, p, j, payment');
    LinkKeepsRest(s, p, payment', s.journals + [j]);
    CollectionSparesPayable(payment, d);
    PayableFollows(s, p, payment', j);
  }

  lemma CollectionLink(journals: seq<Journal<Key>>, j: Journal<Key>, p: nat, payment: Payment, d: Disposition)
    requires PaymentOk(journals, p, payment) && payment.collectionTxn.None? && !Has(journals, j.key)
    requires j.key.id == p && CollectionPurpose(payment.gateway, j.key.purpose) && j.lines == CollectionLines(payment, d)
    ensures PaymentOk(journals + [j], p, payment.(collectionTxn := Some(j.key)))
  {
    LinesAppend(journals, j, j.key);
    Linked(journals, j, p, payment, payment.(collectionTxn := Some(j.key)));
  }

  lemma AccrualLink(journals: seq<Journal<Key>>, j: Journal<Key>, p: nat, payment: Payment, d: Disposition)
    requires PaymentOk(journals, p, payment) && payment.collectionTxn.Some? && payment.accrualTxn.None? && !Has(journals, j.key)
    requires j.key == Key(RefundAccrual, p) && j.lines == AccrualLines(payment, d)
    ensures PaymentOk(journals + [j], p, payment.(accrualTxn := Some(j.key)))
  {
    LinesAppend(journals, j, j.key);
    LinesAppend(journals, j, payment.collectionTxn.value);
    Linked(journals, j, p, payment, payment.(accrualTxn := Some(j.key)));
  }

  lemma AccrualPosted(s: State, p: nat, source: Disposition)
    requires Inv(s) && p < |s.payments| && s.payments[p].collectionTxn.Some?
    ensures RecordAccrual(s, p, source).Ok?
    ensures var t := RecordAccrual(s, p, source).value;
            && Inv(t) && t.payments[p].accrualTxn.Some?
            && t == SetPayment(s, p, s.payments[p].(accrualTxn := t.payments[p].accrualTxn)).(journals := t.journals)
  {
    var payment := s.payments[p];
    if payment.accrualTxn.None? {
      var j := Journal(Key(RefundAccrual, p), AccrualLines(payment, source));
      var payment' := payment.(accrualTxn := Some(j.key));
      assert PaymentOk(s.journals, p, payment);
      FreeKey(s.journals, p, payment, RefundAccrual);
      AccrualLink(s.journals, j, p, payment, source);
      PostKeepsPayments(s, p, j, payment');
      LinkKeepsRest(s, p, payment', s.journals + [j]);
      AccrualOwes(payment, source);
      PayableFollows(s, p, payment', j);
    } else {
      assert s.payments[p := payment] == s.payments;
    }
  }

  lemma SettlementLink(journals: seq<Journal<Key>>, j: Journal<Key>, p: nat, payment: Payment)
    requires PaymentOk(journals, p, payment) && payment.accrualTxn.Some? && payment.settlementTxn.None? && !Has(journals, j.key)
    requires j.key.id == p && SettlementPurpose(payment.gateway, j.key.purpose) && j.lines == SettlementLines(payment)
    ensures PaymentOk(journals + [j], p, payment.(settlementTxn := Some(j.key)))
  {
    LinesAppend(journals, j, j.key);
    LinesAppend(journals, j, payment.collectionTxn.value);
    LinesAppend(journals, j, payment.accrualTxn.value);
    Linked(journals, j, p, payment, payment.(settlementTxn := Some(j.key)));
  }

  lemma SettlementPosted(s: State, p: nat, purpose: Purpose)
    requires Inv(s) && p < |s.payments| && SettlementPurpose(s.payments[p].gateway, purpose)
    ensures var r := PostSettlement(s, p, purpose);
            && r != Err(KeyReused)
            && (r.Err? <==> s.payments[p].accrualTxn.None? || (s.payments[p].settlementTxn.None? && s.payments[p].gateway.AgentCash?))
            && (r.Ok? ==> Inv(r.value) && r.value.payments[p].settlementTxn.Some?
                          && r.value == SetPayment(s, p, s.payments[p].(settlementTxn := r.value.payments[p].settlementTxn)).(journals := r.value.journals))
  {
    var payment := s.payments[p];
    if payment.settlementTxn.Some? {
      assert s.payments[p := payment] == s.payments;
      assert PaymentOk(s.journals, p, payment);
    } else if payment.accrualTxn.Some? && !payment.gateway.AgentCash? {
      var j := Journal(Key(purpose, p), SettlementLines(payment));
      var payment' := payment.(settlementTxn := Some(j.key));
      assert PaymentOk(s.journals, p, payment);
      FreeKey(s.journals, p, payment, purpose);
      SettlementLink(s.journals, j, p, payment);
      PostKeepsPayments(s, p, j, payment');
      LinkKeepsRest(s, p, payment', s.journals + [j]);
      SettlementPays(payment);
      PayableFollows(s, p, payment', j);
    }
  }
}
