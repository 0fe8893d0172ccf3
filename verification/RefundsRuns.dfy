/** The refund flows over every run. */
module RefundsRuns {
  import opened Wrappers
  import opened Journals
  import opened Accounts
  import opened Sums
  import opened Refunds
  import opened RefundsInv

  /** What verifying a collection with its provider leads to. */
  datatype Outcome = Paid(tickets: seq<Ticket>) | Held(collect: bool) | Refused

  datatype Op =
    | Create(payment: Payment)
    | Verify(p: nat, outcome: Outcome)
    | Initiate(p: nat, drawsOk: bool)
    | Send(p: nat, result: ProviderResult)
    | PretendToSend(p: nat)
    | Deliver(p: nat, result: ProviderResult, first: bool)
    | Refresh(p: nat, result: ProviderResult)
    | Decide(intent: Intent)
    | Act(intent: Intent)
    | Crash(intent: Intent)
    | EngineWins(p: nat, ticket: nat)
    | Other(id: nat, lines: seq<Line>)

  function Commit(s: State, r: Result<State, Error>): State {
    if r.Ok? then r.value else s
  }

  function Drop(s: State, i: Intent): State {
    s.(intents := s.intents - multiset{i})
  }

  function Add(s: State, i: Intent): State {
    s.(intents := s.intents + multiset{i})
  }

  /** Purchase confirmation: only a pending payment moves, and its collection moves with it. */
  function Confirm(s: State, p: nat, outcome: Outcome): Result<State, Error> {
    if p >= |s.payments| then Err(NotFound)
    else if !s.payments[p].status.Pending? then Ok(s)
    else
      match outcome
      case Refused => Ok(SetPayment(s, p, s.payments[p].(status := Failed)))
      case Held(collect) =>
        if !collect then Ok(SetPayment(s, p, s.payments[p].(status := ReviewRequired)))
        else
          (match RecordCollection(s, p, Suspense)
           case Err(e) => Err(e)
           case Ok(t) => Ok(SetPayment(t, p, t.payments[p].(status := ReviewRequired))))
      case Paid(tickets) =>
        match RecordCollection(s, p, Revenue)
        case Err(e) => Err(e)
        case Ok(t) => Ok(SetPayment(t, p, t.payments[p].(status := Confirmed, tickets := tickets)))
  }

  /** The migration reads a payment before it acts on it. */
  predicate MayIntend(s: State, i: Intent) {
    && i.p < |s.payments|
    && var payment := s.payments[i.p];
       match i
       case Collect(_, d) =>
         payment.collectionTxn.None? && d == if payment.status.ReviewRequired? || payment.tickets == [] then Suspense else Revenue
       case Accrue(_, source) =>
         && payment.refundStatus.Some? && payment.accrualTxn.None? && payment.collectionTxn.Some?
         && RefundSource(LinesOf(s.journals, payment.collectionTxn.value)) == Some(source)
       case Settle(_) => payment.refundStatus == Some(Succeeded) && payment.settlementTxn.None?
       case _ => false
  }

  function Perform(s: State, i: Intent): Result<State, Error>
    requires i.p < |s.payments|
  {
    match i
    case Collect(p, d) => BackfillCollection(s, p, d)
    case Accrue(p, source) => RecordAccrual(s, p, source)
    case Settle(p) => BackfillSettlement(s, p)
    case _ => Ok(s)
  }

  predicate FreshPayment(s: State, payment: Payment) {
    && payment.status.Pending? && payment.refundStatus.None? && payment.refundProvider.None? && payment.tickets == []
    && payment.collectionTxn.None? && payment.accrualTxn.None? && payment.settlementTxn.None?
  }

  predicate NewId(s: State) {
    forall purpose: Purpose :: !purpose.OtherMovement? ==> !Has(s.journals, Key(purpose, |s.payments|))
  }

  ghost predicate Legal(s: State, op: Op) {
    match op
    case Create(payment) => FreshPayment(s, payment) && NewId(s)
    case Send(p, _) => Call(p) in s.intents
    case PretendToSend(p) => Call(p) in s.intents
    case Deliver(p, result, first) => Apply(p, result, first) in s.intents
    case Refresh(p, _) => p < |s.payments| && InProgress(s.payments[p].refundStatus)
    case Decide(i) => MayIntend(s, i)
    case Act(i) => i in s.intents && (i.Collect? || i.Accrue? || i.Settle?)
    case Crash(i) => i in s.intents
    case EngineWins(p, k) => p < |s.payments| && k < |s.payments[p].tickets| && s.payments[p].tickets[k].status.Active?
    case Other(_, lines) => Net(lines, REFUND_PAYABLE) == 0
    case _ => true
  }

  function Win(payment: Payment, k: nat): Payment
    requires k < |payment.tickets|
  {
    payment.(tickets := payment.tickets[k := Ticket(Winning, true)])
  }

  /** The payment a step is about exists. The invariant grants it for the processes under way. */
  predicate InBounds(s: State, op: Op) {
    match op
    case PretendToSend(p) => p < |s.payments|
    case Deliver(p, _, _) => p < |s.payments|
    case Act(i) => i.p < |s.payments|
    case EngineWins(p, k) => p < |s.payments| && k < |s.payments[p].tickets|
    case _ => true
  }

  function After(s: State, op: Op): State
    requires InBounds(s, op)
  {
    match op
    case Create(payment) => s.(payments := s.payments + [payment])
    case Verify(p, outcome) => Commit(s, Confirm(s, p, outcome))
    case Initiate(p, drawsOk) => Commit(s, Reserve(s, p, drawsOk))
    case Send(p, result) => Add(Drop(s, Call(p)).(sent := s.sent + [p]), Apply(p, result, true))
    case PretendToSend(p) =>
      Add(Drop(s, Call(p)), Apply(p, ProviderResult(s.payments[p].gateway, Succeeded, Some(s.payments[p].amount), Some("NGN")), true))
    case Deliver(p, result, first) =>
      var r := ApplyResult(s, p, result);
      var t := Drop(Commit(s, r), Apply(p, result, first));
      if r.Err? && first then Add(t, Apply(p, UnknownResult(s.payments[p].gateway), false)) else t
    case Refresh(p, result) => Add(s, Apply(p, result, false))
    case Decide(i) => Add(s, i)
    case Act(i) => Drop(Commit(s, Perform(s, i)), i)
    case Crash(i) => Drop(s, i)
    case EngineWins(p, k) => SetPayment(s, p, Win(s.payments[p], k))
    case Other(id, lines) => Commit(s, PostFor(s, Key(OtherMovement, id), lines))
  }

  // ---------------------------------------------------------------- steps on one row

  /** The same payment but for its status, its refund status and provider, and its tickets. */
  predicate Restated(payment: Payment, payment': Payment) {
    && payment' == payment.(status := payment'.status, refundStatus := payment'.refundStatus,
                            refundProvider := payment'.refundProvider, tickets := payment'.tickets)
    && (payment.refundStatus.Some? ==> payment'.refundStatus.Some?)
    && LegalPair(payment'.status, payment'.refundStatus) && TicketsOk(payment')
  }

  lemma RestateKeepsRest(s: State, p: nat, payment: Payment)
    requires Inv(s) && p < |s.payments| && Restated(s.payments[p], payment)
    ensures PayableOk(SetPayment(s, p, payment)) && IntentsOk(SetPayment(s, p, payment)) && SendsOk(SetPayment(s, p, payment))
  {
    var t := SetPayment(s, p, payment);
    SumUpdate(s.payments, p, payment, Owed());
    forall q: nat ensures SendOk(t, q) {
      assert SendOk(s, q);
    }
    forall i | i in t.intents ensures IntentOk(t, i) {
      assert IntentOk(s, i);
    }
  }

  lemma RestateKeepsInv(s: State, p: nat, payment: Payment)
    requires Inv(s) && p < |s.payments| && Restated(s.payments[p], payment)
    ensures Inv(SetPayment(s, p, payment))
  {
    RestateKeepsRest(s, p, payment);
    assert PaymentOk(s.journals, p, s.payments[p]);
  }

  lemma AddKeepsInv(s: State, i: Intent)
    requires Inv(s) && !i.Call? && IntentOk(s, i)
    ensures Inv(Add(s, i))
  {
    forall p: nat ensures SendOk(Add(s, i), p) {
      assert SendOk(s, p);
    }
  }

  lemma DropKeepsInv(s: State, i: Intent)
    requires Inv(s)
    ensures Inv(Drop(s, i))
  {
    forall p: nat ensures SendOk(Drop(s, i), p) {
      assert SendOk(s, p);
    }
  }

  lemma SendKeepsInv(s: State, p: nat)
    requires Inv(s) && Call(p) in s.intents
    ensures Inv(Drop(s, Call(p)).(sent := s.sent + [p]))
  {
    var t := Drop(s, Call(p)).(sent := s.sent + [p]);
    forall q: nat ensures SendOk(t, q) {
      assert SendOk(s, q);
      assert multiset(t.sent)[q] == multiset(s.sent)[q] + if q == p then 1 else 0;
    }
  }

  // ---------------------------------------------------------------- the operations

  lemma CreateKeepsInv(s: State, payment: Payment)
    requires Inv(s) && FreshPayment(s, payment) && NewId(s)
    ensures Inv(s.(payments := s.payments + [payment]))
  {
    var t := s.(payments := s.payments + [payment]);
    SumAppend(s.payments, payment, Owed());
    forall p | 0 <= p < |t.payments| ensures PaymentOk(t.journals, p, t.payments[p]) {
      if p < |s.payments| {
        assert PaymentOk(s.journals, p, s.payments[p]);
      }
    }
    forall q: nat ensures SendOk(t, q) {
      assert SendOk(s, q);
    }
    forall i | i in t.intents ensures IntentOk(t, i) {
      assert IntentOk(s, i);
    }
  }

  lemma CollectKeeps(s: State, p: nat, d: Disposition)
    requires Inv(s) && p < |s.payments|
    ensures var r := RecordCollection(s, p, d);
            && r != Err(KeyReused) && (r.Err? <==> s.payments[p].collectionTxn.None? && s.payments[p].gateway.AgentCash?)
            && (r.Ok? ==> Inv(r.value) && r.value.payments[p].collectionTxn.Some?
                          && r.value == SetPayment(s, p, s.payments[p].(collectionTxn := r.value.payments[p].collectionTxn)).(journals := r.value.journals))
  {
    if s.payments[p].collectionTxn.Some? {
      assert s.payments[p := s.payments[p]] == s.payments;
    } else if !s.payments[p].gateway.AgentCash? {
      CollectionPosted(s, p, ProviderCollection, d);
    }
  }

  lemma ConfirmKeepsInv(s: State, p: nat, outcome: Outcome)
    requires Inv(s)
    ensures Confirm(s, p, outcome).Ok? ==> Inv(Confirm(s, p, outcome).value)
  {
    if p < |s.payments| && s.payments[p].status.Pending? {
      var payment := s.payments[p];
      assert PaymentOk(s.journals, p, payment);
      match outcome
      case Refused => RestateKeepsInv(s, p, payment.(status := Failed));
      case Held(collect) =>
        if collect {
          CollectKeeps(s, p, Suspense);
          if RecordCollection(s, p, Suspense).Ok? {
            var t := RecordCollection(s, p, Suspense).value;
            RestateKeepsInv(t, p, t.payments[p].(status := ReviewRequired));
          }
        } else {
          RestateKeepsInv(s, p, payment.(status := ReviewRequired));
        }
      case Paid(tickets) =>
        CollectKeeps(s, p, Revenue);
        if RecordCollection(s, p, Revenue).Ok? {
          var t := RecordCollection(s, p, Revenue).value;
          RestateKeepsInv(t, p, t.payments[p].(status := Confirmed, tickets := tickets));
        }
    }
  }

  lemma ReservedKeepsInv(s: State, p: nat, drawsOk: bool)
    requires Inv(s) && p < |s.payments| && ReserveError(s.payments[p], drawsOk).None?
    ensures Inv(Reserved(s, p))
  {
    var payment := s.payments[p];
    var payment' := payment.(status := RefundPending, refundStatus := Some(Requested), refundProvider := Some(payment.gateway),
                             tickets := Quarantine(payment.tickets));
    assert PaymentOk(s.journals, p, payment);
    forall i | 0 <= i < |payment.tickets| ensures !HasValue(payment.tickets[i]) {
    }
    RestateKeepsInv(s, p, payment');
    var t := SetPayment(s, p, payment');
    assert SendOk(s, p);
    var u := t.(intents := t.intents + multiset{Call(p)});
    forall q: nat ensures SendOk(u, q) {
      assert SendOk(s, q);
    }
  }

  /** The books of a reservation: the collection if it is missing, and the accrual. */
  lemma ReserveBooks(s: State, p: nat, source: Disposition) returns (t: State, u: State)
    requires Inv(s) && p < |s.payments| && !s.payments[p].gateway.AgentCash?
    ensures RecordCollection(s, p, source) == Ok(t) && |t.payments| == |s.payments| && RecordAccrual(t, p, source) == Ok(u)
    ensures Inv(u) && |u.payments| == |s.payments| && SameButLinks(s.payments[p], u.payments[p])
    ensures u.payments[p].accrualTxn.Some? && u.intents == s.intents
  {
    CollectKeeps(s, p, source);
    t := RecordCollection(s, p, source).value;
    AccrualPosted(t, p, source);
    u := RecordAccrual(t, p, source).value;
  }

  lemma ReserveIs(s: State, p: nat, drawsOk: bool, t: State, u: State)
    requires p < |s.payments| && !s.payments[p].status.Refunded? && WithProvider(s.payments[p].gateway)
    requires var source := SourceByStatus(s.payments[p]);
             RecordCollection(s, p, source) == Ok(t) && |t.payments| == |s.payments| && RecordAccrual(t, p, source) == Ok(u)
             && |u.payments| == |s.payments|
    ensures var error := ReserveError(s.payments[p], drawsOk);
            Reserve(s, p, drawsOk) == if error.Some? then Err(error.value) else Ok(Reserved(u, p))
  {
  }

  /** Reserving never meets a used key. */
  lemma ReserveKeepsInv(s: State, p: nat, drawsOk: bool)
    requires Inv(s)
    ensures Reserve(s, p, drawsOk).Ok? ==> Inv(Reserve(s, p, drawsOk).value)
    ensures Reserve(s, p, drawsOk) != Err(KeyReused)
  {
    if p < |s.payments| && ReserveError(s.payments[p], drawsOk).None? && !s.payments[p].status.Refunded? {
      if WithProvider(s.payments[p].gateway) {
        var t, u := ReserveBooks(s, p, SourceByStatus(s.payments[p]));
        ReserveIs(s, p, drawsOk, t, u);
        ReservedKeepsInv(u, p, drawsOk);
      } else {
        ReservedKeepsInv(s, p, drawsOk);
      }
    }
  }

  lemma SucceededKeepsInv(s: State, p: nat)
    requires Inv(s) && p < |s.payments|
    ensures MarkSucceeded(s, p).Ok? ==> Inv(MarkSucceeded(s, p).value)
    ensures MarkSucceeded(s, p) != Err(KeyReused)
  {
    var payment := s.payments[p];
    if payment.status.RefundPending? && InProgress(payment.refundStatus) {
      assert PaymentOk(s.journals, p, payment);
      var t := SetPayment(s, p, payment.(status := Refunded, refundStatus := Some(Succeeded)));
      RestateKeepsInv(s, p, t.payments[p]);
      if payment.gateway.AgentCash? {
        ReleaseKeepsInv(t, p);
      } else {
        SettlementPosted(t, p, RefundSettlement);
        if PostSettlement(t, p, RefundSettlement).Ok? {
          ReleaseKeepsInv(PostSettlement(t, p, RefundSettlement).value, p);
        }
      }
    }
  }

  lemma ReleaseKeepsInv(s: State, p: nat)
    requires Inv(s) && p < |s.payments|
    ensures Inv(SetPayment(s, p, s.payments[p].(tickets := Release(s.payments[p].tickets))))
  {
    assert PaymentOk(s.journals, p, s.payments[p]);
    RestateKeepsInv(s, p, s.payments[p].(tickets := Release(s.payments[p].tickets)));
  }

  lemma ApplyKeepsInv(s: State, p: nat, result: ProviderResult)
    requires Inv(s)
    ensures ApplyResult(s, p, result).Ok? ==> Inv(ApplyResult(s, p, result).value)
    ensures ApplyResult(s, p, result) != Err(KeyReused)
  {
    if p < |s.payments| {
      SucceededKeepsInv(s, p);
      MarkKeepsInv(s, p, Believed(s.payments[p], result));
    }
  }

  lemma MarkKeepsInv(s: State, p: nat, status: RefundStatus)
    requires Inv(s) && p < |s.payments|
    ensures Inv(MarkFailed(s, p))
    ensures !status.Succeeded? && !status.RefundFailed? ==> Inv(MarkPending(s, p, status))
  {
    assert PaymentOk(s.journals, p, s.payments[p]);
    if InProgress(s.payments[p].refundStatus) {
      RestateKeepsInv(s, p, s.payments[p].(status := ReviewRequired, refundStatus := Some(RefundFailed)));
      if !status.Succeeded? && !status.RefundFailed? {
        RestateKeepsInv(s, p, s.payments[p].(status := RefundPending, refundStatus := Some(status)));
      }
    }
  }

  lemma PerformKeepsInv(s: State, i: Intent)
    requires Inv(s) && i in s.intents && (i.Collect? || i.Accrue? || i.Settle?)
    ensures i.p < |s.payments| && (Perform(s, i).Ok? ==> Inv(Perform(s, i).value))
  {
    assert IntentOk(s, i);
    match i
    case Collect(p, d) => BackfillKeepsInv(s, p, d);
    case Accrue(p, source) => AccrualPosted(s, p, source);
    case Settle(p) => SettlementPosted(s, p, if s.payments[p].gateway.Paystack? then PaystackSettlement else RefundSettlement);
  }

  lemma BackfillKeepsInv(s: State, p: nat, d: Disposition)
    requires Inv(s) && p < |s.payments|
    ensures BackfillCollection(s, p, d).Ok? ==> Inv(BackfillCollection(s, p, d).value)
  {
    var payment := s.payments[p];
    match payment.gateway
    case AgentCash =>
      if payment.collectionTxn.None? {
        CollectionPosted(s, p, LegacyAgentSale, d);
      } else {
        assert PaymentOk(s.journals, p, payment);
        assert payment.collectionTxn == Some(Key(LegacyAgentSale, p));
        assert Has(s.journals, Key(LegacyAgentSale, p));
        assert s.payments[p := payment] == s.payments;
      }
    case Paystack =>
      if payment.collectionTxn.None? {
        CollectionPosted(s, p, PaystackCollection, d);
      }
    case _ => CollectKeeps(s, p, d);
  }

  lemma WinKeepsInv(s: State, p: nat, k: nat)
    requires Inv(s) && p < |s.payments| && k < |s.payments[p].tickets| && s.payments[p].tickets[k].status.Active?
    ensures Inv(SetPayment(s, p, Win(s.payments[p], k)))
  {
    assert PaymentOk(s.journals, p, s.payments[p]);
    RestateKeepsInv(s, p, Win(s.payments[p], k));
  }

  lemma OtherKeepsInv(s: State, id: nat, lines: seq<Line>)
    requires Inv(s) && Net(lines, REFUND_PAYABLE) == 0
    ensures Inv(Commit(s, PostFor(s, Key(OtherMovement, id), lines)))
  {
    var j := Journal(Key(OtherMovement, id), lines);
    if Find(s.journals, j.key).None? {
      var t := s.(journals := s.journals + [j]);
      forall p | 0 <= p < |s.payments| ensures PaymentOk(t.journals, p, t.payments[p]) {
        OthersKept(s.journals, j, p, s.payments[p]);
      }
      BalanceAppend(s.journals, j, REFUND_PAYABLE);
      forall q: nat ensures SendOk(t, q) {
        assert SendOk(s, q);
      }
      forall i | i in t.intents ensures IntentOk(t, i) {
        assert IntentOk(s, i);
      }
    }
  }

  lemma DeliverKeepsInv(s: State, p: nat, result: ProviderResult, first: bool)
    requires Inv(s) && Apply(p, result, first) in s.intents
    ensures p < |s.payments| && Inv(After(s, Deliver(p, result, first)))
  {
    ApplyKeepsInv(s, p, result);
    assert IntentOk(s, Apply(p, result, first));
    var r := ApplyResult(s, p, result);
    var t := Drop(Commit(s, r), Apply(p, result, first));
    DropKeepsInv(Commit(s, r), Apply(p, result, first));
    if r.Err? {
      AddKeepsInv(t, Apply(p, UnknownResult(s.payments[p].gateway), false));
    }
  }

  /** Every step of every flow keeps the invariant. */
  lemma StepKeepsInv(s: State, op: Op)
    requires Inv(s) && Legal(s, op)
    ensures InBounds(s, op) && Inv(After(s, op))
  {
    match op
    case Create(payment) => CreateKeepsInv(s, payment);
    case Verify(p, outcome) => ConfirmKeepsInv(s, p, outcome);
    case Initiate(p, drawsOk) => ReserveKeepsInv(s, p, drawsOk);
    case Send(p, result) =>
      assert IntentOk(s, Call(p));
      SendKeepsInv(s, p);
      AddKeepsInv(Drop(s, Call(p)).(sent := s.sent + [p]), Apply(p, result, true));
    case PretendToSend(p) =>
      assert IntentOk(s, Call(p));
      DropKeepsInv(s, Call(p));
      AddKeepsInv(Drop(s, Call(p)), Apply(p, ProviderResult(s.payments[p].gateway, Succeeded, Some(s.payments[p].amount), Some("NGN")), true));
    case Deliver(p, result, first) => DeliverKeepsInv(s, p, result, first);
    case Refresh(p, result) => AddKeepsInv(s, Apply(p, result, false));
    case Decide(i) => AddKeepsInv(s, i);
    case Act(i) =>
      PerformKeepsInv(s, i);
      DropKeepsInv(Commit(s, Perform(s, i)), i);
    case Crash(i) => DropKeepsInv(s, i);
    case EngineWins(p, k) => WinKeepsInv(s, p, k);
    case Other(id, lines) => OtherKeepsInv(s, id, lines);
  }
}
