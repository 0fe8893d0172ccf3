/** The refund service as it runs, with the payment accounting it calls. */
module RefundService {
  import opened Wrappers
  import opened Journals
  import opened Accounts
  import opened Refunds
  import opened RefundsInv
  import opened RefundsRuns
  import opened RefundsLaws
  import opened RefundsOnce
  import opened RefundsConditions
  import opened Sums

  /** A transaction commits `result` or throws its error. */
  ghost predicate Did(s: State, result: Result<State, Error>, t: State, error: Option<Error>) {
    match result
    case Ok(u) => t == u && error.None?
    case Err(e) => t == s && error == Some(e)
  }

  class PaymentRefundService {
    var payments: seq<Payment>
    var journals: seq<Journal<Key>>
    ghost var inFlight: multiset<Intent>
    ghost var sent: seq<nat>

    ghost function View(): State
      reads this
    {
      State(payments, journals, inFlight, sent)
    }

    ghost predicate Valid()
      reads this
    {
      Inv(View()) && Unique(journals)
    }

    constructor (payments: seq<Payment>)
      requires Initial(State(payments, [], multiset{}, []))
      ensures Valid() && View() == State(payments, [], multiset{}, [])
    {
      this.payments, journals, inFlight, sent := payments, [], multiset{}, [];
      new;
      InitialInv(View());
    }

    // -------------------------------------------------------------- payment accounting

    method PostJournal(key: Key, lines: seq<Line>) returns (error: Option<Error>)
      modifies this`journals
      ensures Did(old(View()), PostFor(old(View()), key, lines), View(), error)
    {
      var existing := Find(journals, key);
      if existing.Some? {
        return if existing.value.lines == lines then None else Some(KeyReused);
      }
      journals := journals + [Journal(key, lines)];
      return None;
    }

    /** Afterwards the payment has exactly one collection journal. A key is never found in use, and only
        a payment in agent cash is refused. */
    method RecordProviderCollection(p: nat, disposition: Disposition) returns (error: Option<Error>)
      requires Valid() && p < |payments|
      modifies this`payments, this`journals
      ensures Valid() && Did(old(View()), RecordCollection(old(View()), p, disposition), View(), error)
      ensures error.Some? <==> old(payments)[p].collectionTxn.None? && old(payments)[p].gateway.AgentCash?
      ensures error.None? ==> |payments| == |old(payments)| && Collections(journals, p) == 1
      ensures error.None? ==> payments == old(payments)[p := old(payments)[p].(collectionTxn := payments[p].collectionTxn)]
      ensures error.None? && old(payments)[p].collectionTxn.None? ==>
                journals == old(journals) + [Journal(Key(ProviderCollection, p), CollectionLines(payments[p], disposition))]
    {
      CollectKeeps(View(), p, disposition);
      CollectionKeepsUnique(View(), p, ProviderCollection, disposition);
      assert PaymentOk(journals, p, payments[p]);
      var payment, key := payments[p], Key(ProviderCollection, p);
      if payment.collectionTxn.Some? {
        CountedByLinks(journals, p, payment);
        return None;
      }
      if payment.gateway == AgentCash {
        return Some(NotOnline);
      }
      error := PostJournal(key, CollectionLines(payment, disposition));
      if error.None? {
        payments := payments[p := payment.(collectionTxn := Some(key))];
        assert PaymentOk(journals, p, payments[p]);
        CountedByLinks(journals, p, payments[p]);
      }
    }

    /** On a collected payment this never fails, and afterwards there is exactly one accrual. */
    method RecordRefundAccrual(p: nat, source: Disposition) returns (error: Option<Error>)
      requires p < |payments|
      modifies this`payments, this`journals
      ensures Did(old(View()), RecordAccrual(old(View()), p, source), View(), error)
      ensures old(Valid() && payments[p].collectionTxn.Some?) ==>
                && Valid() && error.None? && |payments| == |old(payments)| && Accruals(journals, p) == 1
                && payments == old(payments)[p := old(payments)[p].(accrualTxn := payments[p].accrualTxn)]
                && Sum(payments, Owed()) == old(Sum(payments, Owed())) + if old(payments)[p].accrualTxn.None? then payments[p].amount else 0
    {
      ghost var before := View();
      var payment, key := payments[p], Key(RefundAccrual, p);
      if payment.accrualTxn.None? {
        error := PostJournal(key, AccrualLines(payment, source));
        if error.None? {
          payments := payments[p := payment.(accrualTxn := Some(key))];
        }
      } else {
        error := None;
      }
      if old(Valid() && payments[p].collectionTxn.Some?) {
        AccrualIs(before, p, source);
      }
    }

    /** Without an accrual there is no settlement; with one there is exactly one, and the amount is no
        longer owed. */
    method RecordRefundSettlement(p: nat) returns (error: Option<Error>)
      requires Valid() && p < |payments|
      modifies this`payments, this`journals
      ensures Valid() && Did(old(View()), PostSettlement(old(View()), p, RefundSettlement), View(), error)
      ensures error == if old(payments)[p].accrualTxn.None? then Some(NoAccrual)
                       else if old(payments)[p].settlementTxn.None? && old(payments)[p].gateway.AgentCash? then Some(NotOnline)
                       else None
      ensures error.None? ==>
                && |payments| == |old(payments)| && Settlements(journals, p) == 1
                && payments == old(payments)[p := old(payments)[p].(settlementTxn := payments[p].settlementTxn)]
                && Sum(payments, Owed()) == old(Sum(payments, Owed())) - if old(payments)[p].settlementTxn.None? then payments[p].amount else 0
    {
      SettlementIs(View(), p);
      var payment, key := payments[p], Key(RefundSettlement, p);
      if payment.accrualTxn.None? {
        return Some(NoAccrual);
      }
      if payment.settlementTxn.Some? {
        return None;
      }
      if payment.gateway == AgentCash {
        return Some(NotOnline);
      }
      error := PostJournal(key, SettlementLines(payment));
      if error.None? {
        payments := payments[p := payment.(settlementTxn := Some(key))];
      }
    }

    // -------------------------------------------------------------- initiate

    method HasValuableTicket(tickets: seq<Ticket>) returns (found: bool)
      ensures found <==> exists i :: 0 <= i < |tickets| && HasValue(tickets[i])
    {
      for i := 0 to |tickets|
        invariant forall k :: 0 <= k < i ==> !HasValue(tickets[k])
      {
        if tickets[i].isWinner || tickets[i].status == Winning || tickets[i].status == RolledOver {
          return true;
        }
      }
      return false;
    }

    /** The reserving transaction. The provider is called after it, once, by whoever committed it. */
    method Initiate(p: nat, drawsOk: bool) returns (error: Option<Error>)
      requires Valid()
      modifies this`payments, this`journals, this`inFlight
      ensures Valid() && Did(old(View()), Reserve(old(View()), p, drawsOk), View(), error)
      ensures View() != old(View()) <==> p < |old(payments)| && Reservable(old(payments)[p], drawsOk)
      ensures View() != old(View()) ==>
                && |payments| == |old(payments)| && IsReserved(old(payments)[p], payments[p])
                && inFlight == old(inFlight) + multiset{Call(p)} && sent == old(sent)
    {
      ghost var before := View();
      RefundStartsIff(before, p, drawsOk);
      error := ReserveInTransaction(p, drawsOk);
      ReserveKeepsInv(before, p, drawsOk);
      ReserveKeepsUnique(before, p, drawsOk);
    }

    method ReserveInTransaction(p: nat, drawsOk: bool) returns (error: Option<Error>)
      requires Valid()
      modifies this`payments, this`journals, this`inFlight
      ensures Did(old(View()), Reserve(old(View()), p, drawsOk), View(), error)
    {
      if p >= |payments| {
        return Some(NotFound);
      }
      var current := payments[p];
      if current.status == Refunded {
        return None;
      }
      if current.refundStatus.Some? {
        return Some(AlreadyStarted);
      }
      if current.status != Confirmed && current.status != ReviewRequired {
        return Some(WrongStatus);
      }
      if current.gateway == AgentCash {
        return Some(NotOnline);
      }
      var withProvider := current.gateway == Monnify || current.gateway == Flutterwave;
      if withProvider && !current.hasProviderTxn {
        return Some(NoProviderTxn);
      }
      var valuable := HasValuableTicket(current.tickets);
      if valuable {
        return Some(WinningTicket);
      }
      if current.status == Confirmed && current.tickets != [] && !drawsOk {
        return Some(DrawExecuting);
      }
      if withProvider {
        error := PostBooks(p, if current.status == Confirmed then Revenue else Suspense);
        if error.Some? {
          return;
        }
      }
      var reserved := payments[p];
      payments := payments[p := reserved.(status := RefundPending, refundStatus := Some(Requested),
                                          refundProvider := Some(reserved.gateway), tickets := Quarantine(reserved.tickets))];
      inFlight := inFlight + multiset{Call(p)};
      return None;
    }

    /** The collection if it is missing, and the accrual; or neither. */
    method PostBooks(p: nat, source: Disposition) returns (error: Option<Error>)
      requires Valid() && p < |payments|
      modifies this`payments, this`journals
      ensures Did(old(View()),
                  match RecordCollection(old(View()), p, source)
                  case Err(e) => Err(e)
                  case Ok(t) => RecordAccrual(t, p, source),
                  View(), error)
      ensures |payments| == |old(payments)|
    {
      var paymentsBefore, journalsBefore := payments, journals;
      error := RecordProviderCollection(p, source);
      if error.None? {
        error := RecordRefundAccrual(p, source);
      }
      if error.Some? {
        payments, journals := paymentsBefore, journalsBefore;
      }
    }

    // -------------------------------------------------------------- results

    method ApplyProviderResult(p: nat, result: ProviderResult) returns (error: Option<Error>)
      requires Valid()
      modifies this`payments, this`journals
      ensures Valid() && Did(old(View()), ApplyResult(old(View()), p, result), View(), error)
    {
      ghost var before := View();
      error := ApplyInTransaction(p, result);
      ApplyKeepsInv(before, p, result);
      ApplyKeepsUnique(before, p, result);
    }

    method ApplyInTransaction(p: nat, result: ProviderResult) returns (error: Option<Error>)
      requires Valid()
      modifies this`payments, this`journals
      ensures Did(old(View()), ApplyResult(old(View()), p, result), View(), error)
    {
      if p >= |payments| {
        return Some(NotFound);
      }
      var txn := payments[p];
      if txn.refundProvider.Some? && txn.refundProvider.value != result.provider {
        return Some(WrongProvider);
      }
      var status := CredibleStatus(txn, result);
      match status
      case Succeeded => error := MarkSucceeded(p);
      case RefundFailed =>
        MarkFailed(p);
        return None;
      case _ =>
        MarkPending(p, status);
        return None;
    }

    /** A success for another amount or in another currency is not believed. */
    method CredibleStatus(txn: Payment, result: ProviderResult) returns (status: RefundStatus)
      ensures status == Believed(txn, result)
      ensures status.Succeeded? <==>
                result.status.Succeeded? && result.amount == Some(txn.amount) && result.currency in [None, Some("NGN")]
    {
      status := result.status;
      if status == Succeeded
         && (result.amount.None? || result.amount.value != txn.amount || (result.currency.Some? && result.currency.value != "NGN")) {
        status := Unknown;
      }
    }

    method MarkSucceeded(p: nat) returns (error: Option<Error>)
      requires Valid() && p < |payments|
      modifies this`payments, this`journals
      ensures Did(old(View()), Refunds.MarkSucceeded(old(View()), p), View(), error)
    {
      var current, paymentsBefore := payments[p], payments;
      if current.status != RefundPending || !InProgress(current.refundStatus) {
        return None;
      }
      assert PaymentOk(journals, p, current);
      RestateKeepsInv(View(), p, current.(status := Refunded, refundStatus := Some(Succeeded)));
      payments := payments[p := current.(status := Refunded, refundStatus := Some(Succeeded))];
      if current.gateway != AgentCash {
        error := RecordRefundSettlement(p);
        if error.Some? {
          payments := paymentsBefore;
          return;
        }
      }
      payments := payments[p := payments[p].(tickets := Release(payments[p].tickets))];
      return None;
    }

    /** A refund that fails goes to review with its money still owed and its tickets still quarantined; a
        refund that has ended, either way, is not touched. */
    method MarkFailed(p: nat)
      requires Valid() && p < |payments|
      modifies this`payments
      ensures Valid() && View() == Refunds.MarkFailed(old(View()), p)
      ensures |payments| == |old(payments)| && Sum(payments, Owed()) == old(Sum(payments, Owed()))
      ensures payments[p].tickets == old(payments)[p].tickets
      ensures !InProgress(payments[p].refundStatus)
      ensures !old(InProgress(payments[p].refundStatus)) ==> payments == old(payments)
    {
      MarkKeepsInv(View(), p, Unknown);
      if InProgress(payments[p].refundStatus) {
        SumUpdate(payments, p, payments[p].(status := ReviewRequired, refundStatus := Some(RefundFailed)), Owed());
        payments := payments[p := payments[p].(status := ReviewRequired, refundStatus := Some(RefundFailed))];
      }
    }

    /** News of a refund under way; it cannot reopen one that has ended. */
    method MarkPending(p: nat, status: RefundStatus)
      requires Valid() && p < |payments| && InProgress(Some(status))
      modifies this`payments
      ensures Valid() && View() == Refunds.MarkPending(old(View()), p, status)
      ensures |payments| == |old(payments)| && Sum(payments, Owed()) == old(Sum(payments, Owed()))
      ensures payments[p].tickets == old(payments)[p].tickets
      ensures InProgress(payments[p].refundStatus) <==> old(InProgress(payments[p].refundStatus))
      ensures !old(InProgress(payments[p].refundStatus)) ==> payments == old(payments)
    {
      MarkKeepsInv(View(), p, status);
      if InProgress(payments[p].refundStatus) {
        SumUpdate(payments, p, payments[p].(status := RefundPending, refundStatus := Some(status)), Owed());
        payments := payments[p := payments[p].(status := RefundPending, refundStatus := Some(status))];
      }
    }
  }

  lemma AccrualIs(s: State, p: nat, source: Disposition)
    requires Inv(s) && Unique(s.journals) && p < |s.payments| && s.payments[p].collectionTxn.Some?
    ensures RecordAccrual(s, p, source).Ok?
    ensures var t := RecordAccrual(s, p, source).value;
            && Inv(t) && Unique(t.journals) && Accruals(t.journals, p) == 1
            && t.payments == s.payments[p := s.payments[p].(accrualTxn := t.payments[p].accrualTxn)]
            && Sum(t.payments, Owed()) == Sum(s.payments, Owed()) + if s.payments[p].accrualTxn.None? then s.payments[p].amount else 0
  {
    assert PaymentOk(s.journals, p, s.payments[p]);
    AccrualPosted(s, p, source);
    AccrualKeepsUnique(s, p, source);
    var t := RecordAccrual(s, p, source).value;
    assert PaymentOk(t.journals, p, t.payments[p]);
    CountedByLinks(t.journals, p, t.payments[p]);
    SumUpdate(s.payments, p, t.payments[p], Owed());
  }

  lemma SettlementIs(s: State, p: nat)
    requires Inv(s) && Unique(s.journals) && p < |s.payments|
    ensures var r := PostSettlement(s, p, RefundSettlement);
            && r != Err(KeyReused)
            && (r.Ok? ==>
                  && Inv(r.value) && Unique(r.value.journals) && |r.value.payments| == |s.payments| && Settlements(r.value.journals, p) == 1
                  && r.value.payments == s.payments[p := s.payments[p].(settlementTxn := r.value.payments[p].settlementTxn)]
                  && Sum(r.value.payments, Owed())
                     == Sum(s.payments, Owed()) - if s.payments[p].settlementTxn.None? then s.payments[p].amount else 0)
  {
    assert PaymentOk(s.journals, p, s.payments[p]);
    SettlementPosted(s, p, RefundSettlement);
    SettlementKeepsUnique(s, p, RefundSettlement);
    if PostSettlement(s, p, RefundSettlement).Ok? {
      var t := PostSettlement(s, p, RefundSettlement).value;
      assert PaymentOk(t.journals, p, t.payments[p]);
      CountedByLinks(t.journals, p, t.payments[p]);
      SumUpdate(s.payments, p, t.payments[p], Owed());
    }
  }
}
