/** Why the kinds are applied in the order they are. */
module MigrationOrder {
  import opened Wrappers
  import opened Journals
  import opened Refunds
  import opened RefundsInv
  import opened RefundsOnce
  import opened Migration
  import opened MigrationDispatch
  import opened MigrationOnce

  // ---------------------------------------------------------------- the whole order

  /** The place of each kind. */
  function Stage(kind: Kind): nat {
    match kind
    case PaymentCollection => 0
    case WalletFunding => 1
    case PaymentRefund => 2
    case PrizeAccrual => 3
    case AgentPrizePayout => 4
    case RemittanceAccounting => 5
    case AgentWalletBalance => 6
    case PrizePayoutHistory => 7
  }

  predicate Staged(items: seq<Item>) {
    forall i, j :: 0 <= i < j < |items| ==> Stage(items[i].kind) <= Stage(items[j].kind)
  }

  lemma {:induction false} DueToIs(items: seq<Item>, kind: Kind, n: nat)
    requires n <= |items|
    ensures forall x :: x in DueTo(items, kind, n) <==> exists k :: 0 <= k < n && items[k] == x && Due(x, kind)
  {
    if n > 0 {
      DueToIs(items, kind, n - 1);
    }
  }

  lemma {:induction false} AgendaUpTo(items: seq<Item>, m: nat)
    requires m <= 8
    ensures |APPLY_ORDER| == 8
    ensures Staged(Agenda(items, APPLY_ORDER[..m]))
    ensures forall x :: x in Agenda(items, APPLY_ORDER[..m])
                        <==> Stage(x.kind) < m && exists k :: 0 <= k < |items| && items[k] == x && x.status.Pending?
  {
    if m > 0 {
      var before, kind := Agenda(items, APPLY_ORDER[..m - 1]), APPLY_ORDER[m - 1];
      AgendaUpTo(items, m - 1);
      DueToIs(items, kind, |items|);
      assert APPLY_ORDER[..m][..m - 1] == APPLY_ORDER[..m - 1] && Stage(kind) == m - 1;
      assert forall x: Item :: Stage(x.kind) == m - 1 ==> x.kind == kind;
      var due := DueTo(items, kind, |items|);
      assert Agenda(items, APPLY_ORDER[..m]) == before + due;
      forall i | 0 <= i < |before| ensures Stage(before[i].kind) < m - 1 {
        assert before[i] in before;
      }
      forall i | 0 <= i < |due| ensures Stage(due[i].kind) == m - 1 {
        assert due[i] in due;
      }
    }
  }

  predicate IsPending(items: seq<Item>, x: Item) {
    x.status.Pending? && exists k :: 0 <= k < |items| && items[k] == x
  }

  lemma AgendaIsStaged(items: seq<Item>, kinds: seq<Kind>)
    requires kinds == APPLY_ORDER
    ensures Staged(Agenda(items, kinds)) && forall x :: x in Agenda(items, kinds) <==> IsPending(items, x)
  {
    AgendaUpTo(items, 8);
    assert APPLY_ORDER[..8] == kinds;
    forall x ensures x in Agenda(items, kinds) <==> IsPending(items, x) {
      assert Stage(x.kind) < 8;
    }
  }

  /** An apply handles what is pending stage by stage: collections, wallet fundings, refunds, prize
      accruals, agents' prize payouts, remittances, agents' wallets, payout histories. */
  lemma AppliesInStages<W>(dispatch: Dispatch<W>, w: Work<W>, kinds: seq<Kind>)
    requires kinds == APPLY_ORDER
    ensures var agenda := Agenda(w.items, kinds);
            && DrainKinds(dispatch, w, kinds).world == Handle(dispatch, w.world, agenda)
            && Staged(agenda) && forall x :: x in agenda <==> IsPending(w.items, x)
  {
    AgendaIsStaged(w.items, kinds);
    NoneTwice();
    ApplyFollowsTheAgenda(dispatch, w, kinds);
  }

  lemma NoneTwice()
    ensures NoKindTwice(APPLY_ORDER)
  {
    forall i | 0 <= i < |APPLY_ORDER| ensures Stage(APPLY_ORDER[i]) == i {
    }
  }

  // ---------------------------------------------------------------- collections before refunds

  lemma {:induction false} DrainsConcat<W>(dispatch: Dispatch<W>, w: Work<W>, a: seq<Kind>, b: seq<Kind>)
    ensures DrainKinds(dispatch, w, a + b) == DrainKinds(dispatch, DrainKinds(dispatch, w, a), b)
    decreases |b|
  {
    if b == [] {
      assert a + b == a;
    } else {
      var rest := b[..|b| - 1];
      assert (a + b)[..|a + b| - 1] == a + rest;
      DrainsConcat(dispatch, w, a, rest);
    }
  }

  predicate Waiting(w: Work<Refunds.State>, i: nat, kind: Kind, p: nat) {
    i < |w.items| && w.items[i] == Item(kind, p, ItemStatus.Pending)
  }

  /** Item `i` has not been handled or has been migrated. */
  predicate GoesWell(w: Work<Refunds.State>, i: nat, kind: Kind, p: nat) {
    && i < |w.items| && w.items[i].kind == kind && w.items[i].source == p
    && (w.items[i].status.Pending? || IsMigrated(w.items[i]))
  }

  /** A succeeded refund in agent cash is nothing the migration can settle. */
  predicate Unsettleable(payment: Payment) {
    payment.gateway.AgentCash? && NeedsSettlement(payment)
  }

  predicate Underway(s: Refunds.State, w: Work<Refunds.State>, p: nat) {
    p < |s.payments| && OnlyLinks(s, w.world)
  }

  lemma CollectionMigrates(s: Refunds.State, p: nat)
    requires RefundsInv.Inv(s) && p < |s.payments|
    ensures MigrateCollection(s, p).1.Migrated?
  {
    if s.payments[p].collectionTxn.None? {
      BackfillPosts(s, p, LegacyDisposition(s.payments[p]));
    }
  }

  lemma RefundMigrates(s: Refunds.State, p: nat)
    requires RefundsInv.Inv(s) && p < |s.payments| && s.payments[p].collectionTxn.Some? && !Unsettleable(s.payments[p])
    ensures MigrateRefund(s, p).1.Migrated?
  {
    if s.payments[p].refundStatus.Some? {
      SourceIsReadable(s, p);
      var source := RefundSource(LinesOf(s.journals, s.payments[p].collectionTxn.value)).value;
      AccrualPosted(s, p, source);
      var u := RecordAccrual(s, p, source).value;
      SettlementPosted(u, p, if u.payments[p].gateway.Paystack? then PaystackSettlement else RefundSettlement);
    }
  }

  lemma SameUnderway(s: Refunds.State, w: Work<Refunds.State>, i: nat, p: nat)
    requires Good(w) && Underway(s, w, p) && i < |w.items|
    ensures Underway(s, Process(PaymentDispatch, w, i), p)
  {
    DispatchLinks(w.world, w.items[i].kind, w.items[i].source, 0);
    LinksAdd(s, w.world, Process(PaymentDispatch, w, i).world);
  }

  /** Before the refunds: the collection of the payment goes well whatever else is handled. */
  predicate First(s: Refunds.State, w: Work<Refunds.State>, i: nat, p: nat) {
    Underway(s, w, p) && GoesWell(w, i, PaymentCollection, p)
  }

  lemma ProcessKeepsFirst(s: Refunds.State, w: Work<Refunds.State>, i: nat, p: nat, n: nat)
    requires Good(w) && First(s, w, i, p) && n < |w.items|
    ensures First(s, Process(PaymentDispatch, w, n), i, p)
  {
    SameUnderway(s, w, n, p);
    if n == i {
      CollectionMigrates(w.world, p);
    }
  }

  /** From the refunds on: the payment is collected, and its refund goes well. */
  predicate Second(s: Refunds.State, w: Work<Refunds.State>, k: nat, p: nat) {
    && Underway(s, w, p) && w.world.payments[p].collectionTxn.Some? && !Unsettleable(s.payments[p])
    && GoesWell(w, k, PaymentRefund, p)
  }

  lemma ProcessKeepsSecond(s: Refunds.State, w: Work<Refunds.State>, k: nat, p: nat, n: nat)
    requires Good(w) && Second(s, w, k, p) && n < |w.items|
    ensures Second(s, Process(PaymentDispatch, w, n), k, p)
  {
    SameUnderway(s, w, n, p);
    DispatchLinks(w.world, w.items[n].kind, w.items[n].source, 0);
    assert MoreLinks(s.payments[p], w.world.payments[p]) && MoreLinks(w.world.payments[p], Process(PaymentDispatch, w, n).world.payments[p]);
    if n == k {
      StillUnsettleable(s.payments[p], w.world.payments[p]);
      RefundMigrates(w.world, p);
    }
  }

  lemma StillUnsettleable(a: Payment, b: Payment)
    requires MoreLinks(a, b) && !Unsettleable(a)
    ensures !Unsettleable(b)
  {
  }

  lemma DrainsKeepFirst(s: Refunds.State, w: Work<Refunds.State>, kinds: seq<Kind>, i: nat, p: nat)
    requires Good(w) && First(s, w, i, p)
    ensures var r := DrainKinds(PaymentDispatch, w, kinds); Good(r) && First(s, r, i, p)
  {
    var good := (v: Work<Refunds.State>) => Good(v) && First(s, v, i, p);
    forall v, n: nat | good(v) && n < |v.items| ensures good(Process(PaymentDispatch, v, n)) {
      ProcessKeepsGood(v, n);
      ProcessKeepsFirst(s, v, i, p, n);
    }
    DrainsKeep(PaymentDispatch, good, w, kinds);
  }

  lemma DrainsKeepSecond(s: Refunds.State, w: Work<Refunds.State>, kinds: seq<Kind>, k: nat, p: nat)
    requires Good(w) && Second(s, w, k, p)
    ensures var r := DrainKinds(PaymentDispatch, w, kinds); Good(r) && Second(s, r, k, p)
  {
    var good := (v: Work<Refunds.State>) => Good(v) && Second(s, v, k, p);
    forall v, n: nat | good(v) && n < |v.items| ensures good(Process(PaymentDispatch, v, n)) {
      ProcessKeepsGood(v, n);
      ProcessKeepsSecond(s, v, k, p, n);
    }
    DrainsKeep(PaymentDispatch, good, w, kinds);
  }

  /** After the stages before the refunds the payment is collected, and its refund still waits. */
  lemma CollectedBeforeRefunds(w: Work<Refunds.State>, i: nat, k: nat, p: nat)
    requires Good(w) && p < |w.world.payments| && Waiting(w, i, PaymentCollection, p) && Waiting(w, k, PaymentRefund, p)
    ensures var r := DrainKinds(PaymentDispatch, w, APPLY_ORDER[..2]);
            && Good(r) && Underway(w.world, r, p) && r.world.payments[p].collectionTxn.Some? && Waiting(r, k, PaymentRefund, p)
  {
    var r := DrainKinds(PaymentDispatch, w, APPLY_ORDER[..2]);
    forall q | 0 <= q < |w.world.payments| ensures MoreLinks(w.world.payments[q], w.world.payments[q]) {
    }
    DrainsKeepFirst(w.world, w, APPLY_ORDER[..2], i, p);
    DrainKindsIs(PaymentDispatch, w, APPLY_ORDER[..2]);
    OtherKindsWait(PaymentDispatch, w, APPLY_ORDER[..2]);
    assert APPLY_ORDER[..2][0] == PaymentCollection;
    assert PaymentRefund !in APPLY_ORDER[..2];
    assert IsMigrated(r.items[i]) && Done(r.world, r.items[i]);
  }

  /** A complete apply over a payment with a pending collection and a pending refund: the payment is
      collected; a refund that was started is accrued, and settled if it had succeeded; and neither
      item ends in review or failed. Only a succeeded refund in agent cash is nothing the migration can
      settle. */
  lemma ApplyCollectsThenRefunds(w: Work<Refunds.State>, i: nat, k: nat, p: nat)
    requires Good(w) && p < |w.world.payments| && Waiting(w, i, PaymentCollection, p) && Waiting(w, k, PaymentRefund, p)
    requires !Unsettleable(w.world.payments[p])
    ensures var r := DrainKinds(PaymentDispatch, w, APPLY_ORDER);
            && |r.world.payments| == |w.world.payments| && r.world.payments[p].collectionTxn.Some?
            && (w.world.payments[p].refundStatus.Some? ==> r.world.payments[p].accrualTxn.Some?)
            && (w.world.payments[p].refundStatus == Some(Succeeded) ==> r.world.payments[p].settlementTxn.Some?)
            && r.items[i].status in {Applied, Skipped} && r.items[k].status in {Applied, Skipped}
  {
    var mid := DrainKinds(PaymentDispatch, w, APPLY_ORDER[..2]);
    var r := DrainKinds(PaymentDispatch, w, APPLY_ORDER);
    CollectedBeforeRefunds(w, i, k, p);
    assert APPLY_ORDER == APPLY_ORDER[..2] + APPLY_ORDER[2..];
    DrainsConcat(PaymentDispatch, w, APPLY_ORDER[..2], APPLY_ORDER[2..]);
    DrainsKeepSecond(w.world, mid, APPLY_ORDER[2..], k, p);
    forall q | 0 <= q < |w.world.payments| ensures MoreLinks(w.world.payments[q], w.world.payments[q]) {
    }
    DrainsKeepFirst(w.world, w, APPLY_ORDER, i, p);
    DrainKindsIs(PaymentDispatch, w, APPLY_ORDER);
    AllKindsApplied();
    assert IsMigrated(r.items[k]) && Done(r.world, r.items[k]) && IsMigrated(r.items[i]);
    assert MoreLinks(w.world.payments[p], r.world.payments[p]);
  }

  /** And it has each journal exactly once. */
  lemma ApplyPostsEachOnce(w: Work<Refunds.State>, i: nat, k: nat, p: nat)
    requires Good(w) && p < |w.world.payments| && Waiting(w, i, PaymentCollection, p) && Waiting(w, k, PaymentRefund, p)
    requires !Unsettleable(w.world.payments[p]) && w.world.payments[p].refundStatus == Some(Succeeded)
    ensures var journals := DrainKinds(PaymentDispatch, w, APPLY_ORDER).world.journals;
            Collections(journals, p) == 1 && Accruals(journals, p) == 1 && Settlements(journals, p) == 1
  {
    var r := DrainKinds(PaymentDispatch, w, APPLY_ORDER);
    ApplyCollectsThenRefunds(w, i, k, p);
    DrainsKeepGood(w, APPLY_ORDER, PaymentCollection, 0);
    assert PaymentOk(r.world.journals, p, r.world.payments[p]);
    CountedByLinks(r.world.journals, p, r.world.payments[p]);
  }

  /** The other way round the refund is sent to review and nothing is accrued. */
  lemma RefundFirstNeedsReview(s: Refunds.State, p: nat)
    requires p < |s.payments| && s.payments[p].refundStatus.Some? && s.payments[p].collectionTxn.None?
    ensures var r := DrainKinds(PaymentDispatch, Work(s, [Item(PaymentRefund, p, ItemStatus.Pending)]), [PaymentRefund]);
            r.world == s && r.items == [Item(PaymentRefund, p, ItemStatus.ReviewRequired)]
  {
    OneItem(s, Item(PaymentRefund, p, ItemStatus.Pending));
  }

  lemma OneItem(s: Refunds.State, item: Item)
    requires item.status.Pending?
    ensures DrainKinds(PaymentDispatch, Work(s, [item]), [item.kind]) == Process(PaymentDispatch, Work(s, [item]), 0)
  {
    var w := Work(s, [item]);
    assert DrainKinds(PaymentDispatch, w, []) == w && [item.kind][..0] == [];
    assert DrainTo(PaymentDispatch, w, item.kind, 0) == w;
    assert DrainTo(PaymentDispatch, w, item.kind, 1) == Process(PaymentDispatch, w, 0);
  }

  /** How a collection item ends: APPLIED if the migration has posted, SKIPPED if the payment was collected
      already, in review if there is no such payment. */
  lemma CollectionItemEnds(s: Refunds.State, p: nat)
    requires RefundsInv.Inv(s)
    ensures var r := DrainKinds(PaymentDispatch, Work(s, [Item(PaymentCollection, p, ItemStatus.Pending)]), [PaymentCollection]);
            && |r.items| == 1
            && (r.items[0].status == Applied <==> p < |s.payments| && s.payments[p].collectionTxn.None?)
            && (r.items[0].status == Skipped <==> p < |s.payments| && s.payments[p].collectionTxn.Some?)
            && (r.items[0].status == ItemStatus.ReviewRequired <==> p >= |s.payments|)
  {
    OneItem(s, Item(PaymentCollection, p, ItemStatus.Pending));
    if p < |s.payments| && s.payments[p].collectionTxn.None? {
      CollectionGoes(s, p);
    }
  }
}
