/** The migration of payments posts each journal exactly once, however often it is applied, retried and
    interrupted. */
module MigrationOnce {
  import opened Wrappers
  import opened Journals
  import opened Refunds
  import opened RefundsInv
  import opened RefundsOnce
  import opened Migration
  import opened MigrationDispatch

  /** One call of apply or retry, which goes through or stops somewhere. Any call may follow. */
  datatype Session = Session(reopen: Option<bool>, crash: Option<Crash>)

  predicate Reachable(session: Session, n: nat) {
    session.crash.Some? ==> session.crash.value.kind < |APPLY_ORDER| && session.crash.value.item <= n
  }

  predicate AllReachable(sessions: seq<Session>, n: nat) {
    forall k :: 0 <= k < |sessions| ==> Reachable(sessions[k], n)
  }

  function AfterSession(w: Work<Refunds.State>, session: Session): (r: Work<Refunds.State>)
    requires Reachable(session, |w.items|)
    ensures |r.items| == |w.items|
  {
    var v := Opened(w, session.reopen);
    if session.crash.Some? then Crashed(PaymentDispatch, PaymentPartial, v, APPLY_ORDER, session.crash.value)
    else DrainKinds(PaymentDispatch, v, APPLY_ORDER)
  }

  function AfterSessions(w: Work<Refunds.State>, sessions: seq<Session>): (r: Work<Refunds.State>)
    requires AllReachable(sessions, |w.items|)
    ensures |r.items| == |w.items|
    decreases |sessions|
  {
    if sessions == [] then w else AfterSessions(AfterSession(w, sessions[0]), sessions[1..])
  }

  // ---------------------------------------------------------------- what a status vouches for

  predicate AboutPayment(item: Item) {
    item.kind.PaymentCollection? || item.kind.PaymentRefund?
  }

  predicate IsMigrated(item: Item) {
    item.status.Applied? || item.status.Skipped?
  }

  /** The journals an item stands for are linked. */
  predicate Done(s: Refunds.State, item: Item) {
    AboutPayment(item) ==>
      && item.source < |s.payments|
      && var payment := s.payments[item.source];
         && (item.kind.PaymentCollection? ==> payment.collectionTxn.Some?)
         && (item.kind.PaymentRefund? && payment.refundStatus.Some? ==>
               payment.accrualTxn.Some? && (payment.refundStatus == Some(Succeeded) ==> payment.settlementTxn.Some?))
  }

  predicate Vouched(w: Work<Refunds.State>) {
    forall i :: 0 <= i < |w.items| && IsMigrated(w.items[i]) ==> Done(w.world, w.items[i])
  }

  ghost predicate Good(w: Work<Refunds.State>) {
    Sound(w.world) && Vouched(w)
  }

  /** The migration only adds links. */
  predicate OnlyLinks(s: Refunds.State, t: Refunds.State) {
    |t.payments| == |s.payments| && forall p :: 0 <= p < |s.payments| ==> MoreLinks(s.payments[p], t.payments[p])
  }

  predicate MoreLinks(a: Payment, b: Payment) {
    && SameButLinks(a, b)
    && (a.collectionTxn.Some? ==> b.collectionTxn.Some?)
    && (a.accrualTxn.Some? ==> b.accrualTxn.Some?)
    && (a.settlementTxn.Some? ==> b.settlementTxn.Some?)
  }

  lemma OneLinked(s: Refunds.State, t: Refunds.State, p: nat)
    requires p < |s.payments| && |t.payments| == |s.payments| && t.payments == s.payments[p := t.payments[p]]
    requires MoreLinks(s.payments[p], t.payments[p])
    ensures OnlyLinks(s, t)
  {
  }

  lemma CollectionLinks(s: Refunds.State, p: nat)
    requires RefundsInv.Inv(s)
    ensures var (t, outcome) := MigrateCollection(s, p);
            OnlyLinks(s, t) && (outcome.Migrated? ==> Done(t, Item(PaymentCollection, p, Applied)))
  {
    if p < |s.payments| && s.payments[p].collectionTxn.None? {
      BackfillPosts(s, p, LegacyDisposition(s.payments[p]));
      OneLinked(s, MigrateCollection(s, p).0, p);
    }
  }

  lemma SettlementLinks(s: Refunds.State, p: nat)
    requires RefundsInv.Inv(s) && p < |s.payments|
    ensures var (t, outcome) := SettleRefund(s, p);
            OnlyLinks(s, t) && (outcome.Migrated? ==> t.payments[p].settlementTxn.Some?)
  {
    var purpose := if s.payments[p].gateway.Paystack? then PaystackSettlement else RefundSettlement;
    SettlementPosted(s, p, purpose);
    if PostSettlement(s, p, purpose).Ok? {
      OneLinked(s, PostSettlement(s, p, purpose).value, p);
    }
  }

  lemma RefundLinks(s: Refunds.State, p: nat)
    requires RefundsInv.Inv(s)
    ensures var (t, outcome) := MigrateRefund(s, p);
            && OnlyLinks(s, t) && OnlyLinks(s, AccruedOnly(s, p))
            && (outcome.Migrated? ==> Done(t, Item(PaymentRefund, p, Applied)))
  {
    if p < |s.payments| && s.payments[p].refundStatus.Some? && s.payments[p].collectionTxn.Some? {
      SourceIsReadable(s, p);
      var source := RefundSource(LinesOf(s.journals, s.payments[p].collectionTxn.value)).value;
      AccrualPosted(s, p, source);
      var u := RecordAccrual(s, p, source).value;
      OneLinked(s, u, p);
      SettlementLinks(u, p);
      LinksAdd(s, u, SettleRefund(u, p).0);
    }
  }

  lemma LinksAdd(s: Refunds.State, t: Refunds.State, u: Refunds.State)
    requires OnlyLinks(s, t) && OnlyLinks(t, u)
    ensures OnlyLinks(s, u)
  {
    forall p | 0 <= p < |s.payments| ensures MoreLinks(s.payments[p], u.payments[p]) {
      assert MoreLinks(s.payments[p], t.payments[p]) && MoreLinks(t.payments[p], u.payments[p]);
    }
  }

  lemma DispatchLinks(s: Refunds.State, kind: Kind, source: nat, t: nat)
    requires RefundsInv.Inv(s)
    ensures var (u, outcome) := PaymentDispatch(s, kind, source);
            && OnlyLinks(s, u) && OnlyLinks(s, PaymentPartial(s, kind, source, t))
            && (outcome.Migrated? ==> Done(u, Item(kind, source, Applied)))
  {
    match kind
    case PaymentCollection => CollectionLinks(s, source);
    case PaymentRefund => RefundLinks(s, source);
    case _ =>
  }

  /** What was done stays done. */
  lemma StaysVouched(w: Work<Refunds.State>, world: Refunds.State)
    requires Vouched(w) && OnlyLinks(w.world, world)
    ensures Vouched(w.(world := world))
  {
    forall i | 0 <= i < |w.items| && IsMigrated(w.items[i]) ensures Done(world, w.items[i]) {
      assert Done(w.world, w.items[i]);
    }
  }

  lemma ProcessKeepsGood(w: Work<Refunds.State>, i: nat)
    requires Good(w) && i < |w.items|
    ensures Good(Process(PaymentDispatch, w, i))
  {
    var item := w.items[i];
    var (world, outcome) := PaymentDispatch(w.world, item.kind, item.source);
    ItemRestarts(w.world, item.kind, item.source, 0);
    DispatchLinks(w.world, item.kind, item.source, 0);
    StaysVouched(w, world);
    assert outcome.Migrated? ==> Done(world, item.(status := StatusOf(outcome)));
  }

  lemma TornKeepsGood(w: Work<Refunds.State>, kind: Kind, n: nat, t: nat)
    requires Good(w)
    ensures Good(Torn(PaymentPartial, w, kind, n, t))
  {
    if n < |w.items| && Due(w.items[n], kind) {
      ItemRestarts(w.world, kind, w.items[n].source, t);
      DispatchLinks(w.world, kind, w.items[n].source, t);
      StaysVouched(w, PaymentPartial(w.world, kind, w.items[n].source, t));
    }
  }

  lemma DrainsKeepGood(w: Work<Refunds.State>, kinds: seq<Kind>, kind: Kind, n: nat)
    requires Good(w) && n <= |w.items|
    ensures Good(DrainKinds(PaymentDispatch, w, kinds))
    ensures Good(DrainTo(PaymentDispatch, w, kind, n))
  {
    var good := (v: Work<Refunds.State>) => Good(v);
    forall v, i: nat | good(v) && i < |v.items| ensures good(Process(PaymentDispatch, v, i)) {
      ProcessKeepsGood(v, i);
    }
    DrainKeeps(PaymentDispatch, good, w, kind, n);
    DrainsKeep(PaymentDispatch, good, w, kinds);
  }

  /** The status write can fail after the work and the item be marked FAILED instead. Nothing is lost:
      the tables stay sound, and once a retry has made the item pending again it comes out as if it
      had gone through at once. */
  lemma FailedStatusIsHarmless(w: Work<Refunds.State>, kind: Kind, n: nat, t: nat, includeReview: bool)
    requires Good(w) && n < |w.items| && Due(w.items[n], kind)
    ensures var v := Torn(PaymentPartial, w, kind, n, t);
            var marked := v.(items := v.items[n := v.items[n].(status := ItemStatus.Failed)]);
            var reopened := Opened(marked, Some(includeReview));
            && Good(marked) && Good(reopened) && Due(reopened.items[n], kind)
            && Process(PaymentDispatch, reopened, n).world == Process(PaymentDispatch, w, n).world
            && SameItem(Process(PaymentDispatch, reopened, n).items[n], Process(PaymentDispatch, w, n).items[n])
  {
    TornKeepsGood(w, kind, n, t);
    ItemRestarts(w.world, kind, w.items[n].source, t);
  }

  lemma SessionKeepsGood(w: Work<Refunds.State>, session: Session)
    requires Good(w) && Reachable(session, |w.items|)
    ensures Good(AfterSession(w, session))
  {
    var v := Opened(w, session.reopen);
    assert Good(v);
    if session.crash.Some? {
      var c := session.crash.value;
      var before := DrainKinds(PaymentDispatch, v, APPLY_ORDER[..c.kind]);
      DrainsKeepGood(v, APPLY_ORDER[..c.kind], APPLY_ORDER[c.kind], 0);
      DrainsKeepGood(before, [], APPLY_ORDER[c.kind], c.item);
      TornKeepsGood(DrainTo(PaymentDispatch, before, APPLY_ORDER[c.kind], c.item), APPLY_ORDER[c.kind], c.item, c.transactions);
    } else {
      DrainsKeepGood(v, APPLY_ORDER, PaymentCollection, 0);
    }
  }

  lemma {:induction false} SessionsKeepGood(w: Work<Refunds.State>, sessions: seq<Session>)
    requires Good(w) && AllReachable(sessions, |w.items|)
    ensures Good(AfterSessions(w, sessions))
    decreases |sessions|
  {
    if sessions != [] {
      SessionKeepsGood(w, sessions[0]);
      SessionsKeepGood(AfterSession(w, sessions[0]), sessions[1..]);
    }
  }

  /** After any applies and retries, each complete or cut off anywhere, in any order: no payment has a
      second journal of a kind, and an item that is APPLIED or SKIPPED has its journals exactly once,
      the collection, or the accrual on a collection and, for a refund that succeeded, the
      settlement. */
  lemma MigratedExactlyOnce(w: Work<Refunds.State>, sessions: seq<Session>)
    requires Sound(w.world) && AllReachable(sessions, |w.items|)
    requires forall i :: 0 <= i < |w.items| ==> w.items[i].status.Pending?
    ensures var t := AfterSessions(w, sessions);
            && (forall p :: 0 <= p < |t.world.payments| ==>
                  Settlements(t.world.journals, p) <= Accruals(t.world.journals, p) <= Collections(t.world.journals, p) <= 1)
            && (forall i :: 0 <= i < |t.items| && IsMigrated(t.items[i]) ==> PostedOnce(t.world, t.items[i]))
  {
    SessionsKeepGood(w, sessions);
    var t := AfterSessions(w, sessions);
    forall p | 0 <= p < |t.world.payments|
      ensures Settlements(t.world.journals, p) <= Accruals(t.world.journals, p) <= Collections(t.world.journals, p) <= 1
    {
      assert PaymentOk(t.world.journals, p, t.world.payments[p]);
      CountedByLinks(t.world.journals, p, t.world.payments[p]);
    }
    forall i | 0 <= i < |t.items| && IsMigrated(t.items[i]) ensures PostedOnce(t.world, t.items[i]) {
      assert Done(t.world, t.items[i]);
      DoneIsPosted(t.world, t.items[i]);
    }
  }

  predicate PostedOnce(s: Refunds.State, item: Item) {
    AboutPayment(item) ==>
      && item.source < |s.payments|
      && (item.kind.PaymentCollection? ==> Collections(s.journals, item.source) == 1)
      && (item.kind.PaymentRefund? && s.payments[item.source].refundStatus.Some? ==>
            && Collections(s.journals, item.source) == 1 && Accruals(s.journals, item.source) == 1
            && (s.payments[item.source].refundStatus == Some(Succeeded) ==> Settlements(s.journals, item.source) == 1))
  }

  lemma DoneIsPosted(s: Refunds.State, item: Item)
    requires Sound(s) && Done(s, item)
    ensures PostedOnce(s, item)
  {
    if AboutPayment(item) {
      assert PaymentOk(s.journals, item.source, s.payments[item.source]);
      CountedByLinks(s.journals, item.source, s.payments[item.source]);
    }
  }
}
