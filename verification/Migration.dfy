/** The migration run: a list of items drained kind by kind, whose statuses are written after the
    work they stand for, so that a crash can lose a status but never the work. */
module Migration {
  import opened Wrappers

  datatype Kind =
    | PaymentCollection | WalletFunding | PaymentRefund | PrizeAccrual | AgentPrizePayout
    | RemittanceAccounting | AgentWalletBalance | PrizePayoutHistory

  const APPLY_ORDER: seq<Kind> := [
    PaymentCollection, WalletFunding, PaymentRefund, PrizeAccrual, AgentPrizePayout,
    RemittanceAccounting, AgentWalletBalance, PrizePayoutHistory]

  datatype ItemStatus = Pending | Applied | Skipped | ReviewRequired | Failed

  datatype Item = Item(kind: Kind, source: nat, status: ItemStatus)

  datatype RunStatus = Planned | Running | Completed | CompletedWithExceptions | RunFailed | Finalized

  /** What handling one item came to. */
  datatype Outcome = Migrated(skipped: bool) | NeedsReview | Error

  /** Handling an item against the tables `W`. */
  type Dispatch<!W> = (W, Kind, nat) -> (W, Outcome)

  /** The tables when handling an item has been cut short after so many of its transactions; after all
      of them, only its status is missing. */
  type Partial<!W> = (W, Kind, nat, nat) -> W

  /** Where an apply stopped: at which kind, before which item, and after how many transactions of it. */
  datatype Crash = Crash(kind: nat, item: nat, transactions: nat)

  datatype Ending = Refused | Threw | Finished

  function StatusOf(outcome: Outcome): ItemStatus {
    match outcome
    case Migrated(skipped) => if skipped then Skipped else Applied
    case NeedsReview => ReviewRequired
    case Error => Failed
  }

  // ---------------------------------------------------------------- one pass, item by item

  datatype Work<W> = Work(world: W, items: seq<Item>)

  function Process<W>(dispatch: Dispatch<W>, w: Work<W>, i: nat): Work<W>
    requires i < |w.items|
  {
    var (world, outcome) := dispatch(w.world, w.items[i].kind, w.items[i].source);
    Work(world, w.items[i := w.items[i].(status := StatusOf(outcome))])
  }

  predicate Due(item: Item, kind: Kind) {
    item.kind == kind && item.status.Pending?
  }

  /** The pending items of a kind among the first `n`, handled in their order. */
  function DrainTo<W>(dispatch: Dispatch<W>, w: Work<W>, kind: Kind, n: nat): (r: Work<W>)
    requires n <= |w.items|
    ensures |r.items| == |w.items|
    ensures forall k :: n <= k < |w.items| ==> r.items[k] == w.items[k]
  {
    if n == 0 then w
    else
      var before := DrainTo(dispatch, w, kind, n - 1);
      if Due(before.items[n - 1], kind) then Process(dispatch, before, n - 1) else before
  }

  function Drain<W>(dispatch: Dispatch<W>, w: Work<W>, kind: Kind): (r: Work<W>)
    ensures |r.items| == |w.items|
  {
    DrainTo(dispatch, w, kind, |w.items|)
  }

  function DrainKinds<W>(dispatch: Dispatch<W>, w: Work<W>, kinds: seq<Kind>): (r: Work<W>)
    ensures |r.items| == |w.items|
  {
    if kinds == [] then w else Drain(dispatch, DrainKinds(dispatch, w, kinds[..|kinds| - 1]), kinds[|kinds| - 1])
  }

  lemma {:induction false} DrainToIs<W>(dispatch: Dispatch<W>, w: Work<W>, kind: Kind, n: nat)
    requires n <= |w.items|
    ensures var r := DrainTo(dispatch, w, kind, n);
            && (forall k :: 0 <= k < |w.items| ==> r.items[k].kind == w.items[k].kind && r.items[k].source == w.items[k].source)
            && (forall k :: 0 <= k < n ==> !Due(r.items[k], kind))
            && (forall k :: 0 <= k < |w.items| && !Due(w.items[k], kind) ==> r.items[k] == w.items[k])
            && (forall k :: 0 <= k < |w.items| ==> (r.items[k].status.Pending? ==> w.items[k].status.Pending?))
  {
    if n > 0 {
      DrainToIs(dispatch, w, kind, n - 1);
    }
  }

  lemma {:induction false} DrainKindsIs<W>(dispatch: Dispatch<W>, w: Work<W>, kinds: seq<Kind>)
    ensures var r := DrainKinds(dispatch, w, kinds);
            && (forall k :: 0 <= k < |w.items| ==> r.items[k].kind == w.items[k].kind && r.items[k].source == w.items[k].source)
            && (forall k :: 0 <= k < |w.items| && r.items[k].kind in kinds ==> !r.items[k].status.Pending?)
            && (forall k :: 0 <= k < |w.items| && !w.items[k].status.Pending? ==> r.items[k] == w.items[k])
  {
    if kinds != [] {
      var before := DrainKinds(dispatch, w, kinds[..|kinds| - 1]);
      DrainKindsIs(dispatch, w, kinds[..|kinds| - 1]);
      DrainToIs(dispatch, before, kinds[|kinds| - 1], |before.items|);
    }
  }

  lemma AllKindsApplied()
    ensures forall kind: Kind :: kind in APPLY_ORDER
  {
    forall kind: Kind ensures kind in APPLY_ORDER {
      match kind
      case PaymentCollection => assert APPLY_ORDER[0] == kind;
      case WalletFunding => assert APPLY_ORDER[1] == kind;
      case PaymentRefund => assert APPLY_ORDER[2] == kind;
      case PrizeAccrual => assert APPLY_ORDER[3] == kind;
      case AgentPrizePayout => assert APPLY_ORDER[4] == kind;
      case RemittanceAccounting => assert APPLY_ORDER[5] == kind;
      case AgentWalletBalance => assert APPLY_ORDER[6] == kind;
      case PrizePayoutHistory => assert APPLY_ORDER[7] == kind;
    }
  }

  // ---------------------------------------------------------------- the run

  function Count(items: seq<Item>, status: ItemStatus): nat {
    if items == [] then 0 else (if items[0].status == status then 1 else 0) + Count(items[1..], status)
  }

  lemma {:induction false} CountIs(items: seq<Item>, status: ItemStatus)
    ensures Count(items, status) == 0 <==> forall k :: 0 <= k < |items| ==> items[k].status != status
  {
    if items != [] {
      CountIs(items[1..], status);
      assert forall k :: 1 <= k < |items| ==> items[k] == items[1..][k - 1];
    }
  }

  predicate Clean(items: seq<Item>) {
    forall k :: 0 <= k < |items| ==> items[k].status.Applied? || items[k].status.Skipped?
  }

  class Phase8MigrationService<!W> {
    const dispatch: Dispatch<W>
    const partial: Partial<W>
    var world: W
    var items: seq<Item>
    var status: RunStatus

    function View(): Work<W>
      reads this
    {
      Work(world, items)
    }

    constructor (dispatch: Dispatch<W>, partial: Partial<W>, world: W, items: seq<Item>)
      ensures this.dispatch == dispatch && this.partial == partial && View() == Work(world, items) && status == Planned
    {
      this.dispatch, this.partial, this.world, this.items, status := dispatch, partial, world, items, Planned;
    }

    /** The work first, then the status of the item. */
    method ProcessItem(i: nat)
      requires i < |items|
      modifies this`world, this`items
      ensures View() == Process(dispatch, old(View()), i)
    {
      var (after, outcome) := dispatch(world, items[i].kind, items[i].source);
      world := after;
      items := items[i := items[i].(status := StatusOf(outcome))];
    }

    /** The query of a batch: the first pending items of a kind, at most `take` of them. */
    method FindBatch(kind: Kind, take: nat) returns (batch: seq<nat>)
      requires take > 0
      ensures forall b :: 0 <= b < |batch| ==> batch[b] < |items| && Due(items[batch[b]], kind)
      ensures forall a, b :: 0 <= a < b < |batch| ==> batch[a] < batch[b]
      ensures batch != [] ==> forall k :: 0 <= k < batch[|batch| - 1] && Due(items[k], kind) ==> k in batch
      ensures batch == [] ==> forall k :: 0 <= k < |items| ==> !Due(items[k], kind)
    {
      batch := [];
      var i := 0;
      while i < |items| && |batch| < take
        invariant 0 <= i <= |items|
        invariant forall b :: 0 <= b < |batch| ==> batch[b] < i && Due(items[batch[b]], kind)
        invariant forall a, b :: 0 <= a < b < |batch| ==> batch[a] < batch[b]
        invariant forall k :: 0 <= k < i && Due(items[k], kind) ==> k in batch
      {
        if Due(items[i], kind) {
          batch := batch + [i];
        }
        i := i + 1;
      }
    }

    /** The next item of a batch: between the last one and this one nothing was due. */
    method HandleNext(kind: Kind, ghost start: Work<W>, ghost n: nat, i: nat)
      requires n <= i < |items| == |start.items| && View() == DrainTo(dispatch, start, kind, n)
      requires Due(items[i], kind) && forall k :: n <= k < i ==> !Due(items[k], kind)
      modifies this`world, this`items
      ensures View() == DrainTo(dispatch, start, kind, i + 1)
      ensures |items| == |old(items)| && forall k :: i < k < |items| ==> items[k] == old(items)[k]
    {
      SkipTo(dispatch, start, kind, n, i);
      ProcessItem(i);
    }

    /** The database fails in the middle of an item: some of its transactions are in, its status is not. */
    method LoseItem(kind: Kind, i: nat, transactions: nat)
      requires i < |items| && Due(items[i], kind)
      modifies this`world
      ensures View() == Torn(partial, old(View()), kind, i, transactions)
    {
      world := partial(world, kind, items[i].source, transactions);
    }

    /** The items of a batch, one by one, as long as the database lets them through: it fails in the
        item after the next `budget`. */
    method HandleBatch(kind: Kind, batch: seq<nat>, budget: nat, transactions: nat, ghost start: Work<W>, ghost from: nat)
      returns (left: nat, threw: bool, ghost stopped: nat)
      requires batch != [] && from <= |start.items| && from <= batch[0] && batch[|batch| - 1] < |start.items|
      requires View() == DrainTo(dispatch, start, kind, from)
      requires forall a, b :: 0 <= a < b < |batch| ==> batch[a] < batch[b]
      requires forall b :: 0 <= b < |batch| ==> Due(items[batch[b]], kind)
      requires forall k :: from <= k < batch[|batch| - 1] && Due(items[k], kind) ==> k in batch
      modifies this`world, this`items
      ensures !threw ==> View() == DrainTo(dispatch, start, kind, batch[|batch| - 1] + 1)
      ensures threw ==> stopped < |start.items| && View() == Torn(partial, DrainTo(dispatch, start, kind, stopped), kind, stopped, transactions)
      ensures threw <==> |batch| > budget
      ensures !threw ==> left == budget - |batch|
    {
      left, threw, stopped := budget, false, 0;
      ghost var n: nat, listed := from, items;
      for b := 0 to |batch|
        invariant 0 <= n <= |start.items| && View() == DrainTo(dispatch, start, kind, n)
        invariant n == (if b == 0 then from else batch[b - 1] + 1)
        invariant |items| == |listed| && forall k :: n <= k < |items| ==> items[k] == listed[k]
        invariant left == budget - b
      {
        NotListed(batch, n, b);
        if left == 0 {
          SkipTo(dispatch, start, kind, n, batch[b]);
          LoseItem(kind, batch[b], transactions);
          threw, stopped := true, batch[b];
          return;
        }
        HandleNext(kind, start, n, batch[b]);
        n, left := batch[b] + 1, left - 1;
      }
    }

    /** Batch after batch until none is left. However large the batches, the result is that of
        handling the pending items of the kind once each, in order; a failure leaves it at some item. */
    method DrainKind(kind: Kind, take: nat, budget: nat, transactions: nat) returns (left: nat, threw: bool, ghost stopped: nat)
      requires take > 0
      modifies this`world, this`items
      ensures !threw ==> View() == Drain(dispatch, old(View()), kind) && left <= budget
      ensures threw ==> stopped < |old(items)|
                        && View() == Torn(partial, DrainTo(dispatch, old(View()), kind, stopped), kind, stopped, transactions)
    {
      ghost var start := View();
      ghost var n := 0;
      left, threw, stopped := budget, false, 0;
      while true
        invariant 0 <= n <= |start.items| && View() == DrainTo(dispatch, start, kind, n) && left <= budget
        decreases |start.items| - n
      {
        DrainToIs(dispatch, start, kind, n);
        var batch := FindBatch(kind, take);
        if batch == [] {
          SkipTo(dispatch, start, kind, n, |items|);
          return left, false, 0;
        }
        left, threw, stopped := HandleBatch(kind, batch, left, transactions, start, n);
        if threw {
          return;
        }
        n := batch[|batch| - 1] + 1;
      }
    }

    /** Apply drains every kind in its order and then records how the run ended. A run in any other
        state is refused. When the database fails on the way, the run is marked as failed: what has
        been handled stays, and the item at the failure may have some of its transactions in. */
    method Apply(batchSize: int, budget: nat, transactions: nat) returns (ending: Ending, ghost crash: Crash)
      modifies this
      ensures ending == Refused <==> old(status) !in {Planned, Running, CompletedWithExceptions}
      ensures ending == Refused ==> View() == old(View()) && status == old(status)
      ensures ending == Finished ==>
                && View() == DrainKinds(dispatch, old(View()), APPLY_ORDER)
                && status == (if Clean(items) then Completed else CompletedWithExceptions)
      ensures ending == Threw ==>
                && crash.kind < |APPLY_ORDER| && crash.item < |old(items)|
                && View() == Crashed(dispatch, partial, old(View()), APPLY_ORDER, crash) && status == RunFailed
    {
      crash := Crash(0, 0, transactions);
      var safeBatch := if batchSize < 1 then 1 else if batchSize > 500 then 500 else batchSize;
      if status != Planned && status != Running && status != CompletedWithExceptions {
        return Refused, crash;
      }
      status := Running;
      ghost var start := View();
      var left := budget;
      for k := 0 to |APPLY_ORDER|
        invariant View() == DrainKinds(dispatch, start, APPLY_ORDER[..k])
      {
        assert APPLY_ORDER[..k + 1][..k] == APPLY_ORDER[..k];
        var threw;
        ghost var stopped;
        left, threw, stopped := DrainKind(APPLY_ORDER[k], safeBatch, left, transactions);
        if threw {
          status := RunFailed;
          return Threw, Crash(k, stopped, transactions);
        }
      }
      assert APPLY_ORDER[..|APPLY_ORDER|] == APPLY_ORDER;
      DrainKindsIs(dispatch, start, APPLY_ORDER);
      AllKindsApplied();
      RefreshRunCounts();
      return Finished, crash;
    }

    /** How a run ended, by the statuses of its items. */
    method RefreshRunCounts()
      requires forall k :: 0 <= k < |items| ==> !items[k].status.Pending?
      modifies this`status
      ensures status == (if Clean(items) then Completed else CompletedWithExceptions)
    {
      CountIs(items, Failed);
      CountIs(items, ReviewRequired);
      if Count(items, Failed) > 0 || Count(items, ReviewRequired) > 0 {
        status := CompletedWithExceptions;
      } else {
        status := Completed;
      }
    }

    /** Retry makes the failed items pending again, and on request those in review, and applies. It is
        the one way on for a run marked as failed. */
    method Retry(includeReview: bool, budget: nat, transactions: nat) returns (ending: Ending, ghost crash: Crash)
      modifies this
      ensures ending == Refused <==> old(status) == Finalized
      ensures ending == Refused ==> View() == old(View()) && status == old(status)
      ensures var start := old(View()).(items := Reopened(old(items), includeReview));
              && (ending == Finished ==>
                    && View() == DrainKinds(dispatch, start, APPLY_ORDER)
                    && status == (if Clean(items) then Completed else CompletedWithExceptions))
              && (ending == Threw ==>
                    && crash.kind < |APPLY_ORDER| && crash.item < |old(items)|
                    && View() == Crashed(dispatch, partial, start, APPLY_ORDER, crash) && status == RunFailed)
    {
      if status == Finalized {
        return Refused, Crash(0, 0, transactions);
      }
      items := Reopened(items, includeReview);
      status := Running;
      ending, crash := Apply(100, budget, transactions);
    }

    /** `outstanding` says that the audit found source rows still without their journals. */
    method Finalize(outstanding: bool) returns (ok: bool)
      modifies this`status
      ensures ok <==> Clean(items) && !outstanding
      ensures status == if ok then Finalized else old(status)
    {
      CountIs(items, Pending);
      CountIs(items, Failed);
      CountIs(items, ReviewRequired);
      if Count(items, Pending) > 0 || Count(items, Failed) > 0 || Count(items, ReviewRequired) > 0 || outstanding {
        return false;
      }
      status := Finalized;
      return true;
    }
  }

  function Reopened(items: seq<Item>, includeReview: bool): (r: seq<Item>)
    ensures |r| == |items|
    ensures forall k :: 0 <= k < |r| ==>
              r[k] == if items[k].status.Failed? || (includeReview && items[k].status.ReviewRequired?) then items[k].(status := Pending)
                      else items[k]
  {
    seq(|items|, k requires 0 <= k < |items| =>
      if items[k].status.Failed? || (includeReview && items[k].status.ReviewRequired?) then items[k].(status := Pending) else items[k])
  }

  lemma NotListed(batch: seq<nat>, n: nat, b: nat)
    requires b < |batch| && (b > 0 ==> n == batch[b - 1] + 1)
    requires forall i, j :: 0 <= i < j < |batch| ==> batch[i] < batch[j]
    ensures forall k :: n <= k < batch[b] ==> k !in batch
    ensures batch[b] <= batch[|batch| - 1] && (b > 0 ==> n <= batch[b])
  {
  }

  lemma {:induction false} SkipTo<W>(dispatch: Dispatch<W>, w: Work<W>, kind: Kind, n: nat, m: nat)
    requires n <= m <= |w.items|
    requires forall k :: n <= k < m ==> !Due(DrainTo(dispatch, w, kind, n).items[k], kind)
    ensures DrainTo(dispatch, w, kind, m) == DrainTo(dispatch, w, kind, n)
    decreases m
  {
    if n < m {
      SkipTo(dispatch, w, kind, n, m - 1);
    }
  }

  // ---------------------------------------------------------------- crashes

  /** Item `n`, if it is due, has some of its transactions in and its status unwritten. */
  function Torn<W>(partial: Partial<W>, w: Work<W>, kind: Kind, n: nat, transactions: nat): Work<W> {
    if n < |w.items| && Due(w.items[n], kind) then w.(world := partial(w.world, kind, w.items[n].source, transactions)) else w
  }

  /** The work of an apply that stopped. */
  function Crashed<W>(dispatch: Dispatch<W>, partial: Partial<W>, w: Work<W>, kinds: seq<Kind>, crash: Crash): (r: Work<W>)
    requires crash.kind < |kinds| && crash.item <= |w.items|
    ensures |r.items| == |w.items|
  {
    var kind := kinds[crash.kind];
    Torn(partial, DrainTo(dispatch, DrainKinds(dispatch, w, kinds[..crash.kind]), kind, crash.item), kind, crash.item, crash.transactions)
  }

  /** Migrated is migrated, whether it was done now or found done. */
  predicate SameOutcome(a: Outcome, b: Outcome) {
    a == b || (a.Migrated? && b.Migrated?)
  }

  /** What makes restarting safe: an item taken up again after any of its transactions comes out as if
      it had gone through at once. `ok` is what the tables always satisfy. */
  ghost predicate Restartable<W(!new)>(dispatch: Dispatch<W>, partial: Partial<W>, ok: W -> bool) {
    && (forall w, kind, source :: ok(w) ==> ok(dispatch(w, kind, source).0))
    && (forall w, kind, source, t: nat :: ok(w) ==>
          var torn := partial(w, kind, source, t);
          && ok(torn) && dispatch(torn, kind, source).0 == dispatch(w, kind, source).0
          && SameOutcome(dispatch(torn, kind, source).1, dispatch(w, kind, source).1))
  }

  predicate SameItem(a: Item, b: Item) {
    a.kind == b.kind && a.source == b.source
    && (a.status == b.status || (a.status in {Applied, Skipped} && b.status in {Applied, Skipped}))
  }

  /** The same tables, and the same items but that one may be APPLIED here and SKIPPED there. */
  predicate SameWork<W(==)>(v: Work<W>, w: Work<W>) {
    v.world == w.world && |v.items| == |w.items| && forall k :: 0 <= k < |v.items| ==> SameItem(v.items[k], w.items[k])
  }

  lemma {:induction false} SameDrain<W>(dispatch: Dispatch<W>, v: Work<W>, w: Work<W>, kind: Kind, n: nat)
    requires SameWork(v, w) && n <= |v.items|
    ensures SameWork(DrainTo(dispatch, v, kind, n), DrainTo(dispatch, w, kind, n))
  {
    if n > 0 {
      SameDrain(dispatch, v, w, kind, n - 1);
    }
  }

  lemma {:induction false} SameDrains<W>(dispatch: Dispatch<W>, v: Work<W>, w: Work<W>, kinds: seq<Kind>)
    requires SameWork(v, w)
    ensures SameWork(DrainKinds(dispatch, v, kinds), DrainKinds(dispatch, w, kinds))
  {
    if kinds != [] {
      var rest := kinds[..|kinds| - 1];
      SameDrains(dispatch, v, w, rest);
      SameDrain(dispatch, DrainKinds(dispatch, v, rest), DrainKinds(dispatch, w, rest), kinds[|kinds| - 1], |v.items|);
    }
  }

  /** Whatever handling any one item keeps, an apply keeps. */
  lemma {:induction false} DrainKeeps<W(!new)>(dispatch: Dispatch<W>, good: Work<W> -> bool, w: Work<W>, kind: Kind, n: nat)
    requires good(w) && n <= |w.items|
    requires forall v, i: nat :: good(v) && i < |v.items| ==> good(Process(dispatch, v, i))
    ensures good(DrainTo(dispatch, w, kind, n))
  {
    if n > 0 {
      DrainKeeps(dispatch, good, w, kind, n - 1);
    }
  }

  lemma {:induction false} DrainsKeep<W(!new)>(dispatch: Dispatch<W>, good: Work<W> -> bool, w: Work<W>, kinds: seq<Kind>)
    requires good(w)
    requires forall v, i: nat :: good(v) && i < |v.items| ==> good(Process(dispatch, v, i))
    ensures good(DrainKinds(dispatch, w, kinds))
  {
    if kinds != [] {
      var rest := kinds[..|kinds| - 1];
      DrainsKeep(dispatch, good, w, rest);
      DrainKeeps(dispatch, good, DrainKinds(dispatch, w, rest), kinds[|kinds| - 1], |w.items|);
    }
  }

  lemma DrainsKeepOk<W(!new)>(
    dispatch: Dispatch<W>, partial: Partial<W>, ok: W -> bool, w: Work<W>, kinds: seq<Kind>, kind: Kind, n: nat)
    requires Restartable(dispatch, partial, ok) && ok(w.world) && n <= |w.items|
    ensures ok(DrainKinds(dispatch, w, kinds).world) && ok(DrainTo(dispatch, w, kind, n).world)
  {
    var good := (v: Work<W>) => ok(v.world);
    DrainKeeps(dispatch, good, w, kind, n);
    DrainsKeep(dispatch, good, w, kinds);
  }

  lemma CrashKeepsOk<W(!new)>(dispatch: Dispatch<W>, partial: Partial<W>, ok: W -> bool, w: Work<W>, kinds: seq<Kind>, crash: Crash)
    requires Restartable(dispatch, partial, ok) && ok(w.world) && crash.kind < |kinds| && crash.item <= |w.items|
    ensures ok(Crashed(dispatch, partial, w, kinds, crash).world)
  {
    DrainsKeepOk(dispatch, partial, ok, w, kinds[..crash.kind], kinds[crash.kind], 0);
    DrainsKeepOk(dispatch, partial, ok, DrainKinds(dispatch, w, kinds[..crash.kind]), [], kinds[crash.kind], crash.item);
  }

  /** The kind that was interrupted, taken up again. */
  lemma {:induction false} KindResumes<W(!new)>(dispatch: Dispatch<W>, partial: Partial<W>, ok: W -> bool, w: Work<W>, kind: Kind, n: nat, t: nat, m: nat)
    requires Restartable(dispatch, partial, ok) && ok(w.world) && n <= m <= |w.items| && (n < |w.items| ==> n < m)
    ensures var v := Torn(partial, DrainTo(dispatch, w, kind, n), kind, n, t);
            SameWork(DrainTo(dispatch, v, kind, m), DrainTo(dispatch, w, kind, m))
    decreases m
  {
    var v := Torn(partial, DrainTo(dispatch, w, kind, n), kind, n, t);
    if m > n + 1 {
      KindResumes(dispatch, partial, ok, w, kind, n, t, m - 1);
      SameProcess(dispatch, DrainTo(dispatch, v, kind, m - 1), DrainTo(dispatch, w, kind, m - 1), m - 1);
    } else {
      KindResumesAt(dispatch, partial, ok, w, kind, n, t, m);
    }
  }

  lemma KindResumesAt<W(!new)>(dispatch: Dispatch<W>, partial: Partial<W>, ok: W -> bool, w: Work<W>, kind: Kind, n: nat, t: nat, m: nat)
    requires Restartable(dispatch, partial, ok) && ok(w.world) && n <= |w.items| && m == if n < |w.items| then n + 1 else n
    ensures var v := Torn(partial, DrainTo(dispatch, w, kind, n), kind, n, t);
            SameWork(DrainTo(dispatch, v, kind, m), DrainTo(dispatch, w, kind, m))
  {
    var stopped := DrainTo(dispatch, w, kind, n);
    DrainToIs(dispatch, w, kind, n);
    DrainsKeepOk(dispatch, partial, ok, w, [], kind, n);
    SkipTo(dispatch, Torn(partial, stopped, kind, n, t), kind, 0, n);
    if n < |w.items| && Due(stopped.items[n], kind) {
      ItemResumes(dispatch, partial, ok, stopped, kind, n, t);
    }
  }

  lemma SameProcess<W>(dispatch: Dispatch<W>, v: Work<W>, w: Work<W>, i: nat)
    requires SameWork(v, w) && i < |v.items|
    ensures SameWork(Process(dispatch, v, i), Process(dispatch, w, i))
  {
  }

  lemma ItemResumes<W(!new)>(dispatch: Dispatch<W>, partial: Partial<W>, ok: W -> bool, w: Work<W>, kind: Kind, n: nat, t: nat)
    requires Restartable(dispatch, partial, ok) && ok(w.world) && n < |w.items| && Due(w.items[n], kind)
    ensures SameWork(Process(dispatch, Torn(partial, w, kind, n, t), n), Process(dispatch, w, n))
  {
  }

  lemma {:induction false} Idle<W>(dispatch: Dispatch<W>, w: Work<W>, kinds: seq<Kind>)
    requires forall k :: 0 <= k < |w.items| && w.items[k].kind in kinds ==> !w.items[k].status.Pending?
    ensures DrainKinds(dispatch, w, kinds) == w
  {
    if kinds != [] {
      var last := kinds[|kinds| - 1];
      Idle(dispatch, w, kinds[..|kinds| - 1]);
      assert last in kinds;
      SkipTo(dispatch, w, last, 0, |w.items|);
    }
  }

  lemma {:induction false} KindsResume<W(!new)>(
    dispatch: Dispatch<W>, partial: Partial<W>, ok: W -> bool, w: Work<W>, kinds: seq<Kind>, crash: Crash, m: nat)
    requires Restartable(dispatch, partial, ok) && ok(w.world) && crash.kind < m <= |kinds| && crash.item <= |w.items|
    ensures SameWork(DrainKinds(dispatch, Crashed(dispatch, partial, w, kinds, crash), kinds[..m]), DrainKinds(dispatch, w, kinds[..m]))
    decreases m
  {
    var v := Crashed(dispatch, partial, w, kinds, crash);
    assert kinds[..m][..m - 1] == kinds[..m - 1];
    if m == crash.kind + 1 {
      KindsResumeAt(dispatch, partial, ok, w, kinds, crash);
    } else {
      KindsResume(dispatch, partial, ok, w, kinds, crash, m - 1);
      SameDrain(dispatch, DrainKinds(dispatch, v, kinds[..m - 1]), DrainKinds(dispatch, w, kinds[..m - 1]), kinds[m - 1], |w.items|);
    }
  }

  lemma KindsResumeAt<W(!new)>(
    dispatch: Dispatch<W>, partial: Partial<W>, ok: W -> bool, w: Work<W>, kinds: seq<Kind>, crash: Crash)
    requires Restartable(dispatch, partial, ok) && ok(w.world) && crash.kind < |kinds| && crash.item <= |w.items|
    ensures var (v, m) := (Crashed(dispatch, partial, w, kinds, crash), crash.kind + 1);
            SameWork(DrainKinds(dispatch, v, kinds[..m]), DrainKinds(dispatch, w, kinds[..m]))
  {
    var v := Crashed(dispatch, partial, w, kinds, crash);
    var before := DrainKinds(dispatch, w, kinds[..crash.kind]);
    assert kinds[..crash.kind + 1][..crash.kind] == kinds[..crash.kind];
    NothingLeft(dispatch, partial, w, kinds, crash);
    Idle(dispatch, v, kinds[..crash.kind]);
    DrainsKeepOk(dispatch, partial, ok, w, kinds[..crash.kind], kinds[crash.kind], 0);
    KindResumes(dispatch, partial, ok, before, kinds[crash.kind], crash.item, crash.transactions, |w.items|);
  }

  lemma NothingLeft<W>(dispatch: Dispatch<W>, partial: Partial<W>, w: Work<W>, kinds: seq<Kind>, crash: Crash)
    requires crash.kind < |kinds| && crash.item <= |w.items|
    ensures var v := Crashed(dispatch, partial, w, kinds, crash);
            forall k :: 0 <= k < |v.items| && v.items[k].kind in kinds[..crash.kind] ==> !v.items[k].status.Pending?
  {
    DrainKindsIs(dispatch, w, kinds[..crash.kind]);
    DrainToIs(dispatch, DrainKinds(dispatch, w, kinds[..crash.kind]), kinds[crash.kind], crash.item);
  }

  /** An apply that dies anywhere, between two items or after any transaction of one, and is applied
      again, ends with the tables of an apply that went through, and with the same statuses. */
  lemma CrashIsInvisible<W(!new)>(
    dispatch: Dispatch<W>, partial: Partial<W>, ok: W -> bool, w: Work<W>, kinds: seq<Kind>, crash: Crash)
    requires Restartable(dispatch, partial, ok) && ok(w.world) && crash.kind < |kinds| && crash.item <= |w.items|
    ensures SameWork(DrainKinds(dispatch, Crashed(dispatch, partial, w, kinds, crash), kinds), DrainKinds(dispatch, w, kinds))
  {
    KindsResume(dispatch, partial, ok, w, kinds, crash, |kinds|);
    assert kinds[..|kinds|] == kinds;
  }

  // ---------------------------------------------------------------- any number of crashes

  /** One call of apply or retry, with the crashes it takes to get it through, each followed by
      applying again. */
  datatype Command = Command(reopen: Option<bool>, crashes: seq<Crash>)

  predicate InReach(crashes: seq<Crash>, n: nat) {
    forall c :: 0 <= c < |crashes| ==> crashes[c].kind < |APPLY_ORDER| && crashes[c].item <= n
  }

  function AfterCrashes<W>(dispatch: Dispatch<W>, partial: Partial<W>, w: Work<W>, crashes: seq<Crash>): (r: Work<W>)
    requires InReach(crashes, |w.items|)
    ensures |r.items| == |w.items|
    decreases |crashes|
  {
    if crashes == [] then w
    else AfterCrashes(dispatch, partial, Crashed(dispatch, partial, w, APPLY_ORDER, crashes[0]), crashes[1..])
  }

  function Opened<W>(w: Work<W>, reopen: Option<bool>): (r: Work<W>)
    ensures |r.items| == |w.items|
  {
    if reopen.Some? then w.(items := Reopened(w.items, reopen.value)) else w
  }

  predicate AllInReach(commands: seq<Command>, n: nat) {
    forall c :: 0 <= c < |commands| ==> InReach(commands[c].crashes, n)
  }

  function Campaign<W>(dispatch: Dispatch<W>, partial: Partial<W>, w: Work<W>, commands: seq<Command>): (r: Work<W>)
    requires AllInReach(commands, |w.items|)
    ensures |r.items| == |w.items|
  {
    if commands == [] then w
    else
      var before := Campaign(dispatch, partial, w, commands[..|commands| - 1]);
      var last := commands[|commands| - 1];
      DrainKinds(dispatch, AfterCrashes(dispatch, partial, Opened(before, last.reopen), last.crashes), APPLY_ORDER)
  }

  /** The same calls, had nothing ever gone wrong. */
  function Calm(commands: seq<Command>): (r: seq<Command>)
    ensures |r| == |commands| && forall c :: 0 <= c < |r| ==> r[c] == Command(commands[c].reopen, [])
  {
    seq(|commands|, c requires 0 <= c < |commands| => Command(commands[c].reopen, []))
  }

  lemma SameTransitive<W>(u: Work<W>, v: Work<W>, w: Work<W>)
    requires SameWork(u, v) && SameWork(v, w)
    ensures SameWork(u, w)
  {
  }

  lemma {:induction false} CrashesAreInvisible<W(!new)>(
    dispatch: Dispatch<W>, partial: Partial<W>, ok: W -> bool, w: Work<W>, crashes: seq<Crash>)
    requires Restartable(dispatch, partial, ok) && ok(w.world) && InReach(crashes, |w.items|)
    ensures SameWork(DrainKinds(dispatch, AfterCrashes(dispatch, partial, w, crashes), APPLY_ORDER), DrainKinds(dispatch, w, APPLY_ORDER))
    decreases |crashes|
  {
    if crashes == [] {
      SameDrains(dispatch, w, w, APPLY_ORDER);
    } else {
      var v := Crashed(dispatch, partial, w, APPLY_ORDER, crashes[0]);
      CrashKeepsOk(dispatch, partial, ok, w, APPLY_ORDER, crashes[0]);
      CrashesAreInvisible(dispatch, partial, ok, v, crashes[1..]);
      CrashIsInvisible(dispatch, partial, ok, w, APPLY_ORDER, crashes[0]);
      SameTransitive(DrainKinds(dispatch, AfterCrashes(dispatch, partial, w, crashes), APPLY_ORDER),
                     DrainKinds(dispatch, v, APPLY_ORDER), DrainKinds(dispatch, w, APPLY_ORDER));
    }
  }

  /** Any sequence of applies and retries, each dying any number of times anywhere and applied again
      until it gets through, leaves the tables as the same calls would have without a crash; and every
      item is migrated, failed or in review as it would have been. */
  lemma {:induction false} CampaignIsCalm<W(!new)>(
    dispatch: Dispatch<W>, partial: Partial<W>, ok: W -> bool, w: Work<W>, commands: seq<Command>)
    requires Restartable(dispatch, partial, ok) && ok(w.world) && AllInReach(commands, |w.items|)
    ensures AllInReach(Calm(commands), |w.items|)
    ensures SameWork(Campaign(dispatch, partial, w, commands), Campaign(dispatch, partial, w, Calm(commands)))
    ensures ok(Campaign(dispatch, partial, w, commands).world)
  {
    if commands != [] {
      var rest, last := commands[..|commands| - 1], commands[|commands| - 1];
      CampaignIsCalm(dispatch, partial, ok, w, rest);
      assert Calm(commands)[..|commands| - 1] == Calm(rest);
      var before, calmly := Campaign(dispatch, partial, w, rest), Campaign(dispatch, partial, w, Calm(rest));
      CommandIsCalm(dispatch, partial, ok, before, calmly, last);
    }
  }

  lemma CommandIsCalm<W(!new)>(
    dispatch: Dispatch<W>, partial: Partial<W>, ok: W -> bool, v: Work<W>, w: Work<W>, command: Command)
    requires Restartable(dispatch, partial, ok) && ok(v.world) && SameWork(v, w) && InReach(command.crashes, |v.items|)
    ensures var u := AfterCrashes(dispatch, partial, Opened(v, command.reopen), command.crashes);
            && SameWork(DrainKinds(dispatch, u, APPLY_ORDER), DrainKinds(dispatch, Opened(w, command.reopen), APPLY_ORDER))
            && ok(DrainKinds(dispatch, u, APPLY_ORDER).world)
  {
    var a, b := Opened(v, command.reopen), Opened(w, command.reopen);
    CrashesAreInvisible(dispatch, partial, ok, a, command.crashes);
    SameDrains(dispatch, a, b, APPLY_ORDER);
    SameTransitive(DrainKinds(dispatch, AfterCrashes(dispatch, partial, a, command.crashes), APPLY_ORDER),
                   DrainKinds(dispatch, a, APPLY_ORDER), DrainKinds(dispatch, b, APPLY_ORDER));
    DrainsKeepOk(dispatch, partial, ok, a, APPLY_ORDER, PaymentCollection, 0);
  }

  // ---------------------------------------------------------------- the order of the work

  /** The tables after handling the given items in order, whatever becomes of their statuses. */
  function Handle<W>(dispatch: Dispatch<W>, world: W, items: seq<Item>): W {
    if items == [] then world
    else Handle(dispatch, dispatch(world, items[0].kind, items[0].source).0, items[1..])
  }

  lemma {:induction false} HandleConcat<W>(dispatch: Dispatch<W>, world: W, a: seq<Item>, b: seq<Item>)
    ensures Handle(dispatch, world, a + b) == Handle(dispatch, Handle(dispatch, world, a), b)
  {
    if a == [] {
      assert a + b == b;
    } else {
      assert (a + b)[1..] == a[1..] + b;
      HandleConcat(dispatch, dispatch(world, a[0].kind, a[0].source).0, a[1..], b);
    }
  }

  lemma HandleOne<W>(dispatch: Dispatch<W>, world: W, item: Item)
    ensures Handle(dispatch, world, [item]) == dispatch(world, item.kind, item.source).0
  {
    assert [item][1..] == [];
  }

  /** The pending items of a kind among the first `n`, and of a list of kinds, in the order an apply
      handles them. */
  function DueTo(items: seq<Item>, kind: Kind, n: nat): seq<Item>
    requires n <= |items|
  {
    if n == 0 then [] else DueTo(items, kind, n - 1) + if Due(items[n - 1], kind) then [items[n - 1]] else []
  }

  function Agenda(items: seq<Item>, kinds: seq<Kind>): seq<Item> {
    if kinds == [] then [] else Agenda(items, kinds[..|kinds| - 1]) + DueTo(items, kinds[|kinds| - 1], |items|)
  }

  lemma {:induction false} DrainHandles<W>(dispatch: Dispatch<W>, w: Work<W>, kind: Kind, n: nat)
    requires n <= |w.items|
    ensures DrainTo(dispatch, w, kind, n).world == Handle(dispatch, w.world, DueTo(w.items, kind, n))
  {
    if n > 0 {
      DrainHandles(dispatch, w, kind, n - 1);
      var item := w.items[n - 1];
      if Due(item, kind) {
        HandleConcat(dispatch, w.world, DueTo(w.items, kind, n - 1), [item]);
        HandleOne(dispatch, Handle(dispatch, w.world, DueTo(w.items, kind, n - 1)), item);
      } else {
        assert DueTo(w.items, kind, n) == DueTo(w.items, kind, n - 1);
      }
    }
  }

  lemma {:induction false} DueUnchanged(a: seq<Item>, b: seq<Item>, kind: Kind, n: nat)
    requires n <= |a| == |b| && forall k :: 0 <= k < n ==> (Due(a[k], kind) || Due(b[k], kind) ==> a[k] == b[k])
    ensures DueTo(a, kind, n) == DueTo(b, kind, n)
  {
    if n > 0 {
      DueUnchanged(a, b, kind, n - 1);
    }
  }

  predicate NoKindTwice(kinds: seq<Kind>) {
    forall i, j :: 0 <= i < j < |kinds| ==> kinds[i] != kinds[j]
  }

  lemma {:induction false} OtherKindsWait<W>(dispatch: Dispatch<W>, w: Work<W>, kinds: seq<Kind>)
    ensures var r := DrainKinds(dispatch, w, kinds);
            forall k :: 0 <= k < |w.items| && w.items[k].kind !in kinds ==> r.items[k] == w.items[k]
  {
    if kinds != [] {
      var last := kinds[|kinds| - 1];
      OtherKindsWait(dispatch, w, kinds[..|kinds| - 1]);
      DrainKindsIs(dispatch, w, kinds[..|kinds| - 1]);
      var before := DrainKinds(dispatch, w, kinds[..|kinds| - 1]);
      DrainToIs(dispatch, before, last, |before.items|);
      assert last in kinds;
    }
  }

  /** An apply handles exactly the items that were pending when it began, kind after kind: every
      collection before any refund, every remittance before any wallet. */
  lemma {:induction false} ApplyFollowsTheAgenda<W>(dispatch: Dispatch<W>, w: Work<W>, kinds: seq<Kind>)
    requires NoKindTwice(kinds)
    ensures DrainKinds(dispatch, w, kinds).world == Handle(dispatch, w.world, Agenda(w.items, kinds))
  {
    if kinds != [] {
      var rest, last := kinds[..|kinds| - 1], kinds[|kinds| - 1];
      var before := DrainKinds(dispatch, w, rest);
      ApplyFollowsTheAgenda(dispatch, w, rest);
      OtherKindsWait(dispatch, w, rest);
      DrainKindsIs(dispatch, w, rest);
      DrainHandles(dispatch, before, last, |before.items|);
      DueUnchanged(w.items, before.items, last, |w.items|);
      HandleConcat(dispatch, w.world, Agenda(w.items, rest), DueTo(w.items, last, |w.items|));
    }
  }
}
