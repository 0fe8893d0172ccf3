/** Every run of the draw system: what each step keeps. */
module DrawRuns {
  import opened Wrappers
  import opened Hashing
  import opened DrawEngine
  import DrawMath
  import Json

  datatype Op =
    | CreateDraw(draw: Draw)
    | Commit(d: nat, hash: Digest)
    | Open(d: nat, now: int)
    | Close(d: nat, now: int)
    | AskToCancel(d: nat)
    | WriteCancellation(d: nat)
    | BuyOnline(d: nat, now: int, refs: seq<string>)
    | AskToSell(d: nat, now: int, refs: seq<string>)
    | WriteSale(d: nat, refs: seq<string>)
    | HoldPayment
    | GrantEntry(entry: Entry)
    | RequestRefund(p: nat)
    | RefundSucceeds(p: nat)
    | RefundFails(p: nat)
    | ClaimDraw(d: nat, now: int)
    | LockTickets(e: nat, tickets: seq<nat>)
    | LockEntries(e: nat, entries: seq<nat>)
    | FinishDraw(e: nat, seed: string, bound: nat)
    | CrashEngine(e: nat)
    | Forget(intent: Intent)

  predicate NewDraw(draw: Draw) {
    draw.status.Scheduled? && draw.seedHash.None? && draw.result.None?
  }

  predicate HasProcess(s: State, e: nat) {
    e < |s.engines| && s.engines[e].draw < |s.draws|
  }

  predicate Legal(c: Crypto, s: State, op: Op) {
    match op
    case CreateDraw(draw) => NewDraw(draw)
    case WriteCancellation(d) => d < |s.draws| && WriteCancel(d) in s.intents
    case BuyOnline(d, now, refs) => FreshRefs(s, refs)
    case WriteSale(d, refs) => FinishSale(d, refs) in s.intents && FreshRefs(s, refs)
    case GrantEntry(entry) => entry.status.LiveEntry? && forall e :: 0 <= e < |s.entries| ==> s.entries[e].id != entry.id
    case LockTickets(e, tickets) => HasProcess(s, e) && s.engines[e].stage.Claimed? && Eligible(s, s.engines[e].draw, tickets)
    case LockEntries(e, entries) =>
      HasProcess(s, e) && s.engines[e].stage.HasTickets? && DrawnEntries(s, s.engines[e].draw, entries)
    case FinishDraw(e, seed, bound) =>
      && HasProcess(s, e) && s.engines[e].stage.HasPool? && InPoolRange(s, s.engines[e].stage.pool)
      && Drawable(c, seed, s.draws[s.engines[e].draw].code, |s.engines[e].stage.pool|, bound)
    case CrashEngine(e) => HasProcess(s, e) && !s.engines[e].stage.Published?
    case _ => true
  }

  function After(c: Crypto, s: State, op: Op): State
    requires Legal(c, s, op)
  {
    match op
    case CreateDraw(draw) => s.(draws := s.draws + [draw])
    case Commit(d, hash) => CommitSeed(s, d, hash)
    case Open(d, now) => Activate(s, d, now)
    case Close(d, now) => CloseSales(s, d, now)
    case AskToCancel(d) => ReadForCancel(s, d)
    case WriteCancellation(d) => Cancel(s, d).(intents := s.intents - multiset{WriteCancel(d)})
    case BuyOnline(d, now, refs) => Purchase(s, d, now, refs)
    case AskToSell(d, now, refs) => ReadForSale(s, d, now, refs)
    case WriteSale(d, refs) => Sell(s, d, refs).(intents := s.intents - multiset{FinishSale(d, refs)})
    case HoldPayment => s.(payments := s.payments + [Payment(ReviewRequired, false)])
    case GrantEntry(entry) => s.(entries := s.entries + [entry])
    case RequestRefund(p) => ReserveRefund(s, p)
    case RefundSucceeds(p) => CompleteRefund(s, p)
    case RefundFails(p) => FailRefund(s, p)
    case ClaimDraw(d, now) => Claim(s, d, now)
    case LockTickets(e, tickets) =>
      SetStage(s, e, if s.draws[s.engines[e].draw].seedHash.None? then Done else HasTickets(tickets))
    case LockEntries(e, entries) => SetStage(s, e, HasPool(PoolOf(s.engines[e].stage.tickets, entries)))
    case FinishDraw(e, seed, bound) => Finish(c, s, e, seed, bound)
    case CrashEngine(e) => SetStage(s, e, Done)
    case Forget(i) => s.(intents := s.intents - multiset{i})
  }

  // ---------------------------------------------------------------- the lifecycle

  function Rank(status: DrawStatus): nat {
    match status
    case Scheduled => 0
    case Active => 1
    case SalesClosed => 2
    case Postponed => 2
    case Executing => 3
    case Completed => 4
    case Cancelled => 4
  }

  /** What any step keeps of any draw. */
  predicate DrawMovesOn(a: Draw, b: Draw) {
    && b.code == a.code && b.jackpot == a.jackpot && b.scheduledAt == a.scheduledAt && b.cutoffAt == a.cutoffAt
    && Rank(a.status) <= Rank(b.status)
    && (a.seedHash.Some? ==> b.seedHash == a.seedHash) && (a.result.Some? ==> b.result == a.result)
  }

  predicate MovesOn(s: State, t: State) {
    && |s.draws| <= |t.draws| && (forall d :: 0 <= d < |s.draws| ==> DrawMovesOn(s.draws[d], t.draws[d]))
    && |s.engines| <= |t.engines| && (forall e :: 0 <= e < |s.engines| ==> t.engines[e].draw == s.engines[e].draw)
  }

  lemma OneDrawMovesOn(s: State, t: State, d: nat)
    requires d < |s.draws| && |t.draws| == |s.draws| && t.draws == s.draws[d := t.draws[d]] && DrawMovesOn(s.draws[d], t.draws[d])
    requires |s.engines| <= |t.engines| && forall e :: 0 <= e < |s.engines| ==> t.engines[e].draw == s.engines[e].draw
    ensures MovesOn(s, t)
  {
  }

  predicate LifecycleOp(op: Op) {
    op.Commit? || op.Open? || op.Close? || op.AskToCancel? || op.WriteCancellation? || op.ClaimDraw?
  }

  predicate EngineOp(op: Op) {
    op.LockTickets? || op.LockEntries? || op.FinishDraw? || op.CrashEngine?
  }

  lemma LifecycleMovesOn(c: Crypto, s: State, op: Op)
    requires Legal(c, s, op) && LifecycleOp(op)
    ensures MovesOn(s, After(c, s, op))
  {
    var d := op.d;
    if d < |s.draws| {
      OnlyThisDraw(c, s, op);
      OneDrawMovesOn(s, After(c, s, op), d);
    }
  }

  lemma OnlyThisDraw(c: Crypto, s: State, op: Op)
    requires Legal(c, s, op) && LifecycleOp(op) && op.d < |s.draws|
    ensures var t := After(c, s, op);
            && |t.draws| == |s.draws| && t.draws == s.draws[op.d := t.draws[op.d]] && DrawMovesOn(s.draws[op.d], t.draws[op.d])
            && s.engines <= t.engines
  {
  }

  lemma FinishMovesOn(c: Crypto, s: State, op: Op)
    requires Legal(c, s, op) && op.FinishDraw?
    ensures MovesOn(s, After(c, s, op))
  {
    var t := After(c, s, op);
    assert t.draws == s.draws[s.engines[op.e].draw := t.draws[s.engines[op.e].draw]];
    OneDrawMovesOn(s, t, s.engines[op.e].draw);
  }

  lemma EngineMovesOn(c: Crypto, s: State, op: Op)
    requires Legal(c, s, op) && EngineOp(op)
    ensures MovesOn(s, After(c, s, op))
  {
    if op.FinishDraw? {
      FinishMovesOn(c, s, op);
    }
  }

  lemma TableKeepsDraws(c: Crypto, s: State, op: Op)
    requires Legal(c, s, op) && !LifecycleOp(op) && !EngineOp(op)
    ensures After(c, s, op).engines == s.engines
    ensures After(c, s, op).draws == if op.CreateDraw? then s.draws + [op.draw] else s.draws
  {
  }

  lemma TableMovesOn(c: Crypto, s: State, op: Op)
    requires Legal(c, s, op) && !LifecycleOp(op) && !EngineOp(op)
    ensures MovesOn(s, After(c, s, op))
  {
    TableKeepsDraws(c, s, op);
  }

  /** No step takes a draw back, not even a cancellation written on a stale reading; commitments and
      results are never rewritten. */
  lemma StepMovesOn(c: Crypto, s: State, op: Op)
    requires Legal(c, s, op)
    ensures MovesOn(s, After(c, s, op))
  {
    if LifecycleOp(op) {
      LifecycleMovesOn(c, s, op);
    } else if EngineOp(op) {
      EngineMovesOn(c, s, op);
    } else {
      TableMovesOn(c, s, op);
    }
  }

  predicate LegalRun(c: Crypto, s: State, ops: seq<Op>)
    decreases |ops|
  {
    ops != [] ==> Legal(c, s, ops[0]) && LegalRun(c, After(c, s, ops[0]), ops[1..])
  }

  function Run(c: Crypto, s: State, ops: seq<Op>): State
    requires LegalRun(c, s, ops)
    decreases |ops|
  {
    if ops == [] then s else Run(c, After(c, s, ops[0]), ops[1..])
  }

  /** Over any run from any state: status ranks never fall, and seed commitments and results stay. */
  lemma {:induction false} RunMovesOn(c: Crypto, s: State, ops: seq<Op>)
    requires LegalRun(c, s, ops)
    ensures MovesOn(s, Run(c, s, ops))
    decreases |ops|
  {
    if ops != [] {
      var t := After(c, s, ops[0]);
      StepMovesOn(c, s, ops[0]);
      RunMovesOn(c, t, ops[1..]);
      var u := Run(c, t, ops[1..]);
      forall d | 0 <= d < |s.draws| ensures DrawMovesOn(s.draws[d], u.draws[d]) {
        assert DrawMovesOn(s.draws[d], t.draws[d]) && DrawMovesOn(t.draws[d], u.draws[d]);
      }
    }
  }

  // ---------------------------------------------------------------- claims and commitments

  predicate EnginesOk(s: State) {
    && (forall e :: 0 <= e < |s.engines| ==> s.engines[e].draw < |s.draws| && Rank(s.draws[s.engines[e].draw].status) >= 3)
    && (forall e, f :: 0 <= e < f < |s.engines| ==> s.engines[e].draw != s.engines[f].draw)
  }

  predicate PoolsInRange(s: State) {
    forall e :: 0 <= e < |s.engines| ==> StageInRange(s, s.engines[e].stage)
  }

  predicate SoldOk(s: State) {
    && OpenDrawsCommitted(s)
    && (forall t :: 0 <= t < |s.tickets| ==>
          s.tickets[t].payment < |s.payments| && s.tickets[t].draw < |s.draws| && s.draws[s.tickets[t].draw].seedHash.Some?)
  }

  predicate SalesOk(s: State) {
    forall i :: i in s.intents && i.FinishSale? ==> i.draw < |s.draws| && s.draws[i.draw].seedHash.Some?
  }

  predicate Core(s: State) {
    EnginesOk(s) && PoolsInRange(s) && SoldOk(s) && SalesOk(s)
  }

  /** Steps on one draw. */
  lemma DrawKeepsCore(s: State, t: State)
    requires Core(s) && MovesOn(s, t) && |t.draws| == |s.draws|
    requires t == s.(draws := t.draws, engines := t.engines, intents := t.intents)
    requires forall d :: 0 <= d < |s.draws| && t.draws[d].status.Active? ==> t.draws[d].seedHash.Some?
    requires forall i :: i in t.intents && i.FinishSale? ==> i in s.intents
    requires EnginesOk(t) && PoolsInRange(t)
    ensures Core(t)
  {
    forall d | 0 <= d < |s.draws| ensures DrawMovesOn(s.draws[d], t.draws[d]) {
    }
  }

  lemma ClaimKeepsEngines(s: State, d: nat, now: int)
    requires EnginesOk(s)
    ensures EnginesOk(Claim(s, d, now))
  {
  }

  lemma FinishKeepsCore(c: Crypto, s: State, e: nat, seed: string, bound: nat)
    requires Core(s) && Legal(c, s, FinishDraw(e, seed, bound))
    ensures Core(Finish(c, s, e, seed, bound))
  {
    var t := Finish(c, s, e, seed, bound);
    StepMovesOn(c, s, FinishDraw(e, seed, bound));
    FinishShape(c, s, e, seed, bound);
    KeptByShape(s, t);
  }

  /** The last stage gets as far as writing a result. */
  predicate Publishes(c: Crypto, s: State, op: Op)
    requires Legal(c, s, op)
  {
    && op.FinishDraw? && s.engines[op.e].stage.pool != []
    && s.draws[s.engines[op.e].draw].seedHash == Some(c.h(op.seed)) && s.draws[s.engines[op.e].draw].result.None?
  }

  /** Finishing replaces nothing but the draw's row, one ticket's or entry's mark and the stage. */
  predicate SameShape(s: State, t: State) {
    && |t.draws| == |s.draws| && |t.engines| == |s.engines| && |t.tickets| == |s.tickets| && |t.entries| == |s.entries|
    && t.payments == s.payments && t.intents == s.intents
    && (forall d :: 0 <= d < |s.draws| ==>
          t.draws[d].seedHash == s.draws[d].seedHash && (t.draws[d].status.Active? ==> s.draws[d].status.Active?))
    && (forall k :: 0 <= k < |s.tickets| ==>
          t.tickets[k].payment == s.tickets[k].payment && t.tickets[k].draw == s.tickets[k].draw)
    && (forall e :: 0 <= e < |s.engines| ==> t.engines[e] == s.engines[e] || (t.engines[e].draw == s.engines[e].draw && (t.engines[e].stage.Done? || StageInRange(s, t.engines[e].stage))))
  }

  lemma FinishShape(c: Crypto, s: State, e: nat, seed: string, bound: nat)
    requires Legal(c, s, FinishDraw(e, seed, bound))
    ensures SameShape(s, Finish(c, s, e, seed, bound))
  {
    var d, pool := s.engines[e].draw, s.engines[e].stage.pool;
    var t := SetStage(s, e, Done);
    if pool != [] && s.draws[d].seedHash == Some(c.h(seed)) && s.draws[d].result.None? {
      var winner := WinningUnit(c, seed, s.draws[d].code, pool, bound);
      WinnerShape(t, winner);
    }
  }

  lemma WinnerShape(s: State, u: PoolUnit)
    requires IsUnit(s, u)
    ensures var t := MarkWinner(s, u);
            && t == s.(tickets := t.tickets, entries := t.entries) && |t.tickets| == |s.tickets| && |t.entries| == |s.entries|
            && forall k :: 0 <= k < |s.tickets| ==>
                 t.tickets[k].payment == s.tickets[k].payment && t.tickets[k].draw == s.tickets[k].draw
  {
  }

  lemma KeptByShape(s: State, t: State)
    requires SameShape(s, t) && MovesOn(s, t) && EnginesOk(s) && PoolsInRange(s) && SoldOk(s) && SalesOk(s)
    ensures EnginesOk(t) && PoolsInRange(t) && SoldOk(t) && SalesOk(t)
  {
    forall d | 0 <= d < |s.draws| ensures Rank(s.draws[d].status) <= Rank(t.draws[d].status) {
      assert DrawMovesOn(s.draws[d], t.draws[d]);
    }
  }

  lemma LifecycleKeepsCore(c: Crypto, s: State, op: Op)
    requires Core(s) && Legal(c, s, op) && LifecycleOp(op)
    ensures Core(After(c, s, op))
  {
    var t := After(c, s, op);
    LifecycleMovesOn(c, s, op);
    LifecycleShape(c, s, op);
    if op.ClaimDraw? {
      ClaimKeepsEngines(s, op.d, op.now);
    }
    DrawKeepsCore(s, t);
  }

  lemma LifecycleShape(c: Crypto, s: State, op: Op)
    requires Core(s) && Legal(c, s, op) && LifecycleOp(op)
    ensures var t := After(c, s, op);
            && t == s.(draws := t.draws, engines := t.engines, intents := t.intents) && |t.draws| == |s.draws|
            && (forall d :: 0 <= d < |s.draws| ==> t.draws[d].result == s.draws[d].result)
            && (forall d :: 0 <= d < |s.draws| && t.draws[d].status.Active? ==> t.draws[d].seedHash.Some?)
            && (forall i :: i in t.intents && i.FinishSale? ==> i in s.intents)
            && PoolsInRange(t) && (!op.ClaimDraw? ==> t.engines == s.engines)
  {
    if op.ClaimDraw? {
      ClaimShape(s, op.d, op.now);
    } else if op.Commit? || op.Open? || op.Close? {
      StatusShape(c, s, op);
    }
  }

  predicate OpenDrawsCommitted(s: State) {
    forall d :: 0 <= d < |s.draws| && s.draws[d].status.Active? ==> s.draws[d].seedHash.Some?
  }

  lemma ClaimShape(s: State, d: nat, now: int)
    requires PoolsInRange(s) && OpenDrawsCommitted(s)
    ensures var t := Claim(s, d, now);
            && t == s.(draws := t.draws, engines := t.engines) && |t.draws| == |s.draws| && PoolsInRange(t) && OpenDrawsCommitted(t)
            && forall k :: 0 <= k < |s.draws| ==> t.draws[k].result == s.draws[k].result
  {
  }

  lemma StatusShape(c: Crypto, s: State, op: Op)
    requires PoolsInRange(s) && OpenDrawsCommitted(s) && Legal(c, s, op) && (op.Commit? || op.Open? || op.Close?)
    ensures var t := After(c, s, op);
            && t == s.(draws := t.draws) && |t.draws| == |s.draws| && PoolsInRange(t) && OpenDrawsCommitted(t)
            && forall k :: 0 <= k < |s.draws| ==> t.draws[k].result == s.draws[k].result
  {
  }

  lemma EngineKeepsCore(c: Crypto, s: State, op: Op)
    requires Core(s) && Legal(c, s, op) && EngineOp(op)
    ensures Core(After(c, s, op))
  {
    if op.FinishDraw? {
      FinishKeepsCore(c, s, op.e, op.seed, op.bound);
    } else {
      EngineMovesOn(c, s, op);
      StageShape(c, s, op);
      DrawKeepsCore(s, After(c, s, op));
    }
  }

  lemma StageShape(c: Crypto, s: State, op: Op)
    requires EnginesOk(s) && PoolsInRange(s) && Legal(c, s, op) && EngineOp(op) && !op.FinishDraw?
    ensures After(c, s, op) == s.(engines := After(c, s, op).engines)
    ensures EnginesOk(After(c, s, op)) && PoolsInRange(After(c, s, op))
  {
    var t := After(c, s, op);
    if op.LockEntries? {
      var pool := PoolOf(s.engines[op.e].stage.tickets, op.entries);
      StageSet(s, op.e, HasPool(pool));
    } else {
      StageSet(s, op.e, t.engines[op.e].stage);
    }
  }

  predicate StageInRange(s: State, stage: Stage) {
    match stage
    case HasTickets(tickets) => forall i :: 0 <= i < |tickets| ==> tickets[i] < |s.tickets|
    case HasPool(pool) => InPoolRange(s, pool)
    case Published(pool) => InPoolRange(s, pool)
    case _ => true
  }

  lemma StageSet(s: State, e: nat, stage: Stage)
    requires EnginesOk(s) && PoolsInRange(s) && e < |s.engines| && StageInRange(s, stage)
    ensures EnginesOk(SetStage(s, e, stage)) && PoolsInRange(SetStage(s, e, stage))
  {
  }

  lemma TableKeepsSold(c: Crypto, s: State, op: Op)
    requires Core(s) && Legal(c, s, op)
    requires op.AskToSell? || op.HoldPayment? || op.GrantEntry? || op.RequestRefund? || op.RefundSucceeds? || op.RefundFails? || op.Forget?
    ensures Core(After(c, s, op))
  {
    TicketsKeepDraws(c, s, op);
  }

  lemma TicketsKeepDraws(c: Crypto, s: State, op: Op)
    requires SoldOk(s) && SalesOk(s) && Legal(c, s, op)
    requires op.AskToSell? || op.HoldPayment? || op.GrantEntry? || op.RequestRefund? || op.RefundSucceeds? || op.RefundFails? || op.Forget?
    ensures var t := After(c, s, op);
            && t.draws == s.draws && t.engines == s.engines && |t.tickets| == |s.tickets| && |s.entries| <= |t.entries|
            && SoldOk(t) && SalesOk(t)
  {
    if op.RequestRefund? || op.RefundSucceeds? || op.RefundFails? {
      RefundKeepsSold(c, s, op);
    }
  }

  lemma RefundKeepsSold(c: Crypto, s: State, op: Op)
    requires SoldOk(s) && (op.RequestRefund? || op.RefundSucceeds? || op.RefundFails?)
    ensures var t := After(c, s, op);
            && t == s.(tickets := t.tickets, payments := t.payments) && |t.tickets| == |s.tickets| && SoldOk(t)
  {
  }

  lemma CreateKeepsCore(c: Crypto, s: State, op: Op)
    requires Core(s) && Legal(c, s, op) && op.CreateDraw?
    ensures Core(After(c, s, op))
  {
    TableMovesOn(c, s, op);
  }

  /** Every step keeps the core invariant, whatever a stale cancellation does. */
  lemma StepKeepsCore(c: Crypto, s: State, op: Op)
    requires Core(s) && Legal(c, s, op)
    ensures Core(After(c, s, op))
  {
    if LifecycleOp(op) {
      LifecycleKeepsCore(c, s, op);
    } else if EngineOp(op) {
      EngineKeepsCore(c, s, op);
    } else if op.CreateDraw? {
      CreateKeepsCore(c, s, op);
    } else if !op.BuyOnline? && !op.WriteSale? {
      TableKeepsSold(c, s, op);
    }
  }

  predicate Initial(s: State) {
    && s.tickets == [] && s.entries == [] && s.payments == [] && s.engines == [] && s.intents == multiset{}
    && forall d :: 0 <= d < |s.draws| ==> NewDraw(s.draws[d])
  }

  lemma {:induction false} RunKeepsCore(c: Crypto, s: State, ops: seq<Op>)
    requires Core(s) && LegalRun(c, s, ops)
    ensures Core(Run(c, s, ops))
    decreases |ops|
  {
    if ops != [] {
      StepKeepsCore(c, s, ops[0]);
      RunKeepsCore(c, After(c, s, ops[0]), ops[1..]);
    }
  }
}
