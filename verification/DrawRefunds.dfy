/** Winners and refunds exclude each other, as long as no cancellation is written under the engine. */
module DrawRefunds {
  import opened Wrappers
  import opened Hashing
  import opened DrawEngine
  import opened DrawRuns
  import DrawMath
  import Json

  /** A live ticket of the draw. */
  predicate Plays(s: State, t: nat, d: nat) {
    t < |s.tickets| && s.tickets[t].draw == d && s.tickets[t].status.Live?
  }

  predicate StageOk(s: State, p: Process) {
    match p.stage
    case HasTickets(tickets) => forall i :: 0 <= i < |tickets| ==> Plays(s, tickets[i], p.draw)
    case HasPool(pool) => forall i :: 0 <= i < |pool| && pool[i].TicketUnit? ==> Plays(s, pool[i].ticket, p.draw)
    case _ => true
  }

  predicate AtWork(s: State, e: nat) {
    e < |s.engines| && !s.engines[e].stage.Done? && !s.engines[e].stage.Published?
  }

  predicate EngineAtWork(s: State, d: nat) {
    exists e :: 0 <= e < |s.engines| && AtWork(s, e) && s.engines[e].draw == d
  }

  predicate WorkOk(s: State) {
    forall e :: 0 <= e < |s.engines| && AtWork(s, e) ==>
      s.engines[e].draw < |s.draws| && s.draws[s.engines[e].draw].status.Executing? && StageOk(s, s.engines[e])
  }

  predicate TicketOk(s: State, t: Ticket) {
    && t.payment < |s.payments|
    && (t.isWinner ==> !s.payments[t.payment].refundStarted)
    && (t.status.Live? ==> !s.payments[t.payment].refundStarted && s.payments[t.payment].status.Confirmed?)
  }

  predicate TicketsOk(s: State) {
    forall t :: 0 <= t < |s.tickets| ==> TicketOk(s, s.tickets[t])
  }

  /** While an engine works on a draw the draw is EXECUTING and its pool is live; live and winning
      tickets belong to payments that are not being refunded. */
  predicate Excl(s: State) {
    WorkOk(s) && TicketsOk(s)
  }

  // ---------------------------------------------------------------- lifecycle steps

  lemma LifecycleKeepsWork(c: Crypto, s: State, op: Op)
    requires Core(s) && Excl(s) && Legal(c, s, op) && LifecycleOp(op)
    requires op.WriteCancellation? ==> !EngineAtWork(s, op.d)
    ensures WorkOk(After(c, s, op))
  {
    var t := After(c, s, op);
    LifecycleShape(c, s, op);
    forall e | 0 <= e < |t.engines| && AtWork(t, e)
      ensures t.engines[e].draw < |t.draws| && t.draws[t.engines[e].draw].status.Executing? && StageOk(t, t.engines[e])
    {
      if e < |s.engines| {
        assert t.engines[e] == s.engines[e] && AtWork(s, e) && StageOk(s, s.engines[e]);
      }
    }
  }

  /** Read and write in one step, as a guarded cancellation would be, never meets an engine at work. */
  lemma GuardedCancelIsSafe(s: State, d: nat)
    requires Excl(s) && d < |s.draws| && Cancellable(s.draws[d].status)
    ensures !EngineAtWork(s, d)
  {
  }

  // ---------------------------------------------------------------- engine steps

  lemma StageKeepsWork(c: Crypto, s: State, op: Op)
    requires Core(s) && Excl(s) && Legal(c, s, op) && EngineOp(op) && !op.FinishDraw?
    ensures Excl(After(c, s, op))
  {
    var t := After(c, s, op);
    assert t == s.(engines := s.engines[op.e := t.engines[op.e]]);
    forall e | 0 <= e < |t.engines| && AtWork(t, e)
      ensures t.engines[e].draw < |t.draws| && t.draws[t.engines[e].draw].status.Executing? && StageOk(t, t.engines[e])
    {
      assert AtWork(s, e) && StageOk(s, s.engines[e]);
      if e == op.e && op.LockTickets? {
        forall i | 0 <= i < |op.tickets| ensures Plays(s, op.tickets[i], s.engines[e].draw) {
          assert op.tickets[i] in op.tickets;
        }
      }
    }
  }

  lemma FinishKeepsTickets(c: Crypto, s: State, op: Op)
    requires Core(s) && Excl(s) && Legal(c, s, op) && op.FinishDraw?
    ensures TicketsOk(After(c, s, op))
    ensures forall k, d :: Plays(s, k, d) && d != s.engines[op.e].draw ==> Plays(After(c, s, op), k, d)
  {
    var p := s.engines[op.e];
    assert AtWork(s, op.e) && StageOk(s, p);
    if p.stage.pool != [] {
      var winner := WinningUnit(c, op.seed, s.draws[p.draw].code, p.stage.pool, op.bound);
      assert winner.TicketUnit? ==> Plays(s, winner.ticket, p.draw);
    }
  }

  lemma FinishKeepsWork(c: Crypto, s: State, op: Op)
    requires Core(s) && Excl(s) && Legal(c, s, op) && op.FinishDraw?
    ensures WorkOk(After(c, s, op))
  {
    var t := After(c, s, op);
    FinishKeepsTickets(c, s, op);
    FinishTouches(c, s, op);
    forall e | 0 <= e < |t.engines| && AtWork(t, e)
      ensures t.engines[e].draw < |t.draws| && t.draws[t.engines[e].draw].status.Executing? && StageOk(t, t.engines[e])
    {
      assert AtWork(s, e) && StageOk(s, s.engines[e]) && s.engines[e].draw != s.engines[op.e].draw;
    }
  }

  lemma FinishTouches(c: Crypto, s: State, op: Op)
    requires Legal(c, s, op) && op.FinishDraw?
    ensures var t := After(c, s, op);
            && |t.draws| == |s.draws| && |t.engines| == |s.engines| && !AtWork(t, op.e) && (forall e :: 0 <= e < |s.engines| && e != op.e ==> t.engines[e] == s.engines[e])
            && forall d :: 0 <= d < |s.draws| && d != s.engines[op.e].draw ==> t.draws[d] == s.draws[d]
  {
  }

  // ---------------------------------------------------------------- sales and refunds

  lemma SaleKeepsExcl(s: State, d: nat, refs: seq<string>)
    requires Excl(s)
    ensures Excl(Sell(s, d, refs))
  {
    var t := Sell(s, d, refs);
    forall k | 0 <= k < |t.tickets| ensures TicketOk(t, t.tickets[k]) {
      if k < |s.tickets| {
        assert TicketOk(s, s.tickets[k]);
      }
    }
    GrownKeepsWork(s, t);
  }

  lemma GrownKeepsWork(s: State, t: State)
    requires WorkOk(s) && t.engines == s.engines && s.tickets <= t.tickets && s.draws <= t.draws
    ensures WorkOk(t)
  {
    forall e | 0 <= e < |t.engines| && AtWork(t, e)
      ensures t.engines[e].draw < |t.draws| && t.draws[t.engines[e].draw].status.Executing? && StageOk(t, t.engines[e])
    {
      assert AtWork(s, e) && StageOk(s, s.engines[e]);
      forall k: nat, d: nat | Plays(s, k, d) ensures Plays(t, k, d) {
      }
    }
  }

  /** A reserved refund never takes a ticket out from under the engine: its draw would be EXECUTING. */
  lemma ReserveKeepsExcl(s: State, p: nat)
    requires Excl(s)
    ensures Excl(ReserveRefund(s, p))
  {
    var t := ReserveRefund(s, p);
    if MayRefund(s, p) {
      forall k | 0 <= k < |t.tickets| ensures TicketOk(t, t.tickets[k]) {
        assert TicketOk(s, s.tickets[k]);
      }
      forall k: nat, d: nat | Plays(s, k, d) && d < |s.draws| && s.draws[d].status.Executing? ensures Plays(t, k, d) {
        assert TicketOk(s, s.tickets[k]);
      }
      forall e | 0 <= e < |t.engines| && AtWork(t, e)
        ensures t.engines[e].draw < |t.draws| && t.draws[t.engines[e].draw].status.Executing? && StageOk(t, t.engines[e])
      {
        assert AtWork(s, e) && StageOk(s, s.engines[e]);
      }
    }
  }

  /** A refund that is pending or done was started. */
  predicate PaymentsOk(s: State) {
    forall q :: 0 <= q < |s.payments| ==>
      (s.payments[q].status.RefundPending? || s.payments[q].status.Refunded? ==> s.payments[q].refundStarted)
  }

  predicate Inv(s: State) {
    Core(s) && Excl(s) && PaymentsOk(s)
  }

  /** A cancellation written while an engine is at work on the draw. */
  predicate CancelsUnderEngine(s: State, op: Op) {
    op.WriteCancellation? && EngineAtWork(s, op.d)
  }

  lemma PaymentsStayOk(c: Crypto, s: State, op: Op)
    requires PaymentsOk(s) && Legal(c, s, op)
    ensures PaymentsOk(After(c, s, op))
  {
  }

  lemma RefundOpKeepsExcl(c: Crypto, s: State, op: Op)
    requires Excl(s) && PaymentsOk(s) && Legal(c, s, op) && (op.RequestRefund? || op.RefundSucceeds? || op.RefundFails?)
    ensures Excl(After(c, s, op))
  {
    if op.RequestRefund? {
      ReserveKeepsExcl(s, op.p);
    }
  }

  lemma OtherOpKeepsExcl(c: Crypto, s: State, op: Op)
    requires Excl(s) && Legal(c, s, op)
    requires op.CreateDraw? || op.BuyOnline? || op.AskToSell? || op.WriteSale? || op.HoldPayment? || op.GrantEntry? || op.Forget?
    ensures Excl(After(c, s, op))
  {
    var t := After(c, s, op);
    if op.WriteSale? {
      SaleKeepsExcl(s, op.d, op.refs);
      GrownKeepsWork(Sell(s, op.d, op.refs), t);
    } else if op.BuyOnline? {
      SaleKeepsExcl(s, op.d, op.refs);
    } else {
      GrownKeepsWork(s, t);
      forall k | 0 <= k < |t.tickets| ensures TicketOk(t, t.tickets[k]) {
        assert TicketOk(s, s.tickets[k]);
      }
    }
  }

  lemma LifecycleKeepsTickets(c: Crypto, s: State, op: Op)
    requires TicketsOk(s) && Legal(c, s, op) && LifecycleOp(op)
    ensures TicketsOk(After(c, s, op))
  {
    var t := After(c, s, op);
    assert t.tickets == s.tickets && t.payments == s.payments;
    forall k | 0 <= k < |t.tickets| ensures TicketOk(t, t.tickets[k]) {
      assert TicketOk(s, s.tickets[k]);
    }
  }

  /** Every step keeps the exclusion, but for a cancellation written under the engine. */
  lemma StepKeepsInv(c: Crypto, s: State, op: Op)
    requires Inv(s) && Legal(c, s, op) && !CancelsUnderEngine(s, op)
    ensures Inv(After(c, s, op))
  {
    StepKeepsCore(c, s, op);
    PaymentsStayOk(c, s, op);
    if LifecycleOp(op) {
      LifecycleKeepsWork(c, s, op);
      LifecycleKeepsTickets(c, s, op);
    } else if op.FinishDraw? {
      FinishKeepsTickets(c, s, op);
      FinishKeepsWork(c, s, op);
    } else if EngineOp(op) {
      StageKeepsWork(c, s, op);
    } else if op.RequestRefund? || op.RefundSucceeds? || op.RefundFails? {
      RefundOpKeepsExcl(c, s, op);
    } else {
      OtherOpKeepsExcl(c, s, op);
    }
  }

  predicate CarefulRun(c: Crypto, s: State, ops: seq<Op>)
    decreases |ops|
  {
    ops != [] ==> Legal(c, s, ops[0]) && !CancelsUnderEngine(s, ops[0]) && CarefulRun(c, After(c, s, ops[0]), ops[1..])
  }

  lemma {:induction false} CarefulRunKeepsInv(c: Crypto, s: State, ops: seq<Op>)
    requires Inv(s) && CarefulRun(c, s, ops)
    ensures LegalRun(c, s, ops) && Inv(Run(c, s, ops))
    decreases |ops|
  {
    if ops != [] {
      StepKeepsInv(c, s, ops[0]);
      CarefulRunKeepsInv(c, After(c, s, ops[0]), ops[1..]);
    }
  }

  /** Refund reservations may interleave in any way with claims, pool snapshots and results: no winning
      ticket is ever refunded or being refunded, and no ticket being refunded is in a pool. */
  lemma NoWinnerIsRefunded(c: Crypto, s: State, ops: seq<Op>)
    requires Initial(s) && CarefulRun(c, s, ops)
    ensures LegalRun(c, s, ops)
    ensures var t := Run(c, s, ops);
            && (forall k :: 0 <= k < |t.tickets| && t.tickets[k].isWinner ==>
                  t.tickets[k].payment < |t.payments| && !t.payments[t.tickets[k].payment].refundStarted)
            && (forall e, i :: 0 <= e < |t.engines| && t.engines[e].stage.HasPool? && 0 <= i < |t.engines[e].stage.pool|
                               && t.engines[e].stage.pool[i].TicketUnit? ==>
                  && Plays(t, t.engines[e].stage.pool[i].ticket, t.engines[e].draw)
                  && t.tickets[t.engines[e].stage.pool[i].ticket].payment < |t.payments|
                  && !t.payments[t.tickets[t.engines[e].stage.pool[i].ticket].payment].refundStarted)
  {
    CarefulRunKeepsInv(c, s, ops);
    var t := Run(c, s, ops);
    forall k | 0 <= k < |t.tickets| && t.tickets[k].isWinner
      ensures t.tickets[k].payment < |t.payments| && !t.payments[t.tickets[k].payment].refundStarted
    {
      assert TicketOk(t, t.tickets[k]);
    }
    forall e, i | 0 <= e < |t.engines| && t.engines[e].stage.HasPool? && 0 <= i < |t.engines[e].stage.pool|
                  && t.engines[e].stage.pool[i].TicketUnit?
      ensures && Plays(t, t.engines[e].stage.pool[i].ticket, t.engines[e].draw)
              && t.tickets[t.engines[e].stage.pool[i].ticket].payment < |t.payments|
              && !t.payments[t.tickets[t.engines[e].stage.pool[i].ticket].payment].refundStarted
    {
      assert AtWork(t, e) && StageOk(t, t.engines[e]);
      assert TicketOk(t, t.tickets[t.engines[e].stage.pool[i].ticket]);
    }
  }

  // ---------------------------------------------------------------- what a stale cancellation can do

  function OneDraw(c: Crypto, status: DrawStatus): Draw {
    Draw("D", false, 20, 10, status, Some(c.h("S")), None)
  }

  const REF := "SW-2345-6789"
  const TICKET := Ticket(REF, 0, 0, Live, false)
  const PAID := Payment(Confirmed, false)

  lemma RunStep(c: Crypto, s: State, op: Op, t: State, rest: seq<Op>)
    requires Legal(c, s, op) && After(c, s, op) == t && LegalRun(c, t, rest)
    ensures LegalRun(c, s, [op] + rest) && Run(c, s, [op] + rest) == Run(c, t, rest)
  {
    assert ([op] + rest)[1..] == rest;
  }

  predicate WinnerIsRefunded(t: State) {
    |t.tickets| == 1 && |t.payments| == 1 && t.tickets[0].isWinner && t.tickets[0].payment == 0 && t.payments[0].refundStarted
  }

  /** One ticket is sold; an administrator's cancellation reads the draw before the engine claims it
      and writes after the engine has locked the pool; the refund goes through; the engine finishes. */
  function StaleCancellation(c: Crypto): seq<Op> {
    [Commit(0, c.h("S"))] + ([Open(0, 0)] + Sale())
  }

  function Sale(): seq<Op> {
    [BuyOnline(0, 0, [REF])] + ([Close(0, 10)] + ([AskToCancel(0)] + ([ClaimDraw(0, 20)] + Locking())))
  }

  function Locking(): seq<Op> {
    [LockTickets(0, [0])] + ([LockEntries(0, [])] + Endgame())
  }

  function Endgame(): seq<Op> {
    [WriteCancellation(0)] + ([RequestRefund(0)] + ([FinishDraw(0, "S", 0)] + []))
  }

  lemma WinnerRefunded(c: Crypto, s: State)
    requires s == State([OneDraw(c, Scheduled).(seedHash := None)], [], [], [], [], multiset{})
    ensures Initial(s) && LegalRun(c, s, StaleCancellation(c)) && WinnerIsRefunded(Run(c, s, StaleCancellation(c)))
  {
    var s1 := s.(draws := [OneDraw(c, Scheduled)]);
    var s2 := s.(draws := [OneDraw(c, Active)]);
    DrawOpened(c, s, s1, s2);
    SaleRuns(c, s2);
    RunStep(c, s1, Open(0, 0), s2, Sale());
    RunStep(c, s, Commit(0, c.h("S")), s1, [Open(0, 0)] + Sale());
  }

  lemma DrawOpened(c: Crypto, s: State, s1: State, s2: State)
    requires s == State([OneDraw(c, Scheduled).(seedHash := None)], [], [], [], [], multiset{})
    requires s1 == s.(draws := [OneDraw(c, Scheduled)]) && s2 == s.(draws := [OneDraw(c, Active)])
    ensures Initial(s) && After(c, s, Commit(0, c.h("S"))) == s1 && After(c, s1, Open(0, 0)) == s2
  {
  }

  lemma SaleRuns(c: Crypto, s: State)
    requires s == State([OneDraw(c, Active)], [], [], [], [], multiset{})
    ensures LegalRun(c, s, Sale()) && WinnerIsRefunded(Run(c, s, Sale()))
  {
    var s1 := s.(tickets := [TICKET], payments := [PAID]);
    var s2 := s1.(draws := [OneDraw(c, SalesClosed)]);
    var s3 := s2.(intents := multiset{WriteCancel(0)});
    var s4 := s3.(draws := [OneDraw(c, Executing)], engines := [Process(0, Claimed)]);
    OneTicketSold(c, s, s1);
    DrawClaimed(c, s1, s2, s3, s4);
    LockingRuns(c, s4);
    RunStep(c, s3, ClaimDraw(0, 20), s4, Locking());
    RunStep(c, s2, AskToCancel(0), s3, [ClaimDraw(0, 20)] + Locking());
    RunStep(c, s1, Close(0, 10), s2, [AskToCancel(0)] + ([ClaimDraw(0, 20)] + Locking()));
    RunStep(c, s, BuyOnline(0, 0, [REF]), s1, [Close(0, 10)] + ([AskToCancel(0)] + ([ClaimDraw(0, 20)] + Locking())));
  }

  lemma OneTicketSold(c: Crypto, s: State, t: State)
    requires s == State([OneDraw(c, Active)], [], [], [], [], multiset{})
    requires t == s.(tickets := [TICKET], payments := [PAID])
    ensures Legal(c, s, BuyOnline(0, 0, [REF])) && After(c, s, BuyOnline(0, 0, [REF])) == t
  {
    assert |REF| == 12 && IsTicketRef(REF);
    assert NewTickets([REF], 0, 0) == [TICKET];
  }

  lemma DrawClaimed(c: Crypto, s1: State, s2: State, s3: State, s4: State)
    requires s1 == State([OneDraw(c, Active)], [TICKET], [], [PAID], [], multiset{})
    requires s2 == s1.(draws := [OneDraw(c, SalesClosed)]) && s3 == s2.(intents := multiset{WriteCancel(0)})
    requires s4 == s3.(draws := [OneDraw(c, Executing)], engines := [Process(0, Claimed)])
    ensures After(c, s1, Close(0, 10)) == s2 && After(c, s2, AskToCancel(0)) == s3 && After(c, s3, ClaimDraw(0, 20)) == s4
  {
  }

  lemma LockingRuns(c: Crypto, s: State)
    requires s == State([OneDraw(c, Executing)], [TICKET], [], [PAID], [Process(0, Claimed)], multiset{WriteCancel(0)})
    ensures LegalRun(c, s, Locking()) && WinnerIsRefunded(Run(c, s, Locking()))
  {
    var s1 := s.(engines := [Process(0, HasTickets([0]))]);
    assert Eligible(s, 0, [0]);
    var s2 := s.(engines := [Process(0, HasPool([TicketUnit(0)]))]);
    assert PoolOf([0], []) == [TicketUnit(0)];
    EndgameRuns(c, s2);
    RunStep(c, s1, LockEntries(0, []), s2, Endgame());
    RunStep(c, s, LockTickets(0, [0]), s1, [LockEntries(0, [])] + Endgame());
  }

  lemma EndgameRuns(c: Crypto, s: State)
    requires s == State([OneDraw(c, Executing)], [TICKET], [], [PAID], [Process(0, HasPool([TicketUnit(0)]))], multiset{WriteCancel(0)})
    ensures LegalRun(c, s, Endgame()) && WinnerIsRefunded(Run(c, s, Endgame()))
  {
    var s1 := s.(draws := [OneDraw(c, Cancelled)], intents := multiset{});
    var s2 := s1.(tickets := [TICKET.(status := Quarantined)], payments := [Payment(RefundPending, true)]);
    RefundGoesThrough(c, s1, s2);
    var s3 := After(c, s2, FinishDraw(0, "S", 0));
    RunStep(c, s2, FinishDraw(0, "S", 0), s3, []);
    RunStep(c, s1, RequestRefund(0), s2, [FinishDraw(0, "S", 0)] + []);
    RunStep(c, s, WriteCancellation(0), s1, [RequestRefund(0)] + ([FinishDraw(0, "S", 0)] + []));
  }

  lemma RefundGoesThrough(c: Crypto, s1: State, s2: State)
    requires s1.draws == [OneDraw(c, Cancelled)] && s1.tickets == [TICKET] && s1.payments == [PAID]
    requires s2 == s1.(tickets := [TICKET.(status := Quarantined)], payments := [Payment(RefundPending, true)])
    ensures After(c, s1, RequestRefund(0)) == s2
  {
    assert Retag([TICKET], 0, Live, Quarantined) == [TICKET.(status := Quarantined)];
    assert MayRefund(s1, 0);
  }
}
