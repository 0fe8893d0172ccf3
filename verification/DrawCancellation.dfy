/** What a cancellation written on a stale reading can do to a winner, exactly, and why one that checked
    and wrote in one step could do nothing. */
module DrawCancellation {
  import opened Wrappers
  import opened Hashing
  import opened DrawEngine
  import opened DrawRuns
  import opened DrawWinners
  import opened DrawRefunds
  import DrawMath
  import Json

  /** No winning ticket is refunded or being refunded. */
  predicate WinnersUnhurt(s: State) {
    forall k :: 0 <= k < |s.tickets| && s.tickets[k].isWinner ==>
      s.tickets[k].payment < |s.payments| && !s.payments[s.tickets[k].payment].refundStarted
  }

  /** The engine is about to publish a ticket whose refund has been started. */
  predicate SelectsRefunded(c: Crypto, s: State, op: Op)
    requires Legal(c, s, op)
  {
    && Publishes(c, s, op)
    && var u := Selected(c, s, op);
       && u.TicketUnit? && IsUnit(s, u) && s.tickets[u.ticket].payment < |s.payments|
       && s.payments[s.tickets[u.ticket].payment].refundStarted
  }

  predicate TicketsPaid(s: State) {
    forall t :: 0 <= t < |s.tickets| ==> s.tickets[t].payment < |s.payments|
  }

  /** The one step that refunds a winner is the engine publishing a ticket whose refund has been
      started. Refunds themselves never do, nor do cancellations. */
  lemma StepHurtsIff(c: Crypto, s: State, op: Op)
    requires Legal(c, s, op) && TicketsPaid(s) && PaymentsOk(s) && WinnersUnhurt(s)
    ensures WinnersUnhurt(After(c, s, op)) <==> !SelectsRefunded(c, s, op)
  {
    if Publishes(c, s, op) {
      PublishingHurtsIff(c, s, op);
    } else if LifecycleOp(op) || EngineOp(op) {
      QuietEngineStep(c, s, op);
      PaymentsUntouched(c, s, op);
    } else {
      TableNeverHurts(c, s, op);
    }
  }

  lemma PaymentsUntouched(c: Crypto, s: State, op: Op)
    requires Legal(c, s, op) && (LifecycleOp(op) || EngineOp(op))
    ensures After(c, s, op).payments == s.payments
  {
  }

  lemma PublishingHurtsIff(c: Crypto, s: State, op: Op)
    requires Legal(c, s, op) && Publishes(c, s, op) && TicketsPaid(s) && WinnersUnhurt(s)
    ensures WinnersUnhurt(After(c, s, op)) <==> !SelectsRefunded(c, s, op)
  {
    var (t, u) := (After(c, s, op), Selected(c, s, op));
    PublishingIs(c, s, op);
    PaymentsUntouched(c, s, op);
    PaymentsOfTickets(c, s, op);
    forall k | 0 <= k < |s.tickets| ensures t.tickets[k].isWinner <==> s.tickets[k].isWinner || u == TicketUnit(k) {
      assert IsUnit(s, TicketUnit(k)) && (Marked(t, TicketUnit(k)) <==> Marked(s, TicketUnit(k)) || TicketUnit(k) == u);
    }
    if SelectsRefunded(c, s, op) {
      assert t.tickets[u.ticket].isWinner;
    }
  }

  lemma PaymentsOfTickets(c: Crypto, s: State, op: Op)
    requires Legal(c, s, op) && op.FinishDraw?
    ensures var t := After(c, s, op);
            |t.tickets| == |s.tickets| && forall k :: 0 <= k < |s.tickets| ==> t.tickets[k].payment == s.tickets[k].payment
  {
    FinishShape(c, s, op.e, op.seed, op.bound);
  }

  lemma TableNeverHurts(c: Crypto, s: State, op: Op)
    requires Legal(c, s, op) && !LifecycleOp(op) && !EngineOp(op) && TicketsPaid(s) && PaymentsOk(s) && WinnersUnhurt(s)
    ensures WinnersUnhurt(After(c, s, op))
  {
    if op.RequestRefund? || op.RefundSucceeds? || op.RefundFails? {
      RefundNeverHurts(c, s, op);
    }
  }

  lemma RefundNeverHurts(c: Crypto, s: State, op: Op)
    requires TicketsPaid(s) && PaymentsOk(s) && WinnersUnhurt(s) && (op.RequestRefund? || op.RefundSucceeds? || op.RefundFails?)
    ensures WinnersUnhurt(After(c, s, op))
  {
    RefundIsQuiet(c, s, op);
  }

  // ---------------------------------------------------------------- over runs

  predicate NeverSelectsRefunded(c: Crypto, s: State, ops: seq<Op>)
    requires LegalRun(c, s, ops)
    decreases |ops|
  {
    ops != [] ==> !SelectsRefunded(c, s, ops[0]) && NeverSelectsRefunded(c, After(c, s, ops[0]), ops[1..])
  }

  /** Once hurt, a winner stays hurt: marks and started refunds are never taken back. */
  lemma HurtStays(c: Crypto, s: State, op: Op)
    requires Legal(c, s, op) && TicketsPaid(s) && PaymentsOk(s) && !WinnersUnhurt(s)
    ensures !WinnersUnhurt(After(c, s, op))
  {
    var t := After(c, s, op);
    var k :| 0 <= k < |s.tickets| && s.tickets[k].isWinner && s.payments[s.tickets[k].payment].refundStarted;
    RefundsStayStarted(c, s, op, s.tickets[k].payment);
    TicketStays(c, s, op, k);
    assert t.tickets[k].isWinner;
  }

  lemma RefundsStayStarted(c: Crypto, s: State, op: Op, p: nat)
    requires Legal(c, s, op) && p < |s.payments| && s.payments[p].refundStarted
    ensures p < |After(c, s, op).payments| && After(c, s, op).payments[p].refundStarted
  {
  }

  lemma TicketStays(c: Crypto, s: State, op: Op, k: nat)
    requires Legal(c, s, op) && k < |s.tickets| && s.tickets[k].isWinner
    ensures k < |After(c, s, op).tickets|
    ensures var t := After(c, s, op).tickets[k]; t.isWinner && t.payment == s.tickets[k].payment
  {
    if op.FinishDraw? {
      PaymentsOfTickets(c, s, op);
      if Publishes(c, s, op) {
        PublishingIs(c, s, op);
        assert IsUnit(s, TicketUnit(k)) && Marked(s, TicketUnit(k)) && Marked(After(c, s, op), TicketUnit(k));
      } else {
        Unpublished(c, s, op);
      }
    }
  }

  lemma StepKeepsPaid(c: Crypto, s: State, op: Op)
    requires Legal(c, s, op) && TicketsPaid(s) && PaymentsOk(s)
    ensures TicketsPaid(After(c, s, op)) && PaymentsOk(After(c, s, op))
  {
    PaymentsStayOk(c, s, op);
    if op.FinishDraw? {
      PaymentsOfTickets(c, s, op);
      PaymentsUntouched(c, s, op);
    }
  }

  lemma {:induction false} HurtByThen(c: Crypto, s: State, ops: seq<Op>)
    requires LegalRun(c, s, ops) && TicketsPaid(s) && PaymentsOk(s)
    ensures WinnersUnhurt(Run(c, s, ops)) <==> WinnersUnhurt(s) && NeverSelectsRefunded(c, s, ops)
    decreases |ops|
  {
    if ops != [] {
      StepKeepsPaid(c, s, ops[0]);
      if WinnersUnhurt(s) {
        StepHurtsIff(c, s, ops[0]);
      } else {
        HurtStays(c, s, ops[0]);
      }
      HurtByThen(c, After(c, s, ops[0]), ops[1..]);
    }
  }

  /** In any run whatever, stale cancellations included: a winner is refunded exactly when at some step
      an engine published a ticket whose refund had been started. */
  lemma WinnerIsHurtIff(c: Crypto, s: State, ops: seq<Op>)
    requires Initial(s) && LegalRun(c, s, ops)
    ensures WinnersUnhurt(Run(c, s, ops)) <==> NeverSelectsRefunded(c, s, ops)
  {
    HurtByThen(c, s, ops);
  }

  // ---------------------------------------------------------------- reservations and pools

  /** A live ticket's payment is confirmed and not being refunded. */
  predicate LiveOk(s: State) {
    forall t :: 0 <= t < |s.tickets| && s.tickets[t].status.Live? ==>
      && s.tickets[t].payment < |s.payments|
      && s.payments[s.tickets[t].payment] == Payment(Confirmed, false)
  }

  lemma StepKeepsLive(c: Crypto, s: State, op: Op)
    requires Legal(c, s, op) && LiveOk(s) && PaymentsOk(s)
    ensures LiveOk(After(c, s, op))
  {
    if op.FinishDraw? {
      PaymentsOfTickets(c, s, op);
      PaymentsUntouched(c, s, op);
      FinishRevivesNothing(c, s, op);
    } else if op.BuyOnline? || op.WriteSale? {
      SaleKeepsLive(s, op.d, op.refs);
    }
  }

  lemma SaleKeepsLive(s: State, d: nat, refs: seq<string>)
    requires LiveOk(s)
    ensures LiveOk(Sell(s, d, refs))
  {
  }

  lemma FinishRevivesNothing(c: Crypto, s: State, op: Op)
    requires Legal(c, s, op) && op.FinishDraw?
    ensures var t := After(c, s, op);
            |t.tickets| == |s.tickets| && forall k :: 0 <= k < |s.tickets| && t.tickets[k].status.Live? ==> s.tickets[k].status.Live?
  {
  }

  lemma {:induction false} RunKeepsLive(c: Crypto, s: State, ops: seq<Op>)
    requires LegalRun(c, s, ops) && LiveOk(s) && PaymentsOk(s)
    ensures LiveOk(Run(c, s, ops)) && PaymentsOk(Run(c, s, ops))
    decreases |ops|
  {
    if ops != [] {
      StepKeepsLive(c, s, ops[0]);
      PaymentsStayOk(c, s, ops[0]);
      RunKeepsLive(c, After(c, s, ops[0]), ops[1..]);
    }
  }

  /** When a reservation reaches into a draw that an engine is working on, in any run: it takes a live
      ticket away exactly when it is that ticket's payment and may be refunded, and then the draw has
      been cancelled under the engine. While it is EXECUTING or COMPLETED nothing is taken. */
  lemma ReservationTouchesPoolIff(c: Crypto, s: State, ops: seq<Op>, e: nat, k: nat, p: nat)
    requires Initial(s) && LegalRun(c, s, ops)
    requires AtWork(Run(c, s, ops), e) && Plays(Run(c, s, ops), k, Run(c, s, ops).engines[e].draw)
    ensures var t := Run(c, s, ops);
            var d := t.engines[e].draw;
            && d < |t.draws|
            && (!Plays(ReserveRefund(t, p), k, d) <==> t.tickets[k].payment == p && MayRefund(t, p))
            && (!Plays(ReserveRefund(t, p), k, d) ==> t.draws[d].status.Cancelled?)
  {
    RunKeepsCore(c, s, ops);
    RunKeepsLive(c, s, ops);
  }

  // ---------------------------------------------------------------- cancelling in one step

  /** A run in which a cancellation reads and writes in one step, and every other step is as before. */
  datatype Move = CancelDraw(d: nat) | Other(op: Op)

  predicate LegalMove(c: Crypto, s: State, m: Move) {
    m.Other? ==> Legal(c, s, m.op) && !m.op.AskToCancel? && !m.op.WriteCancellation?
  }

  function Moved(c: Crypto, s: State, m: Move): State
    requires LegalMove(c, s, m)
  {
    match m
    case CancelDraw(d) => if d < |s.draws| && Cancellable(s.draws[d].status) then Cancel(s, d) else s
    case Other(op) => After(c, s, op)
  }

  predicate LegalMoves(c: Crypto, s: State, moves: seq<Move>)
    decreases |moves|
  {
    moves != [] ==> LegalMove(c, s, moves[0]) && LegalMoves(c, Moved(c, s, moves[0]), moves[1..])
  }

  function RunMoves(c: Crypto, s: State, moves: seq<Move>): State
    requires LegalMoves(c, s, moves)
    decreases |moves|
  {
    if moves == [] then s else RunMoves(c, Moved(c, s, moves[0]), moves[1..])
  }

  /** The one step is the two steps with nothing between. */
  lemma CancelAtOnce(c: Crypto, s: State, d: nat)
    requires d < |s.draws| && Cancellable(s.draws[d].status)
    ensures Legal(c, s, AskToCancel(d)) && Legal(c, After(c, s, AskToCancel(d)), WriteCancellation(d))
    ensures After(c, After(c, s, AskToCancel(d)), WriteCancellation(d)) == Cancel(s, d)
  {
    assert s.intents + multiset{WriteCancel(d)} - multiset{WriteCancel(d)} == s.intents;
  }

  lemma MoveKeepsInv(c: Crypto, s: State, m: Move)
    requires Inv(s) && LegalMove(c, s, m)
    ensures Inv(Moved(c, s, m))
  {
    if m.Other? {
      StepKeepsInv(c, s, m.op);
    } else if m.d < |s.draws| && Cancellable(s.draws[m.d].status) {
      CancelAtOnce(c, s, m.d);
      var t := After(c, s, AskToCancel(m.d));
      StepKeepsInv(c, s, AskToCancel(m.d));
      GuardedCancelIsSafe(t, m.d);
      StepKeepsInv(c, t, WriteCancellation(m.d));
    }
  }

  lemma {:induction false} MovesKeepInv(c: Crypto, s: State, moves: seq<Move>)
    requires Inv(s) && LegalMoves(c, s, moves)
    ensures Inv(RunMoves(c, s, moves))
    decreases |moves|
  {
    if moves != [] {
      MoveKeepsInv(c, s, moves[0]);
      MovesKeepInv(c, Moved(c, s, moves[0]), moves[1..]);
    }
  }

  /** With cancellations in one step, no run at all refunds a winner. */
  lemma AtomicCancellationsAreSafe(c: Crypto, s: State, moves: seq<Move>)
    requires Initial(s) && LegalMoves(c, s, moves)
    ensures WinnersUnhurt(RunMoves(c, s, moves))
  {
    MovesKeepInv(c, s, moves);
    var t := RunMoves(c, s, moves);
    forall k | 0 <= k < |t.tickets| && t.tickets[k].isWinner
      ensures t.tickets[k].payment < |t.payments| && !t.payments[t.tickets[k].payment].refundStarted
    {
      assert TicketOk(t, t.tickets[k]);
    }
  }
}
