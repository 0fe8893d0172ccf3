/** What `confirmPayment` costs by writing without looking again: a remittance that is paid can be
    left waiting for Finance for ever. */
module RemittanceConfirm {
  import opened Wrappers
  import opened Journals
  import opened Accounts
  import opened Remittance
  import opened RemittanceInv
  import opened RemittanceLaws
  import opened RemittanceRuns

  predicate WritesConfirm(op: Op, r: nat) {
    op.Act? && op.intent.Confirm? && op.intent.row == r
  }

  /** A back-fill of this row's settlement, decided when the row read RECEIVED. */
  predicate BackFills(op: Op, r: nat) {
    op.Act? && (op.intent.LegacyBank? || op.intent.LegacyDebit?) && op.intent.row == r
  }

  /** What one step can do to the settlement of a row. */
  predicate Moves(row: Row, row': Row, op: Op, r: nat) {
    && (row.settlementTxn.Some? ==>
          row'.settlementTxn == row.settlementTxn && row'.status == if WritesConfirm(op, r) then AgentConfirmed else row.status)
    && (row.settlementTxn.None? && row'.settlementTxn.Some? ==>
          row'.status == if BackFills(op, r) then row.status else Received)
  }

  predicate RowMoves(s: State, t: State, op: Op, r: nat)
    requires r < |s.rows|
  {
    r < |t.rows| && Moves(s.rows[r], t.rows[r], op, r)
  }

  lemma CommissionMoves(s: State, k: nat, purpose: Purpose, r: nat)
    requires r < |s.rows| && RecordCommission(s, k, purpose).Ok?
    ensures var t := RecordCommission(s, k, purpose).value;
            && |t.rows| == |s.rows|
            && t.rows[r] == s.rows[r].(commissionTxn := t.rows[r].commissionTxn)
  {
  }

  lemma RecoverMoves(s: State, op: Op, r: nat)
    requires op.RecoverRow? && r < |s.rows| && RowOk(s.rows[r])
    ensures RowMoves(s, After(s, op), op, r)
  {
    if Recover(s, op.r, op.walletOk).Ok? {
      if RecordCommission(s, op.r, AgentCommission).Ok? {
        CommissionMoves(s, op.r, AgentCommission, r);
      }
    }
  }

  lemma FinanceMoves(s: State, op: Op, r: nat)
    requires op.FinanceReceives? && r < |s.rows|
    ensures RowMoves(s, After(s, op), op, r)
  {
    SettleBankCases(s, op.r);
    if RecordCommission(s, op.r, AgentCommission).Ok? {
      CommissionMoves(s, op.r, AgentCommission, r);
    }
  }

  lemma WalletMoves(s: State, op: Op, r: nat)
    requires op.PayFromWallet? && r < |s.rows| && RowOk(s.rows[r])
    ensures RowMoves(s, After(s, op), op, r)
  {
    if RecordCommission(s, op.r, AgentCommission).Ok? {
      CommissionMoves(s, op.r, AgentCommission, r);
    }
  }

  lemma ActMoves(s: State, op: Op, r: nat)
    requires op.Act? && op.intent.row < |s.rows| && r < |s.rows| && RowOk(s.rows[r]) && IntentOk(s, op.intent)
    ensures RowMoves(s, After(s, op), op, r)
    ensures op.intent.row == r && BackFills(op, r) && s.rows[r].settlementTxn.None? ==>
              (After(s, op).rows[r].settlementTxn.Some? <==> Perform(s, op.intent, op.walletOk).Ok?)
  {
    var t := Commit(s, Perform(s, op.intent, op.walletOk));
    match op.intent
    case Confirm(k, ref) =>
    case LegacyBank(k) => assert RecordLegacyBank(s, k).Ok? ==> RowMoves(s, RecordLegacyBank(s, k).value, op, r);
    case LegacyCredit(k) => assert RecordLegacyCredit(s, k, op.walletOk).Ok? ==> RowMoves(s, RecordLegacyCredit(s, k, op.walletOk).value, op, r);
    case LegacyDebit(k) => assert RecordLegacyDebit(s, k, op.walletOk).Ok? ==> RowMoves(s, RecordLegacyDebit(s, k, op.walletOk).value, op, r);
  }

  lemma OtherMoves(s: State, op: Op, r: nat)
    requires r < |s.rows|
    requires op.Sweep? || op.PassDeadline? || op.AskToConfirm? || op.Decide? || op.Crash? || op.MigrateSale? || op.MigratePrize? || op.Other?
    requires RowOk(s.rows[r])
    ensures RowMoves(s, After(s, op), op, r)
  {
    if op.MigrateSale? {
      assert RecordLegacySale(s, op.p, op.suspense).Ok? ==> RecordLegacySale(s, op.p, op.suspense).value.rows == s.rows;
    }
    if op.MigratePrize? {
      assert RecordLegacyPrize(s, op.c).Ok? ==> RecordLegacyPrize(s, op.c).value.rows == s.rows;
    }
  }

  lemma StepMoves(s: State, op: Op, r: nat)
    requires Inv(s) && Legal(s, op) && (op.Act? ==> op.intent.row < |s.rows|) && r < |s.rows|
    ensures RowMoves(s, After(s, op), op, r)
    ensures op.Act? && op.intent.row == r && BackFills(op, r) && s.rows[r].settlementTxn.None? ==>
              (After(s, op).rows[r].settlementTxn.Some?
               <==> op.intent.LegacyBank? || (op.walletOk && Available(s, s.rows[r].agent) >= s.rows[r].amountDue))
  {
    if BackFills(op, r) && s.rows[r].settlementTxn.None? {
      BackfillGoesThroughIff(s, op, r);
    }
    assert RowOk(s.rows[r]);
    if op.RecoverRow? {
      RecoverMoves(s, op, r);
    } else if op.FinanceReceives? {
      FinanceMoves(s, op, r);
    } else if op.PayFromWallet? {
      WalletMoves(s, op, r);
    } else if op.MigrateCommission? {
      MigrateMoves(s, op, r);
    } else if op.Act? {
      assert IntentOk(s, op.intent);
      ActMoves(s, op, r);
    } else {
      OtherMoves(s, op, r);
    }
  }

  lemma MigrateMoves(s: State, op: Op, r: nat)
    requires op.MigrateCommission? && r < |s.rows|
    ensures RowMoves(s, After(s, op), op, r)
  {
    if RecordCommission(s, op.r, LegacyCommission).Ok? {
      CommissionMoves(s, op.r, LegacyCommission, r);
    }
  }

  lemma SettlingAddsNoRows(s: State, op: Op)
    requires Inv(s) && (op.RecoverRow? || op.FinanceReceives? || op.PayFromWallet? || op.MigrateCommission?)
    ensures |After(s, op).rows| == |s.rows|
  {
    if op.RecoverRow? {
      RecoverKeepsInv(s, op.r, op.walletOk);
    } else if op.FinanceReceives? {
      SettleBankKeeps(s, op.r);
    } else if op.PayFromWallet? {
      SettleWalletKeeps(s, op.agent, op.r, op.walletOk);
    } else {
      CommissionKeeps(s, op.r, LegacyCommission);
    }
  }

  lemma ActingAddsNoRows(s: State, op: Op)
    requires Inv(s) && Legal(s, op) && op.Act?
    ensures op.intent.row < |s.rows| && |After(s, op).rows| == |s.rows|
  {
    PerformKeeps(s, op.intent, op.walletOk);
  }

  /** Only the sweep adds rows, and it adds them unsettled. */
  lemma NewRowsUnsettled(s: State, op: Op, r: nat)
    requires Inv(s) && Legal(s, op) && (op.Act? ==> op.intent.row < |s.rows|)
    requires |s.rows| <= r < |After(s, op).rows|
    ensures After(s, op).rows[r].settlementTxn.None?
  {
    if op.RecoverRow? || op.FinanceReceives? || op.PayFromWallet? || op.MigrateCommission? {
      SettlingAddsNoRows(s, op);
    } else if op.Act? {
      ActingAddsNoRows(s, op);
    }
  }

  // ---------------------------------------------------------------- a paid row reads RECEIVED

  predicate SettledReadsReceived(s: State) {
    forall r :: 0 <= r < |s.rows| && s.rows[r].settlementTxn.Some? ==> s.rows[r].status.Received?
  }

  /** The write of a confirmation on a row that is settled by now, or a back-filled settlement of a
      row whose status a confirmation has taken back since it was read. */
  predicate OverwritesReceived(s: State, op: Op)
    requires op.Act? ==> op.intent.row < |s.rows|
  {
    && op.Act?
    && var r := op.intent.row;
       || (op.intent.Confirm? && s.rows[r].settlementTxn.Some?)
       || (BackFills(op, r) && s.rows[r].settlementTxn.None? && !s.rows[r].status.Received?
           && (op.intent.LegacyBank? || (op.walletOk && Available(s, s.rows[r].agent) >= s.rows[r].amountDue)))
  }

  /** A back-filled bank settlement always goes through; one from the wallet when the wallet allows it
      and holds the amount. */
  lemma BackfillGoesThroughIff(s: State, op: Op, r: nat)
    requires Inv(s) && r < |s.rows| && BackFills(op, r) && s.rows[r].settlementTxn.None?
    ensures Perform(s, op.intent, op.walletOk).Ok?
            <==> op.intent.LegacyBank? || (op.walletOk && Available(s, s.rows[r].agent) >= s.rows[r].amountDue)
  {
    assert RowLinked(s.journals, r, s.rows[r]);
    CountZero(s.journals, Settlement, r);
    FindIs(s.journals, Key(LegacyBankSettlement, r));
    FindIs(s.journals, Key(LegacyWalletSettlement, r));
    assert forall i :: 0 <= i < |s.journals| ==> !Is(s.journals[i], Settlement, r);
  }

  /** Exactly these steps make a settled remittance read as anything but RECEIVED. */
  lemma SettledReadsReceivedIff(s: State, op: Op)
    requires Inv(s) && Legal(s, op) && (op.Act? ==> op.intent.row < |s.rows|) && SettledReadsReceived(s)
    ensures SettledReadsReceived(After(s, op)) <==> !OverwritesReceived(s, op)
  {
    if OverwritesReceived(s, op) {
      StepMoves(s, op, op.intent.row);
      var row := After(s, op).rows[op.intent.row];
      assert row.settlementTxn.Some? && !row.status.Received?;
    } else {
      forall r | 0 <= r < |After(s, op).rows| && After(s, op).rows[r].settlementTxn.Some?
        ensures After(s, op).rows[r].status.Received?
      {
        StillReadsReceived(s, op, r);
      }
    }
  }

  lemma StillReadsReceived(s: State, op: Op, r: nat)
    requires Inv(s) && Legal(s, op) && (op.Act? ==> op.intent.row < |s.rows|) && SettledReadsReceived(s)
    requires !OverwritesReceived(s, op) && r < |After(s, op).rows| && After(s, op).rows[r].settlementTxn.Some?
    ensures After(s, op).rows[r].status.Received?
  {
    if r < |s.rows| {
      StepMoves(s, op, r);
    } else {
      NewRowsUnsettled(s, op, r);
    }
  }

  // ---------------------------------------------------------------- and stays so for ever

  predicate Stuck(s: State, r: nat) {
    r < |s.rows| && s.rows[r].settlementTxn.Some? && s.rows[r].status.AgentConfirmed?
  }

  /** A settled row that went back to AGENT_CONFIRMED stays there in every run: no service, sweep
      or migration step moves it on. */
  lemma {:induction false} StuckForEver(s: State, ops: seq<Op>, r: nat)
    requires Inv(s) && LegalRun(s, ops) && Stuck(s, r)
    ensures Stuck(Run(s, ops), r)
    decreases |ops|
  {
    if ops != [] {
      StepMoves(s, ops[0], r);
      StepKeepsInv(s, ops[0]);
      StuckForEver(After(s, ops[0]), ops[1..], r);
    }
  }

  // ---------------------------------------------------------------- a run that ends there

  const AGENT := "A1"
  const DAY := Row(AGENT, 0, 100, 0, 0, 100, Pending, None, None, None, None)
  const FUNDED: seq<Line> := Transfer(BANK_CASH, AgentWallet(AGENT), 100)
  const CONFIRMATION := Confirm(0, "BANK-1")

  const FUND := Other(0, FUNDED)
  const ASK := AskToConfirm(AGENT, 0, "BANK-1")
  const PAY := PayFromWallet(AGENT, 0, true)
  const WRITE := Act(CONFIRMATION, true)

  lemma FundingIsUnrelated()
    ensures Unrelated(FUNDED)
  {
    NetOfTransfer(BANK_CASH, AgentWallet(AGENT), 100, "");
    forall a ensures Net(FUNDED, Receivable(a)) == 0 {
      NetOfTransfer(BANK_CASH, AgentWallet(AGENT), 100, Receivable(a));
      CodesDiffer(a, AGENT);
      assert IsSystem(BANK_CASH);
    }
  }

  lemma RunStep(s: State, op: Op, rest: seq<Op>)
    requires Legal(s, op) && (op.Act? ==> op.intent.row < |s.rows|) && LegalRun(After(s, op), rest)
    ensures LegalRun(s, [op] + rest) && Run(s, [op] + rest) == Run(After(s, op), rest)
  {
    assert ([op] + rest)[1..] == rest;
  }

  lemma Funded(s: State, a: State)
    requires s == State([DAY], [], [], [], multiset{})
    requires a == s.(journals := [Journal(Key(OtherMovement, 0), FUNDED)])
    ensures After(s, FUND) == a && Available(a, AGENT) == 100
  {
    assert s.journals + [Journal(Key(OtherMovement, 0), FUNDED)] == a.journals;
    NetOfTransfer(BANK_CASH, AgentWallet(AGENT), 100, AgentWallet(AGENT));
    BalanceAppend([], Journal(Key(OtherMovement, 0), FUNDED), AgentWallet(AGENT));
    CodesDiffer(AGENT, AGENT);
    assert IsSystem(BANK_CASH);
  }

  lemma PaidFromWallet(b: State)
    requires b.rows == [DAY] && b.journals == [Journal(Key(OtherMovement, 0), FUNDED)] && Available(b, AGENT) == 100
    ensures var c := After(b, PAY);
            |c.rows| == 1 && c.rows[0].settlementTxn.Some? && c.intents == b.intents
  {
    FindIs(b.journals, Key(WalletSettlement, 0));
    assert RecordCommission(b, 0, AgentCommission) == Ok(b);
    assert ReceiveFromWallet(b, 0, true).Ok?;
  }

  lemma NewDayIsInitial(s: State)
    requires s == State([DAY], [], [], [], multiset{})
    ensures Initial(s)
  {
  }

  /** An agent asks to confirm a bank transfer, pays the day from the wallet, and the confirmation
      is written last. */
  lemma ConfirmationCanOverwrite(s: State)
    requires s == State([DAY], [], [], [], multiset{})
    ensures var race := [FUND] + ([ASK] + ([PAY] + ([WRITE] + [])));
            Initial(s) && LegalRun(s, race) && Stuck(Run(s, race), 0)
  {
    FundingIsUnrelated();
    NewDayIsInitial(s);
    var a := s.(journals := [Journal(Key(OtherMovement, 0), FUNDED)]);
    Funded(s, a);
    var b := a.(intents := multiset{CONFIRMATION});
    assert After(a, ASK) == b;
    var c := After(b, PAY);
    PaidFromWallet(b);
    var d := After(c, WRITE);
    assert Stuck(d, 0);
    RunStep(c, WRITE, []);
    RunStep(b, PAY, [WRITE] + []);
    RunStep(a, ASK, [PAY] + ([WRITE] + []));
    RunStep(s, FUND, [ASK] + ([PAY] + ([WRITE] + [])));
  }
}
