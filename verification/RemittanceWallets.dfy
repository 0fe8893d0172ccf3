/** No remittance flow, live or back-filled, overdraws a wallet. */
module RemittanceWallets {
  import opened Wrappers
  import opened Journals
  import opened Accounts
  import opened Remittance
  import opened RemittanceInv
  import opened RemittanceLaws
  import opened RemittanceMoney
  import opened RemittanceConditions
  import opened RemittanceRuns

  ghost predicate Funded(s: State) {
    forall agent :: Available(s, agent) >= 0
  }

  /** Other flows overdraw none either. */
  ghost predicate OthersCover(s: State, op: Op) {
    op.Other? ==> forall agent :: Available(s, agent) - Net(op.lines, AgentWallet(agent)) >= 0
  }

  lemma CommissionLeavesPurses(s: State, r: nat, purpose: Purpose, agent: string)
    requires Inv(s) && r < |s.rows| && (purpose.AgentCommission? || purpose.LegacyCommission?)
    ensures RecordCommission(s, r, purpose).Ok? && Available(RecordCommission(s, r, purpose).value, agent) == Available(s, agent)
  {
    SamePurse(s, r, agent);
    LegacyCommissionMoves(s, r, AgentWallet(agent));
    CodesDiffer(agent, s.rows[r].agent);
    CodesDiffer(s.rows[r].agent, agent);
    assert IsSystem(AGENT_COMMISSION_EXPENSE);
  }

  lemma RecoverKeepsFunds(s: State, r: nat, walletOk: bool, agent: string)
    requires Inv(s) && Recover(s, r, walletOk).Ok?
    ensures Available(Recover(s, r, walletOk).value, agent) >= Available(s, agent)
  {
    CreditIff(s, r, walletOk);
    EnsureIff(s, r);
    SamePurse(s, r, agent);
    if s.rows[r].amountDue < 0 && s.rows[r].walletCreditTxn.None? {
      CreditMoves(s, r, walletOk, AgentWallet(agent));
      CommissionMoves(s, r, AgentWallet(agent));
      CodesDiffer(agent, s.rows[r].agent);
      CodesDiffer(s.rows[r].agent, agent);
    } else if s.rows[r].amountDue < 0 {
      CommissionKeeps(s, r, AgentCommission);
    }
  }

  lemma BankKeepsFunds(s: State, r: nat, agent: string)
    requires Inv(s) && SettleBank(s, r).Ok?
    ensures Available(SettleBank(s, r).value, agent) == Available(s, agent)
  {
    SettleBankIff(s, r);
    SamePurse(s, r, agent);
    if s.rows[r].settlementTxn.None? {
      BankSettlementMoves(s, r, AgentWallet(agent));
      CommissionMoves(s, r, AgentWallet(agent));
      CodesDiffer(s.rows[r].agent, agent);
      CodesDiffer(agent, agent);
      assert IsSystem(BANK_CASH);
    } else {
      CommissionKeeps(s, r, AgentCommission);
      SettleBankCases(s, r);
    }
  }

  lemma WalletKeepsFunds(s: State, payer: string, r: nat, walletOk: bool, agent: string)
    requires Inv(s) && Funded(s) && SettleWallet(s, payer, r, walletOk).Ok?
    ensures Available(SettleWallet(s, payer, r, walletOk).value, agent) >= 0
  {
    SettleWalletIff(s, payer, r, walletOk);
    SamePurse(s, r, agent);
    WalletSettlementMoves(s, payer, r, walletOk, AgentWallet(agent));
    CommissionMoves(s, r, AgentWallet(agent));
    CodesDiffer(payer, agent);
    CodesDiffer(agent, payer);
    assert Available(s, agent) >= 0;
  }

  lemma ActKeepsFunds(s: State, i: Intent, walletOk: bool, agent: string)
    requires Inv(s) && Funded(s) && i in s.intents && i.row < |s.rows| && Perform(s, i, walletOk).Ok?
    ensures Available(Perform(s, i, walletOk).value, agent) >= 0
  {
    var row := s.rows[i.row];
    assert IntentOk(s, i) && Available(s, agent) >= 0;
    CodesDiffer(row.agent, agent);
    CodesDiffer(agent, row.agent);
    assert IsSystem(BANK_CASH);
    match i
    case Confirm(r, ref) =>
    case LegacyBank(r) =>
      if row.settlementTxn.None? {
        LegacyBankMoves(s, r, AgentWallet(agent));
      }
    case LegacyCredit(r) =>
      if row.walletCreditTxn.None? && walletOk {
        LegacyCreditMoves(s, r, AgentWallet(agent));
      }
    case LegacyDebit(r) =>
      if row.settlementTxn.None? {
        LegacyDebitMoves(s, r, walletOk, AgentWallet(agent));
      }
  }

  lemma LegacySaleKeepsFunds(s: State, p: nat, suspense: bool, agent: string)
    requires Inv(s)
    ensures Available(After(s, MigrateSale(p, suspense)), agent) == Available(s, agent)
  {
    if p < |s.sales| && s.sales[p].collectionTxn.None? {
      LegacySaleMoves(s, p, suspense, AgentWallet(agent));
      SaleSparesPurses(s.sales[p], suspense, agent);
    } else if RecordLegacySale(s, p, suspense).Ok? {
      LegacySaleKeeps(s, p, suspense);
    }
  }

  lemma SaleSparesPurses(sale: Sale, suspense: bool, agent: string)
    ensures Moved(Receivable(sale.agent), if suspense then SUSPENSE else TICKET_SALES_REVENUE, sale.amount, AgentWallet(agent)) == 0
  {
    CodesDiffer(sale.agent, agent);
    CodesDiffer(agent, agent);
    assert IsSystem(SUSPENSE) && IsSystem(TICKET_SALES_REVENUE);
  }

  lemma LegacyPrizeKeepsFunds(s: State, c: nat, agent: string)
    requires Inv(s)
    ensures Available(After(s, MigratePrize(c)), agent) == Available(s, agent)
  {
    if c < |s.prizes| && s.prizes[c].payoutTxn.None? {
      LegacyPrizeMoves(s, c, AgentWallet(agent));
      CodesDiffer(s.prizes[c].agent, agent);
      CodesDiffer(agent, agent);
      assert IsSystem(PRIZE_PAYABLE);
    }
  }

  lemma LegacyCommissionKeepsFunds(s: State, r: nat, agent: string)
    requires Inv(s)
    ensures Available(After(s, MigrateCommission(r)), agent) == Available(s, agent)
  {
    CommissionKeeps(s, r, LegacyCommission);
    if r < |s.rows| {
      CommissionLeavesPurses(s, r, LegacyCommission, agent);
    }
  }

  lemma OtherKeepsFunds(s: State, id: nat, lines: seq<Line>, agent: string)
    requires Funded(s) && Available(s, agent) - Net(lines, AgentWallet(agent)) >= 0
    ensures Available(Commit(s, PostFor(s, Key(OtherMovement, id), lines)), agent) >= 0
  {
    BalanceAppend(s.journals, Journal(Key(OtherMovement, id), lines), AgentWallet(agent));
    assert Available(s, agent) >= 0;
  }

  lemma StepKeepsFunds(s: State, op: Op)
    requires Inv(s) && Legal(s, op) && Funded(s) && OthersCover(s, op) && (op.Act? ==> op.intent.row < |s.rows|)
    ensures Funded(After(s, op))
  {
    forall agent ensures Available(After(s, op), agent) >= 0 {
      assert Available(s, agent) >= 0;
      if op.RecoverRow? {
        if Recover(s, op.r, op.walletOk).Ok? {
          RecoverKeepsFunds(s, op.r, op.walletOk, agent);
        }
      } else if op.FinanceReceives? {
        if SettleBank(s, op.r).Ok? {
          BankKeepsFunds(s, op.r, agent);
        }
      } else if op.PayFromWallet? {
        if SettleWallet(s, op.agent, op.r, op.walletOk).Ok? {
          WalletKeepsFunds(s, op.agent, op.r, op.walletOk, agent);
        }
      } else if op.Act? {
        if Perform(s, op.intent, op.walletOk).Ok? {
          ActKeepsFunds(s, op.intent, op.walletOk, agent);
        }
      } else if op.MigrateCommission? {
        LegacyCommissionKeepsFunds(s, op.r, agent);
      } else if op.MigrateSale? {
        LegacySaleKeepsFunds(s, op.p, op.suspense, agent);
      } else if op.MigratePrize? {
        LegacyPrizeKeepsFunds(s, op.c, agent);
      } else if op.Other? {
        OtherKeepsFunds(s, op.id, op.lines, agent);
      } else {
        assert After(s, op).journals == s.journals;
      }
    }
  }

  ghost predicate CoveredRun(s: State, ops: seq<Op>)
    decreases |ops|
  {
    ops != [] ==>
      && Legal(s, ops[0]) && OthersCover(s, ops[0]) && (ops[0].Act? ==> ops[0].intent.row < |s.rows|)
      && CoveredRun(After(s, ops[0]), ops[1..])
  }

  lemma {:induction false} RunKeepsFunds(s: State, ops: seq<Op>)
    requires Inv(s) && Funded(s) && CoveredRun(s, ops)
    ensures LegalRun(s, ops) && Funded(Run(s, ops))
    decreases |ops|
  {
    if ops != [] {
      StepKeepsInv(s, ops[0]);
      StepKeepsFunds(s, ops[0]);
      RunKeepsFunds(After(s, ops[0]), ops[1..]);
    }
  }

  /** In every run in which other flows overdraw no wallet, no wallet is ever overdrawn. */
  lemma NoWalletOverdrawn(s: State, ops: seq<Op>)
    requires Initial(s) && CoveredRun(s, ops)
    ensures LegalRun(s, ops) && forall agent :: Available(Run(s, ops), agent) >= 0
  {
    InitialInv(s);
    RunKeepsFunds(s, ops);
  }
}
