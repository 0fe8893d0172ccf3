/** The money behind each settlement path, account by account. */
module RemittanceMoney {
  import opened Wrappers
  import opened Journals
  import opened Accounts
  import opened Remittance
  import opened RemittanceInv
  import opened RemittanceLaws

  /** The effect of posting a row's commission, if that is still to do. */
  function CommissionMoved(row: Row, account: string): int {
    if row.commission > 0 && row.commissionTxn.None? then Moved(AGENT_COMMISSION_EXPENSE, Receivable(row.agent), row.commission, account)
    else 0
  }

  lemma PostedMoves(s: State, key: Key, debit: string, credit: string, amount: int, account: string)
    requires Find(s.journals, key).None?
    ensures PostFor(s, key, Transfer(debit, credit, amount)).Ok?
    ensures Balance(PostFor(s, key, Transfer(debit, credit, amount)).value.journals, account)
            == Balance(s.journals, account) + Moved(debit, credit, amount, account)
  {
    BalanceAppend(s.journals, Journal(key, Transfer(debit, credit, amount)), account);
    NetOfTransfer(debit, credit, amount, account);
  }

  lemma CommissionMoves(s: State, r: nat, account: string)
    requires Inv(s) && r < |s.rows|
    ensures RecordCommission(s, r, AgentCommission).Ok?
    ensures Balance(RecordCommission(s, r, AgentCommission).value.journals, account)
            == Balance(s.journals, account) + CommissionMoved(s.rows[r], account)
  {
    var row := s.rows[r];
    if row.commission > 0 && row.commissionTxn.None? {
      assert RowLinked(s.journals, r, row);
      FreeKey(s.journals, Key(AgentCommission, r));
      PostedMoves(s, Key(AgentCommission, r), AGENT_COMMISSION_EXPENSE, Receivable(row.agent), row.commission, account);
    }
  }

  /** Finance receives a transfer: the amount due goes to the bank and off the receivable, and the
      commission with it; nothing else moves. */
  lemma BankSettlementMoves(s: State, r: nat, account: string)
    requires Inv(s) && r < |s.rows| && s.rows[r].settlementTxn.None? && SettleBank(s, r).Ok?
    ensures var (row, t) := (s.rows[r], SettleBank(s, r).value);
            && Balance(t.journals, account)
               == Balance(s.journals, account) + CommissionMoved(row, account)
                  + Moved(BANK_CASH, Receivable(row.agent), row.amountDue, account)
            && row.status.AgentConfirmed? && row.amountDue > 0
            && r < |t.rows| && t.rows[r].status.Received? && t.rows[r].settlementTxn.Some?
  {
    SettleBankCases(s, r);
    CommissionKeeps(s, r, AgentCommission);
    CommissionMoves(s, r, account);
    ReceivedAtBankMoves(RecordCommission(s, r, AgentCommission).value, r, account);
  }

  lemma ReceivedAtBankMoves(s: State, r: nat, account: string)
    requires Inv(s) && r < |s.rows| && s.rows[r].settlementTxn.None?
    ensures ReceiveAtBank(s, r).Ok? && |ReceiveAtBank(s, r).value.rows| == |s.rows|
    ensures var (row, t) := (s.rows[r], ReceiveAtBank(s, r).value);
            && Balance(t.journals, account) == Balance(s.journals, account) + Moved(BANK_CASH, Receivable(row.agent), row.amountDue, account)
            && t.rows[r].status.Received? && t.rows[r].settlementTxn.Some?
  {
    assert RowLinked(s.journals, r, s.rows[r]);
    FreeKey(s.journals, Key(BankSettlement, r));
    PostedMoves(s, Key(BankSettlement, r), BANK_CASH, Receivable(s.rows[r].agent), s.rows[r].amountDue, account);
  }

  /** An agent pays from the wallet: the amount due leaves the wallet, which held it, and comes off the
      receivable. */
  lemma WalletSettlementMoves(s: State, agent: string, r: nat, walletOk: bool, account: string)
    requires Inv(s) && r < |s.rows| && SettleWallet(s, agent, r, walletOk).Ok?
    ensures var (row, t) := (s.rows[r], SettleWallet(s, agent, r, walletOk).value);
            && Balance(t.journals, account)
               == Balance(s.journals, account) + CommissionMoved(row, account)
                  + Moved(AgentWallet(agent), Receivable(agent), row.amountDue, account)
            && row.agent == agent && row.amountDue > 0 && Available(s, agent) >= row.amountDue
  {
    CommissionKeeps(s, r, AgentCommission);
    CommissionMoves(s, r, account);
    CommissionMoves(s, r, AgentWallet(agent));
    CodesDiffer(agent, s.rows[r].agent);
    assert RowOk(s.rows[r]) && IsSystem(AGENT_COMMISSION_EXPENSE);
    PaidFromWalletMoves(RecordCommission(s, r, AgentCommission).value, r, walletOk, account);
  }

  lemma PaidFromWalletMoves(s: State, r: nat, walletOk: bool, account: string)
    requires Inv(s) && r < |s.rows| && s.rows[r].settlementTxn.None? && ReceiveFromWallet(s, r, walletOk).Ok?
    ensures var (row, t) := (s.rows[r], ReceiveFromWallet(s, r, walletOk).value);
            && Balance(t.journals, account)
               == Balance(s.journals, account) + Moved(AgentWallet(row.agent), Receivable(row.agent), row.amountDue, account)
            && Available(s, row.agent) >= row.amountDue
  {
    assert RowLinked(s.journals, r, s.rows[r]);
    FreeKey(s.journals, Key(WalletSettlement, r));
    PostedMoves(s, Key(WalletSettlement, r), AgentWallet(s.rows[r].agent), Receivable(s.rows[r].agent), s.rows[r].amountDue, account);
  }

  /** A day the company owes: the wallet gains what the receivable loses. */
  lemma CreditMoves(s: State, r: nat, walletOk: bool, account: string)
    requires Inv(s) && r < |s.rows| && s.rows[r].amountDue < 0 && s.rows[r].walletCreditTxn.None? && CreditNegative(s, r, walletOk).Ok?
    ensures var (row, t) := (s.rows[r], CreditNegative(s, r, walletOk).value);
            && Balance(t.journals, account)
               == Balance(s.journals, account) + CommissionMoved(row, account)
                  + Moved(Receivable(row.agent), AgentWallet(row.agent), -row.amountDue, account)
            && r < |t.rows| && t.rows[r].status.CreditedToWallet? && t.rows[r].walletCreditTxn.Some?
  {
    CommissionKeeps(s, r, AgentCommission);
    CommissionMoves(s, r, account);
    var t := RecordCommission(s, r, AgentCommission).value;
    assert RowLinked(t.journals, r, t.rows[r]);
    FreeKey(t.journals, Key(WalletCredit, r));
    CreditedRowMoves(t, r, walletOk, account);
  }

  lemma CreditedRowMoves(s: State, r: nat, walletOk: bool, account: string)
    requires r < |s.rows| && s.rows[r].walletCreditTxn.None? && CreditRow(s, r, walletOk).Ok?
    requires Find(s.journals, Key(WalletCredit, r)).None?
    ensures |CreditRow(s, r, walletOk).value.rows| == |s.rows|
    ensures var (row, t) := (s.rows[r], CreditRow(s, r, walletOk).value);
            && Balance(t.journals, account)
               == Balance(s.journals, account) + Moved(Receivable(row.agent), AgentWallet(row.agent), -row.amountDue, account)
            && t.rows[r].status.CreditedToWallet? && t.rows[r].walletCreditTxn.Some?
  {
    PostedMoves(s, Key(WalletCredit, r), Receivable(s.rows[r].agent), AgentWallet(s.rows[r].agent), -s.rows[r].amountDue, account);
  }

  // ---------------------------------------------------------------- back-fills

  lemma FreeKeysOf(s: State, r: nat)
    requires Inv(s) && r < |s.rows|
    ensures s.rows[r].settlementTxn.None? ==>
              Find(s.journals, Key(LegacyBankSettlement, r)).None? && Find(s.journals, Key(LegacyWalletSettlement, r)).None?
    ensures s.rows[r].walletCreditTxn.None? ==> Find(s.journals, Key(LegacyWalletCredit, r)).None?
  {
    assert RowLinked(s.journals, r, s.rows[r]);
    if s.rows[r].settlementTxn.None? {
      FreeKey(s.journals, Key(LegacyBankSettlement, r));
      FreeKey(s.journals, Key(LegacyWalletSettlement, r));
    }
    if s.rows[r].walletCreditTxn.None? {
      FreeKey(s.journals, Key(LegacyWalletCredit, r));
    }
  }

  lemma FreePrizeKey(s: State, c: nat)
    requires Inv(s) && c < |s.prizes| && s.prizes[c].payoutTxn.None?
    ensures Find(s.journals, Key(LegacyPrize, c)).None?
  {
    assert PrizeLinked(s.journals, c, s.prizes[c]);
    FreeKey(s.journals, Key(LegacyPrize, c));
  }

  /** A back-filled bank settlement: the bank gains what comes off the receivable; the agent's wallet has
      no part in it. */
  lemma LegacyBankMoves(s: State, r: nat, account: string)
    requires Inv(s) && r < |s.rows| && s.rows[r].settlementTxn.None?
    ensures RecordLegacyBank(s, r).Ok?
    ensures var (row, t) := (s.rows[r], RecordLegacyBank(s, r).value);
            && Balance(t.journals, account) == Balance(s.journals, account) + Moved(BANK_CASH, Receivable(row.agent), row.amountDue, account)
            && t.rows == s.rows[r := row.(settlementTxn := Some(Key(LegacyBankSettlement, r)))]
  {
    FreeKeysOf(s, r);
    PostedMoves(s, Key(LegacyBankSettlement, r), BANK_CASH, Receivable(s.rows[r].agent), s.rows[r].amountDue, account);
  }

  /** A back-filled wallet credit: what the company owed moves from the receivable to the wallet. */
  lemma LegacyCreditMoves(s: State, r: nat, account: string)
    requires Inv(s) && r < |s.rows| && s.rows[r].walletCreditTxn.None?
    ensures RecordLegacyCredit(s, r, true).Ok?
    ensures var (row, t) := (s.rows[r], RecordLegacyCredit(s, r, true).value);
            && Balance(t.journals, account)
               == Balance(s.journals, account) + Moved(Receivable(row.agent), AgentWallet(row.agent), -row.amountDue, account)
            && t.rows == s.rows[r := row.(walletCreditTxn := Some(Key(LegacyWalletCredit, r)))]
  {
    FreeKeysOf(s, r);
    LegacyCreditPosts(s, r);
    PostedMoves(s, Key(LegacyWalletCredit, r), Receivable(s.rows[r].agent), AgentWallet(s.rows[r].agent), -s.rows[r].amountDue, account);
  }

  lemma LegacyCreditPosts(s: State, r: nat)
    requires r < |s.rows| && s.rows[r].walletCreditTxn.None? && Find(s.journals, Key(LegacyWalletCredit, r)).None?
    ensures var (row, key) := (s.rows[r], Key(LegacyWalletCredit, r));
            var posted := PostFor(s, key, Transfer(Receivable(row.agent), AgentWallet(row.agent), -row.amountDue));
            && posted.Ok?
            && RecordLegacyCredit(s, r, true) == Ok(s.(journals := posted.value.journals, rows := s.rows[r := row.(walletCreditTxn := Some(key))]))
  {
  }

  /** A back-filled wallet settlement: the amount leaves the wallet, which has to hold it, and comes off
      the receivable. */
  lemma LegacyDebitMoves(s: State, r: nat, walletOk: bool, account: string)
    requires Inv(s) && r < |s.rows| && s.rows[r].settlementTxn.None?
    ensures RecordLegacyDebit(s, r, walletOk).Ok? <==> walletOk && Available(s, s.rows[r].agent) >= s.rows[r].amountDue
    ensures RecordLegacyDebit(s, r, walletOk).Ok? ==>
              var (row, t) := (s.rows[r], RecordLegacyDebit(s, r, walletOk).value);
              && Balance(t.journals, account)
                 == Balance(s.journals, account) + Moved(AgentWallet(row.agent), Receivable(row.agent), row.amountDue, account)
              && t.rows == s.rows[r := row.(settlementTxn := Some(Key(LegacyWalletSettlement, r)))]
  {
    FreeKeysOf(s, r);
    PostedMoves(s, Key(LegacyWalletSettlement, r), AgentWallet(s.rows[r].agent), Receivable(s.rows[r].agent), s.rows[r].amountDue, account);
  }

  /** A back-filled cash sale: the agent owes it, and it is revenue or, when undecided, suspense. */
  lemma LegacySaleMoves(s: State, p: nat, suspense: bool, account: string)
    requires Inv(s) && p < |s.sales| && s.sales[p].collectionTxn.None?
    ensures RecordLegacySale(s, p, suspense).Ok?
    ensures var (sale, t) := (s.sales[p], RecordLegacySale(s, p, suspense).value);
            && Balance(t.journals, account)
               == Balance(s.journals, account)
                  + Moved(Receivable(sale.agent), if suspense then SUSPENSE else TICKET_SALES_REVENUE, sale.amount, account)
            && t.sales == s.sales[p := sale.(collectionTxn := Some(Key(LegacySale, p)))] && t.rows == s.rows
  {
    assert SaleLinked(s.journals, p, s.sales[p]);
    FreeKey(s.journals, Key(LegacySale, p));
    PostedMoves(s, Key(LegacySale, p), Receivable(s.sales[p].agent), if suspense then SUSPENSE else TICKET_SALES_REVENUE, s.sales[p].amount, account);
  }

  /** A prize the agent paid from the till: off the payable and off what the agent owes. */
  lemma LegacyPrizeMoves(s: State, c: nat, account: string)
    requires Inv(s) && c < |s.prizes| && s.prizes[c].payoutTxn.None?
    ensures RecordLegacyPrize(s, c).Ok?
    ensures var (prize, t) := (s.prizes[c], RecordLegacyPrize(s, c).value);
            && Balance(t.journals, account) == Balance(s.journals, account) + Moved(PRIZE_PAYABLE, Receivable(prize.agent), prize.net, account)
            && t.prizes == s.prizes[c := prize.(payoutTxn := Some(Key(LegacyPrize, c)))] && t.rows == s.rows
  {
    FreePrizeKey(s, c);
    PostedMoves(s, Key(LegacyPrize, c), PRIZE_PAYABLE, Receivable(s.prizes[c].agent), s.prizes[c].net, account);
  }

  /** A back-filled commission moves what a live one does. */
  lemma LegacyCommissionMoves(s: State, r: nat, account: string)
    requires Inv(s) && r < |s.rows|
    ensures RecordCommission(s, r, LegacyCommission).Ok?
    ensures Balance(RecordCommission(s, r, LegacyCommission).value.journals, account)
            == Balance(s.journals, account) + CommissionMoved(s.rows[r], account)
  {
    var row := s.rows[r];
    if row.commission > 0 && row.commissionTxn.None? {
      assert RowLinked(s.journals, r, row);
      FreeKey(s.journals, Key(LegacyCommission, r));
      PostedMoves(s, Key(LegacyCommission, r), AGENT_COMMISSION_EXPENSE, Receivable(row.agent), row.commission, account);
    }
  }
}
