/** Remittance accounting over every run: any interleaving of the live services, the recovery sweep,
    the migration and crashes. */
module RemittanceLaws {
  import opened Wrappers
  import opened Journals
  import opened Accounts
  import opened Sums
  import opened Remittance
  import opened RemittanceInv

  // ---------------------------------------------------------------- one operation at a time

  /** No operation ever meets its own key already used for something else. */
  ghost predicate Fine(s: State, r: Result<State, Error>) {
    (r.Ok? ==> Inv(r.value) && |r.value.rows| == |s.rows|) && r != Err(KeyReused)
  }

  lemma ExpenseTakesOff(agent: string, amount: int)
    ensures TakesOff(Transfer(AGENT_COMMISSION_EXPENSE, Receivable(agent), amount), agent, amount)
    ensures TakesOff(Transfer(BANK_CASH, Receivable(agent), amount), agent, amount)
    ensures TakesOff(Transfer(AgentWallet(agent), Receivable(agent), amount), agent, amount)
    ensures TakesOff(Transfer(Receivable(agent), AgentWallet(agent), -amount), agent, amount)
  {
    forall a ensures AGENT_COMMISSION_EXPENSE != Receivable(a) && BANK_CASH != Receivable(a) && AgentWallet(agent) != Receivable(a) {
      CodesDiffer(a, agent);
      assert IsSystem(AGENT_COMMISSION_EXPENSE) && IsSystem(BANK_CASH);
    }
    TransferTakesOff(AGENT_COMMISSION_EXPENSE, agent, amount);
    TransferTakesOff(BANK_CASH, agent, amount);
    TransferTakesOff(AgentWallet(agent), agent, amount);
    TransferTakesOff(AgentWallet(agent), agent, -amount);
  }

  /** Commission is posted when there is some and it is not posted yet; nothing else changes. */
  lemma CommissionKeeps(s: State, r: nat, purpose: Purpose)
    requires Inv(s) && RoleOf(purpose).Commission?
    ensures Fine(s, RecordCommission(s, r, purpose)) && (RecordCommission(s, r, purpose).Ok? <==> r < |s.rows|)
    ensures r < |s.rows| ==>
              var t := RecordCommission(s, r, purpose).value;
              var link := if s.rows[r].commissionTxn.None? && s.rows[r].commission > 0 then Some(Key(purpose, r)) else s.rows[r].commissionTxn;
              && t == s.(rows := t.rows, journals := t.journals)
              && t.rows == s.rows[r := s.rows[r].(commissionTxn := link)]
  {
    if r < |s.rows| {
      var row := s.rows[r];
      if row.commission > 0 && row.commissionTxn.None? {
        var key := Key(purpose, r);
        ExpenseTakesOff(row.agent, row.commission);
        assert RowOk(row);
        LinkKeepsInv(s, r, row.(commissionTxn := Some(key)), key,
                     Transfer(AGENT_COMMISSION_EXPENSE, Receivable(row.agent), row.commission));
      } else {
        assert s.rows[r := row] == s.rows;
      }
    }
  }

  lemma SettlementLink(s: State, r: nat, purpose: Purpose, debit: string, row': Row)
    requires Inv(s) && r < |s.rows| && RoleOf(purpose).Settlement? && (debit == BANK_CASH || debit == AgentWallet(row'.agent))
    requires s.rows[r].settlementTxn.None? && s.rows[r].amountDue > 0 && !Open(row')
    requires row' == s.rows[r].(settlementTxn := Some(Key(purpose, r)), status := row'.status, bankTransferRef := row'.bankTransferRef)
    ensures var (key, lines) := (Key(purpose, r), Transfer(debit, Receivable(row'.agent), row'.amountDue));
            && Find(s.journals, key).None?
            && PostFor(s, key, lines).Ok? && Inv(SetRow(PostFor(s, key, lines).value, r, row'))
  {
    assert RowOk(s.rows[r]);
    ExpenseTakesOff(row'.agent, row'.amountDue);
    LinkKeepsInv(s, r, row', Key(purpose, r), Transfer(debit, Receivable(row'.agent), row'.amountDue));
  }

  lemma CreditLink(s: State, r: nat, key: Key, row': Row) returns (u: State)
    requires Inv(s) && r < |s.rows| && RoleOf(key.purpose).CreditOf? && key.id == r
    requires s.rows[r].walletCreditTxn.None? && s.rows[r].amountDue < 0 && (Open(row') ==> Open(s.rows[r]))
    requires row' == s.rows[r].(walletCreditTxn := Some(key), status := row'.status)
    ensures var t := CreditWallet(s, s.rows[r].agent, key, Receivable(s.rows[r].agent), -s.rows[r].amountDue);
            t.Ok? && |t.value.rows| == |s.rows| && u == SetRow(t.value, r, row')
    ensures Inv(u)
  {
    assert RowOk(s.rows[r]);
    var lines := Transfer(Receivable(row'.agent), AgentWallet(row'.agent), -row'.amountDue);
    ExpenseTakesOff(row'.agent, row'.amountDue);
    LinkKeepsInv(s, r, row', key, lines);
    u := SetRow(PostFor(s, key, lines).value, r, row');
  }

  lemma CreditRowIs(s: State, r: nat, row': Row)
    requires r < |s.rows| && s.rows[r].walletCreditTxn.None?
    requires row' == s.rows[r].(walletCreditTxn := Some(Key(WalletCredit, r)), status := CreditedToWallet)
    ensures CreditRow(s, r, false) == Err(WalletRefused)
    ensures var t := CreditWallet(s, s.rows[r].agent, Key(WalletCredit, r), Receivable(s.rows[r].agent), -s.rows[r].amountDue);
            t.Ok? && |t.value.rows| == |s.rows| ==> CreditRow(s, r, true) == Ok(SetRow(t.value, r, row'))
  {
  }

  lemma CreditRowKeeps(s: State, r: nat, walletOk: bool)
    requires Inv(s) && r < |s.rows| && s.rows[r].amountDue < 0
    ensures Fine(s, CreditRow(s, r, walletOk))
  {
    if s.rows[r].walletCreditTxn.None? {
      var row' := s.rows[r].(walletCreditTxn := Some(Key(WalletCredit, r)), status := CreditedToWallet);
      var u := CreditLink(s, r, Key(WalletCredit, r), row');
      CreditRowIs(s, r, row');
    }
  }

  lemma CreditKeeps(s: State, r: nat, walletOk: bool)
    requires Inv(s)
    ensures Fine(s, CreditNegative(s, r, walletOk))
  {
    if r < |s.rows| && s.rows[r].amountDue < 0 {
      CommissionKeeps(s, r, AgentCommission);
      CreditRowKeeps(RecordCommission(s, r, AgentCommission).value, r, walletOk);
    }
  }

  lemma EnsureKeeps(s: State, r: nat)
    requires Inv(s)
    ensures Fine(s, EnsureCommission(s, r))
  {
    CommissionKeeps(s, r, AgentCommission);
    if r < |s.rows| {
      var t := RecordCommission(s, r, AgentCommission).value;
      var row := t.rows[r];
      if row.amountDue == 0 && Open(row) {
        StatusKeepsInv(t, r, row.(status := Received));
      }
    }
  }

  lemma ReceiveAtBankKeeps(s: State, r: nat)
    requires Inv(s) && r < |s.rows| && s.rows[r].amountDue > 0
    ensures Fine(s, ReceiveAtBank(s, r))
  {
    if s.rows[r].settlementTxn.None? {
      SettlementLink(s, r, BankSettlement, BANK_CASH, s.rows[r].(settlementTxn := Some(Key(BankSettlement, r)), status := Received));
    }
  }

  lemma SettleBankCases(s: State, r: nat)
    ensures var (result, c) := (SettleBank(s, r), RecordCommission(s, r, AgentCommission));
            || result == Ok(s)
            || (result.Err? && result.error != KeyReused)
            || (c.Err? && result == c)
            || (c.Ok? && r < |s.rows| && r < |c.value.rows| && s.rows[r].amountDue > 0 && result == ReceiveAtBank(c.value, r))
  {
  }

  lemma SettleBankKeeps(s: State, r: nat)
    requires Inv(s)
    ensures Fine(s, SettleBank(s, r))
  {
    SettleBankCases(s, r);
    CommissionKeeps(s, r, AgentCommission);
    if r < |s.rows| && s.rows[r].amountDue > 0 {
      ReceiveAtBankKeeps(RecordCommission(s, r, AgentCommission).value, r);
    }
  }

  lemma ReceiveFromWalletKeeps(s: State, r: nat, walletOk: bool)
    requires Inv(s) && r < |s.rows| && s.rows[r].amountDue > 0 && Open(s.rows[r])
    ensures Fine(s, ReceiveFromWallet(s, r, walletOk))
  {
    assert RowOk(s.rows[r]);
    SettlementLink(s, r, WalletSettlement, AgentWallet(s.rows[r].agent),
                   s.rows[r].(settlementTxn := Some(Key(WalletSettlement, r)), status := Received,
                              bankTransferRef := Some(WALLET_PREFIX)));
  }

  lemma SettleWalletKeeps(s: State, agent: string, r: nat, walletOk: bool)
    requires Inv(s)
    ensures Fine(s, SettleWallet(s, agent, r, walletOk))
  {
    CommissionKeeps(s, r, AgentCommission);
    if r < |s.rows| && s.rows[r].amountDue > 0 && Open(s.rows[r]) {
      ReceiveFromWalletKeeps(RecordCommission(s, r, AgentCommission).value, r, walletOk);
    }
  }

  lemma LegacyBankKeeps(s: State, r: nat)
    requires Inv(s) && r < |s.rows| && s.rows[r].amountDue > 0 && !Open(s.rows[r])
    ensures Fine(s, RecordLegacyBank(s, r))
  {
    if s.rows[r].settlementTxn.None? {
      SettlementLink(s, r, LegacyBankSettlement, BANK_CASH, s.rows[r].(settlementTxn := Some(Key(LegacyBankSettlement, r))));
    }
  }

  lemma LegacyCreditIs(s: State, r: nat, row': Row)
    requires r < |s.rows| && s.rows[r].walletCreditTxn.None?
    requires row' == s.rows[r].(walletCreditTxn := Some(Key(LegacyWalletCredit, r)))
    ensures RecordLegacyCredit(s, r, false) == Err(WalletRefused)
    ensures var t := CreditWallet(s, s.rows[r].agent, Key(LegacyWalletCredit, r), Receivable(s.rows[r].agent), -s.rows[r].amountDue);
            t.Ok? && |t.value.rows| == |s.rows| ==> RecordLegacyCredit(s, r, true) == Ok(SetRow(t.value, r, row'))
  {
  }

  lemma LegacyCreditKeeps(s: State, r: nat, walletOk: bool)
    requires Inv(s) && r < |s.rows| && s.rows[r].amountDue < 0
    ensures Fine(s, RecordLegacyCredit(s, r, walletOk))
  {
    if s.rows[r].walletCreditTxn.None? {
      var row' := s.rows[r].(walletCreditTxn := Some(Key(LegacyWalletCredit, r)));
      var u := CreditLink(s, r, Key(LegacyWalletCredit, r), row');
      LegacyCreditIs(s, r, row');
    }
  }

  lemma LegacyDebitKeeps(s: State, r: nat, walletOk: bool)
    requires Inv(s) && r < |s.rows| && s.rows[r].amountDue > 0 && !Open(s.rows[r])
    ensures Fine(s, RecordLegacyDebit(s, r, walletOk))
  {
    if s.rows[r].settlementTxn.None? {
      SettlementLink(s, r, LegacyWalletSettlement, AgentWallet(s.rows[r].agent),
                     s.rows[r].(settlementTxn := Some(Key(LegacyWalletSettlement, r))));
    }
  }

  lemma PerformKeeps(s: State, i: Intent, walletOk: bool)
    requires Inv(s) && i in s.intents
    ensures i.row < |s.rows| && Fine(s, Perform(s, i, walletOk))
  {
    assert IntentOk(s, i);
    match i
    case Confirm(r, ref) => StatusKeepsInv(s, r, s.rows[r].(status := AgentConfirmed, bankTransferRef := Some(ref)));
    case LegacyBank(r) => LegacyBankKeeps(s, r);
    case LegacyCredit(r) => LegacyCreditKeeps(s, r, walletOk);
    case LegacyDebit(r) => LegacyDebitKeeps(s, r, walletOk);
  }

  // ---------------------------------------------------------------- sales, prizes, other journals, new rows

  lemma PostKeepsRows(s: State, j: Journal<Key>)
    requires RowsOk(s) && !RowRole(RoleOf(j.key.purpose))
    ensures RowsOk(s.(journals := s.journals + [j]))
  {
    forall k | 0 <= k < |s.rows| ensures RowLinked(s.journals + [j], k, s.rows[k]) {
      OtherRowsLinked(s.journals, j, k, s.rows[k]);
    }
  }

  lemma SaleLinks(s: State, p: nat, j: Journal<Key>)
    requires SalesOk(s) && PrizesOk(s) && p < |s.sales| && s.sales[p].collectionTxn.None?
    requires RoleOf(j.key.purpose).SaleOf? && j.key.id == p && TakesOff(j.lines, s.sales[p].agent, -s.sales[p].amount)
    ensures SalesOk(s.(journals := s.journals + [j], sales := s.sales[p := s.sales[p].(collectionTxn := Some(j.key))]))
    ensures PrizesOk(s.(journals := s.journals + [j]))
  {
    var sales' := s.sales[p := s.sales[p].(collectionTxn := Some(j.key))];
    forall k | 0 <= k < |sales'| ensures SaleLinked(s.journals + [j], k, sales'[k]) {
      Appended(s.journals, j, SaleOf, k, Receivable(s.sales[k].agent));
      assert SaleLinked(s.journals, k, s.sales[k]);
    }
    forall c | 0 <= c < |s.prizes| ensures PrizeLinked(s.journals + [j], c, s.prizes[c]) {
      Appended(s.journals, j, PrizeOf, c, Receivable(s.prizes[c].agent));
      assert PrizeLinked(s.journals, c, s.prizes[c]);
    }
  }

  lemma SalePosted(s: State, p: nat, j: Journal<Key>)
    requires Inv(s) && p < |s.sales| && s.sales[p].collectionTxn.None?
    requires RoleOf(j.key.purpose).SaleOf? && j.key.id == p && TakesOff(j.lines, s.sales[p].agent, -s.sales[p].amount)
    ensures Inv(s.(journals := s.journals + [j], sales := s.sales[p := s.sales[p].(collectionTxn := Some(j.key))]))
  {
    PostKeepsRows(s, j);
    SaleLinks(s, p, j);
    PostKeepsJournals(s, j);
    SaleKeepsReceivables(s, p, j);
  }

  lemma SaleKeepsReceivables(s: State, p: nat, j: Journal<Key>)
    requires ReceivablesOk(s) && p < |s.sales| && s.sales[p].collectionTxn.None?
    requires TakesOff(j.lines, s.sales[p].agent, -s.sales[p].amount)
    ensures ReceivablesOk(s.(journals := s.journals + [j], sales := s.sales[p := s.sales[p].(collectionTxn := Some(j.key))]))
  {
    var sale' := s.sales[p].(collectionTxn := Some(j.key));
    var t := s.(journals := s.journals + [j], sales := s.sales[p := sale']);
    forall a ensures Balance(t.journals, Receivable(a)) == Outstanding(t, a) {
      BalanceAppend(s.journals, j, Receivable(a));
      SumUpdate(s.sales, p, sale', SaleOwed(a));
      assert Balance(s.journals, Receivable(a)) == Outstanding(s, a);
    }
  }

  /** A sale is posted at most once however often, and on however old a reading, it is migrated;
      a second attempt that disagrees about the account to credit is refused. */
  lemma LegacySaleKeeps(s: State, p: nat, suspense: bool)
    requires Inv(s)
    ensures RecordLegacySale(s, p, suspense).Ok? ==>
              var t := RecordLegacySale(s, p, suspense).value;
              Inv(t) && |t.rows| == |s.rows| && p < |s.sales| && (s.sales[p].collectionTxn.Some? ==> t.journals == s.journals)
  {
    if p < |s.sales| {
      assert SaleLinked(s.journals, p, s.sales[p]);
      if s.sales[p].collectionTxn.None? {
        NewSaleKeeps(s, p, if suspense then SUSPENSE else TICKET_SALES_REVENUE);
      } else {
        SaleRelinked(s, p);
      }
    }
  }

  lemma NewSaleKeeps(s: State, p: nat, credit: string)
    requires Inv(s) && p < |s.sales| && s.sales[p].collectionTxn.None? && IsSystem(credit)
    ensures var j := Journal(Key(LegacySale, p), Transfer(Receivable(s.sales[p].agent), credit, s.sales[p].amount));
            && Find(s.journals, j.key).None?
            && Inv(s.(journals := s.journals + [j], sales := s.sales[p := s.sales[p].(collectionTxn := Some(j.key))]))
  {
    var sale, key := s.sales[p], Key(LegacySale, p);
    forall a ensures credit != Receivable(a) {
      CodesDiffer(a, a);
    }
    TransferTakesOff(credit, sale.agent, sale.amount);
    assert SaleLinked(s.journals, p, sale);
    FreeKey(s.journals, key);
    SalePosted(s, p, Journal(key, Transfer(Receivable(sale.agent), credit, sale.amount)));
  }

  /** A posted sale is linked to the only journal its key can name. */
  lemma SaleRelinked(s: State, p: nat)
    requires Inv(s) && p < |s.sales| && s.sales[p].collectionTxn.Some?
    ensures Find(s.journals, Key(LegacySale, p)).Some?
    ensures Inv(s.(sales := s.sales[p := s.sales[p].(collectionTxn := Some(Key(LegacySale, p)))]))
  {
    assert SaleLinked(s.journals, p, s.sales[p]);
    CountZero(s.journals, SaleOf, p);
    FindIs(s.journals, Key(LegacySale, p));
    RelinkKeepsSales(s, p, s.sales[p].(collectionTxn := Some(Key(LegacySale, p))));
  }

  lemma RelinkKeepsSales(s: State, p: nat, sale': Sale)
    requires SalesOk(s) && ReceivablesOk(s) && p < |s.sales| && s.sales[p].collectionTxn.Some?
    requires sale' == s.sales[p].(collectionTxn := sale'.collectionTxn) && sale'.collectionTxn.Some?
    ensures SalesOk(s.(sales := s.sales[p := sale'])) && ReceivablesOk(s.(sales := s.sales[p := sale']))
  {
    var t := s.(sales := s.sales[p := sale']);
    forall k | 0 <= k < |t.sales| ensures SaleLinked(t.journals, k, t.sales[k]) {
      assert SaleLinked(s.journals, k, s.sales[k]);
    }
    forall a ensures Balance(t.journals, Receivable(a)) == Outstanding(t, a) {
      SumUpdate(s.sales, p, sale', SaleOwed(a));
      assert Balance(s.journals, Receivable(a)) == Outstanding(s, a);
    }
  }

  lemma PrizeLinks(s: State, c: nat, j: Journal<Key>)
    requires SalesOk(s) && PrizesOk(s) && c < |s.prizes| && s.prizes[c].payoutTxn.None?
    requires RoleOf(j.key.purpose).PrizeOf? && j.key.id == c && TakesOff(j.lines, s.prizes[c].agent, s.prizes[c].net)
    ensures PrizesOk(s.(journals := s.journals + [j], prizes := s.prizes[c := s.prizes[c].(payoutTxn := Some(j.key))]))
    ensures SalesOk(s.(journals := s.journals + [j]))
  {
    var prizes' := s.prizes[c := s.prizes[c].(payoutTxn := Some(j.key))];
    forall k | 0 <= k < |prizes'| ensures PrizeLinked(s.journals + [j], k, prizes'[k]) {
      Appended(s.journals, j, PrizeOf, k, Receivable(s.prizes[k].agent));
      assert PrizeLinked(s.journals, k, s.prizes[k]);
    }
    forall p | 0 <= p < |s.sales| ensures SaleLinked(s.journals + [j], p, s.sales[p]) {
      Appended(s.journals, j, SaleOf, p, Receivable(s.sales[p].agent));
      assert SaleLinked(s.journals, p, s.sales[p]);
    }
  }

  lemma PrizePosted(s: State, c: nat, j: Journal<Key>)
    requires Inv(s) && c < |s.prizes| && s.prizes[c].payoutTxn.None?
    requires RoleOf(j.key.purpose).PrizeOf? && j.key.id == c && TakesOff(j.lines, s.prizes[c].agent, s.prizes[c].net)
    ensures Inv(s.(journals := s.journals + [j], prizes := s.prizes[c := s.prizes[c].(payoutTxn := Some(j.key))]))
  {
    PostKeepsRows(s, j);
    PrizeLinks(s, c, j);
    PostKeepsJournals(s, j);
    PrizeKeepsReceivables(s, c, j);
  }

  lemma PrizeKeepsReceivables(s: State, c: nat, j: Journal<Key>)
    requires ReceivablesOk(s) && c < |s.prizes| && s.prizes[c].payoutTxn.None?
    requires TakesOff(j.lines, s.prizes[c].agent, s.prizes[c].net)
    ensures ReceivablesOk(s.(journals := s.journals + [j], prizes := s.prizes[c := s.prizes[c].(payoutTxn := Some(j.key))]))
  {
    var prize' := s.prizes[c].(payoutTxn := Some(j.key));
    var t := s.(journals := s.journals + [j], prizes := s.prizes[c := prize']);
    forall a ensures Balance(t.journals, Receivable(a)) == Outstanding(t, a) {
      BalanceAppend(s.journals, j, Receivable(a));
      SumUpdate(s.prizes, c, prize', PrizePaid(a));
      assert Balance(s.journals, Receivable(a)) == Outstanding(s, a);
    }
  }

  lemma LegacyPrizeKeeps(s: State, c: nat)
    requires Inv(s)
    ensures Fine(s, RecordLegacyPrize(s, c))
  {
    if c < |s.prizes| && s.prizes[c].payoutTxn.None? {
      var (prize, key) := (s.prizes[c], Key(LegacyPrize, c));
      forall a ensures PRIZE_PAYABLE != Receivable(a) {
        CodesDiffer(a, a);
        assert IsSystem(PRIZE_PAYABLE);
      }
      TransferTakesOff(PRIZE_PAYABLE, prize.agent, prize.net);
      assert PrizeLinked(s.journals, c, prize);
      FreeKey(s.journals, key);
      PrizePosted(s, c, Journal(key, Transfer(PRIZE_PAYABLE, Receivable(prize.agent), prize.net)));
    }
  }

  /** Journals of other flows, which touch no receivable: funding, prepaid sales, reimbursements. */
  ghost predicate Unrelated(lines: seq<Line>) {
    Balanced(lines) && forall a :: Net(lines, Receivable(a)) == 0
  }

  lemma OtherKeeps(s: State, id: nat, lines: seq<Line>)
    requires Inv(s) && Unrelated(lines)
    ensures PostFor(s, Key(OtherMovement, id), lines).Ok? ==> Inv(PostFor(s, Key(OtherMovement, id), lines).value)
  {
    var j := Journal(Key(OtherMovement, id), lines);
    if Find(s.journals, j.key).None? {
      PostKeepsRows(s, j);
      LinkKeepsOthers(s, j);
      PostKeepsJournals(s, j);
      forall a ensures Balance(s.journals + [j], Receivable(a)) == Outstanding(s, a) {
        BalanceAppend(s.journals, j, Receivable(a));
        assert Balance(s.journals, Receivable(a)) == Outstanding(s, a);
      }
    }
  }

  predicate HasDay(rows: seq<Row>, agent: string, period: int) {
    exists i :: 0 <= i < |rows| && rows[i].agent == agent && rows[i].period == period
  }

  /** The sweep's insert: refused by the unique constraint when the agent has a row for the day. */
  function CreateRow(s: State, row: Row): State {
    if HasDay(s.rows, row.agent, row.period) then s else s.(rows := s.rows + [row])
  }

  predicate FreshRow(row: Row) {
    && row.status.Pending? && row.bankTransferRef.None?
    && row.commissionTxn.None? && row.settlementTxn.None? && row.walletCreditTxn.None?
    && row.amountDue == row.grossSales - row.commission - row.winnings
  }

  lemma NewRowLinked(s: State, row: Row)
    requires JournalsOk(s) && row.commissionTxn.None? && row.settlementTxn.None? && row.walletCreditTxn.None?
    ensures RowLinked(s.journals, |s.rows|, row)
  {
    forall role | RowRole(role) ensures Linked(s.journals, |s.rows|, row, role) {
      CountZero(s.journals, role, |s.rows|);
      EffectZero(s.journals, role, |s.rows|, Receivable(row.agent));
    }
  }

  lemma CreateKeepsShape(s: State, row: Row)
    requires IntentsOk(s) && OneRowADay(s) && JournalsOk(s) && !HasDay(s.rows, row.agent, row.period)
    ensures var t := s.(rows := s.rows + [row]); IntentsOk(t) && OneRowADay(t) && JournalsOk(t)
  {
    var t := s.(rows := s.rows + [row]);
    forall i | i in t.intents ensures IntentOk(t, i) {
      assert IntentOk(s, i);
    }
  }

  lemma CreateKeepsRows(s: State, row: Row)
    requires RowsOk(s) && JournalsOk(s) && FreshRow(row)
    ensures RowsOk(s.(rows := s.rows + [row]))
  {
    NewRowLinked(s, row);
  }

  lemma CreateKeeps(s: State, row: Row)
    requires Inv(s) && FreshRow(row)
    ensures Inv(CreateRow(s, row))
  {
    if !HasDay(s.rows, row.agent, row.period) {
      CreateKeepsShape(s, row);
      CreateKeepsRows(s, row);
      forall a ensures Balance(s.journals, Receivable(a)) == Outstanding(s.(rows := s.rows + [row]), a) {
        SumAppend(s.rows, row, RowTaken(a));
        assert Balance(s.journals, Receivable(a)) == Outstanding(s, a);
      }
    }
  }
}
