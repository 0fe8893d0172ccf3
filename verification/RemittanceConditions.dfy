/** When each remittance transaction goes through, and what it makes of the row: on the row and the
    wallet, before the call. */
module RemittanceConditions {
  import opened Wrappers
  import opened Journals
  import opened Accounts
  import opened Remittance
  import opened RemittanceInv
  import opened RemittanceLaws
  import opened RemittanceMoney

  /** The commission link after a transaction that posts what commission there is. */
  function CommissionLink(row: Row, r: nat): Option<Key> {
    if row.commission > 0 && row.commissionTxn.None? then Some(Key(AgentCommission, r)) else row.commissionTxn
  }

  lemma SamePurse(s: State, r: nat, agent: string)
    requires Inv(s) && r < |s.rows|
    ensures RecordCommission(s, r, AgentCommission).Ok?
    ensures Available(RecordCommission(s, r, AgentCommission).value, agent) == Available(s, agent)
  {
    CommissionMoves(s, r, AgentWallet(agent));
    CodesDiffer(agent, s.rows[r].agent);
    CodesDiffer(s.rows[r].agent, agent);
    assert IsSystem(AGENT_COMMISSION_EXPENSE);
  }

  predicate BankReady(row: Row) {
    row.amountDue > 0 && row.status.AgentConfirmed? && row.bankTransferRef.Some? && row.bankTransferRef.value != ""
  }

  predicate BankDone(row: Row) {
    row.amountDue > 0 && row.status.Received? && row.settlementTxn.Some?
  }

  lemma BankUnfolds(s: State, r: nat)
    requires r < |s.rows| && RecordCommission(s, r, AgentCommission).Ok? && |RecordCommission(s, r, AgentCommission).value.rows| == |s.rows|
    ensures SettleBank(s, r)
            == if BankDone(s.rows[r]) then Ok(s)
               else if BankReady(s.rows[r]) then ReceiveAtBank(RecordCommission(s, r, AgentCommission).value, r)
               else SettleBank(s, r)
    ensures !BankDone(s.rows[r]) && !BankReady(s.rows[r]) ==> SettleBank(s, r).Err?
  {
  }

  lemma AtBankIs(s: State, r: nat)
    requires Inv(s) && r < |s.rows|
    ensures ReceiveAtBank(s, r).Ok?
    ensures ReceiveAtBank(s, r).value.rows
            == if s.rows[r].settlementTxn.Some? then s.rows
               else s.rows[r := s.rows[r].(settlementTxn := Some(Key(BankSettlement, r)), status := Received)]
  {
    if s.rows[r].settlementTxn.None? {
      assert RowLinked(s.journals, r, s.rows[r]);
      FreeKey(s.journals, Key(BankSettlement, r));
    }
  }

  /** Finance's settlement goes through exactly for a row with something due that is confirmed with a
      reference, or that is settled already; the former becomes RECEIVED and settled. */
  lemma SettleBankIff(s: State, r: nat)
    requires Inv(s)
    ensures SettleBank(s, r).Ok? <==> r < |s.rows| && (BankDone(s.rows[r]) || BankReady(s.rows[r]))
    ensures r < |s.rows| && BankDone(s.rows[r]) ==> SettleBank(s, r).value == s
    ensures r < |s.rows| && BankReady(s.rows[r]) && s.rows[r].settlementTxn.None? ==>
              SettleBank(s, r).value.rows
              == s.rows[r := s.rows[r].(commissionTxn := CommissionLink(s.rows[r], r), settlementTxn := Some(Key(BankSettlement, r)), status := Received)]
  {
    if r < |s.rows| {
      CommissionKeeps(s, r, AgentCommission);
      BankUnfolds(s, r);
      AtBankIs(RecordCommission(s, r, AgentCommission).value, r);
    }
  }

  predicate WalletReady(row: Row, agent: string) {
    row.agent == agent && row.amountDue > 0 && (row.status.Pending? || row.status.Late?)
  }

  lemma WalletUnfolds(s: State, agent: string, r: nat, walletOk: bool)
    requires r < |s.rows| && RecordCommission(s, r, AgentCommission).Ok? && |RecordCommission(s, r, AgentCommission).value.rows| == |s.rows|
    ensures if WalletReady(s.rows[r], agent)
            then SettleWallet(s, agent, r, walletOk) == ReceiveFromWallet(RecordCommission(s, r, AgentCommission).value, r, walletOk)
            else SettleWallet(s, agent, r, walletOk).Err?
  {
  }

  /** A payment from the wallet goes through exactly for the agent's own row with something due that is
      pending or late, from a wallet that is willing and holds the amount. */
  lemma SettleWalletIff(s: State, agent: string, r: nat, walletOk: bool)
    requires Inv(s)
    ensures SettleWallet(s, agent, r, walletOk).Ok?
            <==> r < |s.rows| && WalletReady(s.rows[r], agent) && walletOk && Available(s, agent) >= s.rows[r].amountDue
    ensures SettleWallet(s, agent, r, walletOk).Ok? ==>
              SettleWallet(s, agent, r, walletOk).value.rows
              == s.rows[r := s.rows[r].(commissionTxn := CommissionLink(s.rows[r], r), settlementTxn := Some(Key(WalletSettlement, r)),
                                        status := Received, bankTransferRef := Some("WALLET-"))]
  {
    if r < |s.rows| {
      CommissionKeeps(s, r, AgentCommission);
      WalletUnfolds(s, agent, r, walletOk);
      if WalletReady(s.rows[r], agent) {
        SamePurse(s, r, agent);
        var t := RecordCommission(s, r, AgentCommission).value;
        assert RowOk(s.rows[r]) && RowLinked(t.journals, r, t.rows[r]);
        FreeKey(t.journals, Key(WalletSettlement, r));
        PaidIff(t, r, walletOk);
      }
    }
  }

  lemma PaidIff(s: State, r: nat, walletOk: bool)
    requires r < |s.rows| && Find(s.journals, Key(WalletSettlement, r)).None?
    ensures ReceiveFromWallet(s, r, walletOk).Ok? <==> walletOk && Available(s, s.rows[r].agent) >= s.rows[r].amountDue
    ensures ReceiveFromWallet(s, r, walletOk).Ok? ==>
              ReceiveFromWallet(s, r, walletOk).value.rows
              == s.rows[r := s.rows[r].(settlementTxn := Some(Key(WalletSettlement, r)), status := Received, bankTransferRef := Some("WALLET-"))]
  {
  }

  /** Crediting goes through for every row, unless there is something left to credit and the wallet is
      unwilling. */
  lemma CreditIff(s: State, r: nat, walletOk: bool)
    requires Inv(s)
    ensures CreditNegative(s, r, walletOk).Ok?
            <==> r < |s.rows| && (s.rows[r].amountDue >= 0 || s.rows[r].walletCreditTxn.Some? || walletOk)
    ensures CreditNegative(s, r, walletOk).Ok? && s.rows[r].amountDue < 0 && s.rows[r].walletCreditTxn.None? ==>
              CreditNegative(s, r, walletOk).value.rows
              == s.rows[r := s.rows[r].(commissionTxn := CommissionLink(s.rows[r], r), walletCreditTxn := Some(Key(WalletCredit, r)),
                                        status := CreditedToWallet)]
  {
    if r < |s.rows| && s.rows[r].amountDue < 0 {
      CommissionKeeps(s, r, AgentCommission);
      CreditUnfolds(s, r, walletOk);
      CreditRowIff(RecordCommission(s, r, AgentCommission).value, r, walletOk);
    }
  }

  lemma CreditRowIff(s: State, r: nat, walletOk: bool)
    requires Inv(s) && r < |s.rows|
    ensures CreditRow(s, r, walletOk).Ok? <==> s.rows[r].walletCreditTxn.Some? || walletOk
    ensures CreditRow(s, r, walletOk).Ok? && s.rows[r].walletCreditTxn.None? ==>
              CreditRow(s, r, walletOk).value.rows
              == s.rows[r := s.rows[r].(walletCreditTxn := Some(Key(WalletCredit, r)), status := CreditedToWallet)]
  {
    assert RowLinked(s.journals, r, s.rows[r]);
    if s.rows[r].walletCreditTxn.None? {
      FreeKey(s.journals, Key(WalletCredit, r));
      CreditedIff(s, r, walletOk);
    } else {
      AlreadyCredited(s, r, walletOk);
    }
  }

  lemma CreditUnfolds(s: State, r: nat, walletOk: bool)
    requires r < |s.rows| && s.rows[r].amountDue < 0
    requires RecordCommission(s, r, AgentCommission).Ok? && |RecordCommission(s, r, AgentCommission).value.rows| == |s.rows|
    ensures CreditNegative(s, r, walletOk) == CreditRow(RecordCommission(s, r, AgentCommission).value, r, walletOk)
  {
  }

  lemma AlreadyCredited(s: State, r: nat, walletOk: bool)
    requires r < |s.rows| && s.rows[r].walletCreditTxn.Some?
    ensures CreditRow(s, r, walletOk) == Ok(s)
  {
  }

  lemma CreditedIff(s: State, r: nat, walletOk: bool)
    requires r < |s.rows| && s.rows[r].walletCreditTxn.None? && Find(s.journals, Key(WalletCredit, r)).None?
    ensures CreditRow(s, r, walletOk).Ok? <==> walletOk
    ensures walletOk ==> CreditRow(s, r, walletOk).value.rows
                         == s.rows[r := s.rows[r].(walletCreditTxn := Some(Key(WalletCredit, r)), status := CreditedToWallet)]
  {
  }

  /** Ensuring the commission goes through for every row, and closes exactly an open one that owes
      nothing. */
  lemma EnsureIff(s: State, r: nat)
    requires Inv(s)
    ensures EnsureCommission(s, r).Ok? <==> r < |s.rows|
    ensures r < |s.rows| ==>
              EnsureCommission(s, r).value.rows
              == s.rows[r := s.rows[r].(commissionTxn := CommissionLink(s.rows[r], r),
                                        status := if s.rows[r].amountDue == 0 && (s.rows[r].status.Pending? || s.rows[r].status.Late?) then Received
                                                  else s.rows[r].status)]
  {
    CommissionKeeps(s, r, AgentCommission);
  }

  /** A row turns late exactly when it is pending with something due; nothing else about it changes. */
  lemma OverdueIff(s: State, r: nat)
    requires r < |s.rows|
    ensures MarkOverdue(s, r)
            == s.(rows := s.rows[r := s.rows[r].(status := if s.rows[r].status.Pending? && s.rows[r].amountDue > 0 then Late else s.rows[r].status)])
  {
  }

  /** A confirmation is accepted for writing exactly on the agent's own open row with something due; what
      is written later is the status and the reference, whatever the row is by then. */
  lemma ConfirmIff(s: State, agent: string, r: nat, ref: string)
    ensures ReadForConfirm(s, agent, r, ref).Ok?
            <==> r < |s.rows| && s.rows[r].agent == agent && s.rows[r].amountDue > 0 && (s.rows[r].status.Pending? || s.rows[r].status.Late?)
    ensures ReadForConfirm(s, agent, r, ref).Ok? ==>
              ReadForConfirm(s, agent, r, ref).value == s.(intents := s.intents + multiset{Confirm(r, ref)})
    ensures r < |s.rows| ==> WriteConfirm(s, r, ref) == s.(rows := s.rows[r := s.rows[r].(status := AgentConfirmed, bankTransferRef := Some(ref))])
  {
  }

  /** What the migration takes up, on what it has read: a received transfer with a reference that is not
      the wallet's, a day the company owes, a received payment from the wallet, each still unlinked. */
  lemma IntendIff(s: State, r: nat)
    requires r < |s.rows|
    ensures MayIntend(s, LegacyBank(r))
            <==> s.rows[r].amountDue > 0 && s.rows[r].status.Received? && s.rows[r].settlementTxn.None?
                 && s.rows[r].bankTransferRef.Some? && !("WALLET-" <= s.rows[r].bankTransferRef.value)
    ensures MayIntend(s, LegacyCredit(r)) <==> s.rows[r].amountDue < 0 && s.rows[r].walletCreditTxn.None?
    ensures MayIntend(s, LegacyDebit(r))
            <==> s.rows[r].amountDue > 0 && s.rows[r].status.Received? && s.rows[r].settlementTxn.None?
                 && s.rows[r].bankTransferRef.Some? && "WALLET-" <= s.rows[r].bankTransferRef.value
  {
  }
}
