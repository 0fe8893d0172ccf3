/** The accounting service as it runs: each method is one database transaction that either takes
    effect as a whole or leaves every table as it was. */
module RemittanceService {
  import opened Wrappers
  import opened Journals
  import opened Accounts
  import opened Remittance
  import opened RemittanceInv
  import opened RemittanceLaws
  import opened RemittanceRuns

  /** A transaction commits `result` or throws its error. */
  ghost predicate Did(s: State, result: Result<State, Error>, t: State, error: Option<Error>) {
    match result
    case Ok(u) => t == u && error.None?
    case Err(e) => t == s && error == Some(e)
  }

  /** One pass of the recovery sweep, row by row; a row that fails is skipped. */
  function RecoverAll(s: State, batch: seq<(nat, bool)>): State
    decreases |batch|
  {
    if batch == [] then s else RecoverAll(Commit(s, Recover(s, batch[0].0, batch[0].1)), batch[1..])
  }

  class AgentAccountingService {
    var rows: seq<Row>
    var sales: seq<Sale>
    var prizes: seq<Prize>
    var journals: seq<Journal<Key>>
    ghost var inFlight: multiset<Intent>

    ghost function View(): State
      reads this
    {
      State(rows, sales, prizes, journals, inFlight)
    }

    ghost predicate Valid()
      reads this
    {
      Inv(View())
    }

    constructor (rows: seq<Row>, sales: seq<Sale>, prizes: seq<Prize>)
      requires Initial(State(rows, sales, prizes, [], multiset{}))
      ensures Valid() && View() == State(rows, sales, prizes, [], multiset{})
    {
      this.rows, this.sales, this.prizes, journals, inFlight := rows, sales, prizes, [], multiset{};
      new;
      InitialInv(View());
    }

    method PostJournal(key: Key, lines: seq<Line>) returns (error: Option<Error>)
      modifies this`journals
      ensures Did(old(View()), PostFor(old(View()), key, lines), View(), error)
    {
      var existing := Find(journals, key);
      if existing.Some? {
        return if existing.value.lines == lines then None else Some(KeyReused);
      }
      journals := journals + [Journal(key, lines)];
      return None;
    }

    /** A new debit takes the amount off the wallet and never overdraws it; a repeated one takes nothing. */
    method DebitWallet(agent: string, key: Key, counter: string, amount: int) returns (error: Option<Error>)
      modifies this`journals
      ensures Did(old(View()), Remittance.DebitWallet(old(View()), agent, key, counter, amount), View(), error)
      ensures error.Some? || old(Find(journals, key)).Some? ==> journals == old(journals)
      ensures old(Find(journals, key)).None? ==> (error.None? <==> old(Available(View(), agent)) >= amount)
      ensures old(Find(journals, key)).None? && error.None? ==>
                && Find(journals, key) == Some(Journal(key, Transfer(AgentWallet(agent), counter, amount)))
                && (counter != AgentWallet(agent) ==> Available(View(), agent) == old(Available(View(), agent)) - amount >= 0)
    {
      FoundLast(journals, Journal(key, Transfer(AgentWallet(agent), counter, amount)));
      BalanceAppend(journals, Journal(key, Transfer(AgentWallet(agent), counter, amount)), AgentWallet(agent));
      NetOfTransfer(AgentWallet(agent), counter, amount, AgentWallet(agent));
      var existing := Find(journals, key);
      if existing.None? {
        var available := -Balance(journals, AgentWallet(agent));
        if available < amount {
          return Some(InsufficientBalance);
        }
      }
      error := PostJournal(key, Transfer(AgentWallet(agent), counter, amount));
    }

    /** In sound tables this never fails for an existing row, and afterwards the row has exactly one
        commission journal if it earns commission, and none if not. */
    method RecordCommission(r: nat, purpose: Purpose) returns (error: Option<Error>)
      modifies this`rows, this`journals
      ensures Did(old(View()), Remittance.RecordCommission(old(View()), r, purpose), View(), error)
      ensures old(Valid()) && RoleOf(purpose).Commission? ==>
                && Valid() && (error.None? <==> r < |old(rows)|)
                && (r < |old(rows)| ==>
                      && |rows| == |old(rows)| && rows == old(rows)[r := old(rows)[r].(commissionTxn := rows[r].commissionTxn)]
                      && Count(journals, Commission, r) == (if rows[r].commission > 0 then 1 else 0))
    {
      ghost var before := View();
      error := PostCommission(r, purpose);
      if old(Valid()) && RoleOf(purpose).Commission? {
        CommissionKeeps(before, r, purpose);
        if r < |rows| {
          assert RowOk(rows[r]) && RowLinked(journals, r, rows[r]);
        }
      }
    }

    method PostCommission(r: nat, purpose: Purpose) returns (error: Option<Error>)
      modifies this`rows, this`journals
      ensures Did(old(View()), Remittance.RecordCommission(old(View()), r, purpose), View(), error)
    {
      if r >= |rows| {
        return Some(NotFound);
      }
      var remittance := rows[r];
      if remittance.commission <= 0 || remittance.commissionTxn.Some? {
        return None;
      }
      var key := Key(purpose, r);
      error := PostJournal(key, Transfer(AGENT_COMMISSION_EXPENSE, Receivable(remittance.agent), remittance.commission));
      if error.None? {
        rows := rows[r := remittance.(commissionTxn := Some(key))];
      }
    }

    method CreditNegativeRemittanceToWallet(r: nat, walletOk: bool) returns (error: Option<Error>)
      requires Valid()
      modifies this`rows, this`journals
      ensures Valid() && Did(old(View()), CreditNegative(old(View()), r, walletOk), View(), error)
    {
      ghost var before := View();
      error := CreditInTransaction(r, walletOk);
      CreditKeeps(before, r, walletOk);
    }

    method CreditInTransaction(r: nat, walletOk: bool) returns (error: Option<Error>)
      modifies this`rows, this`journals
      ensures Did(old(View()), CreditNegative(old(View()), r, walletOk), View(), error)
    {
      if r >= |rows| {
        return Some(NotFound);
      }
      if rows[r].amountDue >= 0 {
        return None;
      }
      var rowsBefore, journalsBefore := rows, journals;
      error := PostCommission(r, AgentCommission);
      if error.None? {
        error := PostCredit(r, walletOk);
      }
      if error.Some? {
        rows, journals := rowsBefore, journalsBefore;
      }
    }

    method PostCredit(r: nat, walletOk: bool) returns (error: Option<Error>)
      requires r < |rows|
      modifies this`rows, this`journals
      ensures Did(old(View()), CreditRow(old(View()), r, walletOk), View(), error)
    {
      var current, key := rows[r], Key(WalletCredit, r);
      if current.walletCreditTxn.Some? {
        return None;
      }
      if !walletOk {
        return Some(WalletRefused);
      }
      error := PostJournal(key, Transfer(Receivable(current.agent), AgentWallet(current.agent), -current.amountDue));
      if error.None? {
        rows := rows[r := current.(walletCreditTxn := Some(key), status := CreditedToWallet)];
      }
    }

    method EnsureRemittanceCommission(r: nat) returns (error: Option<Error>)
      requires Valid()
      modifies this`rows, this`journals
      ensures Valid() && Did(old(View()), EnsureCommission(old(View()), r), View(), error)
    {
      EnsureKeeps(View(), r);
      CommissionKeeps(View(), r, AgentCommission);
      error := PostCommission(r, AgentCommission);
      if error.None? {
        var current := rows[r];
        if current.amountDue == 0 && (current.status.Pending? || current.status.Late?) {
          rows := rows[r := current.(status := Received)];
        }
      }
    }

    method SettleBankRemittance(r: nat) returns (error: Option<Error>)
      requires Valid()
      modifies this`rows, this`journals
      ensures Valid() && Did(old(View()), SettleBank(old(View()), r), View(), error)
    {
      ghost var before := View();
      error := SettleBankInTransaction(r);
      SettleBankKeeps(before, r);
    }

    method SettleBankInTransaction(r: nat) returns (error: Option<Error>)
      modifies this`rows, this`journals
      ensures Did(old(View()), SettleBank(old(View()), r), View(), error)
    {
      if r >= |rows| {
        return Some(NotFound);
      }
      var remittance := rows[r];
      if remittance.amountDue <= 0 {
        return Some(NothingToSettle);
      }
      if remittance.status == Received && remittance.settlementTxn.Some? {
        return None;
      }
      if remittance.status != AgentConfirmed {
        return Some(NotConfirmed);
      }
      if remittance.bankTransferRef.None? || remittance.bankTransferRef.value == "" {
        return Some(NoReference);
      }
      var rowsBefore, journalsBefore := rows, journals;
      error := PostCommission(r, AgentCommission);
      if error.None? && rows[r].settlementTxn.None? {
        var key := Key(BankSettlement, r);
        error := PostJournal(key, Transfer(BANK_CASH, Receivable(remittance.agent), remittance.amountDue));
        if error.None? {
          rows := rows[r := rows[r].(settlementTxn := Some(key), status := Received)];
        }
      }
      if error.Some? {
        rows, journals := rowsBefore, journalsBefore;
      }
    }

    method SettleRemittanceFromWallet(agent: string, r: nat, walletOk: bool) returns (error: Option<Error>)
      requires Valid()
      modifies this`rows, this`journals
      ensures Valid() && Did(old(View()), SettleWallet(old(View()), agent, r, walletOk), View(), error)
    {
      ghost var before := View();
      error := SettleWalletInTransaction(agent, r, walletOk);
      SettleWalletKeeps(before, agent, r, walletOk);
    }

    method SettleWalletInTransaction(agent: string, r: nat, walletOk: bool) returns (error: Option<Error>)
      modifies this`rows, this`journals
      ensures Did(old(View()), SettleWallet(old(View()), agent, r, walletOk), View(), error)
    {
      if r >= |rows| {
        return Some(NotFound);
      }
      var remittance := rows[r];
      if remittance.agent != agent {
        return Some(WrongAgent);
      }
      if remittance.amountDue <= 0 {
        return Some(NothingToSettle);
      }
      if remittance.status != Pending && remittance.status != Late {
        return Some(WrongStatus);
      }
      var rowsBefore, journalsBefore := rows, journals;
      error := PostCommission(r, AgentCommission);
      if error.None? {
        var key := Key(WalletSettlement, r);
        if walletOk {
          error := DebitWallet(agent, key, Receivable(agent), remittance.amountDue);
        } else {
          error := Some(WalletRefused);
        }
        if error.None? {
          rows := rows[r := rows[r].(settlementTxn := Some(key), status := Received, bankTransferRef := Some(WALLET_PREFIX))];
        }
      }
      if error.Some? {
        rows, journals := rowsBefore, journalsBefore;
      }
    }

    /** The deadline watch's update, guarded by the status it expects. */
    method MarkOverdue(r: nat)
      requires Valid()
      modifies this`rows
      ensures Valid() && View() == Remittance.MarkOverdue(old(View()), r)
    {
      OverdueKeepsInv(View(), r);
      if r < |rows| && rows[r].amountDue > 0 && rows[r].status == Pending {
        rows := rows[r := rows[r].(status := Late)];
      }
    }

    /** The two halves of `confirmPayment`: other transactions may run in between. */
    method ReadBeforeConfirming(agent: string, r: nat, ref: string) returns (error: Option<Error>)
      requires Valid()
      modifies this`inFlight
      ensures Valid() && Did(old(View()), ReadForConfirm(old(View()), agent, r, ref), View(), error)
    {
      AskKeepsInv(View(), agent, r, ref);
      if r >= |rows| || rows[r].agent != agent {
        return Some(NotFound);
      }
      if rows[r].amountDue <= 0 {
        return Some(NothingToSettle);
      }
      if rows[r].status != Pending && rows[r].status != Late {
        return Some(WrongStatus);
      }
      inFlight := inFlight + multiset{Confirm(r, ref)};
      return None;
    }

    method WriteConfirmation(r: nat, ref: string)
      requires Valid() && Confirm(r, ref) in inFlight
      modifies this`rows, this`inFlight
      ensures Valid() && old(r < |rows|)
      ensures View() == Forget(WriteConfirm(old(View()), r, ref), Confirm(r, ref))
    {
      ActKeepsInv(View(), Confirm(r, ref), true);
      rows := rows[r := rows[r].(status := AgentConfirmed, bankTransferRef := Some(ref))];
      inFlight := inFlight - multiset{Confirm(r, ref)};
    }

    /** One tick of the recovery sweep over the rows it listed. */
    method RecoveryTick(batch: seq<(nat, bool)>)
      requires Valid()
      modifies this`rows, this`journals
      ensures Valid() && View() == RecoverAll(old(View()), batch)
    {
      for i := 0 to |batch|
        invariant Valid()
        invariant RecoverAll(View(), batch[i..]) == RecoverAll(old(View()), batch)
      {
        var r, walletOk := batch[i].0, batch[i].1;
        assert batch[i..][1..] == batch[i + 1..];
        if r < |rows| && rows[r].amountDue < 0 {
          var _ := CreditNegativeRemittanceToWallet(r, walletOk);
        } else {
          var _ := EnsureRemittanceCommission(r);
        }
      }
    }
  }

  lemma {:induction false} FoundLast(journals: seq<Journal<Key>>, j: Journal<Key>)
    ensures Find(journals, j.key).None? ==> Find(journals + [j], j.key) == Some(j)
  {
    if journals == [] {
      assert journals + [j] == [j];
    } else {
      assert (journals + [j])[1..] == journals[1..] + [j];
      FoundLast(journals[1..], j);
    }
  }

  // ---------------------------------------------------------------- what the sweep achieves

  /** Recovery finishes a row that owes nothing, and the commission of any other; doing it again
      changes nothing. */
  lemma RecoveryAccounts(s: State, r: nat)
    requires Inv(s) && r < |s.rows|
    ensures Recover(s, r, true).Ok? && r < |Recover(s, r, true).value.rows|
    ensures var t := Recover(s, r, true).value;
            && (t.rows[r].commission > 0 ==> t.rows[r].commissionTxn.Some?)
            && (t.rows[r].amountDue <= 0 ==> Accounted(t.rows[r]))
            && (t.rows[r].amountDue == 0 ==> !Open(t.rows[r]))
            && Recover(t, r, true) == Ok(t)
  {
    if s.rows[r].amountDue < 0 {
      CreditRecovers(s, r);
      var t := Recover(s, r, true).value;
      CommissionDone(t, r);
    } else {
      EnsureRecovers(s, r);
    }
  }

  lemma CommissionDone(s: State, r: nat)
    requires r < |s.rows| && (s.rows[r].commission > 0 ==> s.rows[r].commissionTxn.Some?)
    ensures RecordCommission(s, r, AgentCommission) == Ok(s)
  {
  }

  lemma CreditRecovers(s: State, r: nat)
    requires Inv(s) && r < |s.rows| && s.rows[r].amountDue < 0
    ensures CreditNegative(s, r, true).Ok? && r < |CreditNegative(s, r, true).value.rows|
    ensures var row := CreditNegative(s, r, true).value.rows[r];
            && row.amountDue == s.rows[r].amountDue && row.walletCreditTxn.Some?
            && (row.commission > 0 ==> row.commissionTxn.Some?)
  {
    CommissionKeeps(s, r, AgentCommission);
    var c := RecordCommission(s, r, AgentCommission).value;
    CreditRecoversRow(c, r);
  }

  lemma CreditRecoversRow(s: State, r: nat)
    requires Inv(s) && r < |s.rows| && s.rows[r].amountDue < 0
    ensures CreditRow(s, r, true).Ok? && |CreditRow(s, r, true).value.rows| == |s.rows|
    ensures var row := CreditRow(s, r, true).value.rows[r];
            row.walletCreditTxn.Some? && row == s.rows[r].(walletCreditTxn := row.walletCreditTxn, status := row.status)
  {
    if s.rows[r].walletCreditTxn.None? {
      var row' := s.rows[r].(walletCreditTxn := Some(Key(WalletCredit, r)), status := CreditedToWallet);
      var u := CreditLink(s, r, Key(WalletCredit, r), row');
      CreditRowIs(s, r, row');
    }
  }

  lemma EnsureRecovers(s: State, r: nat)
    requires Inv(s) && r < |s.rows| && s.rows[r].amountDue >= 0
    ensures EnsureCommission(s, r).Ok? && r < |EnsureCommission(s, r).value.rows|
    ensures var t := EnsureCommission(s, r).value;
            && t.rows[r].amountDue == s.rows[r].amountDue
            && (t.rows[r].commission > 0 ==> t.rows[r].commissionTxn.Some?)
            && (t.rows[r].amountDue == 0 ==> !Open(t.rows[r]))
            && EnsureCommission(t, r) == Ok(t)
  {
    CommissionKeeps(s, r, AgentCommission);
    var t := EnsureCommission(s, r).value;
    CommissionDone(t, r);
  }
}
