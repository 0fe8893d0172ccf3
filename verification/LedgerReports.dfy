/** Account balances and the trial balance, computed from what the database groups. */
module LedgerReports {
  import opened Wrappers
  import opened Hashing
  import opened Journals
  import opened Ledger
  import opened LedgerInput
  import opened LedgerService
  import opened LedgerLaws
  import opened LedgerReversals

  function NaturalLedgerBalance(accountType: AccountType, debitNgn: int, creditNgn: int): int {
    match accountType
    case Asset | Expense => debitNgn - creditNgn
    case Liability | Equity | Revenue => creditNgn - debitNgn
  }

  datatype AccountBalance = AccountBalance(account: Account, debitNgn: int, creditNgn: int, balanceNgn: int)

  datatype TrialBalance = TrialBalance(
    totalDebitNgn: int, totalCreditNgn: int, balanced: bool, accounts: seq<AccountBalance>)

  /** The balance of an account, from the entries one by one. */
  function BalanceOf(account: Account, entries: seq<Line>): AccountBalance {
    var debit, credit := AccountTotal(entries, account.id, Debit), AccountTotal(entries, account.id, Credit);
    AccountBalance(account, debit, credit, NaturalLedgerBalance(account.accountType, debit, credit))
  }

  // ---------------------------------------------------------------- what GROUP BY returns

  datatype Row = Row(account: string, side: Side, sum: int)

  predicate DistinctRows(rows: seq<Row>) {
    forall i, j :: 0 <= i < j < |rows| ==> (rows[i].account, rows[i].side) != (rows[j].account, rows[j].side)
  }

  /** One row for every account and side that occurs, holding the sum of its entries. */
  ghost predicate IsGrouping(entries: seq<Line>, rows: seq<Row>) {
    && DistinctRows(rows)
    && (forall i :: 0 <= i < |rows| ==> rows[i].sum == AccountTotal(entries, rows[i].account, rows[i].side))
    && (forall k :: 0 <= k < |entries| ==> HasRow(rows, entries[k]))
  }

  predicate HasRow(rows: seq<Row>, l: Line) {
    exists i :: 0 <= i < |rows| && Belongs(l, rows[i])
  }

  function SumOfRows(rows: seq<Row>, side: Side): int {
    if rows == [] then 0 else (if rows[0].side == side then rows[0].sum else 0) + SumOfRows(rows[1..], side)
  }

  function SumOfAccount(rows: seq<Row>, account: string, side: Side): int {
    if rows == [] then 0
    else (if rows[0].side == side && rows[0].account == account then rows[0].sum else 0)
         + SumOfAccount(rows[1..], account, side)
  }

  predicate Belongs(l: Line, r: Row) {
    l.account == r.account && l.side == r.side
  }

  function Rest(entries: seq<Line>, r: Row): seq<Line> {
    if entries == [] then []
    else if Belongs(entries[0], r) then Rest(entries[1..], r)
    else [entries[0]] + Rest(entries[1..], r)
  }

  lemma {:induction false} RestTotals(entries: seq<Line>, r: Row, side: Side, account: string)
    ensures Total(entries, side)
            == Total(Rest(entries, r), side) + if side == r.side then AccountTotal(entries, r.account, side) else 0
    ensures AccountTotal(Rest(entries, r), account, side)
            == if (account, side) == (r.account, r.side) then 0 else AccountTotal(entries, account, side)
  {
    if entries != [] {
      RestTotals(entries[1..], r, side, account);
    }
  }

  lemma {:induction false} RestIs(entries: seq<Line>, r: Row)
    ensures forall l :: l in Rest(entries, r) ==> l in entries && !Belongs(l, r)
  {
    if entries != [] {
      RestIs(entries[1..], r);
    }
  }

  lemma RestIsGrouped(entries: seq<Line>, rows: seq<Row>)
    requires rows != [] && IsGrouping(entries, rows)
    ensures IsGrouping(Rest(entries, rows[0]), rows[1..])
  {
    var rest, tail := Rest(entries, rows[0]), rows[1..];
    forall i | 0 <= i < |tail| ensures tail[i].sum == AccountTotal(rest, tail[i].account, tail[i].side) {
      RestTotals(entries, rows[0], tail[i].side, tail[i].account);
      assert tail[i] == rows[i + 1];
    }
    RestIs(entries, rows[0]);
    forall k | 0 <= k < |rest| ensures HasRow(tail, rest[k]) {
      assert rest[k] in rest;
      var n :| 0 <= n < |entries| && entries[n] == rest[k];
      var i :| 0 <= i < |rows| && Belongs(entries[n], rows[i]);
      assert !Belongs(rest[k], rows[0]);
      assert tail[i - 1] == rows[i];
    }
  }

  lemma EntryHasRow(entries: seq<Line>, rows: seq<Row>, k: nat)
    requires IsGrouping(entries, rows) && k < |entries|
    ensures HasRow(rows, entries[k])
  {
  }

  lemma NoRowsNoEntries(entries: seq<Line>)
    requires IsGrouping(entries, [])
    ensures entries == []
  {
    if entries != [] {
      EntryHasRow(entries, [], 0);
    }
  }

  /** Adding up the groups of one side gives the total of that side: nothing is lost or counted
      twice by grouping. */
  lemma {:induction false} GroupsAddUp(entries: seq<Line>, rows: seq<Row>, side: Side)
    requires IsGrouping(entries, rows)
    ensures SumOfRows(rows, side) == Total(entries, side)
    decreases |rows|
  {
    if rows == [] {
      NoRowsNoEntries(entries);
    } else {
      RestIsGrouped(entries, rows);
      GroupsAddUp(Rest(entries, rows[0]), rows[1..], side);
      RestTotals(entries, rows[0], side, "");
    }
  }

  lemma {:induction false} GroupOfAccount(entries: seq<Line>, rows: seq<Row>, account: string, side: Side)
    requires IsGrouping(entries, rows)
    ensures SumOfAccount(rows, account, side) == AccountTotal(entries, account, side)
    decreases |rows|
  {
    if rows == [] {
      NoRowsNoEntries(entries);
    } else {
      RestIsGrouped(entries, rows);
      GroupOfAccount(Rest(entries, rows[0]), rows[1..], account, side);
      RestTotals(entries, rows[0], side, account);
      if (account, side) == (rows[0].account, rows[0].side) {
        GroupOfAccount(Rest(entries, rows[0]), rows[1..], account, side);
      }
    }
  }

  // ---------------------------------------------------------------- the two reports

  /** The entries of one account. */
  function OfAccount(entries: seq<Line>, account: string): seq<Line> {
    if entries == [] then []
    else if entries[0].account == account then [entries[0]] + OfAccount(entries[1..], account)
    else OfAccount(entries[1..], account)
  }

  lemma {:induction false} OfAccountTotals(entries: seq<Line>, account: string, side: Side)
    ensures AccountTotal(OfAccount(entries, account), account, side) == AccountTotal(entries, account, side)
    ensures forall l :: l in OfAccount(entries, account) ==> l.account == account
  {
    if entries != [] {
      OfAccountTotals(entries[1..], account, side);
    }
  }

  /** `grouped` is what grouping the account's own entries by side returns, in any order. */
  method GetAccountBalance(accounts: seq<Account>, ghost entries: seq<Line>, accountId: string, grouped: seq<Row>)
    returns (r: Result<AccountBalance, Error>)
    requires IsGrouping(OfAccount(entries, accountId), grouped)
    requires forall i :: 0 <= i < |grouped| ==> grouped[i].account == accountId
    ensures match FindAccount(accounts, accountId)
            case None => r == Err(AccountNotFound)
            case Some(account) =>
              r == Ok(AccountBalance(account, AccountTotal(entries, accountId, Debit), AccountTotal(entries, accountId, Credit),
                      NaturalLedgerBalance(account.accountType, AccountTotal(entries, accountId, Debit), AccountTotal(entries, accountId, Credit))))
  {
    var account := FindAccount(accounts, accountId);
    if account.None? {
      return Err(AccountNotFound);
    }
    var debitNgn, creditNgn := 0, 0;
    for i := 0 to |grouped|
      invariant debitNgn == SumOfAccount(grouped, accountId, Debit) - SumOfAccount(grouped[i..], accountId, Debit)
      invariant creditNgn == SumOfAccount(grouped, accountId, Credit) - SumOfAccount(grouped[i..], accountId, Credit)
      invariant debitNgn != 0 ==> exists k :: 0 <= k < i && grouped[k].side.Debit?
      invariant creditNgn != 0 ==> exists k :: 0 <= k < i && grouped[k].side.Credit?
    {
      assert grouped[i..][1..] == grouped[i + 1..];
      var amount := grouped[i].sum;
      if grouped[i].side == Debit {
        debitNgn := amount;
      } else {
        creditNgn := amount;
      }
    }
    GroupOfAccount(OfAccount(entries, accountId), grouped, accountId, Debit);
    GroupOfAccount(OfAccount(entries, accountId), grouped, accountId, Credit);
    OfAccountTotals(entries, accountId, Debit);
    OfAccountTotals(entries, accountId, Credit);
    return Ok(AccountBalance(account.value, debitNgn, creditNgn,
                             NaturalLedgerBalance(account.value.accountType, debitNgn, creditNgn)));
  }

  datatype Sums = Sums(debitNgn: int, creditNgn: int)

  predicate Accumulated(balances: map<string, Sums>, rows: seq<Row>, account: string) {
    (if account in balances then balances[account] else Sums(0, 0))
    == Sums(SumOfAccount(rows, account, Debit), SumOfAccount(rows, account, Credit))
  }

  lemma {:induction false} SumsAppend(rows: seq<Row>, r: Row, account: string, side: Side)
    ensures SumOfRows(rows + [r], side) == SumOfRows(rows, side) + (if r.side == side then r.sum else 0)
    ensures SumOfAccount(rows + [r], account, side)
            == SumOfAccount(rows, account, side) + (if r.side == side && r.account == account then r.sum else 0)
  {
    if rows == [] {
      assert rows + [r] == [r] && [r][1..] == [];
    } else {
      assert (rows + [r])[1..] == rows[1..] + [r];
      SumsAppend(rows[1..], r, account, side);
    }
  }

  /** The fold of `trialBalance`: the totals are those of all entries, and the line of every account
      is the one `GetAccountBalance` reports. */
  method ComputeTrialBalance(accounts: seq<Account>, ghost entries: seq<Line>, grouped: seq<Row>) returns (r: TrialBalance)
    requires IsGrouping(entries, grouped)
    ensures r.totalDebitNgn == Total(entries, Debit) && r.totalCreditNgn == Total(entries, Credit)
    ensures r.balanced <==> Balanced(entries)
    ensures |r.accounts| == |accounts|
    ensures forall i :: 0 <= i < |accounts| ==> r.accounts[i] == BalanceOf(accounts[i], entries)
  {
    var balances: map<string, Sums> := map[];
    var totalDebitNgn, totalCreditNgn := 0, 0;
    for i := 0 to |grouped|
      invariant totalDebitNgn == SumOfRows(grouped[..i], Debit) && totalCreditNgn == SumOfRows(grouped[..i], Credit)
      invariant forall account :: Accumulated(balances, grouped[..i], account)
    {
      var row := grouped[i];
      ghost var before := balances;
      ghost var next := grouped[..i + 1];
      assert next == grouped[..i] + [row];
      SumsAppend(grouped[..i], row, row.account, Debit);
      SumsAppend(grouped[..i], row, row.account, Credit);
      assert Accumulated(before, grouped[..i], row.account);
      var balance := if row.account in balances then balances[row.account] else Sums(0, 0);
      if row.side == Debit {
        balance := balance.(debitNgn := balance.debitNgn + row.sum);
        totalDebitNgn := totalDebitNgn + row.sum;
      } else {
        balance := balance.(creditNgn := balance.creditNgn + row.sum);
        totalCreditNgn := totalCreditNgn + row.sum;
      }
      balances := balances[row.account := balance];
      forall account ensures Accumulated(balances, next, account) {
        assert Accumulated(before, grouped[..i], account);
        SumsAppend(grouped[..i], row, account, Debit);
        SumsAppend(grouped[..i], row, account, Credit);
      }
    }
    assert grouped[..|grouped|] == grouped;
    GroupsAddUp(entries, grouped, Debit);
    GroupsAddUp(entries, grouped, Credit);
    var lines: seq<AccountBalance> := [];
    for i := 0 to |accounts|
      invariant |lines| == i
      invariant forall k :: 0 <= k < i ==> lines[k] == BalanceOf(accounts[k], entries)
    {
      var account := accounts[i];
      var totals := if account.id in balances then balances[account.id] else Sums(0, 0);
      assert Accumulated(balances, grouped, account.id);
      GroupOfAccount(entries, grouped, account.id, Debit);
      GroupOfAccount(entries, grouped, account.id, Credit);
      lines := lines + [AccountBalance(account, totals.debitNgn, totals.creditNgn,
                                       NaturalLedgerBalance(account.accountType, totals.debitNgn, totals.creditNgn))];
    }
    return TrialBalance(totalDebitNgn, totalCreditNgn, totalDebitNgn == totalCreditNgn, lines);
  }

  // ---------------------------------------------------------------- the accounting equation

  predicate DebitNormal(t: AccountType) {
    t.Asset? || t.Expense?
  }

  /** The natural balances of the accounts on one side of the equation. */
  function NaturalSum(accounts: seq<Account>, entries: seq<Line>, debitNormal: bool): int {
    if accounts == [] then 0
    else (if DebitNormal(accounts[0].accountType) == debitNormal then BalanceOf(accounts[0], entries).balanceNgn else 0)
         + NaturalSum(accounts[1..], entries, debitNormal)
  }

  function NetSum(accounts: seq<Account>, entries: seq<Line>): int {
    if accounts == [] then 0 else Net(entries, accounts[0].id) + NetSum(accounts[1..], entries)
  }

  lemma {:induction false} NaturalIsNet(accounts: seq<Account>, entries: seq<Line>)
    ensures NaturalSum(accounts, entries, true) - NaturalSum(accounts, entries, false) == NetSum(accounts, entries)
  {
    if accounts != [] {
      NaturalIsNet(accounts[1..], entries);
    }
  }

  function Signed(l: Line): int {
    if l.side.Debit? then l.amount else -l.amount
  }

  /** A line counts on exactly the accounts that carry its identifier. */
  lemma {:induction false} NetSumOfLine(accounts: seq<Account>, l: Line, rest: seq<Line>)
    requires DistinctIds(accounts)
    ensures NetSum(accounts, [l] + rest)
            == NetSum(accounts, rest) + if FindAccount(accounts, l.account).Some? then Signed(l) else 0
  {
    if accounts != [] {
      NetSumOfLine(accounts[1..], l, rest);
      assert ([l] + rest)[1..] == rest;
      if accounts[0].id == l.account {
        FindAccountIs(accounts[1..], l.account);
      }
    }
  }

  lemma {:induction false} NetSumOfNothing(accounts: seq<Account>)
    ensures NetSum(accounts, []) == 0
  {
    if accounts != [] {
      NetSumOfNothing(accounts[1..]);
    }
  }

  lemma {:induction false} NetSumIs(accounts: seq<Account>, entries: seq<Line>)
    requires DistinctIds(accounts)
    requires forall i :: 0 <= i < |entries| ==> FindAccount(accounts, entries[i].account).Some?
    ensures NetSum(accounts, entries) == Total(entries, Debit) - Total(entries, Credit)
  {
    if entries == [] {
      NetSumOfNothing(accounts);
    } else {
      NetSumIs(accounts, entries[1..]);
      NetSumOfLine(accounts, entries[0], entries[1..]);
      assert entries == [entries[0]] + entries[1..];
    }
  }

  lemma {:induction false} AllEntriesGood(h: HashFn, accounts: seq<Account>, journals: seq<Stored>)
    requires forall k :: 0 <= k < |journals| ==> GoodJournal(h, accounts, journals[k])
    ensures Balanced(Entries(journals))
    ensures forall i :: 0 <= i < |Entries(journals)| ==> FindAccount(accounts, Entries(journals)[i].account).Some?
  {
    if journals != [] {
      var lines := journals[0].data.lines;
      assert GoodJournal(h, accounts, journals[0]);
      AllEntriesGood(h, accounts, journals[1..]);
      TotalConcat(lines, Entries(journals[1..]), Debit);
      TotalConcat(lines, Entries(journals[1..]), Credit);
      forall i | 0 <= i < |Entries(journals)| ensures FindAccount(accounts, Entries(journals)[i].account).Some? {
        if i < |lines| {
          assert Naira(accounts, lines[i].account);
        }
      }
    }
  }

  /** In every ledger that any run of postings, reversals, account openings and status changes can
      reach, debits equal credits, and what the asset and expense accounts hold is what the
      liability, equity and revenue accounts hold. */
  lemma BooksAlwaysBalance(h: HashFn, ops: seq<Op>)
    requires LegalRun(h, Tables([], []), ops)
    ensures var t := Run(h, Tables([], []), ops);
            var entries := Entries(t.journals);
            && Balanced(entries)
            && NaturalSum(t.accounts, entries, true) == NaturalSum(t.accounts, entries, false)
  {
    RunKeeps(h, Tables([], []), ops);
    var t := Run(h, Tables([], []), ops);
    AllEntriesGood(h, t.accounts, t.journals);
    NetSumIs(t.accounts, Entries(t.journals));
    NaturalIsNet(t.accounts, Entries(t.journals));
  }
}
