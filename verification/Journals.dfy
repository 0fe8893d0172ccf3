/** Double-entry lines, their totals and their effect on accounts, and posting by key: the part of
    the ledger that every money flow rests on. */
module Journals {
  import opened Wrappers

  datatype Side = Debit | Credit

  datatype Line = Line(account: string, side: Side, amount: int, memo: Option<string>)

  /** The total of one side. */
  function Total(lines: seq<Line>, side: Side): int {
    if lines == [] then 0
    else (if lines[0].side == side then lines[0].amount else 0) + Total(lines[1..], side)
  }

  /** The total of one side of one account. */
  function AccountTotal(lines: seq<Line>, account: string, side: Side): int {
    if lines == [] then 0
    else (if lines[0].account == account && lines[0].side == side then lines[0].amount else 0)
         + AccountTotal(lines[1..], account, side)
  }

  /** Debits less credits on one account. */
  function Net(lines: seq<Line>, account: string): int {
    AccountTotal(lines, account, Debit) - AccountTotal(lines, account, Credit)
  }

  predicate Balanced(lines: seq<Line>) {
    Total(lines, Debit) == Total(lines, Credit)
  }

  lemma {:induction false} TotalConcat(a: seq<Line>, b: seq<Line>, side: Side)
    ensures Total(a + b, side) == Total(a, side) + Total(b, side)
  {
    if a == [] {
      assert a + b == b;
    } else {
      assert (a + b)[1..] == a[1..] + b;
      TotalConcat(a[1..], b, side);
    }
  }

  lemma {:induction false} AccountTotalConcat(a: seq<Line>, b: seq<Line>, account: string, side: Side)
    ensures AccountTotal(a + b, account, side) == AccountTotal(a, account, side) + AccountTotal(b, account, side)
  {
    if a == [] {
      assert a + b == b;
    } else {
      assert (a + b)[1..] == a[1..] + b;
      AccountTotalConcat(a[1..], b, account, side);
    }
  }

  lemma NetConcat(a: seq<Line>, b: seq<Line>, account: string)
    ensures Net(a + b, account) == Net(a, account) + Net(b, account)
  {
    AccountTotalConcat(a, b, account, Debit);
    AccountTotalConcat(a, b, account, Credit);
  }

  lemma NetOfLine(l: Line, account: string)
    ensures Net([l], account) == if l.account != account then 0 else if l.side.Debit? then l.amount else -l.amount
    ensures Total([l], l.side) == l.amount && forall side :: side != l.side ==> Total([l], side) == 0
  {
    assert [l][1..] == [];
    assert forall side :: AccountTotal([l], account, side)
                          == (if l.account == account && l.side == side then l.amount else 0) + AccountTotal([], account, side);
    assert forall side :: Total([l], side) == (if l.side == side then l.amount else 0) + Total([], side);
  }

  // ---------------------------------------------------------------- two-line journals

  /** The journal almost every flow posts. */
  function Transfer(debit: string, credit: string, amount: int): seq<Line> {
    [Line(debit, Debit, amount, None), Line(credit, Credit, amount, None)]
  }

  /** Its effect on an account. */
  function Moved(debit: string, credit: string, amount: int, account: string): int {
    (if account == debit then amount else 0) - (if account == credit then amount else 0)
  }

  lemma NetOfTransfer(debit: string, credit: string, amount: int, account: string)
    ensures Net(Transfer(debit, credit, amount), account) == Moved(debit, credit, amount, account)
    ensures Balanced(Transfer(debit, credit, amount))
  {
    var (d, c) := (Line(debit, Debit, amount, None), Line(credit, Credit, amount, None));
    assert Transfer(debit, credit, amount)[1..] == [c];
    assert AccountTotal([c], account, Debit) == 0 + AccountTotal([], account, Debit);
    assert AccountTotal([c], account, Credit) == (if credit == account then amount else 0) + AccountTotal([], account, Credit);
    assert Total([c], Debit) == 0 && Total([c], Credit) == amount;
  }

  // ---------------------------------------------------------------- posting by key

  datatype Journal<K> = Journal(key: K, lines: seq<Line>)

  function Find<K(==)>(journals: seq<Journal<K>>, key: K): Option<Journal<K>> {
    if journals == [] then None
    else if journals[0].key == key then Some(journals[0])
    else Find(journals[1..], key)
  }

  /** Posting under a key that is already used with the same lines changes nothing; with other
      lines it is refused. */
  function Post<K(==)>(journals: seq<Journal<K>>, key: K, lines: seq<Line>): Result<seq<Journal<K>>, string> {
    match Find(journals, key)
    case None => Ok(journals + [Journal(key, lines)])
    case Some(j) => if j.lines == lines then Ok(journals) else Err("key reused")
  }

  lemma {:induction false} FindIs<K>(journals: seq<Journal<K>>, key: K)
    ensures Find(journals, key).None? <==> forall i :: 0 <= i < |journals| ==> journals[i].key != key
    ensures Find(journals, key).Some? ==> Find(journals, key).value in journals && Find(journals, key).value.key == key
  {
    if journals != [] {
      FindIs(journals[1..], key);
      assert forall i :: 1 <= i < |journals| ==> journals[i] == journals[1..][i - 1];
    }
  }

  /** Debits less credits on one account over all journals. */
  function Balance<K>(journals: seq<Journal<K>>, account: string): int {
    if journals == [] then 0
    else Balance(journals[..|journals| - 1], account) + Net(journals[|journals| - 1].lines, account)
  }

  lemma BalanceAppend<K>(journals: seq<Journal<K>>, j: Journal<K>, account: string)
    ensures Balance(journals + [j], account) == Balance(journals, account) + Net(j.lines, account)
  {
    assert (journals + [j])[..|journals|] == journals;
  }

  // ---------------------------------------------------------------- how often a key is used

  predicate Unique<K(==)>(journals: seq<Journal<K>>) {
    forall i, j :: 0 <= i < j < |journals| ==> journals[i].key != journals[j].key
  }

  /** The number of journals under a key. */
  function Times<K(==)>(journals: seq<Journal<K>>, key: K): nat {
    if journals == [] then 0 else (if journals[0].key == key then 1 else 0) + Times(journals[1..], key)
  }

  lemma PostKeepsUnique<K>(journals: seq<Journal<K>>, key: K, lines: seq<Line>)
    requires Unique(journals)
    ensures Post(journals, key, lines).Ok? ==> Unique(Post(journals, key, lines).value)
  {
    FindIs(journals, key);
  }

  lemma {:induction false} UsedOnce<K>(journals: seq<Journal<K>>, key: K)
    requires Unique(journals)
    ensures Times(journals, key) == if Find(journals, key).Some? then 1 else 0
  {
    if journals != [] {
      UsedOnce(journals[1..], key);
      FindIs(journals[1..], key);
      assert Find(journals[1..], key).Some? ==> exists i :: 1 <= i < |journals| && journals[i].key == key;
    }
  }
}
