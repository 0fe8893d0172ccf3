/** The double-entry ledger service: validated, idempotent posting under a key, reversal as the
    only correction, account balances and the trial balance. */
module Ledger {
  import opened Wrappers
  import opened Hashing
  import opened Journals
  import Json

  datatype AccountType = Asset | Liability | Equity | Revenue | Expense

  datatype AccountStatus = Active | Frozen | Closed

  datatype Account = Account(
    id: string, code: string, accountType: AccountType, status: AccountStatus, currency: string)

  datatype PostInput = PostInput(
    idempotencyKey: string, kind: string, referenceType: string, referenceId: string,
    description: Option<string>, occurredAt: Option<string>, metadata: Option<Json.Json>,
    lines: seq<Line>)

  datatype Error =
    | KeyRequired | KeyTooLong | ReferenceRequired | TooFewLines
    | AccountIdRequired | RepeatedAccount | BadAmount
    | Unbalanced | EmptyTotal | AccountNotFound | AccountNotActive
    | MixedCurrency | UnsupportedCurrency | OutOfRange
    | KeyReused | OriginalNotFound | AlreadyReversed

  /** Number.MAX_SAFE_INTEGER, and the largest value of the database's integer columns. */
  const MAX_SAFE_INTEGER := 0x1F_FFFF_FFFF_FFFF
  const MAX_COLUMN := 0x7FFF_FFFF

  // ---------------------------------------------------------------- cleaning the input

  predicate IsSpace(c: char) {
    var n := c as int;
    9 <= n <= 13 || n == 32 || n == 0xA0 || n == 0x1680 || 0x2000 <= n <= 0x200A
    || n == 0x2028 || n == 0x2029 || n == 0x202F || n == 0x205F || n == 0x3000 || n == 0xFEFF
  }

  function TrimStart(s: string): string {
    if s != [] && IsSpace(s[0]) then TrimStart(s[1..]) else s
  }

  function TrimEnd(s: string): string {
    if s != [] && IsSpace(s[|s| - 1]) then TrimEnd(s[..|s| - 1]) else s
  }

  function Trim(s: string): string {
    TrimEnd(TrimStart(s))
  }

  predicate Trimmed(s: string) {
    s != [] ==> !IsSpace(s[0]) && !IsSpace(s[|s| - 1])
  }

  lemma {:induction false} TrimStartIs(s: string)
    ensures var t := TrimStart(s); t != [] ==> !IsSpace(t[0])
  {
    if s != [] && IsSpace(s[0]) {
      TrimStartIs(s[1..]);
    }
  }

  lemma {:induction false} TrimEndIs(s: string)
    requires s != [] ==> !IsSpace(s[0])
    ensures Trimmed(TrimEnd(s))
  {
    if s != [] && IsSpace(s[|s| - 1]) {
      TrimEndIs(s[..|s| - 1]);
    }
  }

  lemma TrimIs(s: string)
    ensures Trimmed(Trim(s))
    ensures Trimmed(s) ==> Trim(s) == s
  {
    TrimStartIs(s);
    TrimEndIs(TrimStart(s));
  }

  /** `text?.trim().slice(0, 300) || null` */
  function CleanMemo(memo: Option<string>): Option<string> {
    match memo
    case None => None
    case Some(m) =>
      var t := Trim(m);
      var cut := if |t| > 300 then t[..300] else t;
      if cut == [] then None else Some(cut)
  }

  function CleanText(text: Option<string>): Option<string> {
    match text
    case None => None
    case Some(s) => if Trim(s) == [] then None else Some(Trim(s))
  }

  function Clean(l: Line): Line {
    Line(Trim(l.account), l.side, l.amount, CleanMemo(l.memo))
  }

  function CleanAll(lines: seq<Line>): (cleaned: seq<Line>)
    ensures |cleaned| == |lines|
    ensures forall i :: 0 <= i < |lines| ==> cleaned[i] == Clean(lines[i])
  {
    if lines == [] then [] else [Clean(lines[0])] + CleanAll(lines[1..])
  }

  predicate LineOk(l: Line) {
    l.account != [] && 0 < l.amount <= MAX_SAFE_INTEGER
  }

  predicate DistinctAccounts(lines: seq<Line>) {
    forall i, j :: 0 <= i < j < |lines| ==> lines[i].account != lines[j].account
  }

  /** What the per-line checks demand of the cleaned lines together. */
  predicate LinesOk(lines: seq<Line>) {
    DistinctAccounts(lines) && forall i :: 0 <= i < |lines| ==> LineOk(lines[i])
  }

  /** The first failing check of a cleaned line, the accounts before it being `seen`. */
  function LineError(l: Line, seen: set<string>): Option<Error> {
    if l.account == [] then Some(AccountIdRequired)
    else if l.account in seen then Some(RepeatedAccount)
    else if !(0 < l.amount <= MAX_SAFE_INTEGER) then Some(BadAmount)
    else None
  }

  function AccountsOf(lines: seq<Line>): set<string> {
    set i | 0 <= i < |lines| :: lines[i].account
  }

  /** Lines that pass a prefix of the checks. */
  lemma LinesOkExtend(lines: seq<Line>, l: Line)
    requires LinesOk(lines)
    ensures LinesOk(lines + [l]) <==> LineError(l, AccountsOf(lines)).None?
  {
    if l.account in AccountsOf(lines) {
      var i :| 0 <= i < |lines| && lines[i].account == l.account;
      assert (lines + [l])[i].account == (lines + [l])[|lines|].account;
    }
    assert (lines + [l])[|lines|] == l;
    assert forall i :: 0 <= i < |lines| ==> (lines + [l])[i] == lines[i] && lines[i].account in AccountsOf(lines);
  }

  // ---------------------------------------------------------------- canonical line order

  function SideName(s: Side): string {
    if s.Debit? then "DEBIT" else "CREDIT"
  }

  function SortKey(l: Line): string {
    l.account + ":" + SideName(l.side)
  }

  function InsertLine(l: Line, sorted: seq<Line>): seq<Line> {
    if sorted != [] && Json.Less(SortKey(sorted[0]), SortKey(l)) then [sorted[0]] + InsertLine(l, sorted[1..])
    else [l] + sorted
  }

  function SortLines(lines: seq<Line>): seq<Line> {
    if lines == [] then [] else InsertLine(lines[0], SortLines(lines[1..]))
  }

  predicate Ordered(lines: seq<Line>) {
    forall i, j :: 0 <= i < j < |lines| ==> Json.Less(SortKey(lines[i]), SortKey(lines[j]))
  }

  lemma SortKeyInjective(a: Line, b: Line)
    requires SortKey(a) == SortKey(b)
    ensures a.account == b.account && a.side == b.side
  {
    var (k, n) := (SortKey(a), |SortKey(a)|);
    assert k[n - 6] == (if a.side.Debit? then ':' else 'C');
    assert k[n - 6] == (if b.side.Debit? then ':' else 'C');
    assert a.account == k[..|a.account|] && b.account == k[..|b.account|];
  }

  lemma {:induction false} InsertKeeps(l: Line, sorted: seq<Line>)
    ensures multiset(InsertLine(l, sorted)) == multiset(sorted) + multiset{l}
  {
    if sorted != [] && Json.Less(SortKey(sorted[0]), SortKey(l)) {
      InsertKeeps(l, sorted[1..]);
      assert sorted == [sorted[0]] + sorted[1..];
    }
  }

  lemma {:induction false} SortKeeps(lines: seq<Line>)
    ensures multiset(SortLines(lines)) == multiset(lines) && |SortLines(lines)| == |lines|
  {
    if lines != [] {
      SortKeeps(lines[1..]);
      InsertKeeps(lines[0], SortLines(lines[1..]));
      assert lines == [lines[0]] + lines[1..];
      assert |SortLines(lines)| == |multiset(SortLines(lines))| && |lines| == |multiset(lines)|;
    }
  }

  lemma {:induction false} InsertOrders(l: Line, sorted: seq<Line>)
    requires Ordered(sorted)
    requires forall i :: 0 <= i < |sorted| ==> sorted[i].account != l.account
    ensures Ordered(InsertLine(l, sorted))
    ensures forall x :: x in InsertLine(l, sorted) ==> x == l || x in sorted
  {
    if sorted != [] {
      var (head, rest) := (sorted[0], sorted[1..]);
      if Json.Less(SortKey(head), SortKey(l)) {
        InsertOrders(l, rest);
        var tail := InsertLine(l, rest);
        forall j | 0 <= j < |tail| ensures Json.Less(SortKey(head), SortKey(tail[j])) {
          assert tail[j] in tail;
          if tail[j] != l {
            var i :| 0 <= i < |rest| && rest[i] == tail[j];
            assert sorted[i + 1] == tail[j];
          }
        }
      } else {
        if SortKey(head) == SortKey(l) {
          SortKeyInjective(head, l);
        }
        Json.LessTotal(SortKey(head), SortKey(l));
        forall j | 0 <= j < |sorted| ensures Json.Less(SortKey(l), SortKey(sorted[j])) {
          if j > 0 {
            Json.LessTransitive(SortKey(l), SortKey(head), SortKey(sorted[j]));
          }
        }
      }
    }
  }

  lemma {:induction false} SortOrders(lines: seq<Line>)
    requires DistinctAccounts(lines)
    ensures Ordered(SortLines(lines))
  {
    if lines != [] {
      var rest := SortLines(lines[1..]);
      SortOrders(lines[1..]);
      SortKeeps(lines[1..]);
      forall i | 0 <= i < |rest| ensures rest[i].account != lines[0].account {
        assert rest[i] in multiset(rest);
        var k :| 0 <= k < |lines[1..]| && lines[1..][k] == rest[i];
        assert lines[k + 1] == rest[i];
      }
      InsertOrders(lines[0], rest);
    }
  }

  lemma FirstIsLeast(a: seq<Line>, x: Line)
    requires Ordered(a) && x in multiset(a)
    ensures a != [] && (x == a[0] || Json.Less(SortKey(a[0]), SortKey(x)))
  {
    var j :| 0 <= j < |a| && a[j] == x;
  }

  lemma RestOf(a: seq<Line>)
    requires a != []
    ensures multiset(a[1..]) == multiset(a) - multiset{a[0]}
  {
    assert a == [a[0]] + a[1..];
  }

  lemma {:induction false} OrderedUnique(a: seq<Line>, b: seq<Line>)
    requires Ordered(a) && Ordered(b) && multiset(a) == multiset(b)
    ensures a == b
  {
    assert |a| == |multiset(a)| == |multiset(b)| == |b|;
    if a != [] {
      assert a[0] in multiset(a) && b[0] in multiset(b);
      FirstIsLeast(a, b[0]);
      FirstIsLeast(b, a[0]);
      Json.LessTotal(SortKey(a[0]), SortKey(b[0]));
      RestOf(a);
      RestOf(b);
      OrderedUnique(a[1..], b[1..]);
    }
  }

  /** The stored order depends on which lines there are, not on the order they came in. */
  lemma SortIgnoresOrder(a: seq<Line>, b: seq<Line>)
    requires DistinctAccounts(a) && DistinctAccounts(b) && multiset(a) == multiset(b)
    ensures SortLines(a) == SortLines(b)
  {
    SortOrders(a);
    SortOrders(b);
    SortKeeps(a);
    SortKeeps(b);
    OrderedUnique(SortLines(a), SortLines(b));
  }

  // ---------------------------------------------------------------- totals of reordered lines

  lemma {:induction false} InsertTotals(l: Line, sorted: seq<Line>, account: string, side: Side)
    ensures Total(InsertLine(l, sorted), side) == Total([l], side) + Total(sorted, side)
    ensures AccountTotal(InsertLine(l, sorted), account, side)
            == AccountTotal([l], account, side) + AccountTotal(sorted, account, side)
  {
    if sorted != [] && Json.Less(SortKey(sorted[0]), SortKey(l)) {
      InsertTotals(l, sorted[1..], account, side);
      assert InsertLine(l, sorted)[1..] == InsertLine(l, sorted[1..]);
    } else {
      assert InsertLine(l, sorted)[1..] == sorted;
    }
  }

  lemma {:induction false} SortTotals(lines: seq<Line>, account: string, side: Side)
    ensures Total(SortLines(lines), side) == Total(lines, side)
    ensures AccountTotal(SortLines(lines), account, side) == AccountTotal(lines, account, side)
  {
    if lines != [] {
      SortTotals(lines[1..], account, side);
      InsertTotals(lines[0], SortLines(lines[1..]), account, side);
      assert lines[..1] == [lines[0]] && lines == [lines[0]] + lines[1..];
    }
  }

  /** The lines of a reversal: every side flipped. */
  function Mirror(lines: seq<Line>, memo: string): (m: seq<Line>)
    ensures |m| == |lines|
    ensures forall i :: 0 <= i < |m| ==> m[i] == Flip(lines[i], memo)
  {
    if lines == [] then [] else [Flip(lines[0], memo)] + Mirror(lines[1..], memo)
  }

  function Other(s: Side): Side {
    if s.Debit? then Credit else Debit
  }

  function Flip(l: Line, memo: string): Line {
    l.(side := Other(l.side), memo := Some(memo))
  }

  lemma {:induction false} MirrorTotals(lines: seq<Line>, memo: string, account: string, side: Side)
    ensures Total(Mirror(lines, memo), side) == Total(lines, Other(side))
    ensures AccountTotal(Mirror(lines, memo), account, side) == AccountTotal(lines, account, Other(side))
  {
    if lines != [] {
      MirrorTotals(lines[1..], memo, account, side);
    }
  }

  lemma {:induction false} CleanTotals(lines: seq<Line>, account: string, side: Side)
    requires forall i :: 0 <= i < |lines| ==> Trimmed(lines[i].account)
    ensures Total(CleanAll(lines), side) == Total(lines, side)
    ensures AccountTotal(CleanAll(lines), account, side) == AccountTotal(lines, account, side)
  {
    if lines != [] {
      TrimIs(lines[0].account);
      CleanTotals(lines[1..], account, side);
    }
  }
}
