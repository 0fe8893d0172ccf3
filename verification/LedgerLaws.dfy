/** What the ledger promises over every run: replays change nothing, the order of lines and of
    metadata keys does not matter, journals are kept for ever, and reversals cancel. */
module LedgerLaws {
  import opened Wrappers
  import opened Hashing
  import opened Journals
  import opened Ledger
  import opened LedgerInput
  import opened LedgerService
  import Json

  // ---------------------------------------------------------------- the order of the lines

  lemma TwoCopies(s: seq<Line>, i: nat, j: nat)
    requires i < j < |s| && s[i] == s[j]
    ensures multiset(s)[s[i]] >= 2
  {
    assert s == s[..j] + [s[j]] + s[j + 1..];
    assert s[..j][i] == s[i];
  }

  lemma OtherCopy(s: seq<Line>, x: Line) returns (i: nat, j: nat)
    requires multiset(s)[x] >= 2
    ensures i < |s| && j < |s| && i != j && s[i] == s[j] == x
  {
    i :| i < |s| && s[i] == x;
    var rest := s[..i] + s[i + 1..];
    assert s == s[..i] + [s[i]] + s[i + 1..];
    assert x in multiset(rest);
    var k :| 0 <= k < |rest| && rest[k] == x;
    j := if k < i then k else k + 1;
  }

  lemma DistinctIgnoresOrder(a: seq<Line>, b: seq<Line>)
    requires multiset(a) == multiset(b) && DistinctAccounts(a)
    ensures DistinctAccounts(b)
  {
    forall i, j | 0 <= i < j < |b| ensures b[i].account != b[j].account {
      if b[i] == b[j] {
        TwoCopies(b, i, j);
        var p, q := OtherCopy(a, b[i]);
      } else {
        assert b[i] in multiset(a) && b[j] in multiset(a);
        var p :| 0 <= p < |a| && a[p] == b[i];
        var q :| 0 <= q < |a| && a[q] == b[j];
      }
    }
  }

  lemma {:induction false} CleanConcat(x: seq<Line>, y: seq<Line>)
    ensures CleanAll(x + y) == CleanAll(x) + CleanAll(y)
  {
    if x == [] {
      assert x + y == y;
    } else {
      assert (x + y)[1..] == x[1..] + y;
      CleanConcat(x[1..], y);
    }
  }

  lemma Between<T>(x: seq<T>, c: T, y: seq<T>)
    ensures multiset(x + [c] + y) == multiset(x + y) + multiset{c}
  {
  }

  lemma CleanBetween(x: seq<Line>, c: Line, y: seq<Line>)
    ensures multiset(CleanAll(x + [c] + y)) == multiset(CleanAll(x + y)) + multiset{Clean(c)}
  {
    CleanConcat(x + [c], y);
    CleanConcat(x, [c]);
    CleanConcat(x, y);
    assert CleanAll([c]) == [Clean(c)];
    Between(CleanAll(x), Clean(c), CleanAll(y));
  }

  lemma SplitAt<T>(s: seq<T>, c: T) returns (x: seq<T>, y: seq<T>)
    requires c in multiset(s)
    ensures s == x + [c] + y
  {
    var k :| 0 <= k < |s| && s[k] == c;
    x, y := s[..k], s[k + 1..];
  }

  lemma {:induction false} CleanIgnoresOrder(a: seq<Line>, b: seq<Line>)
    requires multiset(a) == multiset(b)
    ensures multiset(CleanAll(a)) == multiset(CleanAll(b))
    decreases |a|
  {
    if a == [] {
      assert |b| == |multiset(b)| == |multiset(a)| == 0;
    } else {
      assert a[0] in multiset(a);
      var x, y := SplitAt(b, a[0]);
      RestsAgree(a, x, y);
      CleanIgnoresOrder(a[1..], x + y);
      CleanBetween(x, a[0], y);
      CleanFirst(a);
    }
  }

  lemma RestsAgree<T>(a: seq<T>, x: seq<T>, y: seq<T>)
    requires a != [] && multiset(a) == multiset(x + [a[0]] + y)
    ensures multiset(a[1..]) == multiset(x + y)
  {
    FirstOut(a);
    Between(x, a[0], y);
    assert multiset(a[1..]) == multiset(a) - multiset{a[0]};
  }

  lemma CleanFirst(a: seq<Line>)
    requires a != []
    ensures multiset(CleanAll(a)) == multiset(CleanAll(a[1..])) + multiset{Clean(a[0])}
  {
    FirstOut(CleanAll(a));
    assert CleanAll(a)[1..] == CleanAll(a[1..]);
  }

  lemma FirstOut<T>(s: seq<T>)
    requires s != []
    ensures multiset(s) == multiset(s[1..]) + multiset{s[0]}
  {
    assert s == [s[0]] + s[1..];
  }

  function MetadataOf(input: PostInput): Json.Json {
    if input.metadata.None? then Json.Null else input.metadata.value
  }

  /** The same input with its lines in another order and its metadata keys in another order. */
  predicate Reordered(a: PostInput, b: PostInput)
    requires MetadataOk(a.metadata) && MetadataOk(b.metadata)
  {
    && b == a.(lines := b.lines, metadata := b.metadata)
    && multiset(a.lines) == multiset(b.lines)
    && Json.Same(MetadataOf(a), MetadataOf(b))
  }

  lemma LinesIgnoreOrder(a: seq<Line>, b: seq<Line>)
    requires multiset(a) == multiset(b) && CheckLines(a, []).Ok?
    ensures CheckLines(b, []).Ok? && SortLines(CheckLines(b, []).value) == SortLines(CheckLines(a, []).value)
    ensures |a| == |b|
  {
    var x, y := CleanAll(a), CleanAll(b);
    CheckLinesIs(a, []);
    CheckLinesIs(b, []);
    assert [] + x == x && [] + y == y;
    assert |a| == |multiset(a)| == |multiset(b)| == |b|;
    CleanIgnoresOrder(a, b);
    OkIgnoresOrder(x, y);
    SortIgnoresOrder(x, y);
  }

  lemma OkIgnoresOrder(x: seq<Line>, y: seq<Line>)
    requires multiset(x) == multiset(y) && LinesOk(x)
    ensures LinesOk(y)
  {
    DistinctIgnoresOrder(x, y);
    forall i | 0 <= i < |y| ensures LineOk(y[i]) {
      assert y[i] in multiset(x);
    }
  }

  lemma PrepareIgnoresOrder(accounts: seq<Account>, a: PostInput, b: PostInput, reverses: Option<string>)
    requires MetadataOk(a.metadata) && MetadataOk(b.metadata) && Reordered(a, b)
    requires Prepare(accounts, a, reverses).Ok?
    ensures Prepare(accounts, b, reverses).Ok?
    ensures Json.Valid(Prepare(accounts, a, reverses).value.metadata) && Json.Valid(Prepare(accounts, b, reverses).value.metadata)
    ensures Prepare(accounts, a, reverses).value.key == Prepare(accounts, b, reverses).value.key
    ensures SameJournal(Prepare(accounts, a, reverses).value, Prepare(accounts, b, reverses).value)
  {
    PreparedIsGood(accounts, a, reverses);
    LinesIgnoreOrder(a.lines, b.lines);
  }

  // ---------------------------------------------------------------- replays

  /** Two journals whose different canonical texts have the same digest. */
  ghost predicate FingerprintCollision(h: HashFn, p: Prepared, q: Prepared) {
    Collision(h, {Json.CanonicalJson(Payload(p))}, {Json.CanonicalJson(Payload(q))})
  }

  lemma FingerprintIdentifies(h: HashFn, p: Prepared, q: Prepared)
    requires Json.Valid(p.metadata) && Json.Valid(q.metadata)
    ensures Fingerprint(h, Payload(p)) == Fingerprint(h, Payload(q)) <==> SameJournal(p, q) || FingerprintCollision(h, p, q)
  {
    PayloadIdentifies(p, q);
    Json.CanonicalJsonIffSame(Payload(p), Payload(q));
    var x, y := Json.CanonicalJson(Payload(p)), Json.CanonicalJson(Payload(q));
    assert x in {x} && y in {y};
  }

  /** Posting under a key that is taken: nothing is written; the stored journal comes back exactly
      when the input describes the same journal (short of a collision), and otherwise the key is
      refused. */
  lemma ReplayNeverWrites(h: HashFn, t: Tables, id: string, input: PostInput, reverses: Option<string>, j: Stored)
    requires Inv(h, t) && MetadataOk(input.metadata)
    requires FindKey(t.journals, Trim(input.idempotencyKey)) == Some(j)
    ensures PostIn(h, t, id, input, reverses).tables == t
    ensures Json.Valid(j.data.metadata)
    ensures var prepared, r := Prepare(t.accounts, input, reverses), PostIn(h, t, id, input, reverses).result;
            match prepared
            case Err(e) => r == Err(e)
            case Ok(p) =>
              && Json.Valid(p.metadata)
              && (SameJournal(p, j.data) || FingerprintCollision(h, p, j.data) ==> r == Ok(j))
              && (!SameJournal(p, j.data) && !FingerprintCollision(h, p, j.data) ==> r == Err(KeyReused))
  {
    FindKeyIs(t.journals, Trim(input.idempotencyKey));
    var i :| 0 <= i < |t.journals| && t.journals[i] == j;
    assert GoodJournal(h, t.accounts, t.journals[i]);
    if Prepare(t.accounts, input, reverses).Ok? {
      PreparedIsGood(t.accounts, input, reverses);
      FingerprintIdentifies(h, Prepare(t.accounts, input, reverses).value, j.data);
    }
  }

  /** What `post` does after losing the race for its key: look the key up, prepare, compare. */
  function Recover(h: HashFn, t: Tables, input: PostInput): Option<Result<Stored, Error>> {
    match FindKey(t.journals, Trim(input.idempotencyKey))
    case None => None
    case Some(existing) =>
      match Prepare(t.accounts, input, None)
      case Err(e) => Some(Err(e))
      case Ok(p) => Some(if existing.fingerprint != Fingerprint(h, Payload(p)) then Err(KeyReused) else Ok(existing))
  }

  /** Losing the race is no different from having come second. */
  lemma LosingTheRaceIsComingSecond(h: HashFn, t: Tables, id: string, id': string, winner: PostInput, loser: PostInput)
    requires PostIn(h, t, id, winner, None).result.Ok?
    requires Trim(winner.idempotencyKey) == Trim(loser.idempotencyKey)
    ensures var t' := PostIn(h, t, id, winner, None).tables;
            Recover(h, t', loser) == Some(PostIn(h, t', id', loser, None).result)
  {
    PostedIsFound(h, t, id, winner, None);
  }

  lemma FindKeyAppend(journals: seq<Stored>, more: seq<Stored>, key: string)
    requires FindKey(journals, key).Some?
    ensures FindKey(journals + more, key) == FindKey(journals, key)
  {
    if journals[0].data.key != key {
      assert (journals + more)[1..] == journals[1..] + more;
      FindKeyAppend(journals[1..], more, key);
    }
  }

  lemma FindKeyLast(journals: seq<Stored>, j: Stored)
    requires FindKey(journals, j.data.key).None?
    ensures FindKey(journals + [j], j.data.key) == Some(j)
  {
    if journals != [] {
      assert (journals + [j])[1..] == journals[1..] + [j];
      FindKeyLast(journals[1..], j);
    }
  }

  lemma PostedIsFound(h: HashFn, t: Tables, id: string, input: PostInput, reverses: Option<string>)
    requires PostIn(h, t, id, input, reverses).result.Ok?
    ensures var r := PostIn(h, t, id, input, reverses);
            FindKey(r.tables.journals, Trim(input.idempotencyKey)) == Some(r.result.value)
  {
    if FindKey(t.journals, Trim(input.idempotencyKey)).None? {
      FindKeyLast(t.journals, PostIn(h, t, id, input, reverses).result.value);
    }
  }

  // ---------------------------------------------------------------- runs

  datatype Op =
    | Post(id: string, post: PostInput)
    | Reverse(id: string, reverse: ReverseInput)
    | ChangeStatus(index: nat, status: AccountStatus)
    | Open(account: Account)

  /** What the database and the types grant: generated identifiers are new. */
  predicate Legal(t: Tables, op: Op) {
    match op
    case Post(id, input) => FreshId(t, id) && MetadataOk(input.metadata)
    case Reverse(id, input) => FreshId(t, id) && MetadataOk(input.metadata)
    case ChangeStatus(i, _) => i < |t.accounts|
    case Open(a) => FindAccount(t.accounts, a.id).None?
  }

  function Step(h: HashFn, t: Tables, op: Op): Tables
    requires Legal(t, op)
  {
    match op
    case Post(id, input) => PostIn(h, t, id, input, None).tables
    case Reverse(id, input) => ReverseIn(h, t, id, input).tables
    case ChangeStatus(i, status) => SetStatus(t, i, status)
    case Open(a) => t.(accounts := t.accounts + [a])
  }

  predicate LegalRun(h: HashFn, t: Tables, ops: seq<Op>)
    decreases |ops|
  {
    ops != [] ==> Legal(t, ops[0]) && LegalRun(h, Step(h, t, ops[0]), ops[1..])
  }

  function Run(h: HashFn, t: Tables, ops: seq<Op>): Tables
    requires LegalRun(h, t, ops)
    decreases |ops|
  {
    if ops == [] then t else Run(h, Step(h, t, ops[0]), ops[1..])
  }

  lemma {:induction false} FindAccountIs(accounts: seq<Account>, id: string)
    ensures FindAccount(accounts, id).None? <==> forall i :: 0 <= i < |accounts| ==> accounts[i].id != id
  {
    if accounts != [] {
      FindAccountIs(accounts[1..], id);
      assert forall i :: 1 <= i < |accounts| ==> accounts[i] == accounts[1..][i - 1];
    }
  }

  lemma {:induction false} FindAccountAppend(accounts: seq<Account>, a: Account, id: string)
    requires FindAccount(accounts, id).Some?
    ensures FindAccount(accounts + [a], id) == FindAccount(accounts, id)
  {
    if accounts[0].id != id {
      assert (accounts + [a])[1..] == accounts[1..] + [a];
      FindAccountAppend(accounts[1..], a, id);
    }
  }

  /** No operation removes an account or changes its currency. */
  ghost predicate KeepsNaira(t: Tables, u: Tables) {
    forall id :: Naira(t.accounts, id) ==> Naira(u.accounts, id)
  }

  lemma OpenKeepsInv(h: HashFn, t: Tables, a: Account)
    requires Inv(h, t) && FindAccount(t.accounts, a.id).None?
    ensures Inv(h, t.(accounts := t.accounts + [a])) && KeepsNaira(t, t.(accounts := t.accounts + [a]))
  {
    var u := t.(accounts := t.accounts + [a]);
    FindAccountIs(t.accounts, a.id);
    forall id | Naira(t.accounts, id) ensures Naira(u.accounts, id) {
      FindAccountAppend(t.accounts, a, id);
    }
    forall k | 0 <= k < |t.journals| ensures GoodJournal(h, u.accounts, t.journals[k]) {
      assert GoodJournal(h, t.accounts, t.journals[k]);
    }
  }

  /** Every operation keeps the invariant and only ever adds journals. */
  lemma StepKeeps(h: HashFn, t: Tables, op: Op)
    requires Inv(h, t) && Legal(t, op)
    ensures Inv(h, Step(h, t, op)) && t.journals <= Step(h, t, op).journals && KeepsNaira(t, Step(h, t, op))
  {
    match op
    case Post(id, input) =>
      PostKeepsInv(h, t, id, input, None);
      PostOnlyAppends(h, t, id, input, None);
    case Reverse(id, input) =>
      ReverseKeepsInv(h, t, id, input);
      ReverseOnlyAppends(h, t, id, input);
    case ChangeStatus(i, status) =>
      StatusKeepsInv(h, t, i, status);
      forall id ensures Naira(SetStatus(t, i, status).accounts, id) == Naira(t.accounts, id) {
        StatusKeepsNaira(t.accounts, i, status, id);
      }
    case Open(a) => OpenKeepsInv(h, t, a);
  }

  lemma PostOnlyAppends(h: HashFn, t: Tables, id: string, input: PostInput, reverses: Option<string>)
    ensures var u := PostIn(h, t, id, input, reverses).tables; u.accounts == t.accounts && t.journals <= u.journals
  {
  }

  lemma ReverseOnlyAppends(h: HashFn, t: Tables, id: string, input: ReverseInput)
    ensures var u := ReverseIn(h, t, id, input).tables; u.accounts == t.accounts && t.journals <= u.journals
  {
    var original := FindId(t.journals, input.originalId);
    if original.Some? {
      PostOnlyAppends(h, t, id, ReversalInput(original.value, input), Some(original.value.id));
    }
  }

  lemma {:induction false} RunKeeps(h: HashFn, t: Tables, ops: seq<Op>)
    requires Inv(h, t) && LegalRun(h, t, ops)
    ensures Inv(h, Run(h, t, ops)) && t.journals <= Run(h, t, ops).journals && KeepsNaira(t, Run(h, t, ops))
    decreases |ops|
  {
    if ops != [] {
      StepKeeps(h, t, ops[0]);
      RunKeeps(h, Step(h, t, ops[0]), ops[1..]);
    }
  }

  predicate AllActive(accounts: seq<Account>, lines: seq<Line>) {
    forall i :: 0 <= i < |lines| ==> Usable(accounts, lines[i].account)
  }

  /** The only check of an input that time can change is whether its accounts are active. */
  lemma PrepareLater(accounts: seq<Account>, later: seq<Account>, input: PostInput, reverses: Option<string>)
    requires Prepare(accounts, input, reverses).Ok? && MetadataOk(input.metadata)
    requires forall id :: Naira(accounts, id) ==> Naira(later, id)
    ensures Prepare(later, input, reverses)
            == if AllActive(later, Prepare(accounts, input, reverses).value.lines) then Prepare(accounts, input, reverses)
               else Err(AccountNotActive)
  {
    PreparedIsGood(accounts, input, reverses);
    var lines := Prepare(accounts, input, reverses).value.lines;
    NairaAccounts(later, lines);
  }

  lemma NairaAccounts(accounts: seq<Account>, lines: seq<Line>)
    requires lines != [] && forall i :: 0 <= i < |lines| ==> Naira(accounts, lines[i].account)
    ensures AccountsError(accounts, lines) == if AllActive(accounts, lines) then None else Some(AccountNotActive)
  {
    assert Naira(accounts, lines[0].account);
  }

  /** Once posted, a journal answers every later replay of its input, in any order of lines and of
      metadata keys and after any further operations, as long as its accounts are active; the
      replay writes nothing. */
  lemma ReplayAfterAnyRun(h: HashFn, t: Tables, id: string, a: PostInput, ops: seq<Op>, id': string, b: PostInput)
    requires Inv(h, t) && FreshId(t, id) && MetadataOk(a.metadata) && MetadataOk(b.metadata) && Reordered(a, b)
    requires PostIn(h, t, id, a, None).result.Ok? && LegalRun(h, PostIn(h, t, id, a, None).tables, ops)
    ensures var first := PostIn(h, t, id, a, None);
            var u := Run(h, first.tables, ops);
            PostIn(h, u, id', b, None)
            == Outcome(u, if AllActive(u.accounts, Prepare(t.accounts, a, None).value.lines) then first.result
                          else Err(AccountNotActive))
  {
    var first := PostIn(h, t, id, a, None);
    var u := Run(h, first.tables, ops);
    PostKeepsInv(h, t, id, a, None);
    RunKeeps(h, first.tables, ops);
    var j := FirstPost(h, t, id, a, u);
    AnswersReplay(h, t.accounts, a, u, id', b, j);
  }

  /** What the first post leaves behind in any later tables. */
  lemma FirstPost(h: HashFn, t: Tables, id: string, a: PostInput, u: Tables) returns (j: Stored)
    requires PostIn(h, t, id, a, None).result.Ok? && PostIn(h, t, id, a, None).tables.journals <= u.journals
    ensures PostIn(h, t, id, a, None).result == Ok(j) && PostIn(h, t, id, a, None).tables.accounts == t.accounts
    ensures Prepare(t.accounts, a, None).Ok? && j.fingerprint == Fingerprint(h, Payload(Prepare(t.accounts, a, None).value))
    ensures FindKey(u.journals, Trim(a.idempotencyKey)) == Some(j)
  {
    j := PostIn(h, t, id, a, None).result.value;
    PostedIsFound(h, t, id, a, None);
    PostedFingerprint(h, t, id, a);
    FoundLater(PostIn(h, t, id, a, None).tables.journals, u.journals, Trim(a.idempotencyKey));
  }

  lemma FoundLater(journals: seq<Stored>, later: seq<Stored>, key: string)
    requires journals <= later && FindKey(journals, key).Some?
    ensures FindKey(later, key) == FindKey(journals, key)
  {
    assert later == journals + later[|journals|..];
    FindKeyAppend(journals, later[|journals|..], key);
  }

  lemma AnswersReplay(h: HashFn, accounts: seq<Account>, a: PostInput, u: Tables, id: string, b: PostInput, j: Stored)
    requires MetadataOk(a.metadata) && MetadataOk(b.metadata) && Reordered(a, b)
    requires Prepare(accounts, a, None).Ok? && j.fingerprint == Fingerprint(h, Payload(Prepare(accounts, a, None).value))
    requires FindKey(u.journals, Trim(a.idempotencyKey)) == Some(j)
    requires forall id :: Naira(accounts, id) ==> Naira(u.accounts, id)
    ensures PostIn(h, u, id, b, None)
            == Outcome(u, if AllActive(u.accounts, Prepare(accounts, a, None).value.lines) then Ok(j) else Err(AccountNotActive))
  {
    PrepareIgnoresOrder(accounts, a, b, None);
    FingerprintIdentifies(h, Prepare(accounts, a, None).value, Prepare(accounts, b, None).value);
    PrepareLater(accounts, u.accounts, b, None);
    SameFingerprintReplays(h, u, id, b, j);
  }

  lemma PostedFingerprint(h: HashFn, t: Tables, id: string, a: PostInput)
    requires PostIn(h, t, id, a, None).result.Ok?
    ensures PostIn(h, t, id, a, None).result.value.fingerprint == Fingerprint(h, Payload(Prepare(t.accounts, a, None).value))
  {
  }

  lemma SameFingerprintReplays(h: HashFn, t: Tables, id: string, a: PostInput, j: Stored)
    requires FindKey(t.journals, Trim(a.idempotencyKey)) == Some(j)
    requires Prepare(t.accounts, a, None).Ok? ==> Fingerprint(h, Payload(Prepare(t.accounts, a, None).value)) == j.fingerprint
    ensures PostIn(h, t, id, a, None)
            == Outcome(t, if Prepare(t.accounts, a, None).Ok? then Ok(j) else Err(Prepare(t.accounts, a, None).error))
  {
  }
}
