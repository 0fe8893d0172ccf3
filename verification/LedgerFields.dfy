/** What a post stores, field by field from its input, when it is accepted, and when a second post is
    the same as the first. */
module LedgerFields {
  import opened Wrappers
  import opened Hashing
  import opened Journals
  import opened Ledger
  import opened LedgerInput
  import opened LedgerService
  import opened LedgerLaws
  import Json

  // ---------------------------------------------------------------- text

  /** `t` is `s` without the blanks at its ends. */
  predicate CutFrom(s: string, t: string, i: nat, j: nat) {
    && i <= j <= |s| && t == s[i..j] && Trimmed(t)
    && (forall k :: 0 <= k < i ==> IsSpace(s[k])) && (forall k :: j <= k < |s| ==> IsSpace(s[k]))
  }

  lemma {:induction false} TrimStartCuts(s: string) returns (i: nat)
    ensures i <= |s| && TrimStart(s) == s[i..] && forall k :: 0 <= k < i ==> IsSpace(s[k])
  {
    i := 0;
    if s != [] && IsSpace(s[0]) {
      var n := TrimStartCuts(s[1..]);
      assert forall k :: 1 <= k < n + 1 ==> s[k] == s[1..][k - 1];
      i := n + 1;
    }
  }

  lemma {:induction false} TrimEndCuts(s: string) returns (j: nat)
    ensures j <= |s| && TrimEnd(s) == s[..j] && forall k :: j <= k < |s| ==> IsSpace(s[k])
  {
    j := |s|;
    if s != [] && IsSpace(s[|s| - 1]) {
      j := TrimEndCuts(s[..|s| - 1]);
    }
  }

  /** Trimming takes off the blanks at both ends and nothing else. */
  lemma TrimCuts(s: string) returns (i: nat, j: nat)
    ensures CutFrom(s, Trim(s), i, j)
  {
    TrimIs(s);
    i := TrimStartCuts(s);
    var n := TrimEndCuts(s[i..]);
    j := i + n;
    assert forall k :: j <= k < |s| ==> s[k] == s[i..][k - i];
  }

  function MemoOf(memo: Option<string>): Option<string> {
    if memo.None? || Trim(memo.value) == "" then None
    else Some(if |Trim(memo.value)| <= 300 then Trim(memo.value) else Trim(memo.value)[..300])
  }

  function DescriptionOf(text: Option<string>): Option<string> {
    if text.None? || Trim(text.value) == "" then None else Some(Trim(text.value))
  }

  /** The lines of an input as they are to be stored, in the order in which they came. */
  function LinesFrom(input: PostInput): (lines: seq<Line>)
    ensures |lines| == |input.lines|
  {
    seq(|input.lines|, i requires 0 <= i < |input.lines| =>
      Line(Trim(input.lines[i].account), input.lines[i].side, input.lines[i].amount, MemoOf(input.lines[i].memo)))
  }

  lemma LinesAreCleaned(input: PostInput)
    ensures LinesFrom(input) == CleanAll(input.lines)
  {
    assert forall i :: 0 <= i < |input.lines| ==> LinesFrom(input)[i] == Clean(input.lines[i]);
  }

  // ---------------------------------------------------------------- what is accepted and stored

  predicate GoodAccount(accounts: seq<Account>, id: string) {
    exists k :: 0 <= k < |accounts| && accounts[k].id == id && accounts[k].status.Active? && accounts[k].currency == "NGN"
  }

  /** What a post has to satisfy, on its input and the accounts. */
  predicate Acceptable(accounts: seq<Account>, input: PostInput) {
    var lines := LinesFrom(input);
    && 0 < |Trim(input.idempotencyKey)| <= 200 && Trim(input.referenceType) != "" && Trim(input.referenceId) != ""
    && |lines| >= 2
    && (forall i :: 0 <= i < |lines| ==> lines[i].account != "" && 0 < lines[i].amount <= 9_007_199_254_740_991)
    && (forall i, j :: 0 <= i < j < |lines| ==> lines[i].account != lines[j].account)
    && Total(lines, Debit) == Total(lines, Credit) > 0
    && (forall i :: 0 <= i < |lines| ==> GoodAccount(accounts, lines[i].account))
  }

  /** What is stored of an input: every field, and the lines in the order of their accounts. */
  predicate StoresInput(p: Prepared, input: PostInput, reverses: Option<string>) {
    && p.key == Trim(input.idempotencyKey) && p.kind == input.kind
    && p.referenceType == Trim(input.referenceType) && p.referenceId == Trim(input.referenceId)
    && p.description == DescriptionOf(input.description) && p.currency == "NGN" && p.occurredAt == input.occurredAt
    && p.reverses == reverses && p.metadata == (if input.metadata.None? then Json.Null else input.metadata.value)
    && multiset(p.lines) == multiset(LinesFrom(input)) && Ordered(p.lines)
  }

  lemma {:induction false} AccountFound(accounts: seq<Account>, id: string)
    requires DistinctIds(accounts)
    ensures GoodAccount(accounts, id) <==> Usable(accounts, id) && Naira(accounts, id)
  {
    if accounts != [] {
      AccountFound(accounts[1..], id);
      assert GoodAccount(accounts[1..], id) ==> exists k :: 1 <= k < |accounts| && accounts[k] == accounts[1..][k - 1] && accounts[k].id == id
                                                             && accounts[k].status.Active? && accounts[k].currency == "NGN";
      if accounts[0].id != id && GoodAccount(accounts, id) {
        var k :| 0 <= k < |accounts| && accounts[k].id == id && accounts[k].status.Active? && accounts[k].currency == "NGN";
        assert accounts[1..][k - 1] == accounts[k];
      }
    }
  }

  lemma AccountsOkIff(accounts: seq<Account>, lines: seq<Line>)
    requires DistinctIds(accounts) && lines != []
    ensures AccountsError(accounts, lines).None? <==> forall i :: 0 <= i < |lines| ==> GoodAccount(accounts, lines[i].account)
  {
    forall i | 0 <= i < |lines|
      ensures GoodAccount(accounts, lines[i].account) <==> Usable(accounts, lines[i].account) && Naira(accounts, lines[i].account)
    {
      AccountFound(accounts, lines[i].account);
    }
    if forall i :: 0 <= i < |lines| ==> GoodAccount(accounts, lines[i].account) {
      NairaAccounts(accounts, lines);
    } else {
      var i :| 0 <= i < |lines| && !GoodAccount(accounts, lines[i].account);
      assert !Usable(accounts, lines[i].account) || !Naira(accounts, lines[i].account);
    }
  }

  lemma SortedAccounts(accounts: seq<Account>, lines: seq<Line>)
    ensures (forall i :: 0 <= i < |SortLines(lines)| ==> GoodAccount(accounts, SortLines(lines)[i].account))
            <==> (forall i :: 0 <= i < |lines| ==> GoodAccount(accounts, lines[i].account))
  {
    var sorted := SortLines(lines);
    SortKeeps(lines);
    forall i | 0 <= i < |sorted| ensures sorted[i] in lines {
      assert sorted[i] in multiset(sorted);
    }
    forall i | 0 <= i < |lines| ensures lines[i] in sorted {
      assert lines[i] in multiset(lines);
    }
  }

  predicate Balances(accounts: seq<Account>, lines: seq<Line>) {
    lines != [] && Balanced(lines) && Total(lines, Debit) > 0 && AccountsError(accounts, lines).None?
  }

  predicate Headed(input: PostInput) {
    && 0 < |Trim(input.idempotencyKey)| <= 200 && Trim(input.referenceType) != "" && Trim(input.referenceId) != ""
    && |input.lines| >= 2
  }

  lemma ChecksInOrder(accounts: seq<Account>, input: PostInput, reverses: Option<string>)
    ensures var cleaned, r := CheckLines(input.lines, []), Prepare(accounts, input, reverses);
            && (r.Ok? <==> Headed(input) && cleaned.Ok? && Balances(accounts, SortLines(cleaned.value)))
            && (r.Ok? ==> r.value.lines == SortLines(cleaned.value))
  {
    if CheckLines(input.lines, []).Ok? {
      SortKeeps(CheckLines(input.lines, []).value);
      CheckedLength(input.lines, []);
    }
  }

  /** The order of the checks is of no account: all of them have to pass. */
  lemma PreparesIff(accounts: seq<Account>, input: PostInput, reverses: Option<string>)
    ensures var cleaned, r := CleanAll(input.lines), Prepare(accounts, input, reverses);
            && (r.Ok? <==> Headed(input) && LinesOk(cleaned) && Balances(accounts, SortLines(cleaned)))
            && (r.Ok? ==> r.value.lines == SortLines(cleaned))
  {
    ChecksInOrder(accounts, input, reverses);
    CheckLinesIs(input.lines, []);
    assert [] + CleanAll(input.lines) == CleanAll(input.lines);
  }

  lemma SortedIff(accounts: seq<Account>, lines: seq<Line>)
    requires DistinctIds(accounts) && lines != []
    ensures var sorted := SortLines(lines);
            && sorted != [] && Total(sorted, Debit) == Total(lines, Debit) && Total(sorted, Credit) == Total(lines, Credit)
            && (AccountsError(accounts, sorted).None? <==> forall i :: 0 <= i < |lines| ==> GoodAccount(accounts, lines[i].account))
  {
    SortKeeps(lines);
    SortTotals(lines, "", Debit);
    SortTotals(lines, "", Credit);
    SortedAccounts(accounts, lines);
    AccountsOkIff(accounts, SortLines(lines));
  }

  /** An input is accepted exactly when it is acceptable, and then every field of what is prepared is
      the one that came in. */
  lemma PrepareIff(accounts: seq<Account>, input: PostInput, reverses: Option<string>)
    requires DistinctIds(accounts)
    ensures Prepare(accounts, input, reverses).Ok? <==> Acceptable(accounts, input)
    ensures Prepare(accounts, input, reverses).Ok? ==> StoresInput(Prepare(accounts, input, reverses).value, input, reverses)
  {
    LinesAreCleaned(input);
    PreparesIff(accounts, input, reverses);
    if input.lines != [] {
      SortedIff(accounts, CleanAll(input.lines));
    }
    if Prepare(accounts, input, reverses).Ok? {
      FieldsStored(accounts, input, reverses);
    }
  }

  lemma FieldsStored(accounts: seq<Account>, input: PostInput, reverses: Option<string>)
    requires Prepare(accounts, input, reverses).Ok?
    ensures StoresInput(Prepare(accounts, input, reverses).value, input, reverses)
  {
    LinesAreCleaned(input);
    PreparesIff(accounts, input, reverses);
    SortKeeps(CleanAll(input.lines));
    SortOrders(CleanAll(input.lines));
  }

  /** A post under a new key, if the input is acceptable and its total fits the column, adds one journal
      that says what the input says. */
  lemma PostStores(h: HashFn, t: Tables, id: string, input: PostInput, reverses: Option<string>)
    requires DistinctIds(t.accounts) && FindKey(t.journals, Trim(input.idempotencyKey)).None?
    ensures var r := PostIn(h, t, id, input, reverses);
            && (r.result.Ok? <==> Acceptable(t.accounts, input) && Total(LinesFrom(input), Debit) <= 2_147_483_647)
            && (r.result.Ok? ==>
                  && r.tables == t.(journals := t.journals + [r.result.value])
                  && r.result.value.id == id && StoresInput(r.result.value.data, input, reverses)
                  && r.result.value.total == Total(LinesFrom(input), Debit))
            && (r.result.Err? ==> r.tables == t)
  {
    PrepareIff(t.accounts, input, reverses);
    LinesAreCleaned(input);
    if Prepare(t.accounts, input, reverses).Ok? {
      PreparesIff(t.accounts, input, reverses);
      SortTotals(CleanAll(input.lines), "", Debit);
    }
  }

  /** The original's lines with their sides exchanged and a memo that names it. */
  function Exchanged(original: Stored): seq<Line> {
    seq(|original.data.lines|, i requires 0 <= i < |original.data.lines| =>
      Line(original.data.lines[i].account, if original.data.lines[i].side.Debit? then Credit else Debit,
           original.data.lines[i].amount, Some("Reversal of " + original.id)))
  }

  lemma ReversesExchanged(original: Stored, input: ReverseInput)
    ensures ReversalInput(original, input).lines == Exchanged(original)
  {
    MirrorIs(original.data.lines, ReversalMemo(original));
  }

  lemma ReversalPosts(h: HashFn, t: Tables, id: string, input: ReverseInput, original: Stored)
    requires FindId(t.journals, input.originalId) == Some(original) && FindReversal(t.journals, original.id).None?
    ensures ReverseIn(h, t, id, input) == PostIn(h, t, id, ReversalInput(original, input), Some(original.id))
  {
  }

  /** What a reversal stores: the exchanged lines, the reference and metadata of the request, and the
      link to the original. */
  lemma ReversalStores(h: HashFn, t: Tables, id: string, input: ReverseInput, original: Stored)
    requires DistinctIds(t.accounts) && FindId(t.journals, input.originalId) == Some(original)
    requires FindReversal(t.journals, original.id).None? && FindKey(t.journals, Trim(input.idempotencyKey)).None?
    requires ReverseIn(h, t, id, input).result.Ok?
    ensures var j := ReverseIn(h, t, id, input).result.value;
            var post := PostInput(input.idempotencyKey, "REVERSAL", input.referenceType, input.referenceId,
                                  if input.description.Some? then input.description else Some("Reversal of " + original.id),
                                  None, input.metadata, Exchanged(original));
            StoresInput(j.data, post, Some(original.id))
  {
    ReversalPosts(h, t, id, input, original);
    PostStores(h, t, id, ReversalInput(original, input), Some(original.id));
    ReversesExchanged(original, input);
  }

  lemma {:induction false} MirrorIs(lines: seq<Line>, memo: string)
    ensures |Mirror(lines, memo)| == |lines|
    ensures forall i :: 0 <= i < |lines| ==>
              Mirror(lines, memo)[i] == Line(lines[i].account, if lines[i].side.Debit? then Credit else Debit, lines[i].amount, Some(memo))
  {
    if lines != [] {
      MirrorIs(lines[1..], memo);
    }
  }

  // ---------------------------------------------------------------- the same post again

  /** Two inputs that describe the same journal. */
  predicate SameInput(a: PostInput, b: PostInput)
    requires MetadataOk(a.metadata) && MetadataOk(b.metadata)
  {
    && a.kind == b.kind && Trim(a.referenceType) == Trim(b.referenceType) && Trim(a.referenceId) == Trim(b.referenceId)
    && DescriptionOf(a.description) == DescriptionOf(b.description) && a.occurredAt == b.occurredAt
    && Json.Same(MetadataOf(a), MetadataOf(b)) && multiset(LinesFrom(a)) == multiset(LinesFrom(b))
  }

  lemma SameInputIff(accounts: seq<Account>, accounts': seq<Account>, a: PostInput, b: PostInput)
    requires DistinctIds(accounts) && DistinctIds(accounts') && MetadataOk(a.metadata) && MetadataOk(b.metadata)
    requires Prepare(accounts, a, None).Ok? && Prepare(accounts', b, None).Ok?
    ensures var p, q := Prepare(accounts, a, None).value, Prepare(accounts', b, None).value;
            && Json.Valid(p.metadata) && Json.Valid(q.metadata)
            && (SameJournal(p, q) <==> SameInput(a, b))
  {
    PrepareIff(accounts, a, None);
    PrepareIff(accounts', b, None);
    PreparedIsGood(accounts, a, None);
    PreparedIsGood(accounts', b, None);
    LinesAreCleaned(a);
    LinesAreCleaned(b);
    var x, y := CleanAll(a.lines), CleanAll(b.lines);
    if multiset(x) == multiset(y) {
      SortIgnoresOrder(x, y);
    }
  }

  /** After a post and any further operations, an acceptable post under the same key gets the journal of
      the first exactly when the two inputs agree in every field, metadata up to key order and lines up
      to their order, short of a collision; otherwise it is refused. Nothing is written. */
  lemma PostAgainIff(h: HashFn, t: Tables, id: string, a: PostInput, ops: seq<Op>, id': string, b: PostInput)
    requires Inv(h, t) && FreshId(t, id) && MetadataOk(a.metadata) && MetadataOk(b.metadata)
    requires PostIn(h, t, id, a, None).result.Ok? && LegalRun(h, PostIn(h, t, id, a, None).tables, ops)
    requires Trim(a.idempotencyKey) == Trim(b.idempotencyKey)
    requires Acceptable(Run(h, PostIn(h, t, id, a, None).tables, ops).accounts, b)
    ensures var first := PostIn(h, t, id, a, None);
            var u := Run(h, first.tables, ops);
            var again := PostIn(h, u, id', b, None);
            && Prepare(t.accounts, a, None).Ok? && Prepare(u.accounts, b, None).Ok?
            && var collide := FingerprintCollision(h, Prepare(t.accounts, a, None).value, Prepare(u.accounts, b, None).value);
               && (SameInput(a, b) || collide ==> again == Outcome(u, first.result))
               && (!SameInput(a, b) && !collide ==> again == Outcome(u, Err(KeyReused)))
  {
    var first := PostIn(h, t, id, a, None);
    var u := Run(h, first.tables, ops);
    PostKeepsInv(h, t, id, a, None);
    RunKeeps(h, first.tables, ops);
    var j := FirstPost(h, t, id, a, u);
    PrepareIff(u.accounts, b, None);
    SameInputIff(t.accounts, u.accounts, a, b);
    FingerprintIdentifies(h, Prepare(t.accounts, a, None).value, Prepare(u.accounts, b, None).value);
  }
}
