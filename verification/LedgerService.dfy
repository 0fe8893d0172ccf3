/** Posting and reversing: the service that writes the ledger tables. */
module LedgerService {
  import opened Wrappers
  import opened Hashing
  import opened Journals
  import opened Ledger
  import opened LedgerInput
  import Json

  /** A stored journal. The columns of the row are the prepared data it was created from. */
  datatype Stored = Stored(id: string, data: Prepared, total: int, fingerprint: Digest)

  datatype Tables = Tables(accounts: seq<Account>, journals: seq<Stored>)

  datatype Outcome = Outcome(tables: Tables, result: Result<Stored, Error>)

  datatype ReverseInput = ReverseInput(
    originalId: string, idempotencyKey: string, referenceType: string, referenceId: string,
    description: Option<string>, metadata: Option<Json.Json>)

  /** Metadata comes in as a JavaScript object: no key twice. */
  predicate MetadataOk(metadata: Option<Json.Json>) {
    metadata.Some? ==> Json.Valid(metadata.value)
  }

  // ---------------------------------------------------------------- the two operations

  function FindKey(journals: seq<Stored>, key: string): Option<Stored> {
    if journals == [] then None
    else if journals[0].data.key == key then Some(journals[0])
    else FindKey(journals[1..], key)
  }

  function FindId(journals: seq<Stored>, id: string): Option<Stored> {
    if journals == [] then None
    else if journals[0].id == id then Some(journals[0])
    else FindId(journals[1..], id)
  }

  function FindReversal(journals: seq<Stored>, id: string): Option<Stored> {
    if journals == [] then None
    else if journals[0].data.reverses == Some(id) then Some(journals[0])
    else FindReversal(journals[1..], id)
  }

  /** One posting transaction; `id` is the identifier the database generates. */
  function PostIn(h: HashFn, t: Tables, id: string, input: PostInput, reverses: Option<string>): Outcome {
    match Prepare(t.accounts, input, reverses)
    case Err(e) => Outcome(t, Err(e))
    case Ok(p) =>
      var fingerprint := Fingerprint(h, Payload(p));
      match FindKey(t.journals, p.key)
      case Some(existing) =>
        Outcome(t, if existing.fingerprint != fingerprint then Err(KeyReused) else Ok(existing))
      case None =>
        var total := Total(p.lines, Debit);
        if total > MAX_COLUMN then Outcome(t, Err(OutOfRange))
        else
          var journal := Stored(id, p, total, fingerprint);
          Outcome(t.(journals := t.journals + [journal]), Ok(journal))
  }

  function ReversalMemo(original: Stored): string {
    "Reversal of " + original.id
  }

  function ReversalInput(original: Stored, input: ReverseInput): PostInput {
    PostInput(
      input.idempotencyKey, "REVERSAL", input.referenceType, input.referenceId,
      if input.description.Some? then input.description else Some(ReversalMemo(original)),
      None, input.metadata, Mirror(original.data.lines, ReversalMemo(original)))
  }

  function ReverseIn(h: HashFn, t: Tables, id: string, input: ReverseInput): Outcome {
    match FindId(t.journals, input.originalId)
    case None => Outcome(t, Err(OriginalNotFound))
    case Some(original) =>
      match FindReversal(t.journals, original.id)
      case Some(done) =>
        Outcome(t, if done.data.key == Trim(input.idempotencyKey) then Ok(done) else Err(AlreadyReversed))
      case None => PostIn(h, t, id, ReversalInput(original, input), Some(original.id))
  }

  // ---------------------------------------------------------------- what the tables always satisfy

  predicate GoodEntries(accounts: seq<Account>, lines: seq<Line>) {
    && |lines| >= 2 && LinesOk(lines) && Balanced(lines)
    && forall i :: 0 <= i < |lines| ==> Trimmed(lines[i].account) && Naira(accounts, lines[i].account)
  }

  ghost predicate GoodJournal(h: HashFn, accounts: seq<Account>, j: Stored) {
    && GoodEntries(accounts, j.data.lines)
    && 0 < j.total == Total(j.data.lines, Debit) <= MAX_COLUMN
    && Json.Valid(j.data.metadata) && j.fingerprint == Fingerprint(h, Payload(j.data))
  }

  predicate DistinctIds(accounts: seq<Account>) {
    forall i, j :: 0 <= i < j < |accounts| ==> accounts[i].id != accounts[j].id
  }

  predicate UniqueColumns(journals: seq<Stored>) {
    forall i, j :: 0 <= i < j < |journals| ==> journals[i].id != journals[j].id && journals[i].data.key != journals[j].data.key
  }

  /** A reversal cancels its original on every account. */
  ghost predicate Cancels(a: seq<Line>, b: seq<Line>) {
    forall account :: Net(a, account) == -Net(b, account)
  }

  /** Journal `k` reverses the earlier journal `m`. */
  ghost predicate Reverses(journals: seq<Stored>, k: nat, m: nat)
    requires k < |journals| && m < |journals|
  {
    && m < k && journals[k].data.reverses == Some(journals[m].id)
    && Cancels(journals[k].data.lines, journals[m].data.lines)
  }

  ghost predicate GoodReversals(journals: seq<Stored>) {
    && (forall k :: 0 <= k < |journals| && journals[k].data.reverses.Some? ==>
          exists m :: 0 <= m < k && Reverses(journals, k, m))
    && (forall j, k :: 0 <= j < k < |journals| && journals[j].data.reverses.Some? ==>
          journals[j].data.reverses != journals[k].data.reverses)
  }

  ghost predicate Inv(h: HashFn, t: Tables) {
    && DistinctIds(t.accounts)
    && UniqueColumns(t.journals)
    && (forall k :: 0 <= k < |t.journals| ==> GoodJournal(h, t.accounts, t.journals[k]))
    && GoodReversals(t.journals)
  }

  predicate FreshId(t: Tables, id: string) {
    FindId(t.journals, id).None?
  }

  lemma {:induction false} FindKeyIs(journals: seq<Stored>, key: string)
    ensures FindKey(journals, key).None? <==> forall i :: 0 <= i < |journals| ==> journals[i].data.key != key
    ensures FindKey(journals, key).Some? ==>
              exists i :: 0 <= i < |journals| && journals[i] == FindKey(journals, key).value && journals[i].data.key == key
  {
    if journals != [] {
      FindKeyIs(journals[1..], key);
      assert forall i :: 0 <= i < |journals| - 1 ==> journals[1..][i] == journals[i + 1];
      assert forall i :: 1 <= i < |journals| ==> journals[i] == journals[1..][i - 1];
    }
  }

  lemma {:induction false} FindIdIs(journals: seq<Stored>, id: string)
    ensures FindId(journals, id).None? <==> forall i :: 0 <= i < |journals| ==> journals[i].id != id
    ensures FindId(journals, id).Some? ==>
              exists i :: 0 <= i < |journals| && journals[i] == FindId(journals, id).value && journals[i].id == id
  {
    if journals != [] {
      FindIdIs(journals[1..], id);
      assert forall i :: 0 <= i < |journals| - 1 ==> journals[1..][i] == journals[i + 1];
      assert forall i :: 1 <= i < |journals| ==> journals[i] == journals[1..][i - 1];
    }
  }

  lemma {:induction false} FindReversalIs(journals: seq<Stored>, id: string)
    ensures FindReversal(journals, id).None? <==> forall i :: 0 <= i < |journals| ==> journals[i].data.reverses != Some(id)
    ensures FindReversal(journals, id).Some? ==>
              exists i :: 0 <= i < |journals| && journals[i] == FindReversal(journals, id).value
                          && journals[i].data.reverses == Some(id)
  {
    if journals != [] {
      FindReversalIs(journals[1..], id);
      assert forall i :: 0 <= i < |journals| - 1 ==> journals[1..][i] == journals[i + 1];
      assert forall i :: 1 <= i < |journals| ==> journals[i] == journals[1..][i - 1];
    }
  }

  lemma SortedMember(lines: seq<Line>, i: nat)
    requires i < |SortLines(lines)|
    ensures SortLines(lines)[i] in lines
  {
    SortKeeps(lines);
    assert SortLines(lines)[i] in multiset(SortLines(lines));
  }

  lemma SortedLinesOk(lines: seq<Line>)
    requires LinesOk(lines)
    ensures LinesOk(SortLines(lines)) && |SortLines(lines)| == |lines|
  {
    var a := SortLines(lines);
    SortKeeps(lines);
    SortOrders(lines);
    forall i | 0 <= i < |a| ensures LineOk(a[i]) {
      SortedMember(lines, i);
    }
    forall i, j | 0 <= i < j < |a| ensures a[i].account != a[j].account {
      SortedMember(lines, i);
      SortedMember(lines, j);
      var x :| 0 <= x < |lines| && lines[x] == a[i];
      var y :| 0 <= y < |lines| && lines[y] == a[j];
      Json.LessTotal(SortKey(a[i]), SortKey(a[i]));
      assert x != y;
    }
  }

  lemma CleanedAreTrimmed(lines: seq<Line>, i: nat)
    requires i < |SortLines(CleanAll(lines))|
    ensures Trimmed(SortLines(CleanAll(lines))[i].account)
  {
    SortedMember(CleanAll(lines), i);
    var k :| 0 <= k < |lines| && CleanAll(lines)[k] == SortLines(CleanAll(lines))[i];
    TrimIs(lines[k].account);
  }

  lemma UsableAccounts(accounts: seq<Account>, lines: seq<Line>)
    requires lines != []
    ensures AccountsError(accounts, lines).None? <==>
              forall i :: 0 <= i < |lines| ==> Usable(accounts, lines[i].account) && Naira(accounts, lines[i].account)
  {
  }

  /** What a successful preparation guarantees. */
  lemma PreparedIsGood(accounts: seq<Account>, input: PostInput, reverses: Option<string>)
    requires Prepare(accounts, input, reverses).Ok? && MetadataOk(input.metadata)
    ensures var p := Prepare(accounts, input, reverses).value;
            && GoodEntries(accounts, p.lines) && Total(p.lines, Debit) > 0
            && Json.Valid(p.metadata)
            && p.key == Trim(input.idempotencyKey) != [] && p.reverses == reverses
            && LinesOk(CleanAll(input.lines)) && p.lines == SortLines(CleanAll(input.lines))
  {
    var cleaned := CleanAll(input.lines);
    CheckLinesIs(input.lines, []);
    assert [] + cleaned == cleaned;
    SortedLinesOk(cleaned);
    UsableAccounts(accounts, SortLines(cleaned));
    forall i | 0 <= i < |SortLines(cleaned)| ensures Trimmed(SortLines(cleaned)[i].account) {
      CleanedAreTrimmed(input.lines, i);
    }
  }

  // ---------------------------------------------------------------- every step keeps the invariant

  lemma AppendUnique(journals: seq<Stored>, j: Stored)
    requires UniqueColumns(journals) && FindKey(journals, j.data.key).None? && FindId(journals, j.id).None?
    ensures UniqueColumns(journals + [j])
  {
    FindKeyIs(journals, j.data.key);
    FindIdIs(journals, j.id);
  }

  lemma AppendReversals(journals: seq<Stored>, j: Stored)
    requires GoodReversals(journals)
    requires match j.data.reverses
             case None => true
             case Some(id) =>
               && FindReversal(journals, id).None?
               && exists m :: 0 <= m < |journals| && journals[m].id == id && Cancels(j.data.lines, journals[m].data.lines)
    ensures GoodReversals(journals + [j])
  {
    var js := journals + [j];
    forall k | 0 <= k < |js| && js[k].data.reverses.Some?
      ensures exists m :: 0 <= m < k && Reverses(js, k, m)
    {
      if k < |journals| {
        var m :| 0 <= m < k && Reverses(journals, k, m);
        assert Reverses(js, k, m);
      } else {
        var id := j.data.reverses.value;
        var m :| 0 <= m < |journals| && journals[m].id == id && Cancels(j.data.lines, journals[m].data.lines);
        assert Reverses(js, k, m);
      }
    }
    if j.data.reverses.Some? {
      FindReversalIs(journals, j.data.reverses.value);
    }
  }

  lemma PostKeepsInv(h: HashFn, t: Tables, id: string, input: PostInput, reverses: Option<string>)
    requires Inv(h, t) && FreshId(t, id) && MetadataOk(input.metadata)
    requires reverses.Some? ==>
               && FindReversal(t.journals, reverses.value).None?
               && exists m :: 0 <= m < |t.journals| && t.journals[m].id == reverses.value
                              && Cancels(SortLines(CleanAll(input.lines)), t.journals[m].data.lines)
    ensures Inv(h, PostIn(h, t, id, input, reverses).tables)
  {
    if PostIn(h, t, id, input, reverses).tables != t {
      var j := PostedJournal(h, t, id, input, reverses);
      AppendUnique(t.journals, j);
      AppendReversals(t.journals, j);
    }
  }

  /** A post that writes appends one good journal under a new key. */
  lemma PostedJournal(h: HashFn, t: Tables, id: string, input: PostInput, reverses: Option<string>) returns (j: Stored)
    requires MetadataOk(input.metadata) && PostIn(h, t, id, input, reverses).tables != t
    ensures PostIn(h, t, id, input, reverses) == Outcome(t.(journals := t.journals + [j]), Ok(j))
    ensures GoodJournal(h, t.accounts, j) && FindKey(t.journals, j.data.key).None?
    ensures j.id == id && j.data.reverses == reverses && j.data.lines == SortLines(CleanAll(input.lines))
  {
    j := PostIn(h, t, id, input, reverses).result.value;
    PreparedIsGood(t.accounts, input, reverses);
  }

  lemma MirroredTotals(lines: seq<Line>, memo: string, account: string, side: Side)
    requires forall i :: 0 <= i < |lines| ==> Trimmed(lines[i].account)
    ensures var mirrored := SortLines(CleanAll(Mirror(lines, memo)));
            && Total(mirrored, side) == Total(lines, Other(side))
            && AccountTotal(mirrored, account, side) == AccountTotal(lines, account, Other(side))
  {
    SortTotals(CleanAll(Mirror(lines, memo)), account, side);
    CleanTotals(Mirror(lines, memo), account, side);
    MirrorTotals(lines, memo, account, side);
  }

  /** The lines a reversal would post cancel the original's, and pass every structural check. */
  lemma ReversalLines(accounts: seq<Account>, original: Stored)
    requires GoodEntries(accounts, original.data.lines)
    ensures var lines := CleanAll(Mirror(original.data.lines, ReversalMemo(original)));
            && LinesOk(lines) && Balanced(SortLines(lines)) && Total(SortLines(lines), Debit) == Total(original.data.lines, Debit)
            && (forall i :: 0 <= i < |lines| ==> lines[i].account == original.data.lines[i].account)
            && Cancels(SortLines(lines), original.data.lines)
  {
    var memo := ReversalMemo(original);
    var mirror := Mirror(original.data.lines, memo);
    var lines := CleanAll(mirror);
    forall i | 0 <= i < |lines| ensures lines[i].account == original.data.lines[i].account && LineOk(lines[i]) {
      TrimIs(mirror[i].account);
    }
    forall account, side
      ensures AccountTotal(SortLines(lines), account, side) == AccountTotal(original.data.lines, account, Other(side))
    {
      MirroredTotals(original.data.lines, memo, account, side);
    }
    forall account ensures Net(SortLines(lines), account) == -Net(original.data.lines, account) {
      assert AccountTotal(SortLines(lines), account, Debit) == AccountTotal(original.data.lines, account, Other(Debit));
      assert AccountTotal(SortLines(lines), account, Credit) == AccountTotal(original.data.lines, account, Other(Credit));
    }
    MirroredTotals(original.data.lines, memo, "", Debit);
    MirroredTotals(original.data.lines, memo, "", Credit);
  }

  lemma ReverseKeepsInv(h: HashFn, t: Tables, id: string, input: ReverseInput)
    requires Inv(h, t) && FreshId(t, id) && MetadataOk(input.metadata)
    ensures Inv(h, ReverseIn(h, t, id, input).tables)
  {
    FindIdIs(t.journals, input.originalId);
    if FindId(t.journals, input.originalId).Some? {
      var original := FindId(t.journals, input.originalId).value;
      var m :| 0 <= m < |t.journals| && t.journals[m] == original && original.id == input.originalId;
      assert GoodJournal(h, t.accounts, original);
      ReversalLines(t.accounts, original);
      if FindReversal(t.journals, original.id).None? {
        PostKeepsInv(h, t, id, ReversalInput(original, input), Some(original.id));
      }
    }
  }

  /** Freezing, thawing or closing an account. */
  function SetStatus(t: Tables, i: nat, status: AccountStatus): Tables
    requires i < |t.accounts|
  {
    t.(accounts := t.accounts[i := t.accounts[i].(status := status)])
  }

  lemma {:induction false} StatusKeepsNaira(accounts: seq<Account>, i: nat, status: AccountStatus, id: string)
    requires i < |accounts|
    ensures Naira(accounts[i := accounts[i].(status := status)], id) == Naira(accounts, id)
  {
    var b := accounts[i := accounts[i].(status := status)];
    if i > 0 {
      assert b[1..] == accounts[1..][i - 1 := accounts[1..][i - 1].(status := status)];
      StatusKeepsNaira(accounts[1..], i - 1, status, id);
    } else {
      assert b[1..] == accounts[1..];
    }
  }

  lemma StatusKeepsInv(h: HashFn, t: Tables, i: nat, status: AccountStatus)
    requires Inv(h, t) && i < |t.accounts|
    ensures Inv(h, SetStatus(t, i, status))
  {
    var t' := SetStatus(t, i, status);
    forall k | 0 <= k < |t.journals| ensures GoodJournal(h, t'.accounts, t.journals[k]) {
      assert GoodJournal(h, t.accounts, t.journals[k]);
      var lines := t.journals[k].data.lines;
      forall n | 0 <= n < |lines| ensures Naira(t'.accounts, lines[n].account) {
        StatusKeepsNaira(t.accounts, i, status, lines[n].account);
      }
    }
  }

  // ---------------------------------------------------------------- the service

  class Service {
    const h: HashFn
    var accounts: seq<Account>
    var journals: seq<Stored>

    function View(): Tables
      reads this
    {
      Tables(accounts, journals)
    }

    ghost predicate Valid()
      reads this
    {
      Inv(h, View())
    }

    constructor (h: HashFn, accounts: seq<Account>)
      requires DistinctIds(accounts)
      ensures Valid() && this.h == h && View() == Tables(accounts, [])
    {
      this.h, this.accounts, journals := h, accounts, [];
    }

    /** The validation of `prepare`: one pass over the lines with the set of accounts seen. */
    method PrepareInput(input: PostInput, reverses: Option<string>) returns (r: Result<Prepared, Error>)
      ensures r == Prepare(accounts, input, reverses)
    {
      var key := Trim(input.idempotencyKey);
      var referenceType := Trim(input.referenceType);
      var referenceId := Trim(input.referenceId);
      if key == [] {
        return Err(KeyRequired);
      }
      if |key| > 200 {
        return Err(KeyTooLong);
      }
      if referenceType == [] || referenceId == [] {
        return Err(ReferenceRequired);
      }
      if |input.lines| < 2 {
        return Err(TooFewLines);
      }
      var cleaned := CheckInputLines(input.lines);
      if cleaned.Err? {
        return Err(cleaned.error);
      }
      CheckedLength(input.lines, []);
      SortKeeps(cleaned.value);
      var lines := SortLines(cleaned.value);
      var debit, credit := CalculateLedgerTotals(lines);
      if debit != credit {
        return Err(Unbalanced);
      }
      if debit <= 0 {
        return Err(EmptyTotal);
      }
      var e := AccountsError(accounts, lines);
      if e.Some? {
        return Err(e.value);
      }
      var metadata := if input.metadata.None? then Json.Null else input.metadata.value;
      return Ok(Prepared(key, input.kind, referenceType, referenceId, CleanText(input.description),
                         "NGN", input.occurredAt, reverses, metadata, lines));
    }

    method Post(id: string, input: PostInput) returns (r: Result<Stored, Error>)
      requires Valid() && FreshId(View(), id) && MetadataOk(input.metadata)
      modifies this`journals
      ensures Valid()
      ensures Outcome(View(), r) == PostIn(h, old(View()), id, input, None)
    {
      PostKeepsInv(h, View(), id, input, None);
      r := PostInternal(id, input, None);
    }

    method Reverse(id: string, input: ReverseInput) returns (r: Result<Stored, Error>)
      requires Valid() && FreshId(View(), id) && MetadataOk(input.metadata)
      modifies this`journals
      ensures Valid()
      ensures Outcome(View(), r) == ReverseIn(h, old(View()), id, input)
    {
      ReverseKeepsInv(h, View(), id, input);
      var original := FindId(journals, input.originalId);
      if original.None? {
        return Err(OriginalNotFound);
      }
      var alreadyReversed := FindReversal(journals, original.value.id);
      if alreadyReversed.Some? {
        if alreadyReversed.value.data.key == Trim(input.idempotencyKey) {
          return Ok(alreadyReversed.value);
        }
        return Err(AlreadyReversed);
      }
      r := PostInternal(id, ReversalInput(original.value, input), Some(original.value.id));
    }

    method PostInternal(id: string, input: PostInput, reverses: Option<string>) returns (r: Result<Stored, Error>)
      modifies this`journals
      ensures Outcome(View(), r) == PostIn(h, old(View()), id, input, reverses)
    {
      var prepared := PrepareInput(input, reverses);
      if prepared.Err? {
        return Err(prepared.error);
      }
      var p := prepared.value;
      var fingerprint := Fingerprint(h, Payload(p));
      var existing := FindKey(journals, p.key);
      if existing.Some? {
        if existing.value.fingerprint != fingerprint {
          return Err(KeyReused);
        }
        return Ok(existing.value);
      }
      var total, _ := CalculateLedgerTotals(p.lines);
      if total > MAX_COLUMN {
        return Err(OutOfRange);
      }
      var journal := Stored(id, p, total, fingerprint);
      journals := journals + [journal];
      return Ok(journal);
    }
  }

  method CheckInputLines(raw: seq<Line>) returns (r: Result<seq<Line>, Error>)
    ensures r == CheckLines(raw, [])
  {
    var lines: seq<Line> := [];
    var seenAccounts: set<string> := {};
    for i := 0 to |raw|
      invariant |lines| == i && seenAccounts == AccountsOf(lines)
      invariant CheckLines(raw, []) == CheckLines(raw[i..], lines)
    {
      var l := Clean(raw[i]);
      assert raw[i..][1..] == raw[i + 1..];
      if l.account == [] {
        return Err(AccountIdRequired);
      }
      if l.account in seenAccounts {
        return Err(RepeatedAccount);
      }
      seenAccounts := seenAccounts + {l.account};
      if !(0 < l.amount <= MAX_SAFE_INTEGER) {
        return Err(BadAmount);
      }
      AccountsOfAppend(lines, l);
      lines := lines + [l];
    }
    return Ok(lines);
  }

  lemma AccountsOfAppend(lines: seq<Line>, l: Line)
    ensures AccountsOf(lines + [l]) == AccountsOf(lines) + {l.account}
  {
    var all := lines + [l];
    assert forall i :: 0 <= i < |lines| ==> all[i] == lines[i];
    assert all[|lines|] == l;
  }

  method CalculateLedgerTotals(lines: seq<Line>) returns (debitNgn: int, creditNgn: int)
    ensures debitNgn == Total(lines, Debit) && creditNgn == Total(lines, Credit)
  {
    debitNgn, creditNgn := 0, 0;
    for i := 0 to |lines|
      invariant debitNgn + Total(lines[i..], Debit) == Total(lines, Debit)
      invariant creditNgn + Total(lines[i..], Credit) == Total(lines, Credit)
    {
      assert lines[i..][1..] == lines[i + 1..];
      if lines[i].side == Debit {
        debitNgn := debitNgn + lines[i].amount;
      } else {
        creditNgn := creditNgn + lines[i].amount;
      }
    }
  }
}
