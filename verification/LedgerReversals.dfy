/** Reversal, the only correction the ledger has. */
module LedgerReversals {
  import opened Wrappers
  import opened Hashing
  import opened Journals
  import opened Ledger
  import opened LedgerInput
  import opened LedgerService
  import opened LedgerLaws
  import Json

  // ---------------------------------------------------------------- a reversal is well formed

  /** What the caller of `reverse` is responsible for. */
  predicate RequestOk(input: ReverseInput) {
    && 0 < |Trim(input.idempotencyKey)| <= 200
    && Trim(input.referenceType) != [] && Trim(input.referenceId) != []
  }

  predicate RequestRefused(e: Error) {
    e.KeyRequired? || e.KeyTooLong? || e.ReferenceRequired? || e.AccountNotActive?
  }

  /** The lines built from a stored journal pass every check on lines, so a reversal is refused for
      its own key or reference, or because one of its accounts is not active, and for no other
      reason. */
  lemma ReversalIsWellFormed(accounts: seq<Account>, original: Stored, input: ReverseInput)
    requires GoodEntries(accounts, original.data.lines) && Total(original.data.lines, Debit) > 0
    ensures var p := Prepare(accounts, ReversalInput(original, input), Some(original.id));
            && (p.Ok? <==> RequestOk(input) && AllActive(accounts, original.data.lines))
            && (p.Err? ==> RequestRefused(p.error))
            && (p.Ok? ==> Total(p.value.lines, Debit) == Total(original.data.lines, Debit)
                          && Cancels(p.value.lines, original.data.lines))
  {
    var raw := Mirror(original.data.lines, ReversalMemo(original));
    var lines := CleanAll(raw);
    ReversalLines(accounts, original);
    CheckLinesIs(raw, []);
    assert [] + lines == lines;
    SortKeeps(lines);
    SameAccounts(accounts, original.data.lines, SortLines(lines), lines);
    PrepareWellFormed(accounts, ReversalInput(original, input), Some(original.id), lines);
  }

  lemma PrepareWellFormed(accounts: seq<Account>, input: PostInput, reverses: Option<string>, lines: seq<Line>)
    requires |input.lines| >= 2 && CheckLines(input.lines, []) == Ok(lines)
    requires Balanced(SortLines(lines)) && Total(SortLines(lines), Debit) > 0 && SortLines(lines) != []
    requires forall i :: 0 <= i < |SortLines(lines)| ==> Naira(accounts, SortLines(lines)[i].account)
    ensures var p := Prepare(accounts, input, reverses);
            && (p.Ok? <==>
                  && 0 < |Trim(input.idempotencyKey)| <= 200
                  && Trim(input.referenceType) != [] && Trim(input.referenceId) != []
                  && AllActive(accounts, SortLines(lines)))
            && (p.Err? ==> RequestRefused(p.error))
            && (p.Ok? ==> p.value.lines == SortLines(lines))
  {
    NairaAccounts(accounts, SortLines(lines));
  }

  lemma SameAccounts(accounts: seq<Account>, entries: seq<Line>, sorted: seq<Line>, lines: seq<Line>)
    requires |lines| == |entries| && multiset(sorted) == multiset(lines)
    requires forall i :: 0 <= i < |lines| ==> lines[i].account == entries[i].account
    requires forall i :: 0 <= i < |entries| ==> Naira(accounts, entries[i].account)
    ensures forall i :: 0 <= i < |sorted| ==> Naira(accounts, sorted[i].account)
    ensures AllActive(accounts, sorted) <==> AllActive(accounts, entries)
  {
    forall i | 0 <= i < |sorted|
      ensures Naira(accounts, sorted[i].account)
      ensures AllActive(accounts, entries) ==> Usable(accounts, sorted[i].account)
    {
      var k := Position(sorted, lines, i);
    }
    if AllActive(accounts, sorted) {
      forall k | 0 <= k < |entries| ensures Usable(accounts, entries[k].account) {
        var i := Position(lines, sorted, k);
      }
    }
  }

  lemma Position<T>(a: seq<T>, b: seq<T>, i: nat) returns (k: nat)
    requires multiset(a) == multiset(b) && i < |a|
    ensures k < |b| && b[k] == a[i]
  {
    assert a[i] in multiset(b);
    k :| 0 <= k < |b| && b[k] == a[i];
  }

  lemma OriginalIsGood(h: HashFn, t: Tables, id: string) returns (m: nat)
    requires Inv(h, t) && FindId(t.journals, id).Some?
    ensures m < |t.journals| && t.journals[m] == FindId(t.journals, id).value && t.journals[m].id == id
    ensures GoodJournal(h, t.accounts, t.journals[m])
  {
    FindIdIs(t.journals, id);
    m :| 0 <= m < |t.journals| && t.journals[m] == FindId(t.journals, id).value && t.journals[m].id == id;
  }

  /** Every way in which reversing an existing journal can fail; a failure writes nothing. */
  lemma ReversalErrors(h: HashFn, t: Tables, id: string, input: ReverseInput)
    requires Inv(h, t) && FindId(t.journals, input.originalId).Some?
    ensures var r := ReverseIn(h, t, id, input);
            r.result.Err? ==>
              && r.tables == t
              && (r.result.error.AlreadyReversed? || r.result.error.KeyReused? || RequestRefused(r.result.error))
  {
    var m := OriginalIsGood(h, t, input.originalId);
    ReversalPostErrors(h, t, id, t.journals[m], input);
    ReverseIsAPost(h, t, id, input, t.journals[m]);
  }

  lemma ReverseIsAPost(h: HashFn, t: Tables, id: string, input: ReverseInput, original: Stored)
    requires FindId(t.journals, input.originalId) == Some(original)
    ensures var done := FindReversal(t.journals, original.id);
            ReverseIn(h, t, id, input)
            == if done.None? then PostIn(h, t, id, ReversalInput(original, input), Some(original.id))
               else Outcome(t, if done.value.data.key == Trim(input.idempotencyKey) then Ok(done.value) else Err(AlreadyReversed))
  {
  }

  lemma ReversalPostErrors(h: HashFn, t: Tables, id: string, original: Stored, input: ReverseInput)
    requires GoodJournal(h, t.accounts, original)
    ensures var r := PostIn(h, t, id, ReversalInput(original, input), Some(original.id));
            r.result.Err? ==>
              && r.tables == t
              && (r.result.error.KeyReused? || RequestRefused(r.result.error))
  {
    ReversalIsWellFormed(t.accounts, original, input);
    PostErrors(h, t, id, ReversalInput(original, input), Some(original.id));
  }

  lemma PostErrors(h: HashFn, t: Tables, id: string, input: PostInput, reverses: Option<string>)
    ensures var p, r := Prepare(t.accounts, input, reverses), PostIn(h, t, id, input, reverses);
            r.result.Err? ==>
              && r.tables == t
              && if p.Err? then r.result.error == p.error
                 else r.result.error == KeyReused || (r.result.error == OutOfRange && Total(p.value.lines, Debit) > MAX_COLUMN)
  {
  }

  // ---------------------------------------------------------------- its effect

  /** The ledger entries of all journals. */
  function Entries(journals: seq<Stored>): seq<Line> {
    if journals == [] then [] else journals[0].data.lines + Entries(journals[1..])
  }

  lemma {:induction false} EntriesAppend(journals: seq<Stored>, j: Stored)
    ensures Entries(journals + [j]) == Entries(journals) + j.data.lines
  {
    if journals == [] {
      assert journals + [j] == [j] && [j][1..] == [];
      assert Entries([j]) == j.data.lines + [];
    } else {
      assert (journals + [j])[1..] == journals[1..] + [j];
      EntriesAppend(journals[1..], j);
      Regroup(journals[0].data.lines, Entries(journals[1..]), j.data.lines);
    }
  }

  /** Reversing takes exactly the original's effect off every account. */
  lemma ReversalUndoesOriginal(h: HashFn, t: Tables, id: string, input: ReverseInput, account: string)
    requires Inv(h, t) && FindId(t.journals, input.originalId).Some?
    ensures var r := ReverseIn(h, t, id, input);
            r.tables == t ||
            Net(Entries(r.tables.journals), account)
            == Net(Entries(t.journals), account) - Net(FindId(t.journals, input.originalId).value.data.lines, account)
  {
    var r := ReverseIn(h, t, id, input);
    if r.tables != t {
      var m := OriginalIsGood(h, t, input.originalId);
      var original := t.journals[m];
      ReversalIsWellFormed(t.accounts, original, input);
      var j := r.result.value;
      assert r.tables.journals == t.journals + [j];
      EntriesAppend(t.journals, j);
      NetConcat(Entries(t.journals), j.data.lines, account);
      assert Net(j.data.lines, account) == -Net(original.data.lines, account);
    }
  }

  // ---------------------------------------------------------------- once only

  lemma FindIdAppend(journals: seq<Stored>, more: seq<Stored>, id: string)
    requires FindId(journals, id).Some?
    ensures FindId(journals + more, id) == FindId(journals, id)
  {
    if journals[0].id != id {
      assert (journals + more)[1..] == journals[1..] + more;
      FindIdAppend(journals[1..], more, id);
    }
  }

  lemma FindReversalAppend(journals: seq<Stored>, more: seq<Stored>, id: string)
    requires FindReversal(journals, id).Some?
    ensures FindReversal(journals + more, id) == FindReversal(journals, id)
  {
    if journals[0].data.reverses != Some(id) {
      assert (journals + more)[1..] == journals[1..] + more;
      FindReversalAppend(journals[1..], more, id);
    }
  }

  lemma FindReversalLast(journals: seq<Stored>, j: Stored, id: string)
    requires FindReversal(journals, id).None? && j.data.reverses == Some(id)
    ensures FindReversal(journals + [j], id) == Some(j)
  {
    if journals != [] {
      assert (journals + [j])[1..] == journals[1..] + [j];
      FindReversalLast(journals[1..], j, id);
    }
  }

  /** A successful reversal is on record as the reversal of its original. The one exception would be
      a key already taken by another journal with the same fingerprint. */
  lemma ReversalIsOnRecord(h: HashFn, t: Tables, id: string, input: ReverseInput)
    requires Inv(h, t) && MetadataOk(input.metadata) && ReverseIn(h, t, id, input).result.Ok?
    ensures var r := ReverseIn(h, t, id, input);
            var original := FindId(t.journals, input.originalId);
            && original.Some?
            && (|| (FindReversal(r.tables.journals, input.originalId) == Some(r.result.value)
                    && r.result.value.data.key == Trim(input.idempotencyKey))
                || (r.tables == t && exists p :: FingerprintCollision(h, p, r.result.value.data)))
  {
    var m := OriginalIsGood(h, t, input.originalId);
    var original := t.journals[m];
    FindReversalIs(t.journals, input.originalId);
    if FindReversal(t.journals, input.originalId).None? {
      PostedReversal(h, t, id, ReversalInput(original, input), input.originalId);
    }
  }

  lemma PostedReversal(h: HashFn, t: Tables, id: string, post: PostInput, originalId: string)
    requires Inv(h, t) && MetadataOk(post.metadata) && FindReversal(t.journals, originalId).None?
    requires PostIn(h, t, id, post, Some(originalId)).result.Ok?
    ensures var r := PostIn(h, t, id, post, Some(originalId));
            || (FindReversal(r.tables.journals, originalId) == Some(r.result.value)
                && r.result.value.data.key == Trim(post.idempotencyKey))
            || (r.tables == t && exists p :: FingerprintCollision(h, p, r.result.value.data))
  {
    PostedIsFound(h, t, id, post, Some(originalId));
    if FindKey(t.journals, Trim(post.idempotencyKey)).Some? {
      KeyTakenByAnother(h, t, id, post, originalId);
    } else {
      FindReversalLast(t.journals, PostIn(h, t, id, post, Some(originalId)).result.value, originalId);
    }
  }

  lemma KeyTakenByAnother(h: HashFn, t: Tables, id: string, post: PostInput, originalId: string)
    requires Inv(h, t) && MetadataOk(post.metadata) && FindReversal(t.journals, originalId).None?
    requires FindKey(t.journals, Trim(post.idempotencyKey)).Some? && PostIn(h, t, id, post, Some(originalId)).result.Ok?
    ensures var r := PostIn(h, t, id, post, Some(originalId));
            r.tables == t && exists p :: FingerprintCollision(h, p, r.result.value.data)
  {
    var key := Trim(post.idempotencyKey);
    var j := FindKey(t.journals, key).value;
    FindKeyIs(t.journals, key);
    FindReversalIs(t.journals, originalId);
    assert j.data.reverses != Some(originalId) && GoodJournal(h, t.accounts, j);
    SameFingerprintOtherReversal(h, t, id, post, originalId, j);
  }

  lemma SameFingerprintOtherReversal(h: HashFn, t: Tables, id: string, post: PostInput, originalId: string, j: Stored)
    requires MetadataOk(post.metadata) && j.data.reverses != Some(originalId) && GoodJournal(h, t.accounts, j)
    requires FindKey(t.journals, Trim(post.idempotencyKey)) == Some(j) && PostIn(h, t, id, post, Some(originalId)).result.Ok?
    ensures PostIn(h, t, id, post, Some(originalId)) == Outcome(t, Ok(j))
    ensures exists p :: FingerprintCollision(h, p, j.data)
  {
    var p := Prepare(t.accounts, post, Some(originalId)).value;
    PreparedIsGood(t.accounts, post, Some(originalId));
    FingerprintIdentifies(h, p, j.data);
    assert FingerprintCollision(h, p, j.data);
  }

  /** Once a journal is reversed it stays reversed by that journal: after any further operations the
      same key gets the same answer, whatever has become of the accounts, any other key is refused,
      and nothing is written. */
  lemma ReversedOnceForAll(h: HashFn, t: Tables, reversal: Stored, ops: seq<Op>, id: string, input: ReverseInput)
    requires Inv(h, t) && LegalRun(h, t, ops)
    requires FindId(t.journals, input.originalId).Some? && FindReversal(t.journals, input.originalId) == Some(reversal)
    ensures var u := Run(h, t, ops);
            ReverseIn(h, u, id, input)
            == Outcome(u, if reversal.data.key == Trim(input.idempotencyKey) then Ok(reversal) else Err(AlreadyReversed))
  {
    RunKeeps(h, t, ops);
    StaysReversed(t.journals, Run(h, t, ops).journals, input.originalId);
  }

  lemma StaysReversed(journals: seq<Stored>, later: seq<Stored>, id: string)
    requires journals <= later && FindId(journals, id).Some? && FindReversal(journals, id).Some?
    ensures FindId(later, id) == FindId(journals, id) && FindId(later, id).value.id == id
    ensures FindReversal(later, id) == FindReversal(journals, id)
  {
    var more := later[|journals|..];
    assert later == journals + more;
    FindIdAppend(journals, more, id);
    FindReversalAppend(journals, more, id);
    FindIdIs(journals, id);
  }

  // ---------------------------------------------------------------- chains of reversals

  /** Following the links from a journal to what it reverses ends at an ordinary journal, because
      every link points backwards. `depth` counts the links. */
  ghost function Chain(journals: seq<Stored>, k: nat): (c: (nat, nat))
    requires GoodReversals(journals) && k < |journals|
    ensures c.0 <= k && journals[c.0].data.reverses.None?
    ensures c.1 <= k && (c.1 == 0 <==> journals[k].data.reverses.None?)
    decreases k
  {
    if journals[k].data.reverses.None? then (k, 0)
    else
      var m: nat :| m < k && Reverses(journals, k, m);
      var c := Chain(journals, m);
      (c.0, c.1 + 1)
  }

  function Switched(times: nat, effect: int): int {
    if times == 0 then effect else -Switched(times - 1, effect)
  }

  /** A chain only ever switches the journal at its root off and on again. */
  lemma {:induction false} ChainsAlternate(journals: seq<Stored>, k: nat, account: string)
    requires GoodReversals(journals) && k < |journals|
    ensures var c := Chain(journals, k);
            var effect := Net(journals[c.0].data.lines, account);
            Net(journals[k].data.lines, account) == Switched(c.1, effect)
    decreases k
  {
    if journals[k].data.reverses.Some? {
      var m := Link(journals, k, account);
      ChainsAlternate(journals, m, account);
    }
  }

  lemma Link(journals: seq<Stored>, k: nat, account: string) returns (m: nat)
    requires GoodReversals(journals) && k < |journals| && journals[k].data.reverses.Some?
    ensures m < k && Chain(journals, k).0 == Chain(journals, m).0 && Chain(journals, k).1 == Chain(journals, m).1 + 1
    ensures Net(journals[k].data.lines, account) == -Net(journals[m].data.lines, account)
  {
    m :| m < k && Reverses(journals, k, m) && Chain(journals, k) == (Chain(journals, m).0, Chain(journals, m).1 + 1);
  }

  /** Two different journals never reverse the same one. */
  lemma OneReversalEach(h: HashFn, t: Tables, j: nat, k: nat)
    requires Inv(h, t) && j < |t.journals| && k < |t.journals|
    requires t.journals[j].data.reverses.Some? && t.journals[j].data.reverses == t.journals[k].data.reverses
    ensures j == k
  {
    assert j < k || k < j || j == k;
  }
}
