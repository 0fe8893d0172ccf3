/** The posting that the money flows use is what the ledger service does: same key and lines, nothing
    new; new key, one more journal. */
module LedgerPosting {
  import opened Wrappers
  import opened Hashing
  import opened Journals
  import opened Ledger
  import opened LedgerInput
  import opened LedgerService
  import opened LedgerLaws
  import LedgerReversals
  import Json

  /** The ledger as the flows see it: keys and lines. */
  function Keyed(journals: seq<Stored>): (k: seq<Journal<string>>)
    ensures |k| == |journals|
  {
    if journals == [] then [] else [Journal(journals[0].data.key, journals[0].data.lines)] + Keyed(journals[1..])
  }

  lemma {:induction false} KeyedFind(journals: seq<Stored>, key: string)
    ensures Find(Keyed(journals), key)
            == match FindKey(journals, key) case None => None case Some(j) => Some(Journal(key, j.data.lines))
  {
    if journals != [] {
      KeyedFind(journals[1..], key);
      assert Keyed(journals)[1..] == Keyed(journals[1..]);
    }
  }

  lemma {:induction false} KeyedAppend(journals: seq<Stored>, j: Stored)
    ensures Keyed(journals + [j]) == Keyed(journals) + [Journal(j.data.key, j.data.lines)]
  {
    if journals == [] {
      assert journals + [j] == [j] && [j][1..] == [];
    } else {
      assert (journals + [j])[1..] == journals[1..] + [j];
      KeyedAppend(journals[1..], j);
    }
  }

  /** Whatever the ledger accepts is what posting by key does with the canonical lines, short of a
      fingerprint collision. */
  lemma LedgerPostsByKey(h: HashFn, t: Tables, id: string, input: PostInput, reverses: Option<string>)
    requires Inv(h, t) && MetadataOk(input.metadata) && PostIn(h, t, id, input, reverses).result.Ok?
    ensures Prepare(t.accounts, input, reverses).Ok?
    ensures var p, r := Prepare(t.accounts, input, reverses).value, PostIn(h, t, id, input, reverses);
            || Journals.Post(Keyed(t.journals), p.key, p.lines) == Ok(Keyed(r.tables.journals))
            || FingerprintCollision(h, p, r.result.value.data)
  {
    var key := Prepare(t.accounts, input, reverses).value.key;
    if FindKey(t.journals, key).Some? {
      FoundIsGood(h, t, key);
      ReplayPostsByKey(h, t, id, input, reverses, FindKey(t.journals, key).value);
    } else {
      NewKeyPostsByKey(h, t, id, input, reverses);
    }
  }

  /** Conversely, what posting by key accepts the ledger accepts exactly when the amount fits its
      column or, under a used key, when the two journals agree in the fields besides the lines too, as
      those of one flow do (short of a collision). */
  lemma KeyedPostIsAccepted(h: HashFn, t: Tables, id: string, input: PostInput, reverses: Option<string>)
    requires Inv(h, t) && MetadataOk(input.metadata) && Prepare(t.accounts, input, reverses).Ok?
    requires var p := Prepare(t.accounts, input, reverses).value; Journals.Post(Keyed(t.journals), p.key, p.lines).Ok?
    ensures var p, r := Prepare(t.accounts, input, reverses).value, PostIn(h, t, id, input, reverses);
            && (FindKey(t.journals, p.key).None? ==>
                  && (r.result.Ok? <==> Total(p.lines, Debit) <= MAX_COLUMN)
                  && (r.result.Ok? ==> Journals.Post(Keyed(t.journals), p.key, p.lines) == Ok(Keyed(r.tables.journals))))
            && (FindKey(t.journals, p.key).Some? ==>
                  && Json.Valid(p.metadata) && Json.Valid(FindKey(t.journals, p.key).value.data.metadata)
                  && FindKey(t.journals, p.key).value.data.lines == p.lines && r.tables == t
                  && (r.result.Ok? <==> SameJournal(p, FindKey(t.journals, p.key).value.data)
                                        || FingerprintCollision(h, p, FindKey(t.journals, p.key).value.data)))
  {
    var p := Prepare(t.accounts, input, reverses).value;
    KeyedFind(t.journals, p.key);
    if FindKey(t.journals, p.key).Some? {
      ReplayNeverWrites(h, t, id, input, reverses, FindKey(t.journals, p.key).value);
    } else if Total(p.lines, Debit) <= MAX_COLUMN {
      NewKeyPostsByKey(h, t, id, input, reverses);
    }
  }

  lemma FoundIsGood(h: HashFn, t: Tables, key: string)
    requires Inv(h, t) && FindKey(t.journals, key).Some?
    ensures GoodJournal(h, t.accounts, FindKey(t.journals, key).value)
  {
    FindKeyIs(t.journals, key);
  }

  lemma ReplayPostsByKey(h: HashFn, t: Tables, id: string, input: PostInput, reverses: Option<string>, j: Stored)
    requires MetadataOk(input.metadata) && PostIn(h, t, id, input, reverses).result.Ok? && GoodJournal(h, t.accounts, j)
    requires FindKey(t.journals, Prepare(t.accounts, input, reverses).value.key) == Some(j)
    ensures PostIn(h, t, id, input, reverses) == Outcome(t, Ok(j))
    ensures var p := Prepare(t.accounts, input, reverses).value;
            || Journals.Post(Keyed(t.journals), p.key, p.lines) == Ok(Keyed(t.journals))
            || FingerprintCollision(h, p, j.data)
  {
    var p := Prepare(t.accounts, input, reverses).value;
    PreparedIsGood(t.accounts, input, reverses);
    FingerprintIdentifies(h, p, j.data);
    KeyedFind(t.journals, p.key);
  }

  lemma NewKeyPostsByKey(h: HashFn, t: Tables, id: string, input: PostInput, reverses: Option<string>)
    requires MetadataOk(input.metadata) && PostIn(h, t, id, input, reverses).result.Ok?
    requires FindKey(t.journals, Prepare(t.accounts, input, reverses).value.key).None?
    ensures var p, r := Prepare(t.accounts, input, reverses).value, PostIn(h, t, id, input, reverses);
            Journals.Post(Keyed(t.journals), p.key, p.lines) == Ok(Keyed(r.tables.journals))
  {
    KeyedFind(t.journals, Prepare(t.accounts, input, reverses).value.key);
    KeyedAppend(t.journals, PostIn(h, t, id, input, reverses).result.value);
  }

  /** And the balance the flows compute with is the one the entries add up to. */
  lemma {:induction false} SameBalance(journals: seq<Stored>, account: string)
    ensures Balance(Keyed(journals), account) == Net(LedgerReversals.Entries(journals), account)
    decreases |journals|
  {
    if journals != [] {
      var before, last := journals[..|journals| - 1], journals[|journals| - 1];
      assert journals == before + [last];
      SameBalance(before, account);
      KeyedAppend(before, last);
      LedgerReversals.EntriesAppend(before, last);
      NetConcat(LedgerReversals.Entries(before), last.data.lines, account);
      BalanceAppend(Keyed(before), Journal(last.data.key, last.data.lines), account);
    }
  }
}
