/** What the ledger makes of an input: validation, canonical form and fingerprint. */
module LedgerInput {
  import opened Wrappers
  import opened Hashing
  import opened Journals
  import opened Ledger
  import Json

  // ---------------------------------------------------------------- fingerprint

  /** A validated input, with its lines in canonical order. */
  datatype Prepared = Prepared(
    key: string, kind: string, referenceType: string, referenceId: string, description: Option<string>,
    currency: string, occurredAt: Option<string>, reverses: Option<string>, metadata: Json.Json,
    lines: seq<Line>)

  function TextOrNull(s: Option<string>): Json.Json {
    if s.None? then Json.Null else Json.Str(s.value)
  }

  function LinePairs(l: Line): seq<(string, Json.Json)> {
    [("accountId", Json.Str(l.account)), ("side", Json.Str(SideName(l.side))),
     ("amountNgn", Json.Num(l.amount)), ("memo", TextOrNull(l.memo))]
  }

  function LineJson(l: Line): Json.Json {
    Json.Obj(Json.Record(LinePairs(l)))
  }

  function LineJsons(lines: seq<Line>): (js: seq<Json.Json>)
    ensures |js| == |lines| && forall i :: 0 <= i < |js| ==> js[i] == LineJson(lines[i])
  {
    if lines == [] then [] else [LineJson(lines[0])] + LineJsons(lines[1..])
  }

  /** The value whose canonical text is hashed. The idempotency key is not part of it. */
  function PayloadPairs(p: Prepared): seq<(string, Json.Json)> {
    [("kind", Json.Str(p.kind)), ("referenceType", Json.Str(p.referenceType)),
     ("referenceId", Json.Str(p.referenceId)), ("description", TextOrNull(p.description)),
     ("currency", Json.Str(p.currency)), ("explicitOccurredAt", TextOrNull(p.occurredAt)),
     ("reversesLedgerTxnId", TextOrNull(p.reverses)), ("metadata", p.metadata),
     ("lines", LinesJson(p.lines))]
  }

  function Payload(p: Prepared): Json.Json {
    Json.Obj(Json.Record(PayloadPairs(p)))
  }

  function Fingerprint(h: HashFn, payload: Json.Json): Digest {
    h(Json.CanonicalJson(payload))
  }

  lemma LinesSame(a: Line, b: Line)
    ensures Json.Valid(LineJson(a)) && Json.Valid(LineJson(b))
    ensures Json.Same(LineJson(a), LineJson(b)) <==> a == b
  {
    Json.RecordsSame(LinePairs(a), LinePairs(b));
    LinePairsSame(a, b);
  }

  lemma LinePairsSame(a: Line, b: Line)
    ensures (forall i :: 0 <= i < 4 ==> Json.Same(LinePairs(a)[i].1, LinePairs(b)[i].1)) <==> a == b
  {
    var p, q := LinePairs(a), LinePairs(b);
    assert Json.Same(p[0].1, q[0].1) <==> a.account == b.account;
    assert Json.Same(p[1].1, q[1].1) <==> a.side == b.side;
    assert Json.Same(p[2].1, q[2].1) <==> a.amount == b.amount;
    assert Json.Same(p[3].1, q[3].1) <==> a.memo == b.memo;
  }

  /** The journal data proper, without its key and with metadata up to key order. */
  predicate SameJournal(p: Prepared, q: Prepared)
    requires Json.Valid(p.metadata) && Json.Valid(q.metadata)
  {
    && p.(key := q.key, metadata := q.metadata) == q
    && Json.Same(p.metadata, q.metadata)
  }

  function LinesJson(lines: seq<Line>): Json.Json {
    Json.Arr(Json.List(LineJsons(lines)))
  }

  lemma LinesJsonSame(a: seq<Line>, b: seq<Line>)
    ensures Json.Valid(LinesJson(a)) && Json.Valid(LinesJson(b))
    ensures Json.Same(LinesJson(a), LinesJson(b)) <==> a == b
  {
    var x, y := LineJsons(a), LineJsons(b);
    forall l: Line ensures Json.Valid(LineJson(l)) {
      LinesSame(l, l);
    }
    Json.ListsSame(x, y);
    forall i | 0 <= i < |a| && i < |b| ensures Json.Same(x[i], y[i]) <==> a[i] == b[i] {
      LinesSame(a[i], b[i]);
    }
  }

  lemma PairsValid(p: Prepared)
    requires Json.Valid(p.metadata)
    ensures Json.ValidPairs(PayloadPairs(p))
  {
    LinesJsonSame(p.lines, p.lines);
  }

  ghost predicate PairsAgree(p: Prepared, q: Prepared)
    requires Json.Valid(p.metadata) && Json.Valid(q.metadata)
  {
    PairsValid(p);
    PairsValid(q);
    forall i :: 0 <= i < 9 ==> Json.Same(PayloadPairs(p)[i].1, PayloadPairs(q)[i].1)
  }

  lemma AgreeingPairsGiveSameJournal(p: Prepared, q: Prepared)
    requires Json.Valid(p.metadata) && Json.Valid(q.metadata) && PairsAgree(p, q)
    ensures SameJournal(p, q)
  {
    PairsValid(p);
    PairsValid(q);
    var (x, y) := (PayloadPairs(p), PayloadPairs(q));
    assert Json.Same(x[0].1, y[0].1) && Json.Same(x[1].1, y[1].1) && Json.Same(x[2].1, y[2].1);
    assert Json.Same(x[3].1, y[3].1) && Json.Same(x[4].1, y[4].1) && Json.Same(x[5].1, y[5].1);
    assert Json.Same(x[6].1, y[6].1) && Json.Same(x[7].1, y[7].1) && Json.Same(x[8].1, y[8].1);
    LinesJsonSame(p.lines, q.lines);
  }

  lemma SameJournalGivesAgreeingPairs(p: Prepared, q: Prepared)
    requires Json.Valid(p.metadata) && Json.Valid(q.metadata) && SameJournal(p, q)
    ensures PairsAgree(p, q)
  {
    PairsValid(p);
    PairsValid(q);
    LinesJsonSame(p.lines, q.lines);
    forall i | 0 <= i < 9 ensures Json.Same(PayloadPairs(p)[i].1, PayloadPairs(q)[i].1) {
      if i != 7 {
        assert PayloadPairs(p)[i].1 == PayloadPairs(q)[i].1;
        Json.SameReflexive(PayloadPairs(p)[i].1);
      }
    }
  }

  /** Payloads are the same JSON value exactly when they describe the same journal. */
  lemma PayloadIdentifies(p: Prepared, q: Prepared)
    requires Json.Valid(p.metadata) && Json.Valid(q.metadata)
    ensures Json.Valid(Payload(p)) && Json.Valid(Payload(q))
    ensures Json.Same(Payload(p), Payload(q)) <==> SameJournal(p, q)
  {
    PairsValid(p);
    PairsValid(q);
    Json.RecordsSame(PayloadPairs(p), PayloadPairs(q));
    assert PairsAgree(p, q) <==> Json.Same(Payload(p), Payload(q));
    if PairsAgree(p, q) {
      AgreeingPairsGiveSameJournal(p, q);
    }
    if SameJournal(p, q) {
      SameJournalGivesAgreeingPairs(p, q);
    }
  }

  // ---------------------------------------------------------------- validation

  function FindAccount(accounts: seq<Account>, id: string): Option<Account> {
    if accounts == [] then None
    else if accounts[0].id == id then Some(accounts[0])
    else FindAccount(accounts[1..], id)
  }

  predicate Usable(accounts: seq<Account>, id: string) {
    FindAccount(accounts, id).Some? && FindAccount(accounts, id).value.status.Active?
  }

  predicate Naira(accounts: seq<Account>, id: string) {
    FindAccount(accounts, id).Some? && FindAccount(accounts, id).value.currency == "NGN"
  }

  /** The checks on the accounts of a journal, in the order they are made. */
  function AccountsError(accounts: seq<Account>, lines: seq<Line>): Option<Error>
    requires lines != []
  {
    if exists i :: 0 <= i < |lines| && FindAccount(accounts, lines[i].account).None? then Some(AccountNotFound)
    else if exists i :: 0 <= i < |lines| && !Usable(accounts, lines[i].account) then Some(AccountNotActive)
    else
      var first := FindAccount(accounts, lines[0].account).value.currency;
      if exists i :: 0 <= i < |lines| && FindAccount(accounts, lines[i].account).value.currency != first then Some(MixedCurrency)
      else if first != "NGN" then Some(UnsupportedCurrency)
      else None
  }

  /** The per-line loop: `done` are the cleaned lines that have passed. */
  function CheckLines(raw: seq<Line>, done: seq<Line>): Result<seq<Line>, Error> {
    if raw == [] then Ok(done)
    else
      var l := Clean(raw[0]);
      match LineError(l, AccountsOf(done))
      case Some(e) => Err(e)
      case None => CheckLines(raw[1..], done + [l])
  }

  function Prepare(accounts: seq<Account>, input: PostInput, reverses: Option<string>): Result<Prepared, Error> {
    var key := Trim(input.idempotencyKey);
    var (referenceType, referenceId) := (Trim(input.referenceType), Trim(input.referenceId));
    if key == [] then Err(KeyRequired)
    else if |key| > 200 then Err(KeyTooLong)
    else if referenceType == [] || referenceId == [] then Err(ReferenceRequired)
    else if |input.lines| < 2 then Err(TooFewLines)
    else
      match CheckLines(input.lines, [])
      case Err(e) => Err(e)
      case Ok(cleaned) =>
        var lines := SortLines(cleaned);
        SortKeeps(cleaned);
        CheckedLength(input.lines, []);
        if !Balanced(lines) then Err(Unbalanced)
        else if Total(lines, Debit) <= 0 then Err(EmptyTotal)
        else
          match AccountsError(accounts, lines)
          case Some(e) => Err(e)
          case None =>
            Ok(Prepared(key, input.kind, referenceType, referenceId, CleanText(input.description), "NGN",
                        input.occurredAt, reverses,
                        if input.metadata.None? then Json.Null else input.metadata.value, lines))
  }

  lemma {:induction false} CheckedLength(raw: seq<Line>, done: seq<Line>)
    ensures CheckLines(raw, done).Ok? ==> |CheckLines(raw, done).value| == |done| + |raw|
  {
    if raw != [] {
      CheckedLength(raw[1..], done + [Clean(raw[0])]);
    }
  }

  /** The loop accepts exactly the lines that are acceptable together, and cleans each of them. */
  lemma {:induction false} CheckLinesIs(raw: seq<Line>, done: seq<Line>)
    requires LinesOk(done)
    ensures CheckLines(raw, done).Ok? <==> LinesOk(done + CleanAll(raw))
    ensures CheckLines(raw, done).Ok? ==> CheckLines(raw, done).value == done + CleanAll(raw)
  {
    if raw == [] {
      assert done + CleanAll(raw) == done;
    } else {
      var l := Clean(raw[0]);
      LinesOkExtend(done, l);
      Regroup(done, [l], CleanAll(raw[1..]));
      if LineError(l, AccountsOf(done)).None? {
        CheckLinesIs(raw[1..], done + [l]);
      } else {
        PrefixNotOk(done + [l], CleanAll(raw[1..]));
      }
    }
  }

  lemma Regroup<T>(x: seq<T>, y: seq<T>, z: seq<T>)
    ensures x + (y + z) == (x + y) + z
  {
  }

  lemma PrefixNotOk(a: seq<Line>, b: seq<Line>)
    requires !LinesOk(a)
    ensures !LinesOk(a + b)
  {
    assert forall i :: 0 <= i < |a| ==> (a + b)[i] == a[i];
  }
}
