/** The audit log and its sealed checkpoints. Each checkpoint hashes a window of entry digests
    chained to the root before it; `Verify` recomputes every window from the log as it stands. */
module AuditChain {
  import opened Hashing
  import opened Text
  import opened Wrappers

  datatype AuditEntry = AuditEntry(
    seqNo: nat, timestamp: string, severity: string, actorType: string, actorId: Option<string>,
    action: string, resourceType: string, resourceId: string, metadata: string)

  datatype Checkpoint = Checkpoint(
    fromSeq: nat, toSeq: nat, entryCount: nat, rootHash: Digest, previousRootHash: Option<Digest>)

  datatype WindowResult = WindowResult(
    fromSeq: nat, toSeq: nat, expectedEntries: nat, foundEntries: nat, intact: bool)

  datatype Report = Report(
    intact: bool, brokenWindows: nat, latestRootHash: Option<Digest>, results: seq<WindowResult>)

  // ---------------------------------------------------------------- digests and roots

  /** The canonical fields of an entry, in their fixed order. */
  function Fields(e: AuditEntry): seq<string> {
    [Decimal(e.seqNo), e.timestamp, e.severity, e.actorType,
     if e.actorId.None? then "" else e.actorId.value,
     e.action, e.resourceType, e.resourceId, e.metadata]
  }

  function EntryText(e: AuditEntry): string {
    Join(Fields(e), '|')
  }

  function EntryDigests(h: HashFn, entries: seq<AuditEntry>): (ds: seq<Digest>)
    ensures |ds| == |entries|
  {
    if entries == [] then [] else [h(EntryText(entries[0]))] + EntryDigests(h, entries[1..])
  }

  lemma {:induction false} DigestOfEntry(h: HashFn, entries: seq<AuditEntry>, i: nat)
    requires i < |entries|
    ensures EntryDigests(h, entries)[i] == h(EntryText(entries[i]))
  {
    if i > 0 {
      DigestOfEntry(h, entries[1..], i - 1);
    }
  }

  function Concat(ds: seq<Digest>): (s: string)
    ensures |s| == 64 * |ds|
  {
    if ds == [] then "" else ds[0] + Concat(ds[1..])
  }

  function RootText(ds: seq<Digest>, previous: Option<Digest>): string {
    (if previous.None? then "GENESIS" else previous.value) + Concat(ds)
  }

  function RootOf(h: HashFn, ds: seq<Digest>, previous: Option<Digest>): Digest {
    h(RootText(ds, previous))
  }

  /** The text of an entry, written out. */
  lemma EntryTextIs(e: AuditEntry)
    ensures EntryText(e)
            == Decimal(e.seqNo) + "|" + (e.timestamp + "|" + (e.severity + "|" + (e.actorType + "|" + (
                 (if e.actorId.Some? then e.actorId.value else "") + "|" + (e.action + "|" + (e.resourceType + "|" + (
                   e.resourceId + "|" + e.metadata)))))))
  {
    var f := Fields(e);
    assert f[0..] == f && f[7..] == [f[7], f[8]];
    JoinMore(f, 0);
    JoinMore(f, 1);
    JoinMore(f, 2);
    JoinMore(f, 3);
    JoinMore(f, 4);
    JoinMore(f, 5);
    JoinMore(f, 6);
    JoinTwo(f[7], f[8]);
  }

  lemma JoinTwo(a: string, b: string)
    ensures Join([a, b], '|') == a + "|" + b
  {
    assert [a, b][1..] == [b];
  }

  lemma JoinMore(parts: seq<string>, i: nat)
    requires i + 1 < |parts|
    ensures Join(parts[i..], '|') == parts[i] + "|" + Join(parts[i + 1..], '|')
  {
    assert parts[i..][1..] == parts[i + 1..];
  }

  /** The text of a root, written out: what it is chained to, then the digests in order. */
  lemma {:induction false} RootTextIs(ds: seq<Digest>, previous: Option<Digest>)
    ensures var (t, start: string) := (RootText(ds, previous), if previous.Some? then previous.value else "GENESIS");
            && |t| == |start| + 64 * |ds| && t[..|start|] == start
            && forall i :: 0 <= i < |ds| ==> t[|start| + 64 * i..|start| + 64 * i + 64] == ds[i]
  {
    var start: string := if previous.Some? then previous.value else "GENESIS";
    forall i | 0 <= i < |ds| ensures RootText(ds, previous)[|start| + 64 * i..|start| + 64 * i + 64] == ds[i] {
      DigestAt(ds, i);
    }
  }

  lemma {:induction false} DigestAt(ds: seq<Digest>, i: nat)
    requires i < |ds|
    ensures Concat(ds)[64 * i..64 * i + 64] == ds[i]
  {
    if i > 0 {
      DigestAt(ds[1..], i - 1);
      assert Concat(ds)[64..] == Concat(ds[1..]);
      assert Concat(ds)[64 * i..64 * i + 64] == Concat(ds)[64..][64 * (i - 1)..64 * (i - 1) + 64];
    }
  }

  lemma {:induction false} ConcatInjective(a: seq<Digest>, b: seq<Digest>)
    requires Concat(a) == Concat(b)
    ensures a == b
  {
    assert |a| == |b|;
    if a != [] {
      assert Concat(a)[..64] == a[0] && Concat(b)[..64] == b[0];
      assert Concat(a)[64..] == Concat(a[1..]) && Concat(b)[64..] == Concat(b[1..]);
      ConcatInjective(a[1..], b[1..]);
      assert a == [a[0]] + a[1..] && b == [b[0]] + b[1..];
    }
  }

  /** "GENESIS" has seven characters and a digest sixty-four, so the text of a root tells whether
      it is the first one, what it is chained to, and every digest under it. */
  lemma RootTextInjective(a: seq<Digest>, p: Option<Digest>, b: seq<Digest>, q: Option<Digest>)
    requires RootText(a, p) == RootText(b, q)
    ensures a == b && p == q
  {
    var (s, t) := (RootText(a, p), RootText(b, q));
    assert |s| % 64 == (if p.None? then 7 else 0);
    assert |t| % 64 == (if q.None? then 7 else 0);
    var n := if p.None? then 7 else 64;
    assert s[..n] == t[..n] && Concat(a) == s[n..] && Concat(b) == t[n..];
    assert p.Some? ==> p.value == s[..n] && q.value == t[..n];
    ConcatInjective(a, b);
  }

  // ---------------------------------------------------------------- windows of the log

  predicate Increasing(log: seq<AuditEntry>) {
    forall i, j :: 0 <= i < j < |log| ==> log[i].seqNo < log[j].seqNo
  }

  function Between(log: seq<AuditEntry>, lo: nat, hi: nat): seq<AuditEntry> {
    if log == [] then []
    else (if lo <= log[0].seqNo <= hi then [log[0]] else []) + Between(log[1..], lo, hi)
  }

  lemma {:induction false} BetweenMember(log: seq<AuditEntry>, e: AuditEntry, lo: nat, hi: nat)
    ensures e in Between(log, lo, hi) <==> e in log && lo <= e.seqNo <= hi
  {
    if log != [] {
      BetweenMember(log[1..], e, lo, hi);
    }
  }

  lemma {:induction false} BetweenNone(log: seq<AuditEntry>, lo: nat, hi: nat)
    requires forall i :: 0 <= i < |log| ==> !(lo <= log[i].seqNo <= hi)
    ensures Between(log, lo, hi) == []
  {
    if log != [] {
      BetweenNone(log[1..], lo, hi);
    }
  }

  /** The first entry selected by a lower bound is also what a tighter bound starts at. */
  lemma {:induction false} BetweenTightens(log: seq<AuditEntry>, lo: nat, hi: nat)
    requires Increasing(log) && Between(log, lo, hi) != []
    ensures var es := Between(log, lo, hi); lo <= es[0].seqNo <= hi && Between(log, es[0].seqNo, hi) == es
  {
    if lo <= log[0].seqNo <= hi {
      var es := Between(log, lo, hi);
      assert es[0] == log[0];
      BetweenFrom(log[1..], lo, log[0].seqNo, hi);
    } else {
      BetweenTightens(log[1..], lo, hi);
      var first := Between(log[1..], lo, hi)[0];
      if log[0].seqNo > hi {
        BetweenNone(log[1..], lo, hi);
      }
    }
  }

  lemma {:induction false} BetweenFrom(log: seq<AuditEntry>, a: nat, b: nat, hi: nat)
    requires a <= b && forall i :: 0 <= i < |log| ==> b < log[i].seqNo
    ensures Between(log, a, hi) == Between(log, b, hi)
  {
    if log != [] {
      BetweenFrom(log[1..], a, b, hi);
    }
  }

  lemma {:induction false} BetweenAppend(log: seq<AuditEntry>, e: AuditEntry, lo: nat, hi: nat)
    ensures Between(log + [e], lo, hi) == Between(log, lo, hi) + (if lo <= e.seqNo <= hi then [e] else [])
  {
    if log == [] {
      assert log + [e] == [e];
      assert Between([e], lo, hi) == (if lo <= e.seqNo <= hi then [e] else []) + Between([], lo, hi);
    } else {
      assert (log + [e])[1..] == log[1..] + [e];
      BetweenAppend(log[1..], e, lo, hi);
    }
  }

  lemma {:induction false} BetweenSplit(log: seq<AuditEntry>, a: nat, b: nat, c: nat)
    requires Increasing(log) && a <= b + 1 && b <= c
    ensures Between(log, a, c) == Between(log, a, b) + Between(log, b + 1, c)
  {
    if log != [] {
      BetweenSplit(log[1..], a, b, c);
      if log[0].seqNo > b {
        SplitBefore(log, a, b, c);
      } else {
        SplitAfter(log, a, b, c);
      }
    }
  }

  lemma SplitBefore(log: seq<AuditEntry>, a: nat, b: nat, c: nat)
    requires log != [] && Increasing(log) && a <= b + 1 && b <= c && log[0].seqNo > b
    requires Between(log[1..], a, c) == Between(log[1..], a, b) + Between(log[1..], b + 1, c)
    ensures Between(log, a, c) == Between(log, a, b) + Between(log, b + 1, c)
  {
    BetweenNone(log[1..], a, b);
    assert Between(log, a, b) == [] + Between(log[1..], a, b) == [];
  }

  lemma SplitAfter(log: seq<AuditEntry>, a: nat, b: nat, c: nat)
    requires log != [] && b <= c && log[0].seqNo <= b
    requires Between(log[1..], a, c) == Between(log[1..], a, b) + Between(log[1..], b + 1, c)
    ensures Between(log, a, c) == Between(log, a, b) + Between(log, b + 1, c)
  {
    var head := if a <= log[0].seqNo then [log[0]] else [];
    assert Between(log, a, c) == head + Between(log[1..], a, c) && Between(log, a, b) == head + Between(log[1..], a, b);
    assert Between(log, b + 1, c) == [] + Between(log[1..], b + 1, c) == Between(log[1..], b + 1, c);
    Regroup(head, Between(log[1..], a, b), Between(log[1..], b + 1, c));
  }

  lemma Regroup<T>(x: seq<T>, y: seq<T>, z: seq<T>)
    ensures x + (y + z) == (x + y) + z
  {
  }

  // ---------------------------------------------------------------- the sealed chain

  function Window(log: seq<AuditEntry>, cp: Checkpoint): seq<AuditEntry> {
    Between(log, cp.fromSeq, cp.toSeq)
  }

  function LastSealed(cps: seq<Checkpoint>): nat {
    if cps == [] then 0 else cps[|cps| - 1].toSeq
  }

  function LatestRoot(cps: seq<Checkpoint>): Option<Digest> {
    if cps == [] then None else Some(cps[|cps| - 1].rootHash)
  }

  /** The windows of all checkpoints, one after the other. */
  function AllWindows(log: seq<AuditEntry>, cps: seq<Checkpoint>): seq<AuditEntry> {
    if cps == [] then []
    else AllWindows(log, cps[..|cps| - 1]) + Window(log, cps[|cps| - 1])
  }

  /** A checkpoint that describes `entries` and hashes them onto the root before it. */
  ghost predicate Seals(h: HashFn, cp: Checkpoint, entries: seq<AuditEntry>) {
    && cp.fromSeq <= cp.toSeq
    && cp.entryCount == |entries| > 0
    && cp.rootHash == RootOf(h, EntryDigests(h, entries), cp.previousRootHash)
  }

  ghost predicate AllSealed(h: HashFn, log: seq<AuditEntry>, cps: seq<Checkpoint>) {
    forall k :: 0 <= k < |cps| ==> Seals(h, cps[k], Window(log, cps[k]))
  }

  /** Checkpoint `k` is chained to the root of the one before it. */
  predicate LinkedAt(cps: seq<Checkpoint>, k: nat)
    requires k < |cps|
  {
    match cps[k].previousRootHash
    case None => k == 0
    case Some(previous) => k > 0 && cps[k - 1].rootHash == previous
  }

  predicate Linked(cps: seq<Checkpoint>) {
    forall k :: 0 <= k < |cps| ==> LinkedAt(cps, k)
  }

  predicate Disjoint(cps: seq<Checkpoint>) {
    && (forall k :: 0 <= k < |cps| ==> cps[k].fromSeq <= cps[k].toSeq)
    && (forall k, m :: 0 <= k < m < |cps| ==> cps[k].toSeq < cps[m].fromSeq)
  }

  predicate Numbered(log: seq<AuditEntry>) {
    Increasing(log) && forall i :: 0 <= i < |log| ==> 1 <= log[i].seqNo
  }

  /** What every run of appends and seals keeps. */
  ghost predicate Chain(h: HashFn, log: seq<AuditEntry>, cps: seq<Checkpoint>) {
    && Numbered(log) && Linked(cps) && Disjoint(cps)
    && AllSealed(h, log, cps)
    && AllWindows(log, cps) == Between(log, 0, LastSealed(cps))
    && LastSealed(cps) <= LastLogged(log)
  }

  function LastLogged(log: seq<AuditEntry>): nat {
    if log == [] then 0 else log[|log| - 1].seqNo
  }

  lemma {:induction false} AllWindowsAppend(log: seq<AuditEntry>, e: AuditEntry, cps: seq<Checkpoint>)
    requires forall k :: 0 <= k < |cps| ==> cps[k].toSeq < e.seqNo
    ensures AllWindows(log + [e], cps) == AllWindows(log, cps)
  {
    if cps != [] {
      AllWindowsAppend(log, e, cps[..|cps| - 1]);
      var cp := cps[|cps| - 1];
      BetweenAppend(log, e, cp.fromSeq, cp.toSeq);
    }
  }

  lemma UpToLastSealed(cps: seq<Checkpoint>, k: nat)
    requires Disjoint(cps) && k < |cps|
    ensures cps[k].toSeq <= LastSealed(cps)
  {
    assert k < |cps| - 1 ==> cps[k].toSeq < cps[|cps| - 1].fromSeq;
  }

  lemma AppendNumbered(log: seq<AuditEntry>, e: AuditEntry)
    requires Numbered(log) && LastLogged(log) < e.seqNo
    ensures Numbered(log + [e])
  {
    forall i | 0 <= i < |log| ensures log[i].seqNo < e.seqNo {
      assert i < |log| - 1 ==> log[i].seqNo < log[|log| - 1].seqNo;
    }
  }

  lemma AppendSealed(h: HashFn, log: seq<AuditEntry>, cps: seq<Checkpoint>, e: AuditEntry)
    requires AllSealed(h, log, cps) && forall k :: 0 <= k < |cps| ==> cps[k].toSeq < e.seqNo
    ensures AllSealed(h, log + [e], cps)
  {
    forall k | 0 <= k < |cps| ensures Seals(h, cps[k], Window(log + [e], cps[k])) {
      BetweenAppend(log, e, cps[k].fromSeq, cps[k].toSeq);
      assert Window(log + [e], cps[k]) == Window(log, cps[k]);
    }
  }

  lemma AppendKeepsChain(h: HashFn, log: seq<AuditEntry>, cps: seq<Checkpoint>, e: AuditEntry)
    requires Chain(h, log, cps) && LastLogged(log) < e.seqNo
    ensures Chain(h, log + [e], cps)
  {
    forall k | 0 <= k < |cps| ensures cps[k].toSeq < e.seqNo {
      UpToLastSealed(cps, k);
    }
    AppendNumbered(log, e);
    AppendSealed(h, log, cps, e);
    AllWindowsAppend(log, e, cps);
    BetweenAppend(log, e, 0, LastSealed(cps));
  }

  /** The checkpoint that seals everything written since the last one. */
  function NextCheckpoint(h: HashFn, log: seq<AuditEntry>, cps: seq<Checkpoint>): Option<Checkpoint>
  {
    SealOf(h, Between(log, LastSealed(cps) + 1, LastLogged(log)), LatestRoot(cps))
  }

  function SealOf(h: HashFn, entries: seq<AuditEntry>, previous: Option<Digest>): Option<Checkpoint> {
    if entries == [] then None
    else Some(Checkpoint(
                entries[0].seqNo, entries[|entries| - 1].seqNo, |entries|,
                RootOf(h, EntryDigests(h, entries), previous), previous))
  }

  lemma {:induction false} LastOfBetween(log: seq<AuditEntry>, lo: nat)
    requires log != [] && Increasing(log) && lo <= LastLogged(log)
    ensures var es := Between(log, lo, LastLogged(log));
            es != [] && es[|es| - 1] == log[|log| - 1]
  {
    var last := log[|log| - 1];
    assert log == log[..|log| - 1] + [last];
    BetweenAppend(log[..|log| - 1], last, lo, last.seqNo);
  }

  /** The window of the new checkpoint, which starts at the first unsealed entry, holds exactly
      the unsealed entries. */
  lemma NewWindow(log: seq<AuditEntry>, lo: nat)
    requires Increasing(log) && log != [] && lo <= LastLogged(log)
    ensures var es := Between(log, lo, LastLogged(log));
            && es != []
            && lo <= es[0].seqNo <= es[|es| - 1].seqNo == LastLogged(log)
            && Between(log, es[0].seqNo, LastLogged(log)) == es
  {
    LastOfBetween(log, lo);
    BetweenTightens(log, lo, LastLogged(log));
  }

  lemma ExtendLinks(cps: seq<Checkpoint>, cp: Checkpoint)
    requires Linked(cps) && Disjoint(cps)
    requires cp.previousRootHash == LatestRoot(cps) && LastSealed(cps) < cp.fromSeq <= cp.toSeq
    ensures Linked(cps + [cp]) && Disjoint(cps + [cp])
  {
    var cps' := cps + [cp];
    forall k | 0 <= k < |cps'| ensures LinkedAt(cps', k) {
      assert k < |cps| ==> LinkedAt(cps, k);
    }
    forall k | 0 <= k < |cps| ensures cps[k].toSeq < cp.fromSeq {
      UpToLastSealed(cps, k);
    }
  }

  lemma ExtendWindows(log: seq<AuditEntry>, cps: seq<Checkpoint>, cp: Checkpoint)
    requires Increasing(log) && LastSealed(cps) <= LastLogged(log) == cp.toSeq
    requires AllWindows(log, cps) == Between(log, 0, LastSealed(cps))
    requires Window(log, cp) == Between(log, LastSealed(cps) + 1, LastLogged(log))
    ensures AllWindows(log, cps + [cp]) == Between(log, 0, cp.toSeq)
  {
    BetweenSplit(log, 0, LastSealed(cps), LastLogged(log));
    assert (cps + [cp])[..|cps|] == cps;
  }

  /** A checkpoint over exactly the unsealed entries, linked to the latest root, extends a chain. */
  lemma Extend(h: HashFn, log: seq<AuditEntry>, cps: seq<Checkpoint>, cp: Checkpoint)
    requires Chain(h, log, cps)
    requires Seals(h, cp, Window(log, cp)) && cp.previousRootHash == LatestRoot(cps)
    requires LastSealed(cps) < cp.fromSeq && cp.toSeq == LastLogged(log)
    requires Window(log, cp) == Between(log, LastSealed(cps) + 1, LastLogged(log))
    ensures Chain(h, log, cps + [cp])
  {
    ExtendLinks(cps, cp);
    ExtendWindows(log, cps, cp);
    assert AllSealed(h, log, cps + [cp]) by {
      forall k | 0 <= k < |cps + [cp]| ensures Seals(h, (cps + [cp])[k], Window(log, (cps + [cp])[k])) {
      }
    }
  }

  lemma SealKeepsChain(h: HashFn, log: seq<AuditEntry>, cps: seq<Checkpoint>)
    requires Chain(h, log, cps) && LastSealed(cps) < LastLogged(log)
    ensures NextCheckpoint(h, log, cps).Some?
    ensures Chain(h, log, cps + [NextCheckpoint(h, log, cps).value])
    ensures NextCheckpoint(h, log, cps).value.toSeq == LastLogged(log)
  {
    NewWindow(log, LastSealed(cps) + 1);
    Extend(h, log, cps, NextCheckpoint(h, log, cps).value);
  }

  lemma NextExists(h: HashFn, log: seq<AuditEntry>, cps: seq<Checkpoint>)
    requires Chain(h, log, cps)
    ensures NextCheckpoint(h, log, cps).None? <==> LastSealed(cps) == LastLogged(log)
  {
    if LastSealed(cps) == LastLogged(log) {
      BetweenNone(log, LastSealed(cps) + 1, LastLogged(log));
    } else {
      SealKeepsChain(h, log, cps);
    }
  }

  // ---------------------------------------------------------------- the service

  class AuditCheckpointService {
    const h: HashFn
    var log: seq<AuditEntry>
    var checkpoints: seq<Checkpoint>

    ghost predicate Valid()
      reads this
    {
      Chain(h, log, checkpoints)
    }

    constructor (h: HashFn)
      ensures Valid() && this.h == h && log == [] && checkpoints == []
    {
      this.h, log, checkpoints := h, [], [];
    }

    /** The database gives an appended row a sequence number above all existing ones. */
    method Append(e: AuditEntry)
      requires Valid() && LastLogged(log) < e.seqNo
      modifies this`log
      ensures Valid() && log == old(log) + [e]
    {
      AppendKeepsChain(h, log, checkpoints, e);
      log := log + [e];
    }

    /** What is sealed are the entries from position `first` on, those above the last sealed number. */
    method Seal() returns (created: Option<Checkpoint>, ghost first: nat)
      requires Valid()
      modifies this`checkpoints
      ensures Valid()
      ensures SealsFrom(h, log, old(checkpoints), first, created)
      ensures checkpoints == old(checkpoints) + (if created.Some? then [created.value] else [])
      ensures LastSealed(checkpoints) == LastLogged(log)
    {
      first := NextIs(h, log, checkpoints);
      created := CreateCheckpoint();
    }

    method CreateCheckpoint() returns (created: Option<Checkpoint>)
      requires Valid()
      modifies this`checkpoints
      ensures Valid() && created == NextCheckpoint(h, log, old(checkpoints))
      ensures checkpoints == old(checkpoints) + (if created.Some? then [created.value] else [])
      ensures LastSealed(checkpoints) == LastLogged(log)
    {
      var last := LatestRoot(checkpoints);
      var entries := Unsealed(LastSealed(checkpoints) + 1);
      NextExists(h, log, checkpoints);
      if |entries| == 0 {
        return None;
      }
      var cp := Checkpoint(
        entries[0].seqNo, entries[|entries| - 1].seqNo, |entries|,
        RootOf(h, EntryDigests(h, entries), last), last);
      created := Some(cp);
      assert created == NextCheckpoint(h, log, checkpoints);
      SealKeepsChain(h, log, checkpoints);
      checkpoints := checkpoints + [cp];
    }

    /** The query of `Seal`: every row from `fromSeq` on. */
    method Unsealed(fromSeq: nat) returns (entries: seq<AuditEntry>)
      requires Increasing(log)
      ensures entries == Between(log, fromSeq, LastLogged(log))
    {
      entries := [];
      for i := 0 to |log|
        invariant entries == Between(log[..i], fromSeq, LastLogged(log))
      {
        assert log[..i + 1] == log[..i] + [log[i]];
        BetweenAppend(log[..i], log[i], fromSeq, LastLogged(log));
        assert log[i].seqNo <= LastLogged(log);
        if log[i].seqNo >= fromSeq {
          entries := entries + [log[i]];
        }
      }
      assert log[..|log|] == log;
    }

    method Verify() returns (report: Report)
      ensures |report.results| == |checkpoints|
      ensures forall k :: 0 <= k < |checkpoints| ==> report.results[k] == Check(h, log, checkpoints[k])
      ensures report.brokenWindows == |set k | 0 <= k < |report.results| && !report.results[k].intact|
      ensures report.intact <==> forall k :: 0 <= k < |checkpoints| ==> report.results[k].intact
      ensures report.latestRootHash == LatestRoot(checkpoints)
    {
      var results: seq<WindowResult> := [];
      var previousRootHash: Option<Digest> := None;
      for k := 0 to |checkpoints|
        invariant |results| == k
        invariant forall j :: 0 <= j < k ==> results[j] == Check(h, log, checkpoints[j])
        invariant previousRootHash == LatestRoot(checkpoints[..k])
      {
        var cp := checkpoints[k];
        var entries := Between(log, cp.fromSeq, cp.toSeq);
        var recomputed := RootOf(h, EntryDigests(h, entries), cp.previousRootHash);
        results := results + [WindowResult(cp.fromSeq, cp.toSeq, cp.entryCount, |entries|, recomputed == cp.rootHash)];
        previousRootHash := Some(cp.rootHash);
      }
      assert checkpoints[..|checkpoints|] == checkpoints;
      BrokenZero(results);
      BrokenCounts(results, |results|);
      assert results[..|results|] == results;
      report := Report(Broken(results) == 0, Broken(results), previousRootHash, results);
    }
  }

  function Check(h: HashFn, log: seq<AuditEntry>, cp: Checkpoint): WindowResult {
    var entries := Window(log, cp);
    WindowResult(cp.fromSeq, cp.toSeq, cp.entryCount, |entries|,
                 RootOf(h, EntryDigests(h, entries), cp.previousRootHash) == cp.rootHash)
  }

  function Broken(results: seq<WindowResult>): nat {
    if results == [] then 0 else (if results[0].intact then 0 else 1) + Broken(results[1..])
  }

  function BrokenUpTo(results: seq<WindowResult>, n: nat): set<int>
    requires n <= |results|
  {
    set k | 0 <= k < n && !results[k].intact
  }

  lemma {:induction false} BrokenAppend(results: seq<WindowResult>, r: WindowResult)
    ensures Broken(results + [r]) == Broken(results) + if r.intact then 0 else 1
  {
    if results == [] {
      assert results + [r] == [r];
    } else {
      assert (results + [r])[1..] == results[1..] + [r];
      BrokenAppend(results[1..], r);
    }
  }

  lemma {:induction false} BrokenCounts(results: seq<WindowResult>, n: nat)
    requires n <= |results|
    ensures Broken(results[..n]) == |BrokenUpTo(results, n)|
  {
    if n > 0 {
      BrokenCounts(results, n - 1);
      assert results[..n] == results[..n - 1] + [results[n - 1]];
      BrokenAppend(results[..n - 1], results[n - 1]);
      assert BrokenUpTo(results, n) == BrokenUpTo(results, n - 1) + if results[n - 1].intact then {} else {n - 1};
    }
  }

  /** The entries above a number are the rest of the log from some position on. */
  lemma {:induction false} FromOn(log: seq<AuditEntry>, n: nat) returns (first: nat)
    requires Increasing(log)
    ensures first <= |log| && forall i :: 0 <= i < |log| ==> (i >= first <==> log[i].seqNo > n)
  {
    first := 0;
    if log != [] && log[0].seqNo <= n {
      var k := FromOn(log[1..], n);
      assert forall i :: 1 <= i < |log| ==> log[i] == log[1..][i - 1];
      first := k + 1;
    }
  }

  lemma {:induction false} BetweenFromOn(log: seq<AuditEntry>, n: nat, hi: nat, first: nat)
    requires Increasing(log) && forall i :: 0 <= i < |log| ==> log[i].seqNo <= hi
    requires first <= |log| && forall i :: 0 <= i < |log| ==> (i >= first <==> log[i].seqNo > n)
    ensures Between(log, n + 1, hi) == log[first..]
  {
    if first > 0 {
      assert forall i :: 1 <= i < |log| ==> log[i] == log[1..][i - 1];
      BetweenFromOn(log[1..], n, hi, first - 1);
    } else {
      AllBetween(log, n + 1, hi);
    }
  }

  /** A checkpoint over the entries from `first` on, those above the last sealed number; none if there are
      none. */
  predicate SealsFrom(h: HashFn, log: seq<AuditEntry>, cps: seq<Checkpoint>, first: nat, created: Option<Checkpoint>) {
    && first <= |log| && (forall i :: 0 <= i < |log| ==> (i >= first <==> log[i].seqNo > LastSealed(cps)))
    && created
       == if first == |log| then None
          else Some(Checkpoint(log[first].seqNo, log[|log| - 1].seqNo, |log| - first,
                               h(RootText(EntryDigests(h, log[first..]), LatestRoot(cps))), LatestRoot(cps)))
  }

  /** What is to be sealed next. */
  lemma NextIs(h: HashFn, log: seq<AuditEntry>, cps: seq<Checkpoint>) returns (first: nat)
    requires Increasing(log)
    ensures SealsFrom(h, log, cps, first, NextCheckpoint(h, log, cps))
  {
    first := FromOn(log, LastSealed(cps));
    BetweenFromOn(log, LastSealed(cps), LastLogged(log), first);
  }

  lemma {:induction false} AllBetween(log: seq<AuditEntry>, lo: nat, hi: nat)
    requires forall i :: 0 <= i < |log| ==> lo <= log[i].seqNo <= hi
    ensures Between(log, lo, hi) == log
  {
    if log != [] {
      AllBetween(log[1..], lo, hi);
    }
  }

  lemma {:induction false} BrokenZero(results: seq<WindowResult>)
    ensures Broken(results) == 0 <==> forall k :: 0 <= k < |results| ==> results[k].intact
  {
    if results != [] {
      BrokenZero(results[1..]);
      assert forall k :: 1 <= k < |results| ==> results[k] == results[1..][k - 1];
    }
  }

  // ---------------------------------------------------------------- what a run guarantees

  /** Windows are disjoint and in order, and together they hold every entry up to the last
      sealed one exactly once. */
  lemma EveryEntryInOneWindow(h: HashFn, log: seq<AuditEntry>, cps: seq<Checkpoint>, e: AuditEntry)
    requires Chain(h, log, cps) && e in log && e.seqNo <= LastSealed(cps)
    ensures exists k :: 0 <= k < |cps| && e in Window(log, cps[k])
    ensures forall k, m :: 0 <= k < m < |cps| ==> !(e in Window(log, cps[k]) && e in Window(log, cps[m]))
  {
    BetweenMember(log, e, 0, LastSealed(cps));
    InSomeWindow(log, cps, e);
    forall k | 0 <= k < |cps| && e in Window(log, cps[k]) ensures cps[k].fromSeq <= e.seqNo <= cps[k].toSeq {
      BetweenMember(log, e, cps[k].fromSeq, cps[k].toSeq);
    }
  }

  lemma {:induction false} InSomeWindow(log: seq<AuditEntry>, cps: seq<Checkpoint>, e: AuditEntry)
    requires e in AllWindows(log, cps)
    ensures exists k :: 0 <= k < |cps| && e in Window(log, cps[k])
  {
    var n := |cps| - 1;
    if e !in Window(log, cps[n]) {
      InSomeWindow(log, cps[..n], e);
      var k :| 0 <= k < n && e in Window(log, cps[..n][k]);
      assert cps[..n][k] == cps[k];
    }
  }

  /** An untouched log always verifies. */
  lemma UntouchedLogIsIntact(h: HashFn, log: seq<AuditEntry>, cps: seq<Checkpoint>, k: nat)
    requires Chain(h, log, cps) && k < |cps|
    ensures Check(h, log, cps[k]).intact
    ensures Check(h, log, cps[k]).foundEntries == Check(h, log, cps[k]).expectedEntries
  {
    assert Seals(h, cps[k], Window(log, cps[k]));
  }

  /** Tampering is located: whatever the log has become, a window is reported intact exactly when
      its digests are those that were sealed, unless the two root texts collide. No other window
      matters, so a broken window does not break its neighbours. */
  lemma VerifyLocatesTampering(
    h: HashFn, log: seq<AuditEntry>, cps: seq<Checkpoint>, tampered: seq<AuditEntry>, k: nat)
    requires Chain(h, log, cps) && k < |cps|
    ensures var before, now := EntryDigests(h, Window(log, cps[k])), EntryDigests(h, Window(tampered, cps[k]));
            var previous := cps[k].previousRootHash;
            && (before == now ==> Check(h, tampered, cps[k]).intact)
            && (before != now && Check(h, tampered, cps[k]).intact ==>
                  Collision(h, {RootText(before, previous)}, {RootText(now, previous)}))
  {
    assert Seals(h, cps[k], Window(log, cps[k]));
    var before, now := EntryDigests(h, Window(log, cps[k])), EntryDigests(h, Window(tampered, cps[k]));
    var previous := cps[k].previousRootHash;
    if RootText(before, previous) == RootText(now, previous) {
      RootTextInjective(before, previous, now, previous);
    }
  }

  /** Every digest sealed so far. */
  function SealedDigests(h: HashFn, log: seq<AuditEntry>, cps: seq<Checkpoint>): seq<seq<Digest>> {
    if cps == [] then []
    else SealedDigests(h, log, cps[..|cps| - 1]) + [EntryDigests(h, Window(log, cps[|cps| - 1]))]
  }

  function RootTexts(h: HashFn, log: seq<AuditEntry>, cps: seq<Checkpoint>): set<string> {
    if cps == [] then {}
    else
      var cp := cps[|cps| - 1];
      RootTexts(h, log, cps[..|cps| - 1])
      + {RootText(EntryDigests(h, Window(log, cp)), cp.previousRootHash)}
  }

  lemma LinkedPrefix(cps: seq<Checkpoint>)
    requires Linked(cps) && cps != []
    ensures Linked(cps[..|cps| - 1]) && cps[|cps| - 1].previousRootHash == LatestRoot(cps[..|cps| - 1])
  {
    var init := cps[..|cps| - 1];
    forall k | 0 <= k < |init| ensures LinkedAt(init, k) {
      assert LinkedAt(cps, k) && init[k] == cps[k] && (k > 0 ==> init[k - 1] == cps[k - 1]);
    }
    assert LinkedAt(cps, |cps| - 1);
  }

  /** The latest root alone identifies the whole sealed history: two chains that end in the same
      root have the same number of windows with the same digests in each. */
  lemma {:induction false} LatestRootBindsHistory(
    h: HashFn, log: seq<AuditEntry>, cps: seq<Checkpoint>, log': seq<AuditEntry>, cps': seq<Checkpoint>)
    requires AllSealed(h, log, cps) && Linked(cps) && AllSealed(h, log', cps') && Linked(cps')
    requires LatestRoot(cps) == LatestRoot(cps')
    ensures SealedDigests(h, log, cps) == SealedDigests(h, log', cps')
            || Collision(h, RootTexts(h, log, cps), RootTexts(h, log', cps'))
    decreases |cps|
  {
    if cps != [] {
      var (init, init') := (cps[..|cps| - 1], cps'[..|cps'| - 1]);
      var (cp, cp') := (cps[|cps| - 1], cps'[|cps'| - 1]);
      var ds, ds' := EntryDigests(h, Window(log, cp)), EntryDigests(h, Window(log', cp'));
      var t, t' := RootText(ds, cp.previousRootHash), RootText(ds', cp'.previousRootHash);
      assert t in RootTexts(h, log, cps) && t' in RootTexts(h, log', cps');
      assert h(t) == cp.rootHash && h(t') == cp'.rootHash by {
        assert Seals(h, cp, Window(log, cp)) && Seals(h, cp', Window(log', cp'));
      }
      if t == t' {
        RootTextInjective(ds, cp.previousRootHash, ds', cp'.previousRootHash);
        LinkedPrefix(cps);
        LinkedPrefix(cps');
        LatestRootBindsHistory(h, log, init, log', init');
        if Collision(h, RootTexts(h, log, init), RootTexts(h, log', init')) {
          CollisionMonotone(h, RootTexts(h, log, init), RootTexts(h, log', init'),
                            RootTexts(h, log, cps), RootTexts(h, log', cps'));
        }
      }
    }
  }

  // ---------------------------------------------------------------- what a digest says of an entry

  /** What the column types guarantee: an instant in ISO form and the names of two enumerations hold no
      separator. Actor, action, resource type and resource id are free text. */
  predicate Typed(e: AuditEntry) {
    '|' !in e.timestamp && '|' !in e.severity && '|' !in e.actorType
  }

  /** No free-text field contains the separator. */
  predicate PlainFields(e: AuditEntry) {
    forall i :: 4 <= i < 8 ==> '|' !in Fields(e)[i]
  }

  /** The same entry, up to the one thing the canonical form drops: an absent actor id and an empty
      one. */
  predicate SameEntry(a: AuditEntry, b: AuditEntry) {
    a == b.(actorId := a.actorId) && Fields(a)[4] == Fields(b)[4]
  }

  lemma PlainThroughout(e: AuditEntry)
    requires Typed(e) && PlainFields(e)
    ensures forall i :: 0 <= i < 8 ==> '|' !in Fields(e)[i]
  {
    forall i | 0 <= i < 8 ensures '|' !in Fields(e)[i] {
      if i == 0 {
        assert Fields(e)[0] == Decimal(e.seqNo);
      }
    }
  }

  lemma SameFields(a: AuditEntry, b: AuditEntry)
    requires Fields(a) == Fields(b)
    ensures SameEntry(a, b)
  {
    assert Fields(a)[0] == Fields(b)[0] && Fields(a)[1] == Fields(b)[1] && Fields(a)[2] == Fields(b)[2];
    assert Fields(a)[3] == Fields(b)[3] && Fields(a)[5] == Fields(b)[5] && Fields(a)[6] == Fields(b)[6];
    assert Fields(a)[7] == Fields(b)[7] && Fields(a)[8] == Fields(b)[8];
    DecimalInjective(a.seqNo, b.seqNo);
  }

  function Separators(parts: seq<string>): nat {
    if parts == [] then 0 else multiset(parts[0])['|'] + Separators(parts[1..])
  }

  lemma {:induction false} SeparatorsInJoin(parts: seq<string>)
    requires parts != []
    ensures multiset(Join(parts, '|'))['|'] == |parts| - 1 + Separators(parts)
  {
    if |parts| > 1 {
      SeparatorsInJoin(parts[1..]);
    } else {
      assert parts[1..] == [];
    }
  }

  lemma {:induction false} SeparatorsUpToLast(parts: seq<string>)
    requires parts != []
    ensures Separators(parts) == multiset(parts[|parts| - 1])['|']
            <==> forall i :: 0 <= i < |parts| - 1 ==> '|' !in parts[i]
    ensures Separators(parts) >= multiset(parts[|parts| - 1])['|']
  {
    if |parts| > 1 {
      SeparatorsUpToLast(parts[1..]);
      assert '|' in parts[0] <==> '|' in multiset(parts[0]);
      assert forall i :: 1 <= i < |parts| ==> parts[i] == parts[1..][i - 1];
    } else {
      assert parts[1..] == [];
    }
  }

  /** Beside an entry without separators and with the same metadata, no other can have one. */
  lemma PlainIsShared(a: AuditEntry, b: AuditEntry)
    requires Typed(a) && PlainFields(a) && a.metadata == b.metadata && EntryText(a) == EntryText(b)
    ensures forall i :: 0 <= i < 8 ==> '|' !in Fields(b)[i]
  {
    PlainThroughout(a);
    SeparatorsInJoin(Fields(a));
    SeparatorsInJoin(Fields(b));
    SeparatorsUpToLast(Fields(a));
    SeparatorsUpToLast(Fields(b));
    assert Fields(a)[8] == Fields(b)[8] == a.metadata;
  }

  /** Equal digests mean equal entries when one of them is free of the separator and the metadata
      agree, or when both are free of it. */
  lemma DigestBindsEntry(h: HashFn, a: AuditEntry, b: AuditEntry)
    requires Typed(a) && Typed(b) && PlainFields(a) && (PlainFields(b) || a.metadata == b.metadata)
    requires h(EntryText(a)) == h(EntryText(b))
    ensures SameEntry(a, b) || Collision(h, {EntryText(a)}, {EntryText(b)})
  {
    if EntryText(a) == EntryText(b) {
      PlainThroughout(a);
      if PlainFields(b) {
        PlainThroughout(b);
      } else {
        PlainIsShared(a, b);
      }
      JoinInjective(Fields(a), Fields(b), '|');
      SameFields(a, b);
    } else {
      assert EntryText(a) in {EntryText(a)} && EntryText(b) in {EntryText(b)};
    }
  }

  // ---------------------------------------------------------------- a separator in a field

  /** Text may move across the separator between two fields. */
  lemma {:induction false} JoinShift(parts: seq<string>, i: nat, x: string, y: string)
    requires i + 1 < |parts| && parts[i] == x + ['|'] + y
    ensures Join(parts[i := x][i + 1 := y + ['|'] + parts[i + 1]], '|') == Join(parts, '|')
  {
    var shifted := parts[i := x][i + 1 := y + ['|'] + parts[i + 1]];
    if i > 0 {
      JoinShift(parts[1..], i - 1, x, y);
      assert shifted[1..] == parts[1..][i - 1 := x][i := y + ['|'] + parts[1..][i]];
    } else {
      var z, rest := parts[1], parts[2..];
      assert parts[1..][1..] == rest && shifted[1..] == [y + ['|'] + z] + rest && shifted[1..][1..] == rest;
      if rest == [] {
        assert Join(shifted, '|') == x + ['|'] + (y + ['|'] + z);
        assert Join(parts, '|') == x + ['|'] + y + ['|'] + z;
      } else {
        var tail := Join(rest, '|');
        assert Join(shifted, '|') == x + ['|'] + ((y + ['|'] + z) + ['|'] + tail);
        assert Join(parts, '|') == x + ['|'] + y + ['|'] + (z + ['|'] + tail);
      }
    }
  }

  function WithField(e: AuditEntry, i: nat, s: string): (r: AuditEntry)
    requires 4 <= i < 8
    ensures Fields(r) == Fields(e)[i := s] && r.metadata == e.metadata && (Typed(e) ==> Typed(r))
  {
    if i == 4 then e.(actorId := Some(s))
    else if i == 5 then e.(action := s)
    else if i == 6 then e.(resourceType := s)
    else e.(resourceId := s)
  }

  /** Another entry with the same text, when a free-text field holds the separator: what follows it
      goes to the next field, or, out of the last one, what precedes it to the field before. */
  lemma Shifted(a: AuditEntry) returns (b: AuditEntry)
    requires Typed(a) && !PlainFields(a)
    ensures Typed(b) && b.metadata == a.metadata && EntryText(b) == EntryText(a) && !SameEntry(a, b)
  {
    var i :| 4 <= i < 8 && '|' in Fields(a)[i];
    var f := Fields(a);
    var k :| 0 <= k < |f[i]| && f[i][k] == '|';
    var (x, y) := (f[i][..k], f[i][k + 1..]);
    assert f[i] == x + ['|'] + y;
    if i < 7 {
      b := WithField(WithField(a, i, x), i + 1, y + ['|'] + f[i + 1]);
      JoinShift(f, i, x, y);
      assert Fields(b)[i] == x;
    } else {
      b := WithField(WithField(a, 6, f[6] + ['|'] + x), 7, y);
      JoinShift(Fields(b), 6, f[6], x);
      assert Fields(b)[6 := f[6]][7 := x + ['|'] + y] == f;
      assert Fields(b)[7] == y;
    }
    assert |Fields(b)[i]| < |f[i]|;
    SameEntryFields(a, b, i);
  }

  lemma SameEntryFields(a: AuditEntry, b: AuditEntry, i: nat)
    requires i < 9 && Fields(a)[i] != Fields(b)[i]
    ensures !SameEntry(a, b)
  {
  }

  /** Among entries with the same metadata the text identifies an entry exactly when none of its
      free-text fields holds the separator. */
  lemma TextIdentifiesIff(a: AuditEntry)
    requires Typed(a)
    ensures PlainFields(a)
            <==> forall b :: Typed(b) && b.metadata == a.metadata && EntryText(b) == EntryText(a) ==> SameEntry(a, b)
  {
    if PlainFields(a) {
      forall b | Typed(b) && b.metadata == a.metadata && EntryText(b) == EntryText(a) ensures SameEntry(a, b) {
        PlainThroughout(a);
        PlainIsShared(a, b);
        JoinInjective(Fields(a), Fields(b), '|');
        SameFields(a, b);
      }
    } else {
      var b := Shifted(a);
    }
  }

  /** For example, two different refund entries with one text, hence one digest. */
  lemma SeparatorIsAmbiguous(h: HashFn, e: AuditEntry)
    ensures var a, b := e.(action := "REFUND|x", resourceType := "Payment"), e.(action := "REFUND", resourceType := "x|Payment");
            a != b && EntryText(a) == EntryText(b) && h(EntryText(a)) == h(EntryText(b))
  {
    var a, b := e.(action := "REFUND|x", resourceType := "Payment"), e.(action := "REFUND", resourceType := "x|Payment");
    assert Fields(a)[5] == "REFUND" + ['|'] + "x" && "x" + ['|'] + "Payment" == "x|Payment";
    JoinShift(Fields(a), 5, "REFUND", "x");
    assert Fields(b) == Fields(a)[5 := "REFUND"][6 := "x" + ['|'] + Fields(a)[6]];
    assert |a.action| == 8 && |b.action| == 6;
  }
}
