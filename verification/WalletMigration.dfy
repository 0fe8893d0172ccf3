/** Moving an agent's legacy wallet into the ledger: every credited day becomes a ledger credit, every
    day settled from the wallet a ledger debit, each in its own transaction. */
module WalletMigration {
  import opened Wrappers

  /** A remittance of the agent from before the cutover, in the order of its days. */
  datatype LegacyRow = LegacyRow(amountDue: int, received: bool, walletRef: bool, creditPosted: bool, settlementPosted: bool)

  /** `stored` is the balance column of the agent, `available` what the ledger wallet holds. */
  datatype State = State(rows: seq<LegacyRow>, stored: int, available: int)

  datatype Outcome = Migrated(skipped: bool) | NeedsReview | InsufficientBalance | Changed

  predicate IsCredit(row: LegacyRow) {
    row.amountDue < 0
  }

  predicate IsDebit(row: LegacyRow) {
    row.amountDue > 0 && row.received && row.walletRef
  }

  /** What a row is worth to the wallet. */
  function Worth(row: LegacyRow): int {
    if IsCredit(row) || IsDebit(row) then -row.amountDue else 0
  }

  predicate Posted(row: LegacyRow) {
    if IsCredit(row) then row.creditPosted else if IsDebit(row) then row.settlementPosted else true
  }

  function Post(row: LegacyRow): LegacyRow {
    if IsCredit(row) then row.(creditPosted := true)
    else if IsDebit(row) then row.(settlementPosted := true)
    else row
  }

  function History(rows: seq<LegacyRow>): int {
    if rows == [] then 0 else History(rows[..|rows| - 1]) + Worth(rows[|rows| - 1])
  }

  function OwedDays(rows: seq<LegacyRow>): int {
    if rows == [] then 0
    else
      var last := rows[|rows| - 1];
      OwedDays(rows[..|rows| - 1]) + if last.amountDue < 0 then -last.amountDue else 0
  }

  function WalletDays(rows: seq<LegacyRow>): int {
    if rows == [] then 0
    else
      var last := rows[|rows| - 1];
      WalletDays(rows[..|rows| - 1]) + if last.amountDue > 0 && last.received && last.walletRef then last.amountDue else 0
  }

  /** The part of the history that is in the ledger, and the part that is not. */
  function InLedger(rows: seq<LegacyRow>): int {
    if rows == [] then 0
    else InLedger(rows[..|rows| - 1]) + if Posted(rows[|rows| - 1]) then Worth(rows[|rows| - 1]) else 0
  }

  function Missing(rows: seq<LegacyRow>): int {
    if rows == [] then 0
    else Missing(rows[..|rows| - 1]) + if Posted(rows[|rows| - 1]) then 0 else Worth(rows[|rows| - 1])
  }

  lemma {:induction false} HistoryIsPostedOrMissing(rows: seq<LegacyRow>)
    ensures History(rows) == InLedger(rows) + Missing(rows)
  {
    if rows != [] {
      HistoryIsPostedOrMissing(rows[..|rows| - 1]);
    }
  }

  /** The wallet can pay a missing debit: it holds enough after everything before it. */
  predicate CoveredAt(s: State, i: nat)
    requires i < |s.rows|
  {
    IsDebit(s.rows[i]) && !Posted(s.rows[i]) ==> s.available + Missing(s.rows[..i]) >= s.rows[i].amountDue
  }

  predicate Covered(s: State, n: nat)
    requires n <= |s.rows|
  {
    forall i :: 0 <= i < n ==> CoveredAt(s, i)
  }

  predicate PostedUpTo(before: seq<LegacyRow>, after: seq<LegacyRow>, n: nat)
    requires n <= |before|
  {
    && |after| == |before|
    && (forall i :: 0 <= i < n ==> after[i] == Post(before[i]))
    && (forall i :: n <= i < |before| ==> after[i] == before[i])
  }

  lemma {:induction false} PostedHistory(before: seq<LegacyRow>, after: seq<LegacyRow>)
    requires |after| == |before| && forall i :: 0 <= i < |before| ==> after[i] == Post(before[i])
    ensures InLedger(after) == History(before) == History(after) && Missing(after) == 0
  {
    if before != [] {
      var n := |before| - 1;
      PostedHistory(before[..n], after[..n]);
    }
  }

  lemma {:induction false} PrefixMissing(rows: seq<LegacyRow>, n: nat)
    requires n < |rows|
    ensures Missing(rows[..n + 1]) == Missing(rows[..n]) + if Posted(rows[n]) then 0 else Worth(rows[n])
  {
    assert rows[..n + 1][..n] == rows[..n] && rows[..n + 1][n] == rows[n];
  }

  class Phase8MigrationService {
    var rows: seq<LegacyRow>
    var stored: int
    var available: int

    function View(): State
      reads this
    {
      State(rows, stored, available)
    }

    constructor (rows: seq<LegacyRow>, stored: int, available: int)
      ensures View() == State(rows, stored, available)
    {
      this.rows, this.stored, this.available := rows, stored, available;
    }

    /** The two reductions over the history: what days the company owed, less what was received from the
        wallet. */
    method Reconcile() returns (computed: int)
      ensures computed == History(rows) == OwedDays(rows) - WalletDays(rows)
    {
      var legacyCredits, legacyDebits := 0, 0;
      for i := 0 to |rows|
        invariant legacyCredits - legacyDebits == History(rows[..i])
        invariant legacyCredits == OwedDays(rows[..i]) && legacyDebits == WalletDays(rows[..i])
      {
        assert rows[..i + 1][..i] == rows[..i];
        if rows[i].amountDue < 0 {
          legacyCredits := legacyCredits - rows[i].amountDue;
        } else if rows[i].amountDue > 0 && rows[i].received && rows[i].walletRef {
          legacyDebits := legacyDebits + rows[i].amountDue;
        }
      }
      assert rows[..|rows|] == rows;
      return legacyCredits - legacyDebits;
    }

    /** One transaction: nothing for a row already posted; a debit needs the balance. */
    method PostRow(i: nat) returns (ok: bool, posted: bool)
      requires i < |rows|
      modifies this`rows, this`available
      ensures ok <==> !(IsDebit(old(rows)[i]) && !Posted(old(rows)[i]) && old(available) < old(rows)[i].amountDue)
      ensures ok ==> rows == old(rows)[i := Post(old(rows)[i])]
                     && available == old(available) + if Posted(old(rows)[i]) then 0 else Worth(old(rows)[i])
      ensures !ok ==> rows == old(rows) && available == old(available)
      ensures posted <==> ok && !Posted(old(rows)[i])
    {
      var row := rows[i];
      ok, posted := true, false;
      if row.amountDue < 0 && !row.creditPosted {
        available := available - row.amountDue;
        rows := rows[i := row.(creditPosted := true)];
        posted := true;
      }
      if row.amountDue > 0 && row.received && row.walletRef && !row.settlementPosted {
        if available < row.amountDue {
          return false, false;
        }
        available := available - row.amountDue;
        rows := rows[i := row.(settlementPosted := true)];
        posted := true;
      }
    }

    /** `concurrent` is another writer's change of the stored balance while this one was posting.
        An unreconciled history posts nothing. A reconciled one migrates exactly when every missing
        debit is covered by what precedes it; otherwise it stops there, and the stored balance and
        the rows beyond stay as they were. */
    method MigrateAgentWallet(concurrent: int) returns (r: Outcome)
      modifies this
      ensures r == NeedsReview <==> old(stored) != History(old(rows))
      ensures r == NeedsReview ==> View() == old(View())
      ensures r != NeedsReview ==> (r != InsufficientBalance <==> Covered(old(View()), |old(rows)|))
      ensures r != NeedsReview ==> (r.Migrated? <==> Covered(old(View()), |old(rows)|) && concurrent == 0)
      ensures r.Migrated? ==> stored == 0 && PostedUpTo(old(rows), rows, |old(rows)|)
                              && available == old(available) + Missing(old(rows))
                              && (r.skipped <==> old(stored) == 0 && forall i :: 0 <= i < |rows| ==> Posted(old(rows)[i]))
      ensures r == InsufficientBalance ==>
                && stored == old(stored)
                && exists n :: 0 <= n < |old(rows)| && PostedUpTo(old(rows), rows, n) && !CoveredAt(old(View()), n)
                               && available == old(available) + Missing(old(rows)[..n])
    {
      var balance := stored;
      var computed := Reconcile();
      if computed != balance {
        return NeedsReview;
      }
      var journals := 0;
      for i := 0 to |rows|
        invariant |rows| == |old(rows)| && PostedUpTo(old(rows), rows, i) && stored == old(stored)
        invariant available == old(available) + Missing(old(rows)[..i])
        invariant Covered(old(View()), i)
        invariant journals >= 0 && (journals == 0 <==> forall k :: 0 <= k < i ==> Posted(old(rows)[k]))
      {
        PrefixMissing(old(rows), i);
        var ok, posted := PostRow(i);
        if !ok {
          assert !CoveredAt(old(View()), i);
          return InsufficientBalance;
        }
        journals := journals + if posted then 1 else 0;
      }
      assert old(rows)[..|rows|] == old(rows);
      stored := stored + concurrent;
      if stored != balance {
        return Changed;
      }
      stored := 0;
      return Migrated(journals == 0 && balance == 0);
    }
  }

  // ---------------------------------------------------------------- what a migration amounts to

  /** After a migration the whole history is in the ledger, and it is worth exactly the balance that
      was stored: what this run added and what earlier, interrupted runs had added. */
  lemma ValueIsConserved(before: State, after: State)
    requires before.stored == History(before.rows) && PostedUpTo(before.rows, after.rows, |before.rows|)
    requires after.available == before.available + Missing(before.rows)
    ensures InLedger(after.rows) == before.stored
    ensures after.available - before.available == before.stored - InLedger(before.rows)
    ensures after.available - InLedger(after.rows) == before.available - InLedger(before.rows)
  {
    HistoryIsPostedOrMissing(before.rows);
    PostedHistory(before.rows, after.rows);
  }

  lemma {:induction false} PostedPrefix(before: seq<LegacyRow>, after: seq<LegacyRow>, n: nat)
    requires n <= |before| && PostedUpTo(before, after, n)
    ensures InLedger(after) == InLedger(before) + Missing(before[..n])
    ensures History(after) == History(before)
  {
    if before != [] {
      var last := |before| - 1;
      if n <= last {
        PostedPrefix(before[..last], after[..last], n);
        assert before[..last][..n] == before[..n];
      } else {
        PostedPrefix(before[..last], after[..last], last);
        assert before[..n] == before && before[..last][..last] == before[..last];
      }
    }
  }

  /** A run that stopped at an uncovered debit has kept the books: what it added to the wallet is what
      it marked as posted, and the history still reconciles for the next run. */
  lemma PartialRunKeepsBooks(before: State, after: State, n: nat)
    requires n <= |before.rows| && PostedUpTo(before.rows, after.rows, n) && after.stored == before.stored
    requires after.available == before.available + Missing(before.rows[..n])
    ensures after.available - InLedger(after.rows) == before.available - InLedger(before.rows)
    ensures before.stored == History(before.rows) <==> after.stored == History(after.rows)
  {
    PostedPrefix(before.rows, after.rows, n);
  }

  /** Run again after a success, the same item is sent to review unless the balance had been zero. */
  lemma RerunNeedsReviewIff(before: State, after: State)
    requires before.stored == History(before.rows) && PostedUpTo(before.rows, after.rows, |before.rows|) && after.stored == 0
    ensures after.stored != History(after.rows) <==> before.stored != 0
  {
    PostedHistory(before.rows, after.rows);
  }

  /** Why wallet fundings come before wallet balances: what is in the wallet already can only help a debit
      that precedes its credit. */
  lemma FundsFirst(s: State, funded: nat)
    ensures Covered(s, |s.rows|) ==> Covered(s.(available := s.available + funded), |s.rows|)
  {
    var t := s.(available := s.available + funded);
    if Covered(s, |s.rows|) {
      forall i | 0 <= i < |t.rows| ensures CoveredAt(t, i) {
        assert CoveredAt(s, i);
      }
    }
  }

  lemma FundedInTime(s: State, funded: nat)
    requires s == State([LegacyRow(100, true, true, false, false), LegacyRow(-100, false, false, false, false)], 0, 0) && funded >= 100
    ensures !Covered(s, |s.rows|) && Covered(s.(available := funded), |s.rows|)
  {
    DebitBeforeItsCredit(s);
    assert s.rows[..0] == [] && !IsDebit(s.rows[1]);
    assert CoveredAt(s.(available := funded), 0) && CoveredAt(s.(available := funded), 1);
  }

  /** A history that reconciles and never went below zero can still be refused: the rows are posted in
      the order of their days, and a day settled from the wallet may precede the day that funded it. */
  lemma DebitBeforeItsCredit(s: State)
    requires s == State([LegacyRow(100, true, true, false, false), LegacyRow(-100, false, false, false, false)], 0, 0)
    ensures s.stored == History(s.rows) && !Covered(s, |s.rows|)
  {
    assert s.rows[..1] == [s.rows[0]] && s.rows[..0] == [];
    assert History([s.rows[0]]) == History([]) + Worth(s.rows[0]) by {
      assert [s.rows[0]][..0] == [];
    }
    assert !CoveredAt(s, 0);
  }
}
