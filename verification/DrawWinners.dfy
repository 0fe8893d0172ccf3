/** Results and winners in every run: who may be marked, and what a published result opens to. */
module DrawWinners {
  import opened Wrappers
  import opened Hashing
  import opened DrawEngine
  import opened DrawRuns
  import DrawMath
  import Json

  function DrawOf(s: State, u: PoolUnit): nat
    requires IsUnit(s, u)
  {
    match u
    case TicketUnit(t) => s.tickets[t].draw
    case EntryUnit(e) => s.entries[e].draw
  }

  /** Carries the winner's mark. */
  predicate Marked(s: State, u: PoolUnit)
    requires IsUnit(s, u)
  {
    match u
    case TicketUnit(t) => s.tickets[t].isWinner
    case EntryUnit(e) => s.entries[e].status.WinningEntry?
  }

  // ---------------------------------------------------------------- identifiers

  predicate TablesOk(s: State) {
    && (forall t :: 0 <= t < |s.tickets| ==> IsTicketRef(s.tickets[t].ref))
    && (forall t, u :: 0 <= t < u < |s.tickets| ==> s.tickets[t].ref != s.tickets[u].ref)
    && (forall e, f :: 0 <= e < f < |s.entries| ==> s.entries[e].id != s.entries[f].id)
  }

  /** No two participants share the identifier that goes into the pool. */
  lemma UnitIdInjective(s: State, u: PoolUnit, v: PoolUnit)
    requires TablesOk(s) && IsUnit(s, u) && IsUnit(s, v) && UnitId(s, u) == UnitId(s, v)
    ensures u == v
  {
    assert u.EntryUnit? ==> UnitId(s, u)[0] == 'E' && UnitId(s, u)[6..] == s.entries[u.entry].id;
    assert v.EntryUnit? ==> UnitId(s, v)[0] == 'E' && UnitId(s, v)[6..] == s.entries[v.entry].id;
  }

  lemma PoolIdsDistinct(s: State, pool: seq<PoolUnit>)
    requires TablesOk(s) && InPoolRange(s, pool) && DrawMath.Distinct(pool)
    ensures DrawMath.Distinct(PoolIds(s, pool))
  {
    var ids := PoolIds(s, pool);
    forall i, j | 0 <= i < j < |ids| ensures ids[i] != ids[j] {
      if ids[i] == ids[j] {
        UnitIdInjective(s, pool[i], pool[j]);
      }
    }
  }

  // ---------------------------------------------------------------- the invariant

  predicate PoolOfDraw(s: State, pool: seq<PoolUnit>, d: nat) {
    InPoolRange(s, pool) && DrawMath.Distinct(pool) && forall i :: 0 <= i < |pool| ==> DrawOf(s, pool[i]) == d
  }

  predicate StageOfDraw(s: State, p: Process) {
    match p.stage
    case HasTickets(tickets) =>
      && DrawMath.Distinct(tickets)
      && forall i :: 0 <= i < |tickets| ==> tickets[i] < |s.tickets| && s.tickets[tickets[i]].draw == p.draw
    case HasPool(pool) => PoolOfDraw(s, pool, p.draw)
    case Published(pool) => PoolOfDraw(s, pool, p.draw)
    case _ => true
  }

  predicate PoolsOk(s: State) {
    forall e :: 0 <= e < |s.engines| ==> StageOfDraw(s, s.engines[e])
  }

  /** The result of its draw names this participant. */
  predicate Named(s: State, u: PoolUnit)
    requires IsUnit(s, u)
  {
    && DrawOf(s, u) < |s.draws| && s.draws[DrawOf(s, u)].result.Some?
    && s.draws[DrawOf(s, u)].result.value.winner == UnitId(s, u)
  }

  ghost predicate WinnersOk(s: State) {
    forall u: PoolUnit :: IsUnit(s, u) && Marked(s, u) ==> Named(s, u)
  }

  /** A published result checks: its seed opens the commitment, and its winner is the one the seed
      selects from the pool whose root it publishes. */
  predicate Verifies(c: Crypto, draw: Draw, pool: seq<string>, bound: nat)
    requires draw.result.Some?
  {
    var r := draw.result.value;
    && draw.seedHash == Some(c.h(r.seed)) && r.seedHash == c.h(r.seed)
    && pool != [] && Drawable(c, r.seed, draw.code, |pool|, bound)
    && r.participants == |pool| && r.winner == pool[DrawMath.WinnerIndex(c.h, c.hmac, r.seed, draw.code, |pool|, bound).value]
    && r.merkleRoot == DrawMath.MerkleRoot(c.h, pool, draw.code)
  }

  /** What anybody can recompute from a result with several participants: the first word below the
      greatest multiple of their number, taken modulo that number, points at the winner. */
  lemma WinnerCanBeRecomputed(c: Crypto, draw: Draw, pool: seq<string>, bound: nat) returns (k: nat, i: nat)
    requires draw.result.Some? && Verifies(c, draw, pool, bound) && |pool| > 1
    ensures DrawMath.Selects(c.h, c.hmac, draw.result.value.seed, draw.code, |pool|, k, DrawMath.Index(i))
    ensures i < |pool| && pool[i] == draw.result.value.winner
  {
    k := DrawMath.WinnerIs(c.h, c.hmac, draw.result.value.seed, draw.code, |pool|, bound);
    i := DrawMath.WinnerIndex(c.h, c.hmac, draw.result.value.seed, draw.code, |pool|, bound).value;
  }

  /** The result of draw `d` verifies against the pool that engine `e` locked for it, and the
      participant selected carries the mark. */
  predicate Opens(c: Crypto, s: State, d: nat, e: nat, bound: nat)
    requires d < |s.draws| && s.draws[d].result.Some?
  {
    && e < |s.engines| && s.engines[e].draw == d && s.engines[e].stage.Published? && InPoolRange(s, s.engines[e].stage.pool)
    && Verifies(c, s.draws[d], PoolIds(s, s.engines[e].stage.pool), bound)
    && Marked(s, WinningUnit(c, s.draws[d].result.value.seed, s.draws[d].code, s.engines[e].stage.pool, bound))
  }

  ghost predicate ResultsOk(c: Crypto, s: State) {
    forall d :: 0 <= d < |s.draws| && s.draws[d].result.Some? ==> exists e: nat, bound: nat :: Opens(c, s, d, e, bound)
  }

  ghost predicate Fair(c: Crypto, s: State) {
    TablesOk(s) && PoolsOk(s) && WinnersOk(s) && ResultsOk(c, s)
  }

  // ---------------------------------------------------------------- steps that publish nothing

  /** Identifiers and draws of participants stay; rows are only added. */
  predicate SamePeople(s: State, t: State) {
    && |s.tickets| <= |t.tickets| && |s.entries| <= |t.entries|
    && (forall k :: 0 <= k < |s.tickets| ==> t.tickets[k].ref == s.tickets[k].ref && t.tickets[k].draw == s.tickets[k].draw)
    && (forall k :: 0 <= k < |s.entries| ==> t.entries[k].id == s.entries[k].id && t.entries[k].draw == s.entries[k].draw)
  }

  predicate SameMarks(s: State, t: State)
    requires SamePeople(s, t)
  {
    && (forall k :: 0 <= k < |t.tickets| ==> (t.tickets[k].isWinner <==> k < |s.tickets| && s.tickets[k].isWinner))
    && (forall k :: 0 <= k < |t.entries| ==>
          (t.entries[k].status.WinningEntry? <==> k < |s.entries| && s.entries[k].status.WinningEntry?))
  }

  predicate SameResults(s: State, t: State) {
    && |s.draws| <= |t.draws|
    && forall d :: 0 <= d < |t.draws| ==> t.draws[d].result == if d < |s.draws| then s.draws[d].result else None
  }

  predicate KeepsPublished(s: State, t: State) {
    forall e :: 0 <= e < |s.engines| && s.engines[e].stage.Published? ==> e < |t.engines| && t.engines[e] == s.engines[e]
  }

  lemma SameIds(s: State, t: State, pool: seq<PoolUnit>)
    requires SamePeople(s, t) && InPoolRange(s, pool)
    ensures InPoolRange(t, pool) && PoolIds(t, pool) == PoolIds(s, pool)
  {
    assert forall i :: 0 <= i < |pool| ==> IsUnit(s, pool[i]) && UnitId(t, pool[i]) == UnitId(s, pool[i]);
  }

  /** Opening outlives whatever keeps people, results and marks. */
  lemma StillOpens(c: Crypto, s: State, t: State, d: nat, e: nat, bound: nat)
    requires MovesOn(s, t) && SamePeople(s, t) && d < |s.draws| && s.draws[d].result.Some? && Opens(c, s, d, e, bound)
    requires t.engines[e] == s.engines[e] && t.draws[d].result == s.draws[d].result
    requires forall u: PoolUnit :: IsUnit(s, u) && Marked(s, u) ==> Marked(t, u)
    ensures Opens(c, t, d, e, bound)
  {
    var pool := s.engines[e].stage.pool;
    SameIds(s, t, pool);
    assert DrawMovesOn(s.draws[d], t.draws[d]);
    var u := WinningUnit(c, s.draws[d].result.value.seed, s.draws[d].code, pool, bound);
    assert IsUnit(s, u) && Marked(s, u);
  }

  lemma QuietKeepsWinners(s: State, t: State)
    requires WinnersOk(s) && SamePeople(s, t) && SameMarks(s, t) && SameResults(s, t)
    ensures WinnersOk(t)
  {
    forall u: PoolUnit | IsUnit(t, u) && Marked(t, u) ensures Named(t, u) {
      assert IsUnit(s, u) && Marked(s, u) && Named(s, u);
    }
  }

  lemma QuietKeepsResults(c: Crypto, s: State, t: State)
    requires ResultsOk(c, s) && MovesOn(s, t)
    requires SamePeople(s, t) && SameMarks(s, t) && SameResults(s, t) && KeepsPublished(s, t)
    ensures ResultsOk(c, t)
  {
    assert forall u: PoolUnit :: IsUnit(s, u) && Marked(s, u) ==> Marked(t, u);
    forall d | 0 <= d < |t.draws| && t.draws[d].result.Some? ensures exists e: nat, bound: nat :: Opens(c, t, d, e, bound) {
      var e: nat, bound: nat :| Opens(c, s, d, e, bound);
      StillOpens(c, s, t, d, e, bound);
    }
  }

  lemma QuietStep(c: Crypto, s: State, op: Op)
    requires Legal(c, s, op) && !Publishes(c, s, op)
    ensures var t := After(c, s, op); SamePeople(s, t) && SameMarks(s, t) && SameResults(s, t) && KeepsPublished(s, t)
  {
    if LifecycleOp(op) || EngineOp(op) {
      QuietEngineStep(c, s, op);
    } else {
      TableKeepsDraws(c, s, op);
      QuietTableStep(c, s, op);
    }
  }

  lemma QuietEngineStep(c: Crypto, s: State, op: Op)
    requires Legal(c, s, op) && !Publishes(c, s, op) && (LifecycleOp(op) || EngineOp(op))
    ensures var t := After(c, s, op);
            t.tickets == s.tickets && t.entries == s.entries && SameResults(s, t) && KeepsPublished(s, t)
  {
    if op.FinishDraw? {
      Unpublished(c, s, op);
    } else if LifecycleOp(op) {
      QuietLifecycleStep(c, s, op);
    }
  }

  lemma Unpublished(c: Crypto, s: State, op: Op)
    requires Legal(c, s, op) && !Publishes(c, s, op) && op.FinishDraw?
    ensures var t := After(c, s, op);
            t.tickets == s.tickets && t.entries == s.entries && SameResults(s, t) && KeepsPublished(s, t)
  {
  }

  lemma QuietLifecycleStep(c: Crypto, s: State, op: Op)
    requires Legal(c, s, op) && LifecycleOp(op)
    ensures var t := After(c, s, op);
            t.tickets == s.tickets && t.entries == s.entries && SameResults(s, t) && s.engines <= t.engines
  {
  }

  lemma QuietTableStep(c: Crypto, s: State, op: Op)
    requires Legal(c, s, op) && !LifecycleOp(op) && !EngineOp(op)
    ensures SamePeople(s, After(c, s, op)) && SameMarks(s, After(c, s, op))
    ensures TablesOk(s) ==> TablesOk(After(c, s, op))
    ensures op.CreateDraw? ==> op.draw.result.None?
  {
    if op.BuyOnline? || op.WriteSale? {
      SaleIsQuiet(s, op.d, op.refs);
    } else if op.RequestRefund? || op.RefundSucceeds? || op.RefundFails? {
      RefundIsQuiet(c, s, op);
    }
  }

  lemma SaleIsQuiet(s: State, d: nat, refs: seq<string>)
    requires FreshRefs(s, refs)
    ensures var t := Sell(s, d, refs);
            SamePeople(s, t) && SameMarks(s, t) && (TablesOk(s) ==> TablesOk(t))
  {
  }

  lemma RefundIsQuiet(c: Crypto, s: State, op: Op)
    requires op.RequestRefund? || op.RefundSucceeds? || op.RefundFails?
    ensures var t := After(c, s, op);
            t.entries == s.entries && |t.tickets| == |s.tickets| &&
            forall k :: 0 <= k < |s.tickets| ==> t.tickets[k] == s.tickets[k].(status := t.tickets[k].status)
  {
  }

  // ---------------------------------------------------------------- tables and pools

  lemma StepKeepsTables(c: Crypto, s: State, op: Op)
    requires TablesOk(s) && Legal(c, s, op)
    ensures TablesOk(After(c, s, op)) && SamePeople(s, After(c, s, op))
  {
    if Publishes(c, s, op) {
      PublishingIs(c, s, op);
    } else if LifecycleOp(op) || EngineOp(op) {
      QuietEngineStep(c, s, op);
    } else {
      QuietTableStep(c, s, op);
    }
  }

  lemma PoolOfDrawStays(s: State, t: State, p: Process)
    requires SamePeople(s, t) && StageOfDraw(s, p)
    ensures StageOfDraw(t, p)
  {
    match p.stage
    case HasPool(pool) =>
      assert forall i :: 0 <= i < |pool| ==> IsUnit(s, pool[i]) && DrawOf(t, pool[i]) == DrawOf(s, pool[i]);
    case Published(pool) =>
      assert forall i :: 0 <= i < |pool| ==> IsUnit(s, pool[i]) && DrawOf(t, pool[i]) == DrawOf(s, pool[i]);
    case _ =>
  }

  lemma LockedTickets(s: State, d: nat, tickets: seq<nat>)
    requires Eligible(s, d, tickets)
    ensures StageOfDraw(s, Process(d, HasTickets(tickets)))
  {
    forall i, j | 0 <= i < j < |tickets| ensures tickets[i] != tickets[j] {
      Json.LessTotal(s.tickets[tickets[i]].ref, s.tickets[tickets[j]].ref);
    }
    forall i | 0 <= i < |tickets| ensures s.tickets[tickets[i]].draw == d {
      assert tickets[i] in tickets;
    }
  }

  lemma LockedPool(s: State, d: nat, tickets: seq<nat>, entries: seq<nat>)
    requires d < |s.draws| && StageOfDraw(s, Process(d, HasTickets(tickets))) && DrawnEntries(s, d, entries)
    ensures StageOfDraw(s, Process(d, HasPool(PoolOf(tickets, entries))))
  {
    var pool := PoolOf(tickets, entries);
    forall i | 0 <= i < |pool| ensures IsUnit(s, pool[i]) && DrawOf(s, pool[i]) == d {
      if i >= |tickets| {
        assert pool[i] == pool[|tickets| + (i - |tickets|)] == EntryUnit(entries[i - |tickets|]);
        assert entries[i - |tickets|] in entries;
      }
    }
    forall i, j | 0 <= i < j < |pool| ensures pool[i] != pool[j] {
      if i >= |tickets| {
        assert pool[i] == pool[|tickets| + (i - |tickets|)] == EntryUnit(entries[i - |tickets|]);
        assert pool[j] == pool[|tickets| + (j - |tickets|)] == EntryUnit(entries[j - |tickets|]);
        Json.LessTotal(s.entries[entries[i - |tickets|]].id, s.entries[entries[j - |tickets|]].id);
      } else if j >= |tickets| {
        assert pool[j] == pool[|tickets| + (j - |tickets|)] == EntryUnit(entries[j - |tickets|]);
      }
    }
  }

  lemma OtherStages(c: Crypto, s: State, op: Op, e: nat)
    requires Legal(c, s, op) && e < |After(c, s, op).engines| && !((op.LockTickets? || op.LockEntries?) && op.e == e)
    ensures var stage := After(c, s, op).engines[e].stage;
            || (e < |s.engines| && After(c, s, op).engines[e] == s.engines[e])
            || stage.Claimed? || stage.Done?
            || (op.FinishDraw? && e == op.e && stage == Published(s.engines[e].stage.pool) && After(c, s, op).engines[e].draw == s.engines[e].draw)
  {
    if !EngineOp(op) && !LifecycleOp(op) {
      TableKeepsDraws(c, s, op);
    }
  }

  /** How a step changes an engine. */
  lemma StagesAfter(c: Crypto, s: State, op: Op, e: nat)
    requires PoolsOk(s) && Legal(c, s, op) && e < |After(c, s, op).engines|
    ensures StageOfDraw(s, After(c, s, op).engines[e])
  {
    if op.LockTickets? && op.e == e {
      LockedTickets(s, s.engines[e].draw, op.tickets);
    } else if op.LockEntries? && op.e == e {
      LockedPool(s, s.engines[e].draw, s.engines[e].stage.tickets, op.entries);
    } else {
      OtherStages(c, s, op, e);
    }
  }

  lemma StepKeepsPools(c: Crypto, s: State, op: Op)
    requires TablesOk(s) && PoolsOk(s) && Legal(c, s, op)
    ensures PoolsOk(After(c, s, op))
  {
    var t := After(c, s, op);
    StepKeepsTables(c, s, op);
    forall e | 0 <= e < |t.engines| ensures StageOfDraw(t, t.engines[e]) {
      StagesAfter(c, s, op, e);
      PoolOfDrawStays(s, t, t.engines[e]);
    }
  }

  // ---------------------------------------------------------------- publishing

  function Selected(c: Crypto, s: State, op: Op): PoolUnit
    requires Legal(c, s, op) && Publishes(c, s, op)
  {
    WinningUnit(c, op.seed, s.draws[s.engines[op.e].draw].code, s.engines[op.e].stage.pool, op.bound)
  }

  lemma PublishingIs(c: Crypto, s: State, op: Op)
    requires Legal(c, s, op) && Publishes(c, s, op)
    ensures var (t, d) := (After(c, s, op), s.engines[op.e].draw);
            && SamePeople(s, t) && |t.tickets| == |s.tickets| && |t.entries| == |s.entries|
            && IsUnit(s, Selected(c, s, op))
            && (forall u: PoolUnit :: IsUnit(s, u) ==> (Marked(t, u) <==> Marked(s, u) || u == Selected(c, s, op)))
            && t.engines == s.engines[op.e := Process(d, Published(s.engines[op.e].stage.pool))]
            && |t.draws| == |s.draws| && (forall k :: 0 <= k < |s.draws| && k != d ==> t.draws[k] == s.draws[k])
            && t.draws[d] == s.draws[d].(status := Completed, result := t.draws[d].result)
            && t.draws[d].result == Some(DrawResult(UnitId(s, Selected(c, s, op)), |s.engines[op.e].stage.pool|, op.seed, c.h(op.seed),
                 DrawMath.MerkleRoot(c.h, PoolIds(s, s.engines[op.e].stage.pool), s.draws[d].code)))
  {
    var pool := s.engines[op.e].stage.pool;
    var u := Selected(c, s, op);
    assert u in pool;
  }

  lemma PublishingKeepsWinners(c: Crypto, s: State, op: Op)
    requires Legal(c, s, op) && Publishes(c, s, op) && PoolsOk(s) && WinnersOk(s)
    ensures WinnersOk(After(c, s, op))
  {
    var (t, d) := (After(c, s, op), s.engines[op.e].draw);
    PublishingIs(c, s, op);
    assert StageOfDraw(s, s.engines[op.e]) && DrawOf(s, Selected(c, s, op)) == d;
    forall u: PoolUnit | IsUnit(t, u) && Marked(t, u) ensures Named(t, u) {
      assert IsUnit(s, u);
      if u != Selected(c, s, op) {
        assert Marked(s, u) && Named(s, u);
      }
    }
  }

  lemma FreshResultOpens(c: Crypto, s: State, op: Op)
    requires Legal(c, s, op) && Publishes(c, s, op)
    ensures var d := s.engines[op.e].draw;
            && After(c, s, op).draws[d].result.Some?
            && Opens(c, After(c, s, op), d, op.e, op.bound)
  {
    PublishingIs(c, s, op);
    SameIds(s, After(c, s, op), s.engines[op.e].stage.pool);
  }

  lemma PublishingKeepsResults(c: Crypto, s: State, op: Op)
    requires Legal(c, s, op) && Publishes(c, s, op) && ResultsOk(c, s)
    ensures ResultsOk(c, After(c, s, op))
  {
    var (t, d) := (After(c, s, op), s.engines[op.e].draw);
    PublishingIs(c, s, op);
    StepMovesOn(c, s, op);
    FreshResultOpens(c, s, op);
    forall k | 0 <= k < |t.draws| && t.draws[k].result.Some? ensures exists e: nat, bound: nat :: Opens(c, t, k, e, bound) {
      if k == d {
        assert Opens(c, t, d, op.e, op.bound);
      } else {
        var e: nat, bound: nat :| Opens(c, s, k, e, bound);
        StillOpens(c, s, t, k, e, bound);
      }
    }
  }

  lemma StepKeepsFair(c: Crypto, s: State, op: Op)
    requires Fair(c, s) && Legal(c, s, op)
    ensures Fair(c, After(c, s, op))
  {
    StepKeepsTables(c, s, op);
    StepKeepsPools(c, s, op);
    StepMovesOn(c, s, op);
    if Publishes(c, s, op) {
      PublishingKeepsWinners(c, s, op);
      PublishingKeepsResults(c, s, op);
    } else {
      QuietStep(c, s, op);
      QuietKeepsWinners(s, After(c, s, op));
      QuietKeepsResults(c, s, After(c, s, op));
    }
  }

  lemma {:induction false} RunKeepsFair(c: Crypto, s: State, ops: seq<Op>)
    requires Fair(c, s) && LegalRun(c, s, ops)
    ensures Fair(c, Run(c, s, ops))
    decreases |ops|
  {
    if ops != [] {
      StepKeepsFair(c, s, ops[0]);
      RunKeepsFair(c, After(c, s, ops[0]), ops[1..]);
    }
  }

  // ---------------------------------------------------------------- every run

  /** In every run each draw is claimed at most once, and every open draw and every sold ticket has a
      seed commitment behind it. */
  lemma ClaimedOnceAndCommitted(c: Crypto, s: State, ops: seq<Op>)
    requires Initial(s) && LegalRun(c, s, ops)
    ensures var t := Run(c, s, ops);
            && (forall e, f :: 0 <= e < f < |t.engines| ==> t.engines[e].draw != t.engines[f].draw)
            && (forall d :: 0 <= d < |t.draws| && t.draws[d].status.Active? ==> t.draws[d].seedHash.Some?)
            && (forall k :: 0 <= k < |t.tickets| ==> t.tickets[k].draw < |t.draws| && t.draws[t.tickets[k].draw].seedHash.Some?)
  {
    RunKeepsCore(c, s, ops);
  }

  /** In every run a draw has exactly one winner if it has a result, and none otherwise: at most one of
      its tickets and entries carries the mark, and it is the one the result names. */
  lemma OneWinnerPerDraw(c: Crypto, s: State, ops: seq<Op>)
    requires Initial(s) && LegalRun(c, s, ops)
    ensures var t := Run(c, s, ops);
            && (forall u: PoolUnit :: IsUnit(t, u) && Marked(t, u) ==> Named(t, u))
            && (forall u: PoolUnit, v: PoolUnit ::
                  IsUnit(t, u) && IsUnit(t, v) && Marked(t, u) && Marked(t, v) && DrawOf(t, u) == DrawOf(t, v) ==> u == v)
            && (forall d: nat :: d < |t.draws| && t.draws[d].result.Some? ==>
                  exists u: PoolUnit :: IsUnit(t, u) && Marked(t, u) && DrawOf(t, u) == d)
  {
    var t := Run(c, s, ops);
    RunKeepsFair(c, s, ops);
    forall u: PoolUnit, v: PoolUnit | IsUnit(t, u) && IsUnit(t, v) && Marked(t, u) && Marked(t, v) && DrawOf(t, u) == DrawOf(t, v)
      ensures u == v
    {
      assert Named(t, u) && Named(t, v);
      UnitIdInjective(t, u, v);
    }
    forall d: nat | d < |t.draws| && t.draws[d].result.Some? ensures exists u: PoolUnit :: IsUnit(t, u) && Marked(t, u) && DrawOf(t, u) == d {
      var e: nat, bound: nat :| Opens(c, t, d, e, bound);
      var u := WinningUnit(c, t.draws[d].result.value.seed, t.draws[d].code, t.engines[e].stage.pool, bound);
      assert StageOfDraw(t, t.engines[e]) && u in t.engines[e].stage.pool;
      assert IsUnit(t, u) && Marked(t, u) && DrawOf(t, u) == d;
    }
  }

  // ---------------------------------------------------------------- where a pool comes from

  lemma {:induction false} RunConcat(c: Crypto, s: State, a: seq<Op>, b: seq<Op>)
    requires LegalRun(c, s, a + b)
    ensures LegalRun(c, s, a) && LegalRun(c, Run(c, s, a), b)
    ensures Run(c, Run(c, s, a), b) == Run(c, s, a + b)
    decreases |a|
  {
    if a == [] {
      assert a + b == b;
    } else {
      assert (a + b)[0] == a[0] && (a + b)[1..] == a[1..] + b;
      RunConcat(c, After(c, s, a[0]), a[1..], b);
    }
  }

  lemma Prefix(c: Crypto, s: State, ops: seq<Op>, n: nat)
    requires LegalRun(c, s, ops) && n <= |ops|
    ensures LegalRun(c, s, ops[..n]) && LegalRun(c, Run(c, s, ops[..n]), ops[n..])
    ensures Run(c, Run(c, s, ops[..n]), ops[n..]) == Run(c, s, ops)
    ensures n < |ops| ==> Legal(c, Run(c, s, ops[..n]), ops[n])
  {
    assert ops == ops[..n] + ops[n..];
    RunConcat(c, s, ops[..n], ops[n..]);
  }

  ghost predicate TookTickets(ops: seq<Op>, e: nat, tickets: seq<nat>) {
    exists i :: 0 <= i < |ops| && ops[i] == LockTickets(e, tickets)
  }

  predicate LockedAt(ops: seq<Op>, e: nat, pool: seq<PoolUnit>, i: nat, j: nat) {
    && i < j < |ops| && ops[i].LockTickets? && ops[i].e == e && ops[j].LockEntries? && ops[j].e == e
    && pool == PoolOf(ops[i].tickets, ops[j].entries)
  }

  ghost predicate TookPool(ops: seq<Op>, e: nat, pool: seq<PoolUnit>) {
    exists i: nat, j: nat :: LockedAt(ops, e, pool, i, j)
  }

  /** What an engine holds is what its own two queries returned. */
  ghost predicate Remembers(ops: seq<Op>, e: nat, stage: Stage) {
    match stage
    case HasTickets(tickets) => TookTickets(ops, e, tickets)
    case HasPool(pool) => TookPool(ops, e, pool)
    case Published(pool) => TookPool(ops, e, pool)
    case _ => true
  }

  lemma RemembersMore(ops: seq<Op>, op: Op, e: nat, stage: Stage)
    requires Remembers(ops, e, stage)
    ensures Remembers(ops + [op], e, stage)
  {
    match stage
    case HasTickets(tickets) =>
      var i :| 0 <= i < |ops| && ops[i] == LockTickets(e, tickets);
      assert (ops + [op])[i] == ops[i];
    case HasPool(pool) =>
      var i: nat, j: nat :| LockedAt(ops, e, pool, i, j);
      assert LockedAt(ops + [op], e, pool, i, j);
    case Published(pool) =>
      var i: nat, j: nat :| LockedAt(ops, e, pool, i, j);
      assert LockedAt(ops + [op], e, pool, i, j);
    case _ =>
  }

  lemma StepRemembers(c: Crypto, s: State, ops: seq<Op>, op: Op, e: nat)
    requires Legal(c, s, op) && e < |After(c, s, op).engines|
    requires e < |s.engines| ==> Remembers(ops, e, s.engines[e].stage)
    ensures Remembers(ops + [op], e, After(c, s, op).engines[e].stage)
  {
    var stage := After(c, s, op).engines[e].stage;
    if op.LockTickets? && op.e == e {
      assert (ops + [op])[|ops|] == op;
    } else if op.LockEntries? && op.e == e {
      var i :| 0 <= i < |ops| && ops[i] == LockTickets(e, s.engines[e].stage.tickets);
      assert LockedAt(ops + [op], e, stage.pool, i, |ops|);
    } else {
      OtherStages(c, s, op, e);
      if e < |s.engines| {
        RemembersMore(ops, op, e, s.engines[e].stage);
      }
    }
  }

  lemma {:induction false} RunRemembers(c: Crypto, s: State, ops: seq<Op>, e: nat)
    requires LegalRun(c, s, ops) && s.engines == [] && e < |Run(c, s, ops).engines|
    ensures Remembers(ops, e, Run(c, s, ops).engines[e].stage)
    decreases |ops|
  {
    if ops != [] {
      var before, op := ops[..|ops| - 1], ops[|ops| - 1];
      Prefix(c, s, ops, |ops| - 1);
      var t := Run(c, s, before);
      assert ops[|ops| - 1..] == [op] && [op][1..] == [] && ops == before + [op];
      if e < |t.engines| {
        RunRemembers(c, s, before, e);
      }
      StepRemembers(c, t, before, op, e);
    }
  }

  /** Each ticket of the draw that is live, once, in order of reference. */
  predicate EveryLiveTicket(s: State, d: nat, tickets: seq<nat>) {
    && (forall i :: 0 <= i < |tickets| ==> tickets[i] < |s.tickets|)
    && (forall i, j :: 0 <= i < j < |tickets| ==> Json.Less(s.tickets[tickets[i]].ref, s.tickets[tickets[j]].ref))
    && (forall t :: 0 <= t < |s.tickets| ==> (t in tickets <==> s.tickets[t].draw == d && s.tickets[t].status == Live))
  }

  /** Each entry of a jackpot draw that is live, once, in order of identifier; none for any other draw. */
  predicate EveryLiveEntry(s: State, d: nat, entries: seq<nat>)
    requires d < |s.draws|
  {
    && (forall i :: 0 <= i < |entries| ==> entries[i] < |s.entries|)
    && (forall i, j :: 0 <= i < j < |entries| ==> Json.Less(s.entries[entries[i]].id, s.entries[entries[j]].id))
    && (forall e :: 0 <= e < |s.entries| ==>
          (e in entries <==> s.draws[d].jackpot && s.entries[e].draw == d && s.entries[e].status == LiveEntry))
    && (!s.draws[d].jackpot ==> entries == [])
  }

  /** Draw `d` was decided from the pool engine `e` locked for it: all tickets live at step `i`, in order
      of reference, and then, for a jackpot draw, all entries live at step `j`. */
  predicate DecidedFrom(c: Crypto, s: State, ops: seq<Op>, d: nat, e: nat, i: nat, j: nat)
    requires LegalRun(c, s, ops) && e < |Run(c, s, ops).engines| && Run(c, s, ops).engines[e].stage.Published?
  {
    && LockedAt(ops, e, Run(c, s, ops).engines[e].stage.pool, i, j)
    && LegalRun(c, s, ops[..i]) && EveryLiveTicket(Run(c, s, ops[..i]), d, ops[i].tickets)
    && LegalRun(c, s, ops[..j]) && d < |Run(c, s, ops[..j]).draws| && EveryLiveEntry(Run(c, s, ops[..j]), d, ops[j].entries)
  }

  lemma LegalLock(c: Crypto, s: State, ops: seq<Op>, e: nat, i: nat)
    requires LegalRun(c, s, ops) && i < |ops| && e < |Run(c, s, ops).engines|
    requires (ops[i].LockTickets? || ops[i].LockEntries?) && ops[i].e == e
    ensures var d := Run(c, s, ops).engines[e].draw;
            && LegalRun(c, s, ops[..i])
            && (ops[i].LockTickets? ==> Eligible(Run(c, s, ops[..i]), d, ops[i].tickets))
            && (ops[i].LockEntries? ==> d < |Run(c, s, ops[..i]).draws| && DrawnEntries(Run(c, s, ops[..i]), d, ops[i].entries))
  {
    Prefix(c, s, ops, i);
    RunMovesOn(c, Run(c, s, ops[..i]), ops[i..]);
  }

  lemma OpenedBy(c: Crypto, s: State, d: nat) returns (e: nat, bound: nat)
    requires Fair(c, s) && d < |s.draws| && s.draws[d].result.Some?
    ensures Opens(c, s, d, e, bound) && DrawMath.Distinct(PoolIds(s, s.engines[e].stage.pool))
  {
    e, bound :| Opens(c, s, d, e, bound);
    assert StageOfDraw(s, s.engines[e]);
    PoolIdsDistinct(s, s.engines[e].stage.pool);
  }

  lemma LockedInTheRun(c: Crypto, s: State, ops: seq<Op>, e: nat) returns (i: nat, j: nat)
    requires LegalRun(c, s, ops) && s.engines == []
    requires e < |Run(c, s, ops).engines| && Run(c, s, ops).engines[e].stage.Published?
    ensures DecidedFrom(c, s, ops, Run(c, s, ops).engines[e].draw, e, i, j)
  {
    RunRemembers(c, s, ops, e);
    i, j :| LockedAt(ops, e, Run(c, s, ops).engines[e].stage.pool, i, j);
    LegalLock(c, s, ops, e, i);
    LegalLock(c, s, ops, e, j);
  }

  /** In every run each published result verifies against the very pool that one engine locked for the
      draw: every live ticket, every live entry of a jackpot draw, nothing else, and each identifier
      once. The seed opens the commitment, and the participant it selects is marked. */
  lemma DrawsAreFair(c: Crypto, s: State, ops: seq<Op>, d: nat) returns (e: nat, i: nat, j: nat, bound: nat)
    requires Initial(s) && LegalRun(c, s, ops)
    requires d < |Run(c, s, ops).draws| && Run(c, s, ops).draws[d].result.Some?
    ensures var t := Run(c, s, ops);
            && Opens(c, t, d, e, bound) && DecidedFrom(c, s, ops, d, e, i, j)
            && DrawMath.Distinct(PoolIds(t, t.engines[e].stage.pool))
  {
    RunKeepsFair(c, s, ops);
    e, bound := OpenedBy(c, Run(c, s, ops), d);
    i, j := LockedInTheRun(c, s, ops, e);
  }

  /** Hence nobody can show another pool under a published root: a list with that root, if it has no
      repeats or is as long as the published number of participants, is the list that was drawn from,
      in the same order, or two hashed texts collide. */
  lemma PublishedRootBindsPool(c: Crypto, s: State, ops: seq<Op>, d: nat, shown: seq<string>) returns (e: nat)
    requires Initial(s) && LegalRun(c, s, ops)
    requires d < |Run(c, s, ops).draws| && Run(c, s, ops).draws[d].result.Some? && shown != []
    requires var draw := Run(c, s, ops).draws[d];
             && DrawMath.MerkleRoot(c.h, shown, draw.code) == draw.result.value.merkleRoot
             && (DrawMath.Distinct(shown) || |shown| == draw.result.value.participants)
    ensures var t := Run(c, s, ops);
            && e < |t.engines| && t.engines[e].draw == d && t.engines[e].stage.Published? && InPoolRange(t, t.engines[e].stage.pool)
            && var pool := PoolIds(t, t.engines[e].stage.pool);
               || shown == pool
               || Collision(c.h, DrawMath.Preimages(c.h, shown, t.draws[d].code), DrawMath.Preimages(c.h, pool, t.draws[d].code))
  {
    var i, j, bound;
    e, i, j, bound := DrawsAreFair(c, s, ops, d);
    var t := Run(c, s, ops);
    if DrawMath.Distinct(shown) {
      DrawMath.MerkleBinding(c.h, t.draws[d].code, shown, PoolIds(t, t.engines[e].stage.pool));
    } else {
      DrawMath.SizeAndRootBind(c.h, t.draws[d].code, shown, PoolIds(t, t.engines[e].stage.pool));
    }
  }
}
