/** The engine's loops and the execution of one draw, as they run. */
module DrawService {
  import opened Wrappers
  import opened Hashing
  import opened DrawEngine
  import opened DrawRuns
  import DrawMath

  /** What a tick makes of each draw by itself. */
  function Activated(draw: Draw, now: int): Draw {
    if draw.status.Scheduled? && draw.cutoffAt > now && draw.seedHash.Some? then draw.(status := Active) else draw
  }

  function Closed(draw: Draw, now: int): Draw {
    if (draw.status.Active? || draw.status.Scheduled?) && draw.cutoffAt <= now then draw.(status := SalesClosed) else draw
  }

  function Committed(draw: Draw, hash: Digest): Draw {
    if Cancellable(draw.status) && draw.seedHash.None? then draw.(seedHash := Some(hash)) else draw
  }

  /** One uninterrupted execution of a claimable draw. */
  function Executed(c: Crypto, s: State, d: nat, now: int, tickets: seq<nat>, entries: seq<nat>, seed: string, bound: nat): State
    requires d < |s.draws| && s.draws[d].status.SalesClosed? && s.draws[d].scheduledAt <= now && s.draws[d].seedHash.Some?
    requires InPoolRange(s, PoolOf(tickets, entries)) && Drawable(c, seed, s.draws[d].code, |tickets| + |entries|, bound)
  {
    var e := |s.engines|;
    var locked := SetStage(Claim(s, d, now), e, HasPool(PoolOf(tickets, entries)));
    Finish(c, locked, e, seed, bound)
  }

  class EngineService {
    const c: Crypto
    var draws: seq<Draw>
    var tickets: seq<Ticket>
    var entries: seq<Entry>
    var payments: seq<Payment>
    var engines: seq<Process>
    ghost var intents: multiset<Intent>

    ghost function View(): State
      reads this
    {
      State(draws, tickets, entries, payments, engines, intents)
    }

    constructor (c: Crypto, draws: seq<Draw>)
      ensures this.c == c && View() == State(draws, [], [], [], [], multiset{})
    {
      this.c, this.draws, tickets, entries, payments, engines := c, draws, [], [], [], [];
      intents := multiset{};
    }

    /** The guarded update of the lifecycle service. */
    method Transition(d: nat, from: DrawStatus, to: DrawStatus) returns (count: nat)
      modifies this`draws
      ensures View() == DrawEngine.Transition(old(View()), d, from, to)
      ensures count == if d < |old(draws)| && old(draws)[d].status == from then 1 else 0
    {
      if d >= |draws| || draws[d].status != from {
        return 0;
      }
      draws := draws[d := draws[d].(status := to)];
      return 1;
    }

    method ActivateCommittedDraws(now: int)
      modifies this`draws
      ensures |draws| == |old(draws)| && forall d :: 0 <= d < |draws| ==> draws[d] == Activated(old(draws)[d], now)
    {
      for d := 0 to |draws|
        invariant |draws| == |old(draws)|
        invariant forall k :: 0 <= k < d ==> draws[k] == Activated(old(draws)[k], now)
        invariant forall k :: d <= k < |draws| ==> draws[k] == old(draws)[k]
      {
        if draws[d].status == Scheduled && draws[d].cutoffAt > now && draws[d].seedHash.Some? {
          var _ := Transition(d, Scheduled, Active);
        }
      }
    }

    method CloseSalesAtCutoff(now: int)
      modifies this`draws
      ensures |draws| == |old(draws)| && forall d :: 0 <= d < |draws| ==> draws[d] == Closed(old(draws)[d], now)
    {
      for d := 0 to |draws|
        invariant |draws| == |old(draws)|
        invariant forall k :: 0 <= k < d ==> draws[k] == Closed(old(draws)[k], now)
        invariant forall k :: d <= k < |draws| ==> draws[k] == old(draws)[k]
      {
        if (draws[d].status == Active || draws[d].status == Scheduled) && draws[d].cutoffAt <= now {
          var _ := Transition(d, draws[d].status, SalesClosed);
        }
      }
    }

    /** One pass of the seed service, with the fresh seed it would draw for each row. */
    method CommitSeeds(seeds: seq<string>)
      requires |seeds| == |draws|
      modifies this`draws
      ensures |draws| == |old(draws)| && forall d :: 0 <= d < |draws| ==> draws[d] == Committed(old(draws)[d], c.h(seeds[d]))
    {
      for d := 0 to |draws|
        invariant |draws| == |old(draws)|
        invariant forall k :: 0 <= k < d ==> draws[k] == Committed(old(draws)[k], c.h(seeds[k]))
        invariant forall k :: d <= k < |draws| ==> draws[k] == old(draws)[k]
      {
        if Cancellable(draws[d].status) && draws[d].seedHash.None? {
          draws := draws[d := draws[d].(seedHash := Some(c.h(seeds[d])))];
        }
      }
    }

    /** Claim, pool, seed check, selection and result, when nothing comes between. `eligible` and
        `live` are what the two pool queries return, `seed` is what unsealing yields. */
    method Execute(d: nat, now: int, eligible: seq<nat>, live: seq<nat>, seed: string, ghost bound: nat)
      requires d < |draws|
      requires InPoolRange(View(), PoolOf(eligible, live)) && Drawable(c, seed, draws[d].code, |eligible| + |live|, bound)
      modifies this`draws, this`tickets, this`entries, this`engines
      ensures if old(draws)[d].status != SalesClosed || old(draws)[d].scheduledAt > now then View() == old(View())
              else if old(draws)[d].seedHash.None? then View() == SetStage(Claim(old(View()), d, now), |old(engines)|, Done)
              else View() == Executed(c, old(View()), d, now, eligible, live, seed, bound)
    {
      var claimed := ClaimDraw(d, now);
      if !claimed {
        return;
      }
      var e := |engines| - 1;
      if draws[d].seedHash.None? {
        engines := engines[e := Process(d, Done)];
        return;
      }
      engines := engines[e := Process(d, HasPool(PoolOf(eligible, live)))];
      FinishExecution(e, seed, bound);
    }

    method ClaimDraw(d: nat, now: int) returns (claimed: bool)
      requires d < |draws|
      modifies this`draws, this`engines
      ensures View() == Claim(old(View()), d, now)
      ensures claimed <==> old(draws)[d].status == SalesClosed && old(draws)[d].scheduledAt <= now
    {
      if draws[d].scheduledAt > now {
        return false;
      }
      var count := Transition(d, SalesClosed, Executing);
      if count == 0 {
        return false;
      }
      engines := engines + [Process(d, Claimed)];
      return true;
    }

    method FinishExecution(e: nat, seed: string, ghost bound: nat)
      requires e < |engines| && engines[e].stage.HasPool? && engines[e].draw < |draws|
      requires InPoolRange(View(), engines[e].stage.pool)
      requires Drawable(c, seed, draws[engines[e].draw].code, |engines[e].stage.pool|, bound)
      modifies this`draws, this`tickets, this`entries, this`engines
      ensures View() == Finish(c, old(View()), e, seed, bound)
    {
      var d, pool := engines[e].draw, engines[e].stage.pool;
      var draw := draws[d];
      var ids := Ids(pool);
      engines := engines[e := engines[e].(stage := Done)];
      if |pool| == 0 {
        draws := draws[d := draw.(status := Cancelled)];
        return;
      }
      var merkleRoot, _ := DrawMath.ComputeMerkleRoot(c.h, ids, draw.code);
      var seedHash := c.h(seed);
      if draw.seedHash != Some(seedHash) || draw.result.Some? {
        return;
      }
      var index, _ := DrawMath.DeterministicWinnerIndex(c.h, c.hmac, seed, draw.code, |pool|, bound);
      var result := DrawResult(ids[index.value], |pool|, seed, seedHash, merkleRoot);
      engines := engines[e := engines[e].(stage := Published(pool))];
      RecordWinner(pool[index.value]);
      draws := draws[d := draw.(status := Completed, result := Some(result))];
    }

    method RecordWinner(winner: PoolUnit)
      requires IsUnit(View(), winner)
      modifies this`tickets, this`entries
      ensures View() == MarkWinner(old(View()), winner)
    {
      match winner
      case TicketUnit(t) => tickets := tickets[t := tickets[t].(status := Winning, isWinner := true)];
      case EntryUnit(n) => entries := entries[n := entries[n].(status := WinningEntry)];
    }

    method Ids(pool: seq<PoolUnit>) returns (ids: seq<string>)
      requires InPoolRange(View(), pool)
      ensures ids == PoolIds(View(), pool)
    {
      ids := [];
      for i := 0 to |pool|
        invariant |ids| == i && forall k :: 0 <= k < i ==> ids[k] == UnitId(View(), pool[k])
      {
        match pool[i]
        case TicketUnit(t) => ids := ids + [tickets[t].ref];
        case EntryUnit(n) => ids := ids + ["ENTRY-" + entries[n].id];
      }
    }
  }
}
