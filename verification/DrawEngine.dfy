/** A draw's life: seed commitment, sales, the engine's execution, admin cancellation and refunds, as
    steps of concurrent processes on shared tables. */
module DrawEngine {
  import opened Wrappers
  import opened Hashing
  import DrawMath
  import Json

  datatype DrawStatus = Scheduled | Active | SalesClosed | Executing | Completed | Cancelled | Postponed

  datatype DrawResult = DrawResult(winner: string, participants: nat, seed: string, seedHash: Digest, merkleRoot: Digest)

  datatype Draw = Draw(
    code: string, jackpot: bool, scheduledAt: int, cutoffAt: int, status: DrawStatus,
    seedHash: Option<Digest>, result: Option<DrawResult>)

  datatype TicketStatus = Live | Quarantined | Expired | Winning | RolledOver

  datatype Ticket = Ticket(ref: string, draw: nat, payment: nat, status: TicketStatus, isWinner: bool)

  datatype EntryStatus = LiveEntry | WinningEntry | ExpiredEntry

  datatype Entry = Entry(id: string, draw: nat, status: EntryStatus)

  datatype PaymentStatus = Confirmed | ReviewRequired | RefundPending | Refunded

  datatype Payment = Payment(status: PaymentStatus, refundStarted: bool)

  datatype PoolUnit = TicketUnit(ticket: nat) | EntryUnit(entry: nat)

  /** How far one execution of a draw has got. Of an execution that wrote a result the locked pool is
      remembered; one that crashed, gave up or met an empty pool is merely over. */
  datatype Stage = Claimed | HasTickets(tickets: seq<nat>) | HasPool(pool: seq<PoolUnit>) | Published(pool: seq<PoolUnit>) | Done

  datatype Process = Process(draw: nat, stage: Stage)

  /** A request that has read a draw and will write later. */
  datatype Intent = WriteCancel(draw: nat) | FinishSale(draw: nat, refs: seq<string>)

  datatype State = State(
    draws: seq<Draw>, tickets: seq<Ticket>, entries: seq<Entry>, payments: seq<Payment>,
    engines: seq<Process>, intents: multiset<Intent>)

  datatype Crypto = Crypto(h: HashFn, hmac: DrawMath.BlockFn)

  // ---------------------------------------------------------------- lifecycle

  function SetDraw(s: State, d: nat, draw: Draw): State
    requires d < |s.draws|
  {
    s.(draws := s.draws[d := draw])
  }

  /** The guarded update: nothing happens unless the draw still has the status read before. */
  function Transition(s: State, d: nat, from: DrawStatus, to: DrawStatus): State {
    if d < |s.draws| && s.draws[d].status == from then SetDraw(s, d, s.draws[d].(status := to)) else s
  }

  /** The first commitment wins; a later one violates the primary key. */
  function CommitSeed(s: State, d: nat, hash: Digest): State {
    if d < |s.draws| && s.draws[d].seedHash.None? then SetDraw(s, d, s.draws[d].(seedHash := Some(hash))) else s
  }

  function Activate(s: State, d: nat, now: int): State {
    if d < |s.draws| && s.draws[d].status.Scheduled? && s.draws[d].cutoffAt > now && s.draws[d].seedHash.Some?
    then Transition(s, d, Scheduled, Active)
    else s
  }

  function CloseSales(s: State, d: nat, now: int): State {
    if d < |s.draws| && (s.draws[d].status.Active? || s.draws[d].status.Scheduled?) && s.draws[d].cutoffAt <= now
    then Transition(s, d, s.draws[d].status, SalesClosed)
    else s
  }

  predicate Cancellable(status: DrawStatus) {
    status.Scheduled? || status.Active? || status.SalesClosed?
  }

  function ReadForCancel(s: State, d: nat): State {
    if d < |s.draws| && Cancellable(s.draws[d].status) then s.(intents := s.intents + multiset{WriteCancel(d)}) else s
  }

  function Cancel(s: State, d: nat): State
    requires d < |s.draws|
  {
    SetDraw(s, d, s.draws[d].(status := Cancelled))
  }

  // ---------------------------------------------------------------- sales

  predicate OpenForSale(s: State, d: nat, now: int) {
    d < |s.draws| && s.draws[d].status.Active? && s.draws[d].cutoffAt > now
  }

  /** What the generator of references makes: SW-XXXX-XXXX. */
  predicate IsTicketRef(ref: string) {
    |ref| == 12 && ref[0] == 'S' && ref[1] == 'W' && ref[2] == '-' && ref[7] == '-'
  }

  /** The unique constraint on ticket references accepts these. */
  predicate FreshRefs(s: State, refs: seq<string>) {
    && (forall i :: 0 <= i < |refs| ==> IsTicketRef(refs[i]))
    && (forall i, j :: 0 <= i < j < |refs| ==> refs[i] != refs[j])
    && (forall t, i :: 0 <= t < |s.tickets| && 0 <= i < |refs| ==> s.tickets[t].ref != refs[i])
  }

  function NewTickets(refs: seq<string>, d: nat, p: nat): (tickets: seq<Ticket>)
    ensures |tickets| == |refs|
    ensures forall i :: 0 <= i < |tickets| ==> tickets[i] == Ticket(refs[i], d, p, Live, false)
  {
    seq(|refs|, i requires 0 <= i < |refs| => Ticket(refs[i], d, p, Live, false))
  }

  /** Payment and tickets are written together. */
  function Sell(s: State, d: nat, refs: seq<string>): State {
    s.(payments := s.payments + [Payment(Confirmed, false)], tickets := s.tickets + NewTickets(refs, d, |s.payments|))
  }

  /** An online purchase holds the draw's lock; an agent's sale has only read it. */
  function Purchase(s: State, d: nat, now: int, refs: seq<string>): State {
    if OpenForSale(s, d, now) then Sell(s, d, refs) else s
  }

  function ReadForSale(s: State, d: nat, now: int, refs: seq<string>): State {
    if OpenForSale(s, d, now) then s.(intents := s.intents + multiset{FinishSale(d, refs)}) else s
  }

  // ---------------------------------------------------------------- refunds

  predicate Refundable(status: DrawStatus) {
    !status.Executing? && !status.Completed?
  }

  predicate HasValue(t: Ticket) {
    t.isWinner || t.status.Winning? || t.status.RolledOver?
  }

  function Retag(tickets: seq<Ticket>, p: nat, from: TicketStatus, to: TicketStatus): (r: seq<Ticket>)
    ensures |r| == |tickets|
    ensures forall t :: 0 <= t < |r| ==>
              r[t] == if tickets[t].payment == p && tickets[t].status == from then tickets[t].(status := to) else tickets[t]
  {
    seq(|tickets|, t requires 0 <= t < |tickets| =>
      if tickets[t].payment == p && tickets[t].status == from then tickets[t].(status := to) else tickets[t])
  }

  predicate MayRefund(s: State, p: nat) {
    && p < |s.payments| && !s.payments[p].refundStarted
    && (s.payments[p].status.Confirmed? || s.payments[p].status.ReviewRequired?)
    && (forall t :: 0 <= t < |s.tickets| && s.tickets[t].payment == p ==> !HasValue(s.tickets[t]))
    && (s.payments[p].status.Confirmed? ==>
          forall t :: 0 <= t < |s.tickets| && s.tickets[t].payment == p ==>
            s.tickets[t].draw < |s.draws| && Refundable(s.draws[s.tickets[t].draw].status))
  }

  /** The reserving transaction, with the payment and its draws locked. */
  function ReserveRefund(s: State, p: nat): State {
    if !MayRefund(s, p) then s
    else s.(payments := s.payments[p := Payment(RefundPending, true)], tickets := Retag(s.tickets, p, Live, Quarantined))
  }

  function CompleteRefund(s: State, p: nat): State {
    if p < |s.payments| && s.payments[p].status.RefundPending?
    then s.(payments := s.payments[p := Payment(Refunded, true)], tickets := Retag(s.tickets, p, Quarantined, Expired))
    else s
  }

  function FailRefund(s: State, p: nat): State {
    if p < |s.payments| && s.payments[p].status.RefundPending?
    then s.(payments := s.payments[p := Payment(ReviewRequired, true)])
    else s
  }

  // ---------------------------------------------------------------- the engine

  function SetStage(s: State, e: nat, stage: Stage): State
    requires e < |s.engines|
  {
    s.(engines := s.engines[e := s.engines[e].(stage := stage)])
  }

  /** Exactly one process can win the guarded claim. */
  function Claim(s: State, d: nat, now: int): State {
    if d < |s.draws| && s.draws[d].status.SalesClosed? && s.draws[d].scheduledAt <= now
    then SetDraw(s, d, s.draws[d].(status := Executing)).(engines := s.engines + [Process(d, Claimed)])
    else s
  }

  /** The live tickets of a draw, by reference. */
  predicate Eligible(s: State, d: nat, tickets: seq<nat>) {
    && (forall i :: 0 <= i < |tickets| ==> tickets[i] < |s.tickets|)
    && (forall i, j :: 0 <= i < j < |tickets| ==> Json.Less(s.tickets[tickets[i]].ref, s.tickets[tickets[j]].ref))
    && (forall t :: 0 <= t < |s.tickets| ==> (t in tickets <==> s.tickets[t].draw == d && s.tickets[t].status.Live?))
  }

  /** The live jackpot entries of a draw, by identifier. */
  predicate LiveEntries(s: State, d: nat, entries: seq<nat>) {
    && (forall i :: 0 <= i < |entries| ==> entries[i] < |s.entries|)
    && (forall i, j :: 0 <= i < j < |entries| ==> Json.Less(s.entries[entries[i]].id, s.entries[entries[j]].id))
    && (forall e :: 0 <= e < |s.entries| ==> (e in entries <==> s.entries[e].draw == d && s.entries[e].status.LiveEntry?))
  }

  /** Only a jackpot draw asks for its entries. */
  predicate DrawnEntries(s: State, d: nat, entries: seq<nat>)
    requires d < |s.draws|
  {
    if s.draws[d].jackpot then LiveEntries(s, d, entries) else entries == []
  }

  function PoolOf(tickets: seq<nat>, entries: seq<nat>): (pool: seq<PoolUnit>)
    ensures |pool| == |tickets| + |entries|
    ensures forall i :: 0 <= i < |tickets| ==> pool[i] == TicketUnit(tickets[i])
    ensures forall i :: 0 <= i < |entries| ==> pool[|tickets| + i] == EntryUnit(entries[i])
  {
    seq(|tickets|, i requires 0 <= i < |tickets| => TicketUnit(tickets[i]))
    + seq(|entries|, i requires 0 <= i < |entries| => EntryUnit(entries[i]))
  }

  predicate IsUnit(s: State, u: PoolUnit) {
    match u case TicketUnit(t) => t < |s.tickets| case EntryUnit(e) => e < |s.entries|
  }

  predicate InPoolRange(s: State, pool: seq<PoolUnit>) {
    forall i :: 0 <= i < |pool| ==> IsUnit(s, pool[i])
  }

  function UnitId(s: State, u: PoolUnit): string
    requires IsUnit(s, u)
  {
    match u
    case TicketUnit(t) => s.tickets[t].ref
    case EntryUnit(e) => "ENTRY-" + s.entries[e].id
  }

  function PoolIds(s: State, pool: seq<PoolUnit>): (ids: seq<string>)
    requires InPoolRange(s, pool)
    ensures |ids| == |pool| && forall i :: 0 <= i < |pool| ==> ids[i] == UnitId(s, pool[i])
  {
    seq(|pool|, i requires 0 <= i < |pool| => UnitId(s, pool[i]))
  }

  /** Some block of the stream for this seed and draw is accepted, the `bound`-th at the latest. */
  predicate Drawable(c: Crypto, seed: string, code: string, n: int, bound: nat) {
    n > 1 ==> DrawMath.Accepts(c.hmac(DrawMath.WinnerKey(c.h, seed, code), bound), n)
  }

  function WinningUnit(c: Crypto, seed: string, code: string, pool: seq<PoolUnit>, bound: nat): PoolUnit
    requires pool != [] && Drawable(c, seed, code, |pool|, bound)
  {
    pool[DrawMath.WinnerIndex(c.h, c.hmac, seed, code, |pool|, bound).value]
  }

  function MarkWinner(s: State, u: PoolUnit): State
    requires IsUnit(s, u)
  {
    match u
    case TicketUnit(t) => s.(tickets := s.tickets[t := s.tickets[t].(status := Winning, isWinner := true)])
    case EntryUnit(e) => s.(entries := s.entries[e := s.entries[e].(status := WinningEntry)])
  }

  /** The last stage: check the unsealed seed against the commitment, select, and write the result,
      the winner and the status together. A mismatch or an existing result aborts; the draw is left
      EXECUTING. An empty pool cancels the draw. */
  function Finish(c: Crypto, s: State, e: nat, seed: string, bound: nat): State
    requires e < |s.engines| && s.engines[e].stage.HasPool? && s.engines[e].draw < |s.draws|
    requires InPoolRange(s, s.engines[e].stage.pool)
    requires Drawable(c, seed, s.draws[s.engines[e].draw].code, |s.engines[e].stage.pool|, bound)
  {
    var d, pool := s.engines[e].draw, s.engines[e].stage.pool;
    var draw := s.draws[d];
    if pool == [] then Cancel(SetStage(s, e, Done), d)
    else if draw.seedHash != Some(c.h(seed)) || draw.result.Some? then SetStage(s, e, Done)
    else
      var winner := WinningUnit(c, seed, draw.code, pool, bound);
      var result := DrawResult(UnitId(s, winner), |pool|, seed, c.h(seed), DrawMath.MerkleRoot(c.h, PoolIds(s, pool), draw.code));
      SetDraw(MarkWinner(SetStage(s, e, Published(pool)), winner), d, draw.(status := Completed, result := Some(result)))
  }
}
