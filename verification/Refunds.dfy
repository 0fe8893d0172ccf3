/** Provider refunds: the payment's life from verified collection over reserving the refund, the one
    call that sends money and the results that come back, to settlement; with the journals of
    payment accounting and the migration's back-fills. */
module Refunds {
  import opened Wrappers
  import opened Journals
  import opened Accounts

  datatype Gateway = Paystack | Monnify | Flutterwave | AgentCash

  datatype PaymentStatus = Pending | Confirmed | ReviewRequired | RefundPending | Failed | Duplicate | Refunded

  datatype RefundStatus = Requested | Submitted | Processing | NeedsAttention | Succeeded | RefundFailed | Unknown

  datatype TicketStatus = Active | Quarantined | Expired | Winning | RolledOver

  datatype Ticket = Ticket(status: TicketStatus, isWinner: bool)

  datatype Disposition = Revenue | Suspense

  datatype Purpose =
    | ProviderCollection | PaystackCollection | LegacyAgentSale
    | RefundAccrual
    | RefundSettlement | PaystackSettlement
    | OtherMovement

  datatype Key = Key(purpose: Purpose, id: nat)

  datatype Payment = Payment(
    gateway: Gateway, agent: string, amount: int, hasProviderTxn: bool,
    status: PaymentStatus, refundStatus: Option<RefundStatus>, refundProvider: Option<Gateway>, tickets: seq<Ticket>,
    collectionTxn: Option<Key>, accrualTxn: Option<Key>, settlementTxn: Option<Key>)

  /** What a provider answered, as normalised by the service. */
  datatype ProviderResult = ProviderResult(provider: Gateway, status: RefundStatus, amount: Option<int>, currency: Option<string>)

  /** A process between two database transactions. `first` marks the process that reserved. */
  datatype Intent =
    | Call(p: nat)
    | Apply(p: nat, result: ProviderResult, first: bool)
    | Collect(p: nat, disposition: Disposition)
    | Accrue(p: nat, source: Disposition)
    | Settle(p: nat)

  /** `sent` lists the payments for which the provider was told to send money. */
  datatype State = State(payments: seq<Payment>, journals: seq<Journal<Key>>, intents: multiset<Intent>, sent: seq<nat>)

  datatype Error =
    | NotFound | AlreadyStarted | WrongStatus | NotOnline | NoProviderTxn | WinningTicket | DrawExecuting
    | NoAccrual | WrongProvider | KeyReused

  // ---------------------------------------------------------------- payment accounting

  function PostFor(s: State, key: Key, lines: seq<Line>): Result<State, Error> {
    match Post(s.journals, key, lines)
    case Ok(journals) => Ok(s.(journals := journals))
    case Err(_) => Err(KeyReused)
  }

  function SetPayment(s: State, p: nat, payment: Payment): State
    requires p < |s.payments|
  {
    s.(payments := s.payments[p := payment])
  }

  function CollectionClearing(g: Gateway): string {
    match g
    case Paystack => PAYSTACK_CLEARING
    case Monnify => MONNIFY_CLEARING
    case _ => FLUTTERWAVE_CLEARING
  }

  function PayoutClearing(g: Gateway): string {
    match g
    case Paystack => PAYSTACK_CLEARING
    case Monnify => MONNIFY_PAYOUT_CLEARING
    case _ => FLUTTERWAVE_PAYOUT_CLEARING
  }

  function Destination(d: Disposition): string {
    if d.Revenue? then TICKET_SALES_REVENUE else SUSPENSE
  }

  /** Where the money of a payment came in. */
  function MoneyIn(payment: Payment): string {
    if payment.gateway.AgentCash? then Receivable(payment.agent) else CollectionClearing(payment.gateway)
  }

  function CollectionLines(payment: Payment, d: Disposition): seq<Line> {
    Transfer(MoneyIn(payment), Destination(d), payment.amount)
  }

  function AccrualLines(payment: Payment, d: Disposition): seq<Line> {
    Transfer(Destination(d), REFUND_PAYABLE, payment.amount)
  }

  function SettlementLines(payment: Payment): seq<Line> {
    Transfer(REFUND_PAYABLE, PayoutClearing(payment.gateway), payment.amount)
  }

  function PostCollection(s: State, p: nat, purpose: Purpose, d: Disposition): (r: Result<State, Error>)
    requires p < |s.payments|
    ensures r.Ok? ==> |r.value.payments| == |s.payments|
  {
    match PostFor(s, Key(purpose, p), CollectionLines(s.payments[p], d))
    case Err(e) => Err(e)
    case Ok(t) => Ok(SetPayment(t, p, s.payments[p].(collectionTxn := Some(Key(purpose, p)))))
  }

  function RecordCollection(s: State, p: nat, d: Disposition): (r: Result<State, Error>)
    requires p < |s.payments|
    ensures r.Ok? ==> |r.value.payments| == |s.payments|
  {
    if s.payments[p].collectionTxn.Some? then Ok(s)
    else if s.payments[p].gateway.AgentCash? then Err(NotOnline)
    else PostCollection(s, p, ProviderCollection, d)
  }

  function RecordAccrual(s: State, p: nat, source: Disposition): (r: Result<State, Error>)
    requires p < |s.payments|
    ensures r.Ok? ==> |r.value.payments| == |s.payments|
  {
    var payment := s.payments[p];
    if payment.accrualTxn.Some? then Ok(s)
    else
      match PostFor(s, Key(RefundAccrual, p), AccrualLines(payment, source))
      case Err(e) => Err(e)
      case Ok(t) => Ok(SetPayment(t, p, payment.(accrualTxn := Some(Key(RefundAccrual, p)))))
  }

  function PostSettlement(s: State, p: nat, purpose: Purpose): (r: Result<State, Error>)
    requires p < |s.payments|
    ensures r.Ok? ==> |r.value.payments| == |s.payments|
  {
    var payment := s.payments[p];
    if payment.accrualTxn.None? then Err(NoAccrual)
    else if payment.settlementTxn.Some? then Ok(s)
    else if payment.gateway.AgentCash? then Err(NotOnline)
    else
      match PostFor(s, Key(purpose, p), SettlementLines(payment))
      case Err(e) => Err(e)
      case Ok(t) => Ok(SetPayment(t, p, payment.(settlementTxn := Some(Key(purpose, p)))))
  }

  // ---------------------------------------------------------------- reserving a refund

  predicate InProgress(r: Option<RefundStatus>) {
    r.Some? && !r.value.Succeeded? && !r.value.RefundFailed?
  }

  predicate WithProvider(g: Gateway) {
    g.Monnify? || g.Flutterwave?
  }

  predicate HasValue(t: Ticket) {
    t.isWinner || t.status.Winning? || t.status.RolledOver?
  }

  function Quarantine(tickets: seq<Ticket>): (q: seq<Ticket>)
    ensures |q| == |tickets|
    ensures forall i :: 0 <= i < |q| ==> q[i] == if tickets[i].status.Active? then tickets[i].(status := Quarantined) else tickets[i]
  {
    seq(|tickets|, i requires 0 <= i < |tickets| => if tickets[i].status.Active? then tickets[i].(status := Quarantined) else tickets[i])
  }

  function Release(tickets: seq<Ticket>): (q: seq<Ticket>)
    ensures |q| == |tickets|
    ensures forall i :: 0 <= i < |q| ==> q[i] == if tickets[i].status.Quarantined? then tickets[i].(status := Expired) else tickets[i]
  {
    seq(|tickets|, i requires 0 <= i < |tickets| => if tickets[i].status.Quarantined? then tickets[i].(status := Expired) else tickets[i])
  }

  function SourceByStatus(payment: Payment): Disposition {
    if payment.status.Confirmed? then Revenue else Suspense
  }

  function ReserveError(payment: Payment, drawsOk: bool): Option<Error> {
    if payment.refundStatus.Some? then Some(AlreadyStarted)
    else if !payment.status.Confirmed? && !payment.status.ReviewRequired? then Some(WrongStatus)
    else if payment.gateway.AgentCash? then Some(NotOnline)
    else if WithProvider(payment.gateway) && !payment.hasProviderTxn then Some(NoProviderTxn)
    else if exists i :: 0 <= i < |payment.tickets| && HasValue(payment.tickets[i]) then Some(WinningTicket)
    else if payment.status.Confirmed? && payment.tickets != [] && !drawsOk then Some(DrawExecuting)
    else None
  }

  /** The reserving transaction of `initiate`, under the locks on the payment and its draws;
      `drawsOk` says that every draw is still in a refundable state. */
  function Reserve(s: State, p: nat, drawsOk: bool): Result<State, Error> {
    if p >= |s.payments| then Err(NotFound)
    else if s.payments[p].status.Refunded? then Ok(s)
    else if ReserveError(s.payments[p], drawsOk).Some? then Err(ReserveError(s.payments[p], drawsOk).value)
    else if !WithProvider(s.payments[p].gateway) then Ok(Reserved(s, p))
    else
      var source := SourceByStatus(s.payments[p]);
      match RecordCollection(s, p, source)
      case Err(e) => Err(e)
      case Ok(t) =>
        match RecordAccrual(t, p, source)
        case Err(e) => Err(e)
        case Ok(u) => Ok(Reserved(u, p))
  }

  function Reserved(s: State, p: nat): State
    requires p < |s.payments|
  {
    var payment := s.payments[p];
    SetPayment(s, p, payment.(status := RefundPending, refundStatus := Some(Requested), refundProvider := Some(payment.gateway),
                              tickets := Quarantine(payment.tickets)))
    .(intents := s.intents + multiset{Call(p)})
  }

  // ---------------------------------------------------------------- provider results

  /** What the catch block applies: a timeout does not prove that the provider rejected anything. */
  function UnknownResult(g: Gateway): ProviderResult {
    ProviderResult(g, Unknown, None, None)
  }

  /** A success is only believed for the right amount in the right currency. */
  function Believed(payment: Payment, result: ProviderResult): RefundStatus {
    if result.status.Succeeded?
       && (result.amount != Some(payment.amount) || (result.currency.Some? && result.currency != Some("NGN")))
    then Unknown
    else result.status
  }

  function MarkSucceeded(s: State, p: nat): Result<State, Error>
    requires p < |s.payments|
  {
    var payment := s.payments[p];
    if !payment.status.RefundPending? || !InProgress(payment.refundStatus) then Ok(s)
    else
      var t := SetPayment(s, p, payment.(status := Refunded, refundStatus := Some(Succeeded)));
      match (if payment.gateway.AgentCash? then Ok(t) else PostSettlement(t, p, RefundSettlement))
      case Err(e) => Err(e)
      case Ok(u) => Ok(SetPayment(u, p, u.payments[p].(tickets := Release(u.payments[p].tickets))))
  }

  function MarkFailed(s: State, p: nat): State
    requires p < |s.payments|
  {
    var payment := s.payments[p];
    if !InProgress(payment.refundStatus) then s
    else SetPayment(s, p, payment.(status := ReviewRequired, refundStatus := Some(RefundFailed)))
  }

  function MarkPending(s: State, p: nat, status: RefundStatus): State
    requires p < |s.payments|
  {
    var payment := s.payments[p];
    if !InProgress(payment.refundStatus) then s
    else SetPayment(s, p, payment.(status := RefundPending, refundStatus := Some(status)))
  }

  function ApplyResult(s: State, p: nat, result: ProviderResult): Result<State, Error> {
    if p >= |s.payments| then Err(NotFound)
    else
      var payment := s.payments[p];
      if payment.refundProvider.Some? && payment.refundProvider != Some(result.provider) then Err(WrongProvider)
      else
        match Believed(payment, result)
        case Succeeded => MarkSucceeded(s, p)
        case RefundFailed => Ok(MarkFailed(s, p))
        case status => Ok(MarkPending(s, p, status))
  }

  // ---------------------------------------------------------------- migration

  /** The migration's transaction for a collection; only for agent cash it trusts the link it read
      before and leaves it to the key. */
  function BackfillCollection(s: State, p: nat, d: Disposition): Result<State, Error>
    requires p < |s.payments|
  {
    match s.payments[p].gateway
    case AgentCash => PostCollection(s, p, LegacyAgentSale, d)
    case Paystack => if s.payments[p].collectionTxn.Some? then Ok(s) else PostCollection(s, p, PaystackCollection, d)
    case _ => RecordCollection(s, p, d)
  }

  function BackfillSettlement(s: State, p: nat): Result<State, Error>
    requires p < |s.payments|
  {
    PostSettlement(s, p, if s.payments[p].gateway.Paystack? then PaystackSettlement else RefundSettlement)
  }

  /** Which account a collection credited, as the migration reads it back from the entries. */
  function RefundSource(lines: seq<Line>): Option<Disposition> {
    if exists i :: 0 <= i < |lines| && lines[i].side.Credit? && lines[i].account == TICKET_SALES_REVENUE then Some(Revenue)
    else if exists i :: 0 <= i < |lines| && lines[i].side.Credit? && lines[i].account == SUSPENSE then Some(Suspense)
    else None
  }

  function LinesOf(journals: seq<Journal<Key>>, key: Key): seq<Line> {
    match Find(journals, key)
    case None => []
    case Some(j) => j.lines
  }
}
