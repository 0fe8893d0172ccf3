/** Settling the agents' legacy remittances. A day's row can be paid by bank transfer, out of the
    agent's wallet, or credited to the wallet, by the live services, the recovery sweep and the
    migration, each with its own idempotency key. */
module Remittance {
  import opened Wrappers
  import opened Journals
  import opened Accounts
  import opened Sums

  datatype Status = Pending | AgentConfirmed | Received | Late | WrittenOff | CreditedToWallet

  /** What a journal is for; with the row it is for, this is its idempotency key. */
  datatype Purpose =
    | AgentCommission | LegacyCommission
    | BankSettlement | WalletSettlement | LegacyBankSettlement | LegacyWalletSettlement
    | WalletCredit | LegacyWalletCredit
    | LegacySale
    | LegacyPrize
    | OtherMovement

  datatype Key = Key(purpose: Purpose, id: nat)

  datatype Role = Commission | Settlement | CreditOf | SaleOf | PrizeOf | Elsewhere

  function RoleOf(p: Purpose): Role {
    match p
    case AgentCommission | LegacyCommission => Commission
    case BankSettlement | WalletSettlement | LegacyBankSettlement | LegacyWalletSettlement => Settlement
    case WalletCredit | LegacyWalletCredit => CreditOf
    case LegacySale => SaleOf
    case LegacyPrize => PrizeOf
    case OtherMovement => Elsewhere
  }

  /** A row of the remittance table; the links name the journals by their keys. */
  datatype Row = Row(
    agent: string, period: int, grossSales: nat, commission: nat, winnings: nat, amountDue: int,
    status: Status, bankTransferRef: Option<string>,
    commissionTxn: Option<Key>, settlementTxn: Option<Key>, walletCreditTxn: Option<Key>)

  /** A legacy cash sale, and a prize an agent paid from the till. */
  datatype Sale = Sale(agent: string, amount: int, collectionTxn: Option<Key>)
  datatype Prize = Prize(agent: string, net: int, payoutTxn: Option<Key>)

  /** A decision taken on what was read outside the transaction that acts on it. */
  datatype Intent =
    | Confirm(row: nat, ref: string)
    | LegacyBank(row: nat)
    | LegacyCredit(row: nat)
    | LegacyDebit(row: nat)

  datatype State = State(
    rows: seq<Row>, sales: seq<Sale>, prizes: seq<Prize>,
    journals: seq<Journal<Key>>, intents: multiset<Intent>)

  datatype Error =
    | NotFound | WrongAgent | NothingToSettle | WrongStatus | NotConfirmed | NoReference
    | WalletRefused | InsufficientBalance | KeyReused

  // ---------------------------------------------------------------- transactions

  function PostFor(s: State, key: Key, lines: seq<Line>): Result<State, Error> {
    match Post(s.journals, key, lines)
    case Ok(journals) => Ok(s.(journals := journals))
    case Err(_) => Err(KeyReused)
  }

  function SetRow(s: State, r: nat, row: Row): State
    requires r < |s.rows|
  {
    s.(rows := s.rows[r := row])
  }

  /** What the wallet ledger account says the agent can spend. */
  function Available(s: State, agent: string): int {
    -Balance(s.journals, AgentWallet(agent))
  }

  /** The wallet refuses a debit above the balance, unless its key is already posted. */
  function DebitWallet(s: State, agent: string, key: Key, counter: string, amount: int): Result<State, Error> {
    if Find(s.journals, key).None? && Available(s, agent) < amount then Err(InsufficientBalance)
    else PostFor(s, key, Transfer(AgentWallet(agent), counter, amount))
  }

  function CreditWallet(s: State, agent: string, key: Key, counter: string, amount: int): Result<State, Error> {
    PostFor(s, key, Transfer(counter, AgentWallet(agent), amount))
  }

  function RecordCommission(s: State, r: nat, purpose: Purpose): Result<State, Error> {
    if r >= |s.rows| then Err(NotFound)
    else
      var row := s.rows[r];
      if row.commission <= 0 || row.commissionTxn.Some? then Ok(s)
      else
        var key := Key(purpose, r);
        match PostFor(s, key, Transfer(AGENT_COMMISSION_EXPENSE, Receivable(row.agent), row.commission))
        case Err(e) => Err(e)
        case Ok(t) => Ok(SetRow(t, r, row.(commissionTxn := Some(key))))
  }

  function CreditNegative(s: State, r: nat, walletOk: bool): Result<State, Error> {
    if r >= |s.rows| then Err(NotFound)
    else if s.rows[r].amountDue >= 0 then Ok(s)
    else
      match RecordCommission(s, r, AgentCommission)
      case Err(e) => Err(e)
      case Ok(t) => CreditRow(t, r, walletOk)
  }

  function CreditRow(s: State, r: nat, walletOk: bool): Result<State, Error>
    requires r < |s.rows|
  {
    var row := s.rows[r];
    if row.walletCreditTxn.Some? then Ok(s)
    else if !walletOk then Err(WalletRefused)
    else
      var key := Key(WalletCredit, r);
      match CreditWallet(s, row.agent, key, Receivable(row.agent), -row.amountDue)
      case Err(e) => Err(e)
      case Ok(t) => Ok(SetRow(t, r, row.(walletCreditTxn := Some(key), status := CreditedToWallet)))
  }

  function EnsureCommission(s: State, r: nat): Result<State, Error> {
    match RecordCommission(s, r, AgentCommission)
    case Err(e) => Err(e)
    case Ok(t) =>
      var row := t.rows[r];
      if row.amountDue == 0 && (row.status.Pending? || row.status.Late?) then Ok(SetRow(t, r, row.(status := Received)))
      else Ok(t)
  }

  /** The step the recovery sweep chooses for a row. */
  function Recover(s: State, r: nat, walletOk: bool): Result<State, Error> {
    if r < |s.rows| && s.rows[r].amountDue < 0 then CreditNegative(s, r, walletOk) else EnsureCommission(s, r)
  }

  function SettleBank(s: State, r: nat): Result<State, Error> {
    if r >= |s.rows| then Err(NotFound)
    else
      var row := s.rows[r];
      if row.amountDue <= 0 then Err(NothingToSettle)
      else if row.status.Received? && row.settlementTxn.Some? then Ok(s)
      else if !row.status.AgentConfirmed? then Err(NotConfirmed)
      else if row.bankTransferRef.None? || row.bankTransferRef.value == "" then Err(NoReference)
      else
        match RecordCommission(s, r, AgentCommission)
        case Err(e) => Err(e)
        case Ok(t) => ReceiveAtBank(t, r)
  }

  function ReceiveAtBank(s: State, r: nat): Result<State, Error>
    requires r < |s.rows|
  {
    var row := s.rows[r];
    if row.settlementTxn.Some? then Ok(s)
    else
      var key := Key(BankSettlement, r);
      match PostFor(s, key, Transfer(BANK_CASH, Receivable(row.agent), row.amountDue))
      case Err(e) => Err(e)
      case Ok(t) => Ok(SetRow(t, r, row.(settlementTxn := Some(key), status := Received)))
  }

  function SettleWallet(s: State, agent: string, r: nat, walletOk: bool): Result<State, Error> {
    if r >= |s.rows| then Err(NotFound)
    else
      var row := s.rows[r];
      if row.agent != agent then Err(WrongAgent)
      else if row.amountDue <= 0 then Err(NothingToSettle)
      else if !row.status.Pending? && !row.status.Late? then Err(WrongStatus)
      else
        match RecordCommission(s, r, AgentCommission)
        case Err(e) => Err(e)
        case Ok(t) => ReceiveFromWallet(t, r, walletOk)
  }

  function ReceiveFromWallet(s: State, r: nat, walletOk: bool): Result<State, Error>
    requires r < |s.rows|
  {
    var row := s.rows[r];
    if !walletOk then Err(WalletRefused)
    else
      var key := Key(WalletSettlement, r);
      match DebitWallet(s, row.agent, key, Receivable(row.agent), row.amountDue)
      case Err(e) => Err(e)
      case Ok(t) =>
        Ok(SetRow(t, r, row.(settlementTxn := Some(key), status := Received, bankTransferRef := Some(WALLET_PREFIX))))
  }

  /** The reference a wallet settlement writes starts with this. */
  const WALLET_PREFIX := "WALLET-"

  predicate HasWalletRef(row: Row) {
    row.bankTransferRef.Some? && WALLET_PREFIX <= row.bankTransferRef.value
  }

  function MarkOverdue(s: State, r: nat): State {
    if r < |s.rows| && s.rows[r].amountDue > 0 && s.rows[r].status.Pending? then SetRow(s, r, s.rows[r].(status := Late))
    else s
  }

  /** `confirmPayment` reads and checks the row... */
  function ReadForConfirm(s: State, agent: string, r: nat, ref: string): Result<State, Error> {
    if r >= |s.rows| || s.rows[r].agent != agent then Err(NotFound)
    else if s.rows[r].amountDue <= 0 then Err(NothingToSettle)
    else if !s.rows[r].status.Pending? && !s.rows[r].status.Late? then Err(WrongStatus)
    else Ok(s.(intents := s.intents + multiset{Confirm(r, ref)}))
  }

  /** ...and later writes it without looking again. */
  function WriteConfirm(s: State, r: nat, ref: string): State
    requires r < |s.rows|
  {
    SetRow(s, r, s.rows[r].(status := AgentConfirmed, bankTransferRef := Some(ref)))
  }

  // ---------------------------------------------------------------- migration

  /** The checks of `migrateRemittance` and `migrateAgentWallet` outside their transactions. */
  predicate MayIntend(s: State, i: Intent) {
    && i.row < |s.rows|
    && var row := s.rows[i.row];
       match i
       case Confirm(_, _) => row.amountDue > 0 && (row.status.Pending? || row.status.Late?)
       case LegacyBank(_) =>
         row.amountDue > 0 && row.status.Received? && row.settlementTxn.None? && row.bankTransferRef.Some? && !HasWalletRef(row)
       case LegacyCredit(_) => row.amountDue < 0 && row.walletCreditTxn.None?
       case LegacyDebit(_) => row.amountDue > 0 && row.status.Received? && HasWalletRef(row) && row.settlementTxn.None?
  }

  function RecordLegacyBank(s: State, r: nat): Result<State, Error>
    requires r < |s.rows|
  {
    var row := s.rows[r];
    if row.settlementTxn.Some? then Ok(s)
    else
      var key := Key(LegacyBankSettlement, r);
      match PostFor(s, key, Transfer(BANK_CASH, Receivable(row.agent), row.amountDue))
      case Err(e) => Err(e)
      case Ok(t) => Ok(SetRow(t, r, row.(settlementTxn := Some(key))))
  }

  function RecordLegacyCredit(s: State, r: nat, walletOk: bool): Result<State, Error>
    requires r < |s.rows|
  {
    var row := s.rows[r];
    if row.walletCreditTxn.Some? then Ok(s)
    else if !walletOk then Err(WalletRefused)
    else
      var key := Key(LegacyWalletCredit, r);
      match CreditWallet(s, row.agent, key, Receivable(row.agent), -row.amountDue)
      case Err(e) => Err(e)
      case Ok(t) => Ok(SetRow(t, r, row.(walletCreditTxn := Some(key))))
  }

  function RecordLegacyDebit(s: State, r: nat, walletOk: bool): Result<State, Error>
    requires r < |s.rows|
  {
    var row := s.rows[r];
    if row.settlementTxn.Some? then Ok(s)
    else if !walletOk then Err(WalletRefused)
    else
      var key := Key(LegacyWalletSettlement, r);
      match DebitWallet(s, row.agent, key, Receivable(row.agent), row.amountDue)
      case Err(e) => Err(e)
      case Ok(t) => Ok(SetRow(t, r, row.(settlementTxn := Some(key))))
  }

  function Perform(s: State, i: Intent, walletOk: bool): Result<State, Error>
    requires i.row < |s.rows|
  {
    match i
    case Confirm(r, ref) => Ok(WriteConfirm(s, r, ref))
    case LegacyBank(r) => RecordLegacyBank(s, r)
    case LegacyCredit(r) => RecordLegacyCredit(s, r, walletOk)
    case LegacyDebit(r) => RecordLegacyDebit(s, r, walletOk)
  }

  /** Back-filling a sale and a prize. The sale is posted on a link read outside the transaction;
      only its key stops a second journal. */
  function RecordLegacySale(s: State, p: nat, suspense: bool): Result<State, Error> {
    if p >= |s.sales| then Err(NotFound)
    else
      var (sale, key) := (s.sales[p], Key(LegacySale, p));
      match PostFor(s, key, Transfer(Receivable(sale.agent), if suspense then SUSPENSE else TICKET_SALES_REVENUE, sale.amount))
      case Err(e) => Err(e)
      case Ok(t) => Ok(t.(sales := t.sales[p := sale.(collectionTxn := Some(key))]))
  }

  function RecordLegacyPrize(s: State, c: nat): Result<State, Error> {
    if c >= |s.prizes| then Err(NotFound)
    else
      var (prize, key) := (s.prizes[c], Key(LegacyPrize, c));
      if prize.payoutTxn.Some? then Ok(s)
      else
        match PostFor(s, key, Transfer(PRIZE_PAYABLE, Receivable(prize.agent), prize.net))
        case Err(e) => Err(e)
        case Ok(t) => Ok(t.(prizes := t.prizes[c := prize.(payoutTxn := Some(key))]))
  }
}
