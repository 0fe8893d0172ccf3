/** What every step of remittance accounting keeps. */
module RemittanceInv {
  import opened Wrappers
  import opened Journals
  import opened Accounts
  import opened Sums
  import opened Remittance

  // ---------------------------------------------------------------- journals of one purpose

  predicate Is(j: Journal<Key>, role: Role, id: nat) {
    RoleOf(j.key.purpose) == role && j.key.id == id
  }

  function OneIf(role: Role, id: nat): Journal<Key> -> int {
    j => if Is(j, role, id) then 1 else 0
  }

  function NetIf(role: Role, id: nat, account: string): Journal<Key> -> int {
    j => if Is(j, role, id) then Net(j.lines, account) else 0
  }

  /** How many journals there are in a role for an identifier, and what they do to an account. */
  function Count(journals: seq<Journal<Key>>, role: Role, id: nat): int {
    Sum(journals, OneIf(role, id))
  }

  function Effect(journals: seq<Journal<Key>>, role: Role, id: nat, account: string): int {
    Sum(journals, NetIf(role, id, account))
  }

  lemma Appended(journals: seq<Journal<Key>>, j: Journal<Key>, role: Role, id: nat, account: string)
    ensures Count(journals + [j], role, id) == Count(journals, role, id) + if Is(j, role, id) then 1 else 0
    ensures Effect(journals + [j], role, id, account)
            == Effect(journals, role, id, account) + if Is(j, role, id) then Net(j.lines, account) else 0
  {
    SumAppend(journals, j, OneIf(role, id));
    SumAppend(journals, j, NetIf(role, id, account));
  }

  lemma {:induction false} CountZero(journals: seq<Journal<Key>>, role: Role, id: nat)
    ensures Count(journals, role, id) >= 0
    ensures Count(journals, role, id) == 0 <==> forall i :: 0 <= i < |journals| ==> !Is(journals[i], role, id)
  {
    if journals != [] {
      CountZero(journals[1..], role, id);
      assert forall i :: 1 <= i < |journals| ==> journals[i] == journals[1..][i - 1];
    }
  }

  lemma {:induction false} EffectZero(journals: seq<Journal<Key>>, role: Role, id: nat, account: string)
    requires Count(journals, role, id) == 0
    ensures Effect(journals, role, id, account) == 0
  {
    CountZero(journals, role, id);
    SumZero(journals, NetIf(role, id, account));
  }

  // ---------------------------------------------------------------- the invariant

  function LinkOf(row: Row, role: Role): Option<Key> {
    match role
    case Commission => row.commissionTxn
    case Settlement => row.settlementTxn
    case CreditOf => row.walletCreditTxn
    case _ => None
  }

  predicate RowRole(role: Role) {
    role.Commission? || role.Settlement? || role.CreditOf?
  }

  /** What a linked journal takes off the receivable. */
  function Taken(row: Row, role: Role): int {
    if LinkOf(row, role).None? then 0 else if role.Commission? then row.commission else row.amountDue
  }

  predicate Open(row: Row) {
    row.status.Pending? || row.status.Late?
  }

  /** The facts about a row by itself. */
  predicate RowOk(row: Row) {
    && row.amountDue == row.grossSales - row.commission - row.winnings
    && (row.commissionTxn.Some? ==> row.commission > 0)
    && (row.settlementTxn.Some? ==> row.amountDue > 0 && !Open(row))
    && (row.walletCreditTxn.Some? ==> row.amountDue < 0)
  }

  predicate Linked(journals: seq<Journal<Key>>, r: nat, row: Row, role: Role) {
    && Count(journals, role, r) == (if LinkOf(row, role).None? then 0 else 1)
    && Effect(journals, role, r, Receivable(row.agent)) == -Taken(row, role)
  }

  predicate RowLinked(journals: seq<Journal<Key>>, r: nat, row: Row) {
    Linked(journals, r, row, Commission) && Linked(journals, r, row, Settlement) && Linked(journals, r, row, CreditOf)
  }

  predicate RowsOk(s: State) {
    forall r :: 0 <= r < |s.rows| ==> RowOk(s.rows[r]) && RowLinked(s.journals, r, s.rows[r])
  }

  predicate SaleLinked(journals: seq<Journal<Key>>, p: nat, sale: Sale) {
    && Count(journals, SaleOf, p) == (if sale.collectionTxn.None? then 0 else 1)
    && Effect(journals, SaleOf, p, Receivable(sale.agent)) == (if sale.collectionTxn.None? then 0 else sale.amount)
  }

  predicate PrizeLinked(journals: seq<Journal<Key>>, c: nat, prize: Prize) {
    && Count(journals, PrizeOf, c) == (if prize.payoutTxn.None? then 0 else 1)
    && Effect(journals, PrizeOf, c, Receivable(prize.agent)) == -(if prize.payoutTxn.None? then 0 else prize.net)
  }

  predicate SalesOk(s: State) {
    forall p :: 0 <= p < |s.sales| ==> SaleLinked(s.journals, p, s.sales[p])
  }

  predicate PrizesOk(s: State) {
    forall c :: 0 <= c < |s.prizes| ==> PrizeLinked(s.journals, c, s.prizes[c])
  }

  predicate InRange(s: State, key: Key) {
    match RoleOf(key.purpose)
    case Commission | Settlement | CreditOf => key.id < |s.rows|
    case SaleOf => key.id < |s.sales|
    case PrizeOf => key.id < |s.prizes|
    case Elsewhere => true
  }

  predicate JournalsOk(s: State) {
    forall i :: 0 <= i < |s.journals| ==> InRange(s, s.journals[i].key) && Balanced(s.journals[i].lines)
  }

  predicate IntentOk(s: State, i: Intent) {
    && i.row < |s.rows|
    && var row := s.rows[i.row];
       match i
       case Confirm(_, _) => row.amountDue > 0
       case LegacyBank(_) => row.amountDue > 0 && !Open(row)
       case LegacyDebit(_) => row.amountDue > 0 && !Open(row)
       case LegacyCredit(_) => row.amountDue < 0
  }

  predicate IntentsOk(s: State) {
    forall i :: i in s.intents ==> IntentOk(s, i)
  }

  predicate OneRowADay(s: State) {
    forall i, j :: 0 <= i < j < |s.rows| ==> (s.rows[i].agent, s.rows[i].period) != (s.rows[j].agent, s.rows[j].period)
  }

  /** What the links say an agent still owes: posted sales, less prizes and everything taken. */
  function SaleOwed(agent: string): Sale -> int {
    (sale: Sale) => if sale.agent == agent && sale.collectionTxn.Some? then sale.amount else 0
  }

  function PrizePaid(agent: string): Prize -> int {
    (prize: Prize) => if prize.agent == agent && prize.payoutTxn.Some? then prize.net else 0
  }

  function AllTaken(row: Row): int {
    Taken(row, Commission) + Taken(row, Settlement) + Taken(row, CreditOf)
  }

  function RowTaken(agent: string): Row -> int {
    (row: Row) => if row.agent == agent then AllTaken(row) else 0
  }

  function Outstanding(s: State, agent: string): int {
    Sum(s.sales, SaleOwed(agent)) - Sum(s.prizes, PrizePaid(agent)) - Sum(s.rows, RowTaken(agent))
  }

  ghost predicate ReceivablesOk(s: State) {
    forall agent :: Balance(s.journals, Receivable(agent)) == Outstanding(s, agent)
  }

  ghost predicate Inv(s: State) {
    RowsOk(s) && SalesOk(s) && PrizesOk(s) && JournalsOk(s) && IntentsOk(s) && OneRowADay(s) && ReceivablesOk(s)
  }

  // ---------------------------------------------------------------- posting and linking

  /** A key whose role has no journal yet is free. */
  lemma FreeKey(journals: seq<Journal<Key>>, key: Key)
    requires Count(journals, RoleOf(key.purpose), key.id) == 0
    ensures Find(journals, key).None?
  {
    CountZero(journals, RoleOf(key.purpose), key.id);
    FindIs(journals, key);
  }

  /** The same row but for its status, reference and the link in one role. */
  predicate Relinked(row: Row, row': Row, role: Role, key: Key) {
    && row' == row.(status := row'.status, bankTransferRef := row'.bankTransferRef, commissionTxn := row'.commissionTxn,
                    settlementTxn := row'.settlementTxn, walletCreditTxn := row'.walletCreditTxn)
    && LinkOf(row, role).None? && LinkOf(row', role) == Some(key)
    && (!role.Commission? ==> row'.commissionTxn == row.commissionTxn)
    && (!role.Settlement? ==> row'.settlementTxn == row.settlementTxn)
    && (!role.CreditOf? ==> row'.walletCreditTxn == row.walletCreditTxn)
    && (Open(row') ==> Open(row))
  }

  /** Lines that move `-amount` on this agent's receivable and touch no other agent's. */
  ghost predicate TakesOff(lines: seq<Line>, agent: string, amount: int) {
    && Balanced(lines)
    && forall a :: Net(lines, Receivable(a)) == if a == agent then -amount else 0
  }

  lemma TransferTakesOff(debit: string, agent: string, amount: int)
    requires forall a :: debit != Receivable(a)
    ensures TakesOff(Transfer(debit, Receivable(agent), amount), agent, amount)
    ensures TakesOff(Transfer(Receivable(agent), debit, amount), agent, -amount)
  {
    forall a
      ensures Net(Transfer(debit, Receivable(agent), amount), Receivable(a)) == if a == agent then -amount else 0
      ensures Net(Transfer(Receivable(agent), debit, amount), Receivable(a)) == if a == agent then amount else 0
    {
      NetOfTransfer(debit, Receivable(agent), amount, Receivable(a));
      NetOfTransfer(Receivable(agent), debit, amount, Receivable(a));
      CodesDiffer(a, agent);
    }
    NetOfTransfer(debit, Receivable(agent), amount, "");
    NetOfTransfer(Receivable(agent), debit, amount, "");
  }

  lemma OtherRowsLinked(journals: seq<Journal<Key>>, j: Journal<Key>, k: nat, row: Row)
    requires RowLinked(journals, k, row) && (RowRole(RoleOf(j.key.purpose)) ==> j.key.id != k)
    ensures RowLinked(journals + [j], k, row)
  {
    Appended(journals, j, Commission, k, Receivable(row.agent));
    Appended(journals, j, Settlement, k, Receivable(row.agent));
    Appended(journals, j, CreditOf, k, Receivable(row.agent));
  }

  lemma LinkedRow(journals: seq<Journal<Key>>, j: Journal<Key>, r: nat, row: Row, row': Row)
    requires RowLinked(journals, r, row) && j.key.id == r && RowRole(RoleOf(j.key.purpose))
    requires Relinked(row, row', RoleOf(j.key.purpose), j.key)
    requires TakesOff(j.lines, row'.agent, Taken(row', RoleOf(j.key.purpose)))
    ensures RowLinked(journals + [j], r, row')
  {
    Appended(journals, j, Commission, r, Receivable(row.agent));
    Appended(journals, j, Settlement, r, Receivable(row.agent));
    Appended(journals, j, CreditOf, r, Receivable(row.agent));
  }

  lemma LinkKeepsRows(s: State, r: nat, row': Row, j: Journal<Key>)
    requires RowsOk(s) && r < |s.rows| && j.key.id == r && RowRole(RoleOf(j.key.purpose))
    requires Relinked(s.rows[r], row', RoleOf(j.key.purpose), j.key) && RowOk(row')
    requires TakesOff(j.lines, row'.agent, Taken(row', RoleOf(j.key.purpose)))
    ensures RowsOk(s.(journals := s.journals + [j], rows := s.rows[r := row']))
  {
    LinkedRow(s.journals, j, r, s.rows[r], row');
    forall k | 0 <= k < |s.rows| && k != r ensures RowLinked(s.journals + [j], k, s.rows[k]) {
      OtherRowsLinked(s.journals, j, k, s.rows[k]);
    }
  }

  predicate SameDay(row: Row, row': Row) {
    row'.agent == row.agent && row'.period == row.period && row'.amountDue == row.amountDue
  }

  lemma UpdateKeepsShape(s: State, r: nat, row': Row)
    requires r < |s.rows| && SameDay(s.rows[r], row') && (Open(row') ==> Open(s.rows[r]))
    requires IntentsOk(s) && OneRowADay(s)
    ensures IntentsOk(SetRow(s, r, row')) && OneRowADay(SetRow(s, r, row'))
  {
    var t := SetRow(s, r, row');
    forall i | i in t.intents ensures IntentOk(t, i) {
      assert IntentOk(s, i);
    }
    forall i, j | 0 <= i < j < |t.rows|
      ensures (t.rows[i].agent, t.rows[i].period) != (t.rows[j].agent, t.rows[j].period)
    {
      assert (s.rows[i].agent, s.rows[i].period) != (s.rows[j].agent, s.rows[j].period);
    }
  }

  lemma PostKeepsJournals(s: State, j: Journal<Key>)
    requires JournalsOk(s) && InRange(s, j.key) && Balanced(j.lines)
    ensures JournalsOk(s.(journals := s.journals + [j]))
  {
  }

  lemma LinkKeepsOthers(s: State, j: Journal<Key>)
    requires SalesOk(s) && PrizesOk(s) && !RoleOf(j.key.purpose).SaleOf? && !RoleOf(j.key.purpose).PrizeOf?
    ensures SalesOk(s.(journals := s.journals + [j])) && PrizesOk(s.(journals := s.journals + [j]))
  {
    forall p | 0 <= p < |s.sales| ensures SaleLinked(s.journals + [j], p, s.sales[p]) {
      Appended(s.journals, j, SaleOf, p, Receivable(s.sales[p].agent));
      assert SaleLinked(s.journals, p, s.sales[p]);
    }
    forall c | 0 <= c < |s.prizes| ensures PrizeLinked(s.journals + [j], c, s.prizes[c]) {
      Appended(s.journals, j, PrizeOf, c, Receivable(s.prizes[c].agent));
      assert PrizeLinked(s.journals, c, s.prizes[c]);
    }
  }

  lemma LinkKeepsReceivables(s: State, r: nat, row': Row, j: Journal<Key>)
    requires ReceivablesOk(s) && r < |s.rows| && RowRole(RoleOf(j.key.purpose))
    requires Relinked(s.rows[r], row', RoleOf(j.key.purpose), j.key)
    requires TakesOff(j.lines, row'.agent, Taken(row', RoleOf(j.key.purpose)))
    ensures ReceivablesOk(s.(journals := s.journals + [j], rows := s.rows[r := row']))
  {
    forall a ensures Balance(s.journals + [j], Receivable(a)) == Outstanding(s.(journals := s.journals + [j], rows := s.rows[r := row']), a) {
      BalanceAppend(s.journals, j, Receivable(a));
      SumUpdate(s.rows, r, row', RowTaken(a));
      assert Balance(s.journals, Receivable(a)) == Outstanding(s, a);
    }
  }

  /** Posting a journal in a role a row has not used, and linking it, keeps the invariant. */
  lemma LinkKeepsInv(s: State, r: nat, row': Row, key: Key, lines: seq<Line>)
    requires Inv(s) && r < |s.rows| && key.id == r && RowRole(RoleOf(key.purpose))
    requires Relinked(s.rows[r], row', RoleOf(key.purpose), key) && RowOk(row')
    requires TakesOff(lines, row'.agent, Taken(row', RoleOf(key.purpose)))
    ensures Find(s.journals, key).None? && PostFor(s, key, lines).Ok?
    ensures Inv(SetRow(PostFor(s, key, lines).value, r, row'))
  {
    assert RowLinked(s.journals, r, s.rows[r]);
    FreeKey(s.journals, key);
    LinkedIsInv(s, r, row', Journal(key, lines));
  }

  lemma LinkedIsInv(s: State, r: nat, row': Row, j: Journal<Key>)
    requires Inv(s) && r < |s.rows| && j.key.id == r && RowRole(RoleOf(j.key.purpose))
    requires Relinked(s.rows[r], row', RoleOf(j.key.purpose), j.key) && RowOk(row')
    requires TakesOff(j.lines, row'.agent, Taken(row', RoleOf(j.key.purpose)))
    ensures Inv(s.(journals := s.journals + [j], rows := s.rows[r := row']))
  {
    LinkKeepsRows(s, r, row', j);
    LinkKeepsOthers(s, j);
    LinkKeepsReceivables(s, r, row', j);
    UpdateKeepsShape(s, r, row');
    PostKeepsJournals(s, j);
  }

  /** Changing a row's status or reference keeps the invariant unless it reopens the row. */
  lemma StatusKeepsInv(s: State, r: nat, row': Row)
    requires Inv(s) && r < |s.rows|
    requires row' == s.rows[r].(status := row'.status, bankTransferRef := row'.bankTransferRef)
    requires Open(row') ==> Open(s.rows[r])
    ensures Inv(SetRow(s, r, row'))
  {
    UpdateKeepsShape(s, r, row');
    StatusKeepsRows(s, r, row');
    forall a ensures Balance(s.journals, Receivable(a)) == Outstanding(SetRow(s, r, row'), a) {
      SumUpdate(s.rows, r, row', RowTaken(a));
      assert Balance(s.journals, Receivable(a)) == Outstanding(s, a);
    }
  }

  lemma StatusKeepsRows(s: State, r: nat, row': Row)
    requires RowsOk(s) && r < |s.rows|
    requires row' == s.rows[r].(status := row'.status, bankTransferRef := row'.bankTransferRef)
    requires Open(row') ==> Open(s.rows[r])
    ensures RowsOk(SetRow(s, r, row'))
  {
    assert RowOk(s.rows[r]) && RowLinked(s.journals, r, s.rows[r]);
  }
}
