/** Remittance accounting over every run. */
module RemittanceRuns {
  import opened Wrappers
  import opened Journals
  import opened Accounts
  import opened Sums
  import opened Remittance
  import opened RemittanceInv
  import opened RemittanceLaws

  datatype Op =
    | Sweep(row: Row)
    | RecoverRow(r: nat, walletOk: bool)
    | FinanceReceives(r: nat)
    | PayFromWallet(agent: string, r: nat, walletOk: bool)
    | PassDeadline(r: nat)
    | AskToConfirm(agent: string, r: nat, ref: string)
    | MigrateCommission(r: nat)
    | Decide(intent: Intent)
    | Act(intent: Intent, walletOk: bool)
    | Crash(intent: Intent)
    | MigrateSale(p: nat, suspense: bool)
    | MigratePrize(c: nat)
    | Other(id: nat, lines: seq<Line>)

  /** A transaction that throws leaves everything as it was. */
  function Commit(s: State, r: Result<State, Error>): State {
    if r.Ok? then r.value else s
  }

  function Forget(s: State, i: Intent): State {
    s.(intents := s.intents - multiset{i})
  }

  ghost predicate Legal(s: State, op: Op) {
    match op
    case Sweep(row) => FreshRow(row)
    case Decide(i) => !i.Confirm? && MayIntend(s, i)
    case Act(i, _) => i in s.intents
    case Crash(i) => i in s.intents
    case Other(_, lines) => Unrelated(lines)
    case _ => true
  }

  function After(s: State, op: Op): State
    requires op.Act? ==> op.intent.row < |s.rows|
  {
    match op
    case Sweep(row) => CreateRow(s, row)
    case RecoverRow(r, walletOk) => Commit(s, Recover(s, r, walletOk))
    case FinanceReceives(r) => Commit(s, SettleBank(s, r))
    case PayFromWallet(agent, r, walletOk) => Commit(s, SettleWallet(s, agent, r, walletOk))
    case PassDeadline(r) => MarkOverdue(s, r)
    case AskToConfirm(agent, r, ref) => Commit(s, ReadForConfirm(s, agent, r, ref))
    case MigrateCommission(r) => Commit(s, RecordCommission(s, r, LegacyCommission))
    case Decide(i) => s.(intents := s.intents + multiset{i})
    case Act(i, walletOk) => Forget(Commit(s, Perform(s, i, walletOk)), i)
    case Crash(i) => Forget(s, i)
    case MigrateSale(p, suspense) => Commit(s, RecordLegacySale(s, p, suspense))
    case MigratePrize(c) => Commit(s, RecordLegacyPrize(s, c))
    case Other(id, lines) => Commit(s, PostFor(s, Key(OtherMovement, id), lines))
  }

  lemma IntentsKeepInv(s: State, intents: multiset<Intent>)
    requires Inv(s) && forall i :: i in intents ==> IntentOk(s, i)
    ensures Inv(s.(intents := intents))
  {
    var t := s.(intents := intents);
    forall i | i in t.intents ensures IntentOk(t, i) {
      assert IntentOk(s, i);
    }
    assert RowsOk(t) && SalesOk(t) && PrizesOk(t) && JournalsOk(t);
    forall a ensures Balance(t.journals, Receivable(a)) == Outstanding(t, a) {
      assert Balance(s.journals, Receivable(a)) == Outstanding(s, a);
    }
  }

  lemma IntendKeepsInv(s: State, i: Intent)
    requires Inv(s) && MayIntend(s, i)
    ensures Inv(s.(intents := s.intents + multiset{i}))
  {
    forall k | k in s.intents + multiset{i} ensures IntentOk(s, k) {
      assert k == i || k in s.intents;
    }
    IntentsKeepInv(s, s.intents + multiset{i});
  }

  lemma ForgetKeepsInv(s: State, i: Intent)
    requires Inv(s)
    ensures Inv(Forget(s, i))
  {
    IntentsKeepInv(s, s.intents - multiset{i});
  }

  lemma OverdueKeepsInv(s: State, r: nat)
    requires Inv(s)
    ensures Inv(MarkOverdue(s, r))
  {
    if MarkOverdue(s, r) != s {
      StatusKeepsInv(s, r, s.rows[r].(status := Late));
    }
  }

  lemma ActKeepsInv(s: State, i: Intent, walletOk: bool)
    requires Inv(s) && i in s.intents
    ensures i.row < |s.rows| && Inv(Forget(Commit(s, Perform(s, i, walletOk)), i))
  {
    PerformKeeps(s, i, walletOk);
    ForgetKeepsInv(Commit(s, Perform(s, i, walletOk)), i);
  }

  lemma AskKeepsInv(s: State, agent: string, r: nat, ref: string)
    requires Inv(s)
    ensures Inv(Commit(s, ReadForConfirm(s, agent, r, ref)))
  {
    if ReadForConfirm(s, agent, r, ref).Ok? {
      IntendKeepsInv(s, Confirm(r, ref));
    }
  }

  lemma RecoverKeepsInv(s: State, r: nat, walletOk: bool)
    requires Inv(s)
    ensures Fine(s, Recover(s, r, walletOk))
  {
    CreditKeeps(s, r, walletOk);
    EnsureKeeps(s, r);
  }

  /** Every legal step keeps the invariant. */
  lemma StepKeepsInv(s: State, op: Op)
    requires Inv(s) && Legal(s, op)
    ensures (op.Act? ==> op.intent.row < |s.rows|) && Inv(After(s, op))
  {
    match op
    case Sweep(row) => CreateKeeps(s, row);
    case RecoverRow(r, walletOk) => RecoverKeepsInv(s, r, walletOk);
    case FinanceReceives(r) => SettleBankKeeps(s, r);
    case PayFromWallet(agent, r, walletOk) => SettleWalletKeeps(s, agent, r, walletOk);
    case PassDeadline(r) => OverdueKeepsInv(s, r);
    case AskToConfirm(agent, r, ref) => AskKeepsInv(s, agent, r, ref);
    case MigrateCommission(r) => CommissionKeeps(s, r, LegacyCommission);
    case Decide(i) => IntendKeepsInv(s, i);
    case Act(i, walletOk) => ActKeepsInv(s, i, walletOk);
    case Crash(i) => ForgetKeepsInv(s, i);
    case MigrateSale(p, suspense) => LegacySaleKeeps(s, p, suspense);
    case MigratePrize(c) => LegacyPrizeKeeps(s, c);
    case Other(id, lines) => OtherKeeps(s, id, lines);
  }

  ghost predicate LegalRun(s: State, ops: seq<Op>)
    decreases |ops|
  {
    ops != [] ==> Legal(s, ops[0]) && (ops[0].Act? ==> ops[0].intent.row < |s.rows|) && LegalRun(After(s, ops[0]), ops[1..])
  }

  ghost function Run(s: State, ops: seq<Op>): State
    requires LegalRun(s, ops)
    decreases |ops|
  {
    if ops == [] then s else Run(After(s, ops[0]), ops[1..])
  }

  /** Before the ledger: legacy rows, sales and prizes of any age and status, nothing posted. */
  predicate Initial(s: State) {
    && s.journals == [] && s.intents == multiset{} && OneRowADay(s)
    && (forall r :: 0 <= r < |s.rows| ==>
          && s.rows[r].amountDue == s.rows[r].grossSales - s.rows[r].commission - s.rows[r].winnings
          && s.rows[r].commissionTxn.None? && s.rows[r].settlementTxn.None? && s.rows[r].walletCreditTxn.None?)
    && (forall p :: 0 <= p < |s.sales| ==> s.sales[p].collectionTxn.None?)
    && (forall c :: 0 <= c < |s.prizes| ==> s.prizes[c].payoutTxn.None?)
  }

  lemma InitialInv(s: State)
    requires Initial(s)
    ensures Inv(s)
  {
    forall a ensures Balance(s.journals, Receivable(a)) == Outstanding(s, a) {
      SumZero(s.sales, SaleOwed(a));
      SumZero(s.prizes, PrizePaid(a));
      SumZero(s.rows, RowTaken(a));
    }
  }

  lemma {:induction false} RunKeepsInv(s: State, ops: seq<Op>)
    requires Inv(s) && LegalRun(s, ops)
    ensures Inv(Run(s, ops))
    decreases |ops|
  {
    if ops != [] {
      StepKeepsInv(s, ops[0]);
      RunKeepsInv(After(s, ops[0]), ops[1..]);
    }
  }

  // ---------------------------------------------------------------- at most once

  /** In every run from before the ledger, each remittance gets at most one commission journal and
      at most one journal that settles it, whether by bank, by wallet or by wallet credit, live or
      back-filled; and there is one exactly when the row is linked to one. */
  lemma SettledAtMostOnce(s: State, ops: seq<Op>, r: nat)
    requires Initial(s) && LegalRun(s, ops) && r < |Run(s, ops).rows|
    ensures var (t, row) := (Run(s, ops), Run(s, ops).rows[r]);
            && Count(t.journals, Commission, r) == (if row.commissionTxn.Some? then 1 else 0)
            && Count(t.journals, Settlement, r) + Count(t.journals, CreditOf, r)
               == (if row.settlementTxn.Some? || row.walletCreditTxn.Some? then 1 else 0)
  {
    InitialInv(s);
    RunKeepsInv(s, ops);
    var t := Run(s, ops);
    assert RowOk(t.rows[r]) && RowLinked(t.journals, r, t.rows[r]);
  }

  // ---------------------------------------------------------------- conservation

  /** Everything a row calls for is posted. */
  predicate Accounted(row: Row) {
    && (row.commission > 0 ==> row.commissionTxn.Some?)
    && (row.amountDue > 0 ==> row.settlementTxn.Some?)
    && (row.amountDue < 0 ==> row.walletCreditTxn.Some?)
  }

  function EffectOfSales(s: State, sales: seq<nat>, account: string): int {
    if sales == [] then 0 else Effect(s.journals, SaleOf, sales[0], account) + EffectOfSales(s, sales[1..], account)
  }

  function EffectOfPrizes(s: State, prizes: seq<nat>, account: string): int {
    if prizes == [] then 0 else Effect(s.journals, PrizeOf, prizes[0], account) + EffectOfPrizes(s, prizes[1..], account)
  }

  function AmountOf(s: State, sales: seq<nat>): int
    requires forall i :: 0 <= i < |sales| ==> sales[i] < |s.sales|
  {
    if sales == [] then 0 else s.sales[sales[0]].amount + AmountOf(s, sales[1..])
  }

  function NetOfPrizes(s: State, prizes: seq<nat>): int
    requires forall i :: 0 <= i < |prizes| ==> prizes[i] < |s.prizes|
  {
    if prizes == [] then 0 else s.prizes[prizes[0]].net + NetOfPrizes(s, prizes[1..])
  }

  predicate SalesPosted(s: State, agent: string, sales: seq<nat>) {
    forall i :: 0 <= i < |sales| ==>
      sales[i] < |s.sales| && s.sales[sales[i]].agent == agent && s.sales[sales[i]].collectionTxn.Some?
  }

  predicate PrizesPosted(s: State, agent: string, prizes: seq<nat>) {
    forall i :: 0 <= i < |prizes| ==>
      prizes[i] < |s.prizes| && s.prizes[prizes[i]].agent == agent && s.prizes[prizes[i]].payoutTxn.Some?
  }

  lemma {:induction false} SalesEffect(s: State, agent: string, sales: seq<nat>)
    requires SalesOk(s) && SalesPosted(s, agent, sales)
    ensures EffectOfSales(s, sales, Receivable(agent)) == AmountOf(s, sales)
  {
    if sales != [] {
      assert SaleLinked(s.journals, sales[0], s.sales[sales[0]]);
      SalesEffect(s, agent, sales[1..]);
    }
  }

  lemma {:induction false} PrizesEffect(s: State, agent: string, prizes: seq<nat>)
    requires PrizesOk(s) && PrizesPosted(s, agent, prizes)
    ensures EffectOfPrizes(s, prizes, Receivable(agent)) == -NetOfPrizes(s, prizes)
  {
    if prizes != [] {
      assert PrizeLinked(s.journals, prizes[0], s.prizes[prizes[0]]);
      PrizesEffect(s, agent, prizes[1..]);
    }
  }

  /** Once a day's sales, the prizes the agent paid, the commission and the settlement are all
      posted, the day has taken exactly as much off the agent's receivable as it put on it, whether
      the amount due was positive, negative or zero. */
  lemma DayNetsToZero(s: State, ops: seq<Op>, r: nat, sales: seq<nat>, prizes: seq<nat>)
    requires Initial(s) && LegalRun(s, ops) && r < |Run(s, ops).rows|
    requires var (t, row) := (Run(s, ops), Run(s, ops).rows[r]);
             && Accounted(row)
             && SalesPosted(t, row.agent, sales) && AmountOf(t, sales) == row.grossSales
             && PrizesPosted(t, row.agent, prizes) && NetOfPrizes(t, prizes) == row.winnings
    ensures var (t, account) := (Run(s, ops), Receivable(Run(s, ops).rows[r].agent));
            EffectOfSales(t, sales, account) + EffectOfPrizes(t, prizes, account) + Effect(t.journals, Commission, r, account)
            + Effect(t.journals, Settlement, r, account) + Effect(t.journals, CreditOf, r, account) == 0
  {
    InitialInv(s);
    RunKeepsInv(s, ops);
    var t := Run(s, ops);
    var row := t.rows[r];
    assert RowOk(row) && RowLinked(t.journals, r, row);
    SalesEffect(t, row.agent, sales);
    PrizesEffect(t, row.agent, prizes);
  }

  function NotYetTaken(agent: string): Row -> int {
    (row: Row) => if row.agent == agent then row.grossSales - row.winnings - AllTaken(row) else 0
  }

  function GrossOf(agent: string): Row -> int {
    (row: Row) => if row.agent == agent then row.grossSales else 0
  }

  function WinningsOf(agent: string): Row -> int {
    (row: Row) => if row.agent == agent then row.winnings else 0
  }

  lemma {:induction false} TakenSplits(rows: seq<Row>, agent: string)
    ensures Sum(rows, RowTaken(agent))
            == Sum(rows, GrossOf(agent)) - Sum(rows, WinningsOf(agent)) - Sum(rows, NotYetTaken(agent))
  {
    if rows != [] {
      TakenSplits(rows[1..], agent);
    }
  }

  /** The whole receivable account of an agent in every reachable state: posted sales and prizes
      that no row has counted, plus what rows have counted but not yet taken. An accounted row
      leaves nothing to take. */
  lemma ReceivableExplained(s: State, ops: seq<Op>, agent: string)
    requires Initial(s) && LegalRun(s, ops)
    ensures var t := Run(s, ops);
            && Balance(t.journals, Receivable(agent))
               == (Sum(t.sales, SaleOwed(agent)) - Sum(t.rows, GrossOf(agent)))
                  - (Sum(t.prizes, PrizePaid(agent)) - Sum(t.rows, WinningsOf(agent)))
                  + Sum(t.rows, NotYetTaken(agent))
            && forall r :: 0 <= r < |t.rows| && Accounted(t.rows[r]) ==> NotYetTaken(agent)(t.rows[r]) == 0
  {
    InitialInv(s);
    RunKeepsInv(s, ops);
    var t := Run(s, ops);
    TakenSplits(t.rows, agent);
    assert Balance(t.journals, Receivable(agent)) == Outstanding(t, agent);
    forall r | 0 <= r < |t.rows| && Accounted(t.rows[r]) ensures NotYetTaken(agent)(t.rows[r]) == 0 {
      assert RowOk(t.rows[r]) && RowLinked(t.journals, r, t.rows[r]);
    }
  }

  /** Hence a receivable is clear once every sale and prize of the agent has been counted by a row and
      every row is accounted; and while all rows are accounted it holds nothing but what is uncounted. */
  lemma ReceivableIsClear(s: State, ops: seq<Op>, agent: string)
    requires Initial(s) && LegalRun(s, ops)
    requires var t := Run(s, ops); forall r :: 0 <= r < |t.rows| && t.rows[r].agent == agent ==> Accounted(t.rows[r])
    ensures var t := Run(s, ops);
            var uncountedSales := Sum(t.sales, SaleOwed(agent)) - Sum(t.rows, GrossOf(agent));
            var uncountedPrizes := Sum(t.prizes, PrizePaid(agent)) - Sum(t.rows, WinningsOf(agent));
            && Balance(t.journals, Receivable(agent)) == uncountedSales - uncountedPrizes
            && (uncountedSales == 0 && uncountedPrizes == 0 ==> Balance(t.journals, Receivable(agent)) == 0)
  {
    ReceivableExplained(s, ops, agent);
    var t := Run(s, ops);
    forall r | 0 <= r < |t.rows| ensures NotYetTaken(agent)(t.rows[r]) == 0 {
      assert t.rows[r].agent == agent ==> Accounted(t.rows[r]);
    }
    SumZero(t.rows, NotYetTaken(agent));
  }
}
