/** Prepaid agent sales and prizes agents pay from the till. */
module AgentMoney {
  import opened Wrappers
  import opened Journals
  import opened Accounts
  import opened Sums

  datatype Purpose = SaleWallet | SaleCommission | Accrual | LegacyAccrual | AgentPayout | LegacyPayout | OtherMovement

  datatype Key = Key(purpose: Purpose, id: nat)

  datatype Payment = Payment(agent: string, amount: int, commission: int, collectionTxn: Option<Key>)

  datatype Claim = Claim(agent: string, gross: int, wht: int, net: int, accrualTxn: Option<Key>, payoutTxn: Option<Key>)

  datatype State = State(payments: seq<Payment>, claims: seq<Claim>, journals: seq<Journal<Key>>)

  datatype Error = NotFound | CommissionTooHigh | WalletRefused | InsufficientBalance | PrizeDoesNotBalance | KeyReused

  function PostFor(s: State, key: Key, lines: seq<Line>): Result<State, Error> {
    match Post(s.journals, key, lines)
    case Ok(journals) => Ok(s.(journals := journals))
    case Err(_) => Err(KeyReused)
  }

  // ---------------------------------------------------------------- a sale

  /** The wallet pays the amount less the commission; the commission is expensed; the revenue is the
      full amount. */
  function RecordSale(s: State, p: nat, walletOk: bool): Result<State, Error> {
    if p >= |s.payments| then Err(NotFound)
    else
      var sale := s.payments[p];
      if sale.collectionTxn.Some? then Ok(s)
      else if sale.commission < 0 || sale.commission >= sale.amount then Err(CommissionTooHigh)
      else if !walletOk then Err(WalletRefused)
      else
        var (key, charge) := (Key(SaleWallet, p), sale.amount - sale.commission);
        if Find(s.journals, key).None? && -Balance(s.journals, AgentWallet(sale.agent)) < charge then Err(InsufficientBalance)
        else
          match PostFor(s, key, Transfer(AgentWallet(sale.agent), TICKET_SALES_REVENUE, charge))
          case Err(e) => Err(e)
          case Ok(t) => ExpenseCommission(t, p)
  }

  function ExpenseCommission(s: State, p: nat): Result<State, Error>
    requires p < |s.payments|
  {
    var sale := s.payments[p];
    var linked := s.payments[p := sale.(collectionTxn := Some(Key(SaleWallet, p)))];
    if sale.commission == 0 then Ok(s.(payments := linked))
    else
      match PostFor(s, Key(SaleCommission, p), Transfer(AGENT_COMMISSION_EXPENSE, TICKET_SALES_REVENUE, sale.commission))
      case Err(e) => Err(e)
      case Ok(t) => Ok(t.(payments := linked))
  }

  // ---------------------------------------------------------------- a prize

  function AccrualLines(c: Claim): seq<Line> {
    [Line(PRIZE_EXPENSE, Debit, c.gross, None), Line(PRIZE_PAYABLE, Credit, c.net, None)]
    + if c.wht > 0 then [Line(WHT_PAYABLE, Credit, c.wht, None)] else []
  }

  predicate PrizeBalances(c: Claim) {
    c.gross > 0 && c.net > 0 && c.wht >= 0 && c.gross == c.net + c.wht
  }

  function EnsureAccrual(s: State, c: nat, purpose: Purpose): Result<State, Error> {
    if c >= |s.claims| then Err(NotFound)
    else
      var claim := s.claims[c];
      if claim.accrualTxn.Some? then Ok(s)
      else if !PrizeBalances(claim) then Err(PrizeDoesNotBalance)
      else
        match PostFor(s, Key(purpose, c), AccrualLines(claim))
        case Err(e) => Err(e)
        case Ok(t) => Ok(t.(claims := t.claims[c := claim.(accrualTxn := Some(Key(purpose, c)))]))
  }

  /** The agent is reimbursed in the wallet, or, for a legacy payout, on the receivable. */
  function PayPrize(s: State, c: nat, purpose: Purpose, walletOk: bool): Result<State, Error>
    requires c < |s.claims|
  {
    var (claim, key) := (s.claims[c], Key(purpose, c));
    var agentAccount := if purpose.LegacyPayout? then Receivable(claim.agent) else AgentWallet(claim.agent);
    if purpose.AgentPayout? && !walletOk then Err(WalletRefused)
    else
      match PostFor(s, key, Transfer(PRIZE_PAYABLE, agentAccount, claim.net))
      case Err(e) => Err(e)
      case Ok(t) => Ok(t.(claims := t.claims[c := claim.(payoutTxn := Some(key))]))
  }

  function RecordPayout(s: State, c: nat, accrual: Purpose, payout: Purpose, walletOk: bool): Result<State, Error> {
    if c >= |s.claims| then Err(NotFound)
    else if s.claims[c].payoutTxn.Some? then Ok(s)
    else
      match EnsureAccrual(s, c, accrual)
      case Err(e) => Err(e)
      case Ok(t) => PayPrize(t, c, payout, walletOk)
  }

  // ---------------------------------------------------------------- the invariant

  predicate Has(journals: seq<Journal<Key>>, key: Key) {
    Find(journals, key).Some?
  }

  lemma HasAppend(journals: seq<Journal<Key>>, j: Journal<Key>, key: Key)
    ensures Has(journals + [j], key) <==> Has(journals, key) || j.key == key
  {
    FindIs(journals, key);
    FindIs(journals + [j], key);
    assert forall i :: 0 <= i < |journals| ==> (journals + [j])[i] == journals[i];
    assert (journals + [j])[|journals|] == j;
  }

  /** A link names the one journal there is; without a link there is none. */
  predicate PaymentOk(journals: seq<Journal<Key>>, p: nat, sale: Payment) {
    && (Has(journals, Key(SaleWallet, p)) <==> sale.collectionTxn.Some?)
    && (Has(journals, Key(SaleCommission, p)) <==> sale.collectionTxn.Some? && sale.commission > 0)
    && (sale.collectionTxn.Some? ==> 0 <= sale.commission < sale.amount)
  }

  predicate ClaimOk(journals: seq<Journal<Key>>, c: nat, claim: Claim) {
    && (Has(journals, Key(Accrual, c)) <==> claim.accrualTxn == Some(Key(Accrual, c)))
    && (Has(journals, Key(LegacyAccrual, c)) <==> claim.accrualTxn == Some(Key(LegacyAccrual, c)))
    && (Has(journals, Key(AgentPayout, c)) <==> claim.payoutTxn == Some(Key(AgentPayout, c)))
    && (Has(journals, Key(LegacyPayout, c)) <==> claim.payoutTxn == Some(Key(LegacyPayout, c)))
    && (claim.accrualTxn.Some? ==> PrizeBalances(claim) && claim.accrualTxn.value in {Key(Accrual, c), Key(LegacyAccrual, c)})
    && (claim.payoutTxn.Some? ==> claim.accrualTxn.Some? && claim.payoutTxn.value in {Key(AgentPayout, c), Key(LegacyPayout, c)})
  }

  predicate RowsOk(s: State) {
    && (forall p :: 0 <= p < |s.payments| ==> PaymentOk(s.journals, p, s.payments[p]))
    && (forall c :: 0 <= c < |s.claims| ==> ClaimOk(s.journals, c, s.claims[c]))
  }

  function Revenue(): Payment -> int {
    (p: Payment) => if p.collectionTxn.Some? then p.amount else 0
  }

  function Commission(): Payment -> int {
    (p: Payment) => if p.collectionTxn.Some? then p.commission else 0
  }

  function Owed(): Claim -> int {
    (c: Claim) => if c.accrualTxn.Some? && c.payoutTxn.None? then c.net else 0
  }

  function Withheld(): Claim -> int {
    (c: Claim) => if c.accrualTxn.Some? then c.wht else 0
  }

  function Gross(): Claim -> int {
    (c: Claim) => if c.accrualTxn.Some? then c.gross else 0
  }

  /** What the journals of all other flows do to an account. */
  function Foreign(journals: seq<Journal<Key>>, account: string): int {
    if journals == [] then 0
    else
      var last := journals[|journals| - 1];
      Foreign(journals[..|journals| - 1], account) + if last.key.purpose.OtherMovement? then Net(last.lines, account) else 0
  }

  lemma ForeignAppend(journals: seq<Journal<Key>>, j: Journal<Key>, account: string)
    ensures Foreign(journals + [j], account) == Foreign(journals, account) + if j.key.purpose.OtherMovement? then Net(j.lines, account) else 0
  {
    assert (journals + [j])[..|journals|] == journals;
  }

  /** What these flows have left on an account: its balance less what all others did to it. */
  function Own(journals: seq<Journal<Key>>, account: string): int {
    Balance(journals, account) - Foreign(journals, account)
  }

  lemma OwnAppend(journals: seq<Journal<Key>>, j: Journal<Key>, account: string)
    ensures Balance(journals + [j], account) == Balance(journals, account) + Net(j.lines, account)
    ensures Own(journals + [j], account) == Own(journals, account) + if j.key.purpose.OtherMovement? then 0 else Net(j.lines, account)
  {
    BalanceAppend(journals, j, account);
    ForeignAppend(journals, j, account);
  }

  /** What these flows have left on the accounts is what the rows say: full revenue for every recorded
      sale, the commission as expense, and for prizes exactly the net prizes not yet paid, the tax
      withheld and the gross expense. */
  predicate BooksOk(s: State) {
    && Own(s.journals, TICKET_SALES_REVENUE) == -Sum(s.payments, Revenue())
    && Own(s.journals, AGENT_COMMISSION_EXPENSE) == Sum(s.payments, Commission())
    && Own(s.journals, PRIZE_PAYABLE) == -Sum(s.claims, Owed())
    && Own(s.journals, WHT_PAYABLE) == -Sum(s.claims, Withheld())
    && Own(s.journals, PRIZE_EXPENSE) == Sum(s.claims, Gross())
  }

  ghost predicate NoOverdraft(s: State) {
    forall agent :: Balance(s.journals, AgentWallet(agent)) <= 0
  }

  ghost predicate Inv(s: State) {
    RowsOk(s) && BooksOk(s) && NoOverdraft(s)
  }

  predicate IsBook(account: string) {
    account == TICKET_SALES_REVENUE || account == AGENT_COMMISSION_EXPENSE || account == PRIZE_PAYABLE
    || account == WHT_PAYABLE || account == PRIZE_EXPENSE
  }

  lemma Transferred(journals: seq<Journal<Key>>, key: Key, debit: string, credit: string, amount: int, account: string)
    ensures Balance(journals + [Journal(key, Transfer(debit, credit, amount))], account)
            == Balance(journals, account) + Moved(debit, credit, amount, account)
    ensures !key.purpose.OtherMovement? ==>
              Own(journals + [Journal(key, Transfer(debit, credit, amount))], account)
              == Own(journals, account) + Moved(debit, credit, amount, account)
  {
    OwnAppend(journals, Journal(key, Transfer(debit, credit, amount)), account);
    NetOfTransfer(debit, credit, amount, account);
  }

  lemma RowsKept(s: State, j: Journal<Key>)
    requires RowsOk(s)
    ensures forall p :: 0 <= p < |s.payments| && !(j.key.id == p && (j.key.purpose.SaleWallet? || j.key.purpose.SaleCommission?)) ==>
              PaymentOk(s.journals + [j], p, s.payments[p])
    ensures forall c :: 0 <= c < |s.claims|
                        && !(j.key.id == c && !j.key.purpose.SaleWallet? && !j.key.purpose.SaleCommission? && !j.key.purpose.OtherMovement?) ==>
              ClaimOk(s.journals + [j], c, s.claims[c])
  {
    forall key ensures Has(s.journals + [j], key) <==> Has(s.journals, key) || j.key == key {
      HasAppend(s.journals, j, key);
    }
  }

  // ---------------------------------------------------------------- sales keep it

  /** The sale's effect on every account, all or nothing: what leaves the wallet and the commission
      make up the revenue, no receivable moves, and the wallet is never overdrawn. */
  lemma SaleMovesMoney(s: State, p: nat, walletOk: bool, account: string)
    requires Inv(s) && p < |s.payments| && s.payments[p].collectionTxn.None? && RecordSale(s, p, walletOk).Ok?
    ensures var sale := s.payments[p];
            Balance(RecordSale(s, p, walletOk).value.journals, account)
            == Balance(s.journals, account) + Moved(AgentWallet(sale.agent), TICKET_SALES_REVENUE, sale.amount - sale.commission, account)
               + Moved(AGENT_COMMISSION_EXPENSE, TICKET_SALES_REVENUE, sale.commission, account)
    ensures var t := RecordSale(s, p, walletOk).value;
            Own(t.journals, account) - Own(s.journals, account) == Balance(t.journals, account) - Balance(s.journals, account)
    ensures RecordSale(s, p, walletOk).value == s.(
              payments := s.payments[p := s.payments[p].(collectionTxn := Some(Key(SaleWallet, p)))],
              journals := RecordSale(s, p, walletOk).value.journals)
    ensures 0 <= s.payments[p].commission < s.payments[p].amount
    ensures -Balance(s.journals, AgentWallet(s.payments[p].agent)) >= s.payments[p].amount - s.payments[p].commission
  {
    var sale := s.payments[p];
    var key, charge := Key(SaleWallet, p), sale.amount - sale.commission;
    assert PaymentOk(s.journals, p, sale);
    var first := s.journals + [Journal(key, Transfer(AgentWallet(sale.agent), TICKET_SALES_REVENUE, charge))];
    Transferred(s.journals, key, AgentWallet(sale.agent), TICKET_SALES_REVENUE, charge, account);
    HasAppend(s.journals, Journal(key, Transfer(AgentWallet(sale.agent), TICKET_SALES_REVENUE, charge)), Key(SaleCommission, p));
    Transferred(first, Key(SaleCommission, p), AGENT_COMMISSION_EXPENSE, TICKET_SALES_REVENUE, sale.commission, account);
  }

  lemma SaleKeepsRows(s: State, p: nat, walletOk: bool)
    requires Inv(s) && p < |s.payments| && s.payments[p].collectionTxn.None? && RecordSale(s, p, walletOk).Ok?
    ensures RowsOk(RecordSale(s, p, walletOk).value)
  {
    var sale := s.payments[p];
    assert PaymentOk(s.journals, p, sale);
    var j := Journal(Key(SaleWallet, p), Transfer(AgentWallet(sale.agent), TICKET_SALES_REVENUE, sale.amount - sale.commission));
    RowsKept(s, j);
    var sale' := sale.(collectionTxn := Some(Key(SaleWallet, p)));
    forall key ensures Has(s.journals + [j], key) <==> Has(s.journals, key) || j.key == key {
      HasAppend(s.journals, j, key);
    }
    if sale.commission > 0 {
      var k := Journal(Key(SaleCommission, p), Transfer(AGENT_COMMISSION_EXPENSE, TICKET_SALES_REVENUE, sale.commission));
      forall key ensures Has(s.journals + [j] + [k], key) <==> Has(s.journals + [j], key) || k.key == key {
        HasAppend(s.journals + [j], k, key);
      }
    }
  }

  lemma SaleKeepsInv(s: State, p: nat, walletOk: bool)
    requires Inv(s)
    ensures RecordSale(s, p, walletOk).Ok? ==> Inv(RecordSale(s, p, walletOk).value)
    ensures RecordSale(s, p, walletOk) != Err(KeyReused)
  {
    if p < |s.payments| && s.payments[p].collectionTxn.None? {
      SaleNeverReusesKey(s, p, walletOk);
      if RecordSale(s, p, walletOk).Ok? {
        SaleKeepsRows(s, p, walletOk);
        SaleKeepsBooks(s, p, walletOk);
      }
    }
  }

  lemma SaleNeverReusesKey(s: State, p: nat, walletOk: bool)
    requires RowsOk(s) && p < |s.payments| && s.payments[p].collectionTxn.None?
    ensures RecordSale(s, p, walletOk) != Err(KeyReused)
  {
    var sale := s.payments[p];
    assert PaymentOk(s.journals, p, sale);
    HasAppend(s.journals, Journal(Key(SaleWallet, p), Transfer(AgentWallet(sale.agent), TICKET_SALES_REVENUE, sale.amount - sale.commission)),
              Key(SaleCommission, p));
  }

  lemma SaleKeepsBooks(s: State, p: nat, walletOk: bool)
    requires Inv(s) && p < |s.payments| && s.payments[p].collectionTxn.None? && RecordSale(s, p, walletOk).Ok?
    ensures BooksOk(RecordSale(s, p, walletOk).value) && NoOverdraft(RecordSale(s, p, walletOk).value)
  {
    var t := RecordSale(s, p, walletOk).value;
    var sale := s.payments[p];
    CodesDiffer(sale.agent, sale.agent);
    assert forall account :: IsBook(account) ==> IsSystem(account);
    SaleMovesMoney(s, p, walletOk, TICKET_SALES_REVENUE);
    SaleMovesMoney(s, p, walletOk, AGENT_COMMISSION_EXPENSE);
    SaleMovesMoney(s, p, walletOk, PRIZE_PAYABLE);
    SaleMovesMoney(s, p, walletOk, WHT_PAYABLE);
    SaleMovesMoney(s, p, walletOk, PRIZE_EXPENSE);
    SumUpdate(s.payments, p, t.payments[p], Revenue());
    SumUpdate(s.payments, p, t.payments[p], Commission());
    forall a ensures Balance(t.journals, AgentWallet(a)) <= 0 {
      SaleMovesMoney(s, p, walletOk, AgentWallet(a));
      CodesDiffer(a, sale.agent);
      assert Balance(s.journals, AgentWallet(a)) <= 0;
    }
  }

  // ---------------------------------------------------------------- prizes keep it

  lemma AccrualNet(c: Claim, account: string)
    requires PrizeBalances(c)
    ensures Net(AccrualLines(c), account)
            == (if account == PRIZE_EXPENSE then c.gross else 0) - (if account == PRIZE_PAYABLE then c.net else 0)
               - (if account == WHT_PAYABLE then c.wht else 0)
    ensures Balanced(AccrualLines(c))
  {
    var expense, payable, tax := Line(PRIZE_EXPENSE, Debit, c.gross, None), Line(PRIZE_PAYABLE, Credit, c.net, None), Line(WHT_PAYABLE, Credit, c.wht, None);
    var rest := if c.wht > 0 then [tax] else [];
    assert AccrualLines(c) == ([expense] + [payable]) + rest;
    NetOfLine(expense, account);
    NetOfLine(payable, account);
    NetOfLine(tax, account);
    NetConcat([expense], [payable], account);
    NetConcat([expense] + [payable], rest, account);
    forall side ensures Total(AccrualLines(c), side) == Total([expense], side) + Total([payable], side) + Total(rest, side) {
      TotalConcat([expense], [payable], side);
      TotalConcat([expense] + [payable], rest, side);
    }
  }

  predicate AccrualPurpose(purpose: Purpose) {
    purpose.Accrual? || purpose.LegacyAccrual?
  }

  predicate PayoutPurpose(purpose: Purpose) {
    purpose.AgentPayout? || purpose.LegacyPayout?
  }

  lemma AccrualKeepsRows(s: State, c: nat, purpose: Purpose)
    requires RowsOk(s) && c < |s.claims| && s.claims[c].accrualTxn.None? && PrizeBalances(s.claims[c]) && AccrualPurpose(purpose)
    ensures var key := Key(purpose, c);
            && Find(s.journals, key).None?
            && RowsOk(s.(journals := s.journals + [Journal(key, AccrualLines(s.claims[c]))],
                         claims := s.claims[c := s.claims[c].(accrualTxn := Some(key))]))
  {
    var j := Journal(Key(purpose, c), AccrualLines(s.claims[c]));
    assert ClaimOk(s.journals, c, s.claims[c]);
    RowsKept(s, j);
    forall key ensures Has(s.journals + [j], key) <==> Has(s.journals, key) || j.key == key {
      HasAppend(s.journals, j, key);
    }
  }

  /** The first accrual posts expense, payable and tax; a repeated one changes nothing. */
  lemma AccrualKeepsInv(s: State, c: nat, purpose: Purpose)
    requires Inv(s) && AccrualPurpose(purpose)
    ensures var r := EnsureAccrual(s, c, purpose);
            && (r.Ok? ==> Inv(r.value) && |r.value.claims| == |s.claims| && c < |s.claims|
                          && r.value.claims[c] == s.claims[c].(accrualTxn := r.value.claims[c].accrualTxn)
                          && r.value.claims[c].accrualTxn.Some?)
            && r != Err(KeyReused)
  {
    if c < |s.claims| && s.claims[c].accrualTxn.None? && PrizeBalances(s.claims[c]) {
      AccrualKeepsRows(s, c, purpose);
      AccrualKeepsBooks(s, c, purpose);
    }
  }

  lemma AccrualKeepsBooks(s: State, c: nat, purpose: Purpose)
    requires Inv(s) && c < |s.claims| && s.claims[c].accrualTxn.None? && PrizeBalances(s.claims[c]) && AccrualPurpose(purpose)
    ensures var key := Key(purpose, c);
            var t := s.(journals := s.journals + [Journal(key, AccrualLines(s.claims[c]))],
                        claims := s.claims[c := s.claims[c].(accrualTxn := Some(key))]);
            BooksOk(t) && NoOverdraft(t)
  {
    var claim := s.claims[c];
    var j := Journal(Key(purpose, c), AccrualLines(claim));
    assert ClaimOk(s.journals, c, claim);
    forall account
      ensures Balance(s.journals + [j], account) == Balance(s.journals, account) + Net(j.lines, account)
      ensures Own(s.journals + [j], account) == Own(s.journals, account) + Net(j.lines, account)
    {
      OwnAppend(s.journals, j, account);
    }
    forall account ensures Net(j.lines, account) == (if account == PRIZE_EXPENSE then claim.gross else 0)
                           - (if account == PRIZE_PAYABLE then claim.net else 0) - (if account == WHT_PAYABLE then claim.wht else 0) {
      AccrualNet(claim, account);
    }
    var claim' := claim.(accrualTxn := Some(j.key));
    SumUpdate(s.claims, c, claim', Owed());
    SumUpdate(s.claims, c, claim', Withheld());
    SumUpdate(s.claims, c, claim', Gross());
    forall a ensures AgentWallet(a) != PRIZE_EXPENSE && AgentWallet(a) != PRIZE_PAYABLE && AgentWallet(a) != WHT_PAYABLE {
      CodesDiffer(a, a);
    }
    assert forall a :: Balance(s.journals, AgentWallet(a)) <= 0;
  }

  lemma PayoutKeepsRows(s: State, c: nat, purpose: Purpose, lines: seq<Line>)
    requires RowsOk(s) && c < |s.claims| && s.claims[c].payoutTxn.None? && s.claims[c].accrualTxn.Some? && PayoutPurpose(purpose)
    ensures var key := Key(purpose, c);
            && Find(s.journals, key).None?
            && RowsOk(s.(journals := s.journals + [Journal(key, lines)], claims := s.claims[c := s.claims[c].(payoutTxn := Some(key))]))
  {
    var j := Journal(Key(purpose, c), lines);
    assert ClaimOk(s.journals, c, s.claims[c]);
    RowsKept(s, j);
    forall key ensures Has(s.journals + [j], key) <==> Has(s.journals, key) || j.key == key {
      HasAppend(s.journals, j, key);
    }
  }

  /** Paying clears exactly what the accrual made payable. */
  lemma PayPrizeKeepsInv(s: State, c: nat, purpose: Purpose, walletOk: bool)
    requires Inv(s) && c < |s.claims| && s.claims[c].payoutTxn.None? && s.claims[c].accrualTxn.Some? && PayoutPurpose(purpose)
    ensures var r := PayPrize(s, c, purpose, walletOk);
            (r.Ok? ==> Inv(r.value)) && r != Err(KeyReused)
  {
    var claim, key := s.claims[c], Key(purpose, c);
    var agentAccount := if purpose.LegacyPayout? then Receivable(claim.agent) else AgentWallet(claim.agent);
    var lines := Transfer(PRIZE_PAYABLE, agentAccount, claim.net);
    PayoutKeepsRows(s, c, purpose, lines);
    assert ClaimOk(s.journals, c, claim);
    forall account
      ensures Balance(s.journals + [Journal(key, lines)], account)
              == Balance(s.journals, account) + Moved(PRIZE_PAYABLE, agentAccount, claim.net, account)
      ensures Own(s.journals + [Journal(key, lines)], account)
              == Own(s.journals, account) + Moved(PRIZE_PAYABLE, agentAccount, claim.net, account)
    {
      Transferred(s.journals, key, PRIZE_PAYABLE, agentAccount, claim.net, account);
    }
    SumUpdate(s.claims, c, claim.(payoutTxn := Some(key)), Owed());
    SumUpdate(s.claims, c, claim.(payoutTxn := Some(key)), Withheld());
    SumUpdate(s.claims, c, claim.(payoutTxn := Some(key)), Gross());
    forall a ensures AgentWallet(a) != PRIZE_PAYABLE {
      CodesDiffer(a, claim.agent);
    }
    assert forall a :: Balance(s.journals, AgentWallet(a)) <= 0;
    CodesDiffer(claim.agent, claim.agent);
    assert forall account :: IsBook(account) ==> IsSystem(account);
  }

  /** A payout's effect on every account: the net prize off the payable and onto the agent's wallet, or,
      back-filled, off the agent's receivable. */
  lemma PayoutMovesMoney(s: State, c: nat, purpose: Purpose, walletOk: bool, account: string)
    requires Inv(s) && c < |s.claims| && s.claims[c].payoutTxn.None? && PayoutPurpose(purpose) && PayPrize(s, c, purpose, walletOk).Ok?
    ensures var (claim, t) := (s.claims[c], PayPrize(s, c, purpose, walletOk).value);
            Balance(t.journals, account)
            == Balance(s.journals, account)
               + Moved(PRIZE_PAYABLE, if purpose.LegacyPayout? then Receivable(claim.agent) else AgentWallet(claim.agent), claim.net, account)
  {
    var claim, key := s.claims[c], Key(purpose, c);
    assert ClaimOk(s.journals, c, claim);
    Transferred(s.journals, key, PRIZE_PAYABLE, if purpose.LegacyPayout? then Receivable(claim.agent) else AgentWallet(claim.agent), claim.net, account);
  }

  lemma PayoutKeepsInv(s: State, c: nat, accrual: Purpose, payout: Purpose, walletOk: bool)
    requires Inv(s) && AccrualPurpose(accrual) && PayoutPurpose(payout)
    ensures var r := RecordPayout(s, c, accrual, payout, walletOk);
            (r.Ok? ==> Inv(r.value)) && r != Err(KeyReused)
  {
    if c < |s.claims| && s.claims[c].payoutTxn.None? {
      AccrualKeepsInv(s, c, accrual);
      if EnsureAccrual(s, c, accrual).Ok? {
        PayPrizeKeepsInv(EnsureAccrual(s, c, accrual).value, c, payout, walletOk);
      }
    }
  }

  // ---------------------------------------------------------------- when they go through

  /** A sale is recorded exactly when it already is, or its commission is less than its amount and the
      wallet is willing and holds the rest. */
  lemma SaleIff(s: State, p: nat, walletOk: bool)
    requires Inv(s)
    ensures RecordSale(s, p, walletOk).Ok?
            <==> p < |s.payments|
                 && (s.payments[p].collectionTxn.Some?
                     || (0 <= s.payments[p].commission < s.payments[p].amount && walletOk
                         && -Balance(s.journals, AgentWallet(s.payments[p].agent)) >= s.payments[p].amount - s.payments[p].commission))
  {
    if p < |s.payments| && s.payments[p].collectionTxn.None? {
      assert PaymentOk(s.journals, p, s.payments[p]);
      SaleNeverReusesKey(s, p, walletOk);
      SaleErrors(s, p, walletOk);
    }
  }

  lemma SaleErrors(s: State, p: nat, walletOk: bool)
    requires p < |s.payments| && s.payments[p].collectionTxn.None? && !Has(s.journals, Key(SaleWallet, p))
    ensures var (sale, r) := (s.payments[p], RecordSale(s, p, walletOk));
            if !(0 <= sale.commission < sale.amount) then r == Err(CommissionTooHigh)
            else if !walletOk then r == Err(WalletRefused)
            else if -Balance(s.journals, AgentWallet(sale.agent)) < sale.amount - sale.commission then r == Err(InsufficientBalance)
            else r.Ok? || r == Err(KeyReused)
  {
  }

  /** An accrual's effect on every account: the gross prize is an expense, the net is owed to the winner
      and the tax withheld to the state. */
  lemma AccrualMovesMoney(s: State, c: nat, purpose: Purpose, account: string)
    requires Inv(s) && c < |s.claims| && s.claims[c].accrualTxn.None? && AccrualPurpose(purpose)
    ensures var (claim, r) := (s.claims[c], EnsureAccrual(s, c, purpose));
            && (r.Ok? <==> claim.gross > 0 && claim.net > 0 && claim.wht >= 0 && claim.gross == claim.net + claim.wht)
            && (r.Ok? ==>
                  && Balance(r.value.journals, account)
                     == Balance(s.journals, account) + (if account == PRIZE_EXPENSE then claim.gross else 0)
                        - (if account == PRIZE_PAYABLE then claim.net else 0) - (if account == WHT_PAYABLE then claim.wht else 0)
                  && r.value == s.(journals := r.value.journals, claims := s.claims[c := claim.(accrualTxn := Some(Key(purpose, c)))]))
  {
    var claim := s.claims[c];
    assert ClaimOk(s.journals, c, claim);
    if PrizeBalances(claim) {
      AccrualNet(claim, account);
      BalanceAppend(s.journals, Journal(Key(purpose, c), AccrualLines(claim)), account);
    }
  }

  /** A payout goes through exactly when it already has, or the prize is accrued or balances, and, where
      the wallet is reimbursed, the wallet is willing. */
  lemma PayoutIff(s: State, c: nat, accrual: Purpose, payout: Purpose, walletOk: bool)
    requires Inv(s) && AccrualPurpose(accrual) && PayoutPurpose(payout)
    ensures RecordPayout(s, c, accrual, payout, walletOk).Ok?
            <==> c < |s.claims|
                 && (s.claims[c].payoutTxn.Some?
                     || ((s.claims[c].accrualTxn.Some? || PrizeBalances(s.claims[c])) && (payout.AgentPayout? ==> walletOk)))
  {
    if c < |s.claims| && s.claims[c].payoutTxn.None? {
      AccrualKeepsInv(s, c, accrual);
      if s.claims[c].accrualTxn.None? {
        AccrualMovesMoney(s, c, accrual, "");
      }
      if EnsureAccrual(s, c, accrual).Ok? {
        PaidIff(EnsureAccrual(s, c, accrual).value, c, payout, walletOk);
      }
    }
  }

  lemma PaidIff(s: State, c: nat, payout: Purpose, walletOk: bool)
    requires Inv(s) && c < |s.claims| && s.claims[c].payoutTxn.None? && PayoutPurpose(payout)
    ensures PayPrize(s, c, payout, walletOk).Ok? <==> (payout.AgentPayout? ==> walletOk)
  {
    assert ClaimOk(s.journals, c, s.claims[c]);
  }

  /** Whether the migration accrues a prize before it back-fills the payout or the other way round makes
      no difference to the tables: the payout accrues what is missing. */
  lemma PrizeOrderIsImmaterial(s: State, c: nat)
    requires Inv(s) && c < |s.claims| && (s.claims[c].accrualTxn.Some? || PrizeBalances(s.claims[c]))
    ensures var accrued := EnsureAccrual(s, c, LegacyAccrual);
            var paid := RecordPayout(s, c, LegacyAccrual, LegacyPayout, true);
            && accrued.Ok? && paid.Ok?
            && RecordPayout(accrued.value, c, LegacyAccrual, LegacyPayout, true) == paid
            && EnsureAccrual(paid.value, c, LegacyAccrual) == paid
  {
    assert ClaimOk(s.journals, c, s.claims[c]);
    PayoutIff(s, c, LegacyAccrual, LegacyPayout, true);
    AccrualKeepsInv(s, c, LegacyAccrual);
    if s.claims[c].accrualTxn.None? {
      AccrualMovesMoney(s, c, LegacyAccrual, "");
    }
  }

  // ---------------------------------------------------------------- every run

  datatype Op =
    | Sell(payment: Payment, walletOk: bool)
    | Win(claim: Claim)
    | Accrue(c: nat, legacy: bool)
    | Pay(c: nat, walletOk: bool)
    | MigratePrize(c: nat)
    | Other(id: nat, lines: seq<Line>)

  /** Other flows post to any account, these books included, and go through the same wallet service. */
  ghost predicate Covered(s: State, lines: seq<Line>) {
    forall agent :: Balance(s.journals, AgentWallet(agent)) + Net(lines, AgentWallet(agent)) <= 0
  }

  ghost predicate Legal(s: State, op: Op) {
    match op
    case Sell(payment, _) =>
      payment.collectionTxn.None? && Find(s.journals, Key(SaleWallet, |s.payments|)).None? && Find(s.journals, Key(SaleCommission, |s.payments|)).None?
    case Win(claim) => claim.accrualTxn.None? && claim.payoutTxn.None? && NewClaim(s)
    case Other(_, lines) => Covered(s, lines)
    case _ => true
  }

  predicate NewClaim(s: State) {
    var c := |s.claims|;
    !Has(s.journals, Key(Accrual, c)) && !Has(s.journals, Key(LegacyAccrual, c)) && !Has(s.journals, Key(AgentPayout, c))
    && !Has(s.journals, Key(LegacyPayout, c))
  }

  function Commit(s: State, r: Result<State, Error>): State {
    if r.Ok? then r.value else s
  }

  /** Creating the payment is part of the sale's transaction: a refusal takes it back. */
  function After(s: State, op: Op): State {
    match op
    case Sell(payment, walletOk) => Commit(s, RecordSale(s.(payments := s.payments + [payment]), |s.payments|, walletOk))
    case Win(claim) => s.(claims := s.claims + [claim])
    case Accrue(c, legacy) => Commit(s, EnsureAccrual(s, c, if legacy then LegacyAccrual else Accrual))
    case Pay(c, walletOk) => Commit(s, RecordPayout(s, c, Accrual, AgentPayout, walletOk))
    case MigratePrize(c) => Commit(s, RecordPayout(s, c, LegacyAccrual, LegacyPayout, true))
    case Other(id, lines) => Commit(s, PostFor(s, Key(OtherMovement, id), lines))
  }

  lemma NewPaymentKeepsInv(s: State, payment: Payment)
    requires Inv(s) && payment.collectionTxn.None?
    requires Find(s.journals, Key(SaleWallet, |s.payments|)).None? && Find(s.journals, Key(SaleCommission, |s.payments|)).None?
    ensures Inv(s.(payments := s.payments + [payment]))
  {
    SumAppend(s.payments, payment, Revenue());
    SumAppend(s.payments, payment, Commission());
    assert forall a :: Balance(s.journals, AgentWallet(a)) <= 0;
  }

  lemma NewClaimKeepsInv(s: State, claim: Claim)
    requires Inv(s) && claim.accrualTxn.None? && claim.payoutTxn.None? && NewClaim(s)
    ensures Inv(s.(claims := s.claims + [claim]))
  {
    SumAppend(s.claims, claim, Owed());
    SumAppend(s.claims, claim, Withheld());
    SumAppend(s.claims, claim, Gross());
    assert forall a :: Balance(s.journals, AgentWallet(a)) <= 0;
  }

  lemma OtherKeepsInv(s: State, id: nat, lines: seq<Line>)
    requires Inv(s) && Covered(s, lines)
    ensures Inv(Commit(s, PostFor(s, Key(OtherMovement, id), lines)))
  {
    var j := Journal(Key(OtherMovement, id), lines);
    if Find(s.journals, j.key).None? {
      RowsKept(s, j);
      forall account
        ensures Balance(s.journals + [j], account) == Balance(s.journals, account) + Net(lines, account)
        ensures Own(s.journals + [j], account) == Own(s.journals, account)
      {
        OwnAppend(s.journals, j, account);
      }
      assert forall a :: Balance(s.journals, AgentWallet(a)) + Net(lines, AgentWallet(a)) <= 0;
    }
  }

  lemma StepKeepsInv(s: State, op: Op)
    requires Inv(s) && Legal(s, op)
    ensures Inv(After(s, op))
  {
    match op
    case Sell(payment, walletOk) =>
      NewPaymentKeepsInv(s, payment);
      SaleKeepsInv(s.(payments := s.payments + [payment]), |s.payments|, walletOk);
    case Win(claim) => NewClaimKeepsInv(s, claim);
    case Accrue(c, legacy) => AccrualKeepsInv(s, c, if legacy then LegacyAccrual else Accrual);
    case Pay(c, walletOk) => PayoutKeepsInv(s, c, Accrual, AgentPayout, walletOk);
    case MigratePrize(c) => PayoutKeepsInv(s, c, LegacyAccrual, LegacyPayout, true);
    case Other(id, lines) => OtherKeepsInv(s, id, lines);
  }

  ghost predicate LegalRun(s: State, ops: seq<Op>)
    decreases |ops|
  {
    ops != [] ==> Legal(s, ops[0]) && LegalRun(After(s, ops[0]), ops[1..])
  }

  function Run(s: State, ops: seq<Op>): State
    decreases |ops|
  {
    if ops == [] then s else Run(After(s, ops[0]), ops[1..])
  }

  lemma {:induction false} RunKeepsInv(s: State, ops: seq<Op>)
    requires Inv(s) && LegalRun(s, ops)
    ensures Inv(Run(s, ops))
    decreases |ops|
  {
    if ops != [] {
      StepKeepsInv(s, ops[0]);
      RunKeepsInv(After(s, ops[0]), ops[1..]);
    }
  }

  /** In every run each account holds what the rows say, plus whatever all other flows have posted to
      it; no prize is paid that was not accrued, and no wallet is overdrawn. */
  lemma PayableIsWhatIsOwed(ops: seq<Op>)
    requires LegalRun(State([], [], []), ops)
    ensures var t := Run(State([], [], []), ops);
            && Balance(t.journals, PRIZE_PAYABLE) == Foreign(t.journals, PRIZE_PAYABLE) - Sum(t.claims, Owed())
            && Balance(t.journals, WHT_PAYABLE) == Foreign(t.journals, WHT_PAYABLE) - Sum(t.claims, Withheld())
            && Balance(t.journals, PRIZE_EXPENSE) == Foreign(t.journals, PRIZE_EXPENSE) + Sum(t.claims, Gross())
            && Balance(t.journals, TICKET_SALES_REVENUE) == Foreign(t.journals, TICKET_SALES_REVENUE) - Sum(t.payments, Revenue())
            && Balance(t.journals, AGENT_COMMISSION_EXPENSE)
               == Foreign(t.journals, AGENT_COMMISSION_EXPENSE) + Sum(t.payments, Commission())
            && (forall c :: 0 <= c < |t.claims| && t.claims[c].payoutTxn.Some? ==> t.claims[c].accrualTxn.Some?)
            && forall agent :: -Balance(t.journals, AgentWallet(agent)) >= 0
  {
    EmptyInv();
    RunKeepsInv(State([], [], []), ops);
    var t := Run(State([], [], []), ops);
    forall c | 0 <= c < |t.claims| && t.claims[c].payoutTxn.Some? ensures t.claims[c].accrualTxn.Some? {
      assert ClaimOk(t.journals, c, t.claims[c]);
    }
  }

  lemma EmptyInv()
    ensures Inv(State([], [], []))
  {
  }

  // ---------------------------------------------------------------- at most once

  lemma PayoutKeepsUnique(s: State, c: nat, accrual: Purpose, payout: Purpose, walletOk: bool)
    requires Unique(s.journals)
    ensures EnsureAccrual(s, c, accrual).Ok? ==> Unique(EnsureAccrual(s, c, accrual).value.journals)
    ensures RecordPayout(s, c, accrual, payout, walletOk).Ok? ==> Unique(RecordPayout(s, c, accrual, payout, walletOk).value.journals)
  {
    if c < |s.claims| {
      PostKeepsUnique(s.journals, Key(accrual, c), AccrualLines(s.claims[c]));
      if EnsureAccrual(s, c, accrual).Ok? {
        var t := EnsureAccrual(s, c, accrual).value;
        var claim := t.claims[c];
        PostKeepsUnique(t.journals, Key(payout, c),
                        Transfer(PRIZE_PAYABLE, if payout.LegacyPayout? then Receivable(claim.agent) else AgentWallet(claim.agent), claim.net));
      }
    }
  }

  lemma SaleKeepsUnique(s: State, p: nat, walletOk: bool)
    requires Unique(s.journals)
    ensures RecordSale(s, p, walletOk).Ok? ==> Unique(RecordSale(s, p, walletOk).value.journals)
  {
    if p < |s.payments| {
      var sale := s.payments[p];
      var (key, lines) := (Key(SaleWallet, p), Transfer(AgentWallet(sale.agent), TICKET_SALES_REVENUE, sale.amount - sale.commission));
      PostKeepsUnique(s.journals, key, lines);
      if Post(s.journals, key, lines).Ok? {
        PostKeepsUnique(Post(s.journals, key, lines).value, Key(SaleCommission, p),
                        Transfer(AGENT_COMMISSION_EXPENSE, TICKET_SALES_REVENUE, sale.commission));
      }
    }
  }

  lemma StepKeepsUnique(s: State, op: Op)
    requires Unique(s.journals)
    ensures Unique(After(s, op).journals)
  {
    match op
    case Sell(payment, walletOk) => SaleKeepsUnique(s.(payments := s.payments + [payment]), |s.payments|, walletOk);
    case Win(_) =>
    case Accrue(c, legacy) => PayoutKeepsUnique(s, c, if legacy then LegacyAccrual else Accrual, AgentPayout, true);
    case Pay(c, walletOk) => PayoutKeepsUnique(s, c, Accrual, AgentPayout, walletOk);
    case MigratePrize(c) => PayoutKeepsUnique(s, c, LegacyAccrual, LegacyPayout, true);
    case Other(id, lines) => PostKeepsUnique(s.journals, Key(OtherMovement, id), lines);
  }

  lemma {:induction false} RunKeepsUnique(s: State, ops: seq<Op>)
    requires Unique(s.journals)
    ensures Unique(Run(s, ops).journals)
    decreases |ops|
  {
    if ops != [] {
      StepKeepsUnique(s, ops[0]);
      RunKeepsUnique(After(s, ops[0]), ops[1..]);
    }
  }

  /** In every run each claim has at most one accrual and one payout journal, live and back-filled
      counted together, and each sale one wallet and one commission journal; and there is one exactly
      when the row is linked to one. */
  lemma PostedAtMostOnce(ops: seq<Op>)
    requires LegalRun(State([], [], []), ops)
    ensures var t := Run(State([], [], []), ops);
            && (forall c :: 0 <= c < |t.claims| ==>
                  && Times(t.journals, Key(Accrual, c)) + Times(t.journals, Key(LegacyAccrual, c))
                     == (if t.claims[c].accrualTxn.Some? then 1 else 0)
                  && Times(t.journals, Key(AgentPayout, c)) + Times(t.journals, Key(LegacyPayout, c))
                     == (if t.claims[c].payoutTxn.Some? then 1 else 0))
            && (forall p :: 0 <= p < |t.payments| ==>
                  && Times(t.journals, Key(SaleWallet, p)) == (if t.payments[p].collectionTxn.Some? then 1 else 0)
                  && Times(t.journals, Key(SaleCommission, p))
                     == (if t.payments[p].collectionTxn.Some? && t.payments[p].commission > 0 then 1 else 0))
  {
    EmptyInv();
    RunKeepsInv(State([], [], []), ops);
    RunKeepsUnique(State([], [], []), ops);
    var t := Run(State([], [], []), ops);
    forall key ensures Times(t.journals, key) == if Has(t.journals, key) then 1 else 0 {
      UsedOnce(t.journals, key);
    }
    forall c | 0 <= c < |t.claims| ensures ClaimOk(t.journals, c, t.claims[c]) {
    }
  }

  // ---------------------------------------------------------------- the service

  ghost predicate Did(s: State, result: Result<State, Error>, t: State, error: Option<Error>) {
    match result
    case Ok(u) => t == u && error.None?
    case Err(e) => t == s && error == Some(e)
  }

  class AgentAccountingService {
    var payments: seq<Payment>
    var claims: seq<Claim>
    var journals: seq<Journal<Key>>

    function View(): State
      reads this
    {
      State(payments, claims, journals)
    }

    ghost predicate Valid()
      reads this
    {
      Inv(View()) && Unique(journals)
    }

    constructor ()
      ensures Valid() && View() == State([], [], [])
    {
      payments, claims, journals := [], [], [];
    }

    method PostJournal(key: Key, lines: seq<Line>) returns (error: Option<Error>)
      modifies this`journals
      ensures Did(old(View()), PostFor(old(View()), key, lines), View(), error)
    {
      var existing := Find(journals, key);
      if existing.Some? {
        return if existing.value.lines == lines then None else Some(KeyReused);
      }
      journals := journals + [Journal(key, lines)];
      return None;
    }

    method RecordSaleInTransaction(p: nat, walletOk: bool) returns (error: Option<Error>)
      requires Valid()
      modifies this`payments, this`journals
      ensures Valid() && Did(old(View()), RecordSale(old(View()), p, walletOk), View(), error)
    {
      SaleKeepsInv(View(), p, walletOk);
      SaleKeepsUnique(View(), p, walletOk);
      error := PostSale(p, walletOk);
    }

    method PostSale(p: nat, walletOk: bool) returns (error: Option<Error>)
      modifies this`payments, this`journals
      ensures Did(old(View()), RecordSale(old(View()), p, walletOk), View(), error)
    {
      if p >= |payments| {
        return Some(NotFound);
      }
      var sale := payments[p];
      if sale.collectionTxn.Some? {
        return None;
      }
      if sale.commission < 0 || sale.commission >= sale.amount {
        return Some(CommissionTooHigh);
      }
      if !walletOk {
        return Some(WalletRefused);
      }
      var walletChargeNgn, key, journalsBefore := sale.amount - sale.commission, Key(SaleWallet, p), journals;
      var existing := Find(journals, key);
      if existing.None? && -Balance(journals, AgentWallet(sale.agent)) < walletChargeNgn {
        return Some(InsufficientBalance);
      }
      error := PostJournal(key, Transfer(AgentWallet(sale.agent), TICKET_SALES_REVENUE, walletChargeNgn));
      if error.None? && sale.commission > 0 {
        error := PostJournal(Key(SaleCommission, p), Transfer(AGENT_COMMISSION_EXPENSE, TICKET_SALES_REVENUE, sale.commission));
      }
      if error.Some? {
        journals := journalsBefore;
        return;
      }
      payments := payments[p := sale.(collectionTxn := Some(key))];
    }

    /** In sound tables this fails only for a missing claim or a prize that does not balance, and
        afterwards the claim has exactly one accrual journal, live or back-filled. */
    method EnsurePrizeAccrual(c: nat, purpose: Purpose) returns (error: Option<Error>)
      requires Valid() && AccrualPurpose(purpose)
      modifies this`claims, this`journals
      ensures Valid() && Did(old(View()), EnsureAccrual(old(View()), c, purpose), View(), error)
      ensures error == if c >= |old(claims)| then Some(NotFound)
                       else if old(claims)[c].accrualTxn.None? && !PrizeBalances(old(claims)[c]) then Some(PrizeDoesNotBalance)
                       else None
      ensures error.None? ==>
                && |claims| == |old(claims)| && claims == old(claims)[c := old(claims)[c].(accrualTxn := claims[c].accrualTxn)]
                && Times(journals, Key(Accrual, c)) + Times(journals, Key(LegacyAccrual, c)) == 1
                && PrizeBalances(claims[c])
    {
      AccrualKeepsInv(View(), c, purpose);
      PayoutKeepsUnique(View(), c, purpose, AgentPayout, true);
      error := PostAccrual(c, purpose);
      if error.None? {
        UsedOnce(journals, Key(Accrual, c));
        UsedOnce(journals, Key(LegacyAccrual, c));
        assert ClaimOk(journals, c, claims[c]);
      }
    }

    method PostAccrual(c: nat, purpose: Purpose) returns (error: Option<Error>)
      modifies this`claims, this`journals
      ensures Did(old(View()), EnsureAccrual(old(View()), c, purpose), View(), error)
    {
      if c >= |claims| {
        return Some(NotFound);
      }
      var claim := claims[c];
      if claim.accrualTxn.Some? {
        return None;
      }
      if claim.gross <= 0 || claim.net <= 0 || claim.wht < 0 || claim.gross != claim.net + claim.wht {
        return Some(PrizeDoesNotBalance);
      }
      error := PostJournal(Key(purpose, c), AccrualLines(claim));
      if error.None? {
        claims := claims[c := claim.(accrualTxn := Some(Key(purpose, c)))];
      }
    }

    method RecordAgentPrizePayout(c: nat, walletOk: bool) returns (error: Option<Error>)
      requires Valid()
      modifies this`claims, this`journals
      ensures Valid() && Did(old(View()), RecordPayout(old(View()), c, Accrual, AgentPayout, walletOk), View(), error)
    {
      PayoutKeepsInv(View(), c, Accrual, AgentPayout, walletOk);
      PayoutKeepsUnique(View(), c, Accrual, AgentPayout, walletOk);
      error := PayInTransaction(c, walletOk);
    }

    method PayInTransaction(c: nat, walletOk: bool) returns (error: Option<Error>)
      modifies this`claims, this`journals
      ensures Did(old(View()), RecordPayout(old(View()), c, Accrual, AgentPayout, walletOk), View(), error)
    {
      if c >= |claims| {
        return Some(NotFound);
      }
      if claims[c].payoutTxn.Some? {
        return None;
      }
      var claimsBefore, journalsBefore := claims, journals;
      error := PostAccrual(c, Accrual);
      if error.None? {
        var key := Key(AgentPayout, c);
        if walletOk {
          error := PostJournal(key, Transfer(PRIZE_PAYABLE, AgentWallet(claims[c].agent), claims[c].net));
        } else {
          error := Some(WalletRefused);
        }
        if error.None? {
          claims := claims[c := claims[c].(payoutTxn := Some(key))];
        }
      }
      if error.Some? {
        claims, journals := claimsBefore, journalsBefore;
      }
    }
  }
}
