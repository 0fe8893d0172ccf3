/** The account codes the money flows post to. */
module Accounts {

  const BANK_CASH := "SYS:BANK:CASH"
  const TICKET_SALES_REVENUE := "SYS:SALES:TICKET"
  const AGENT_COMMISSION_EXPENSE := "SYS:AGENT:COMMISSION"
  const PRIZE_EXPENSE := "SYS:PRIZE:EXPENSE"
  const PRIZE_PAYABLE := "SYS:PRIZE:PAYABLE"
  const WHT_PAYABLE := "SYS:TAX:WHT"
  const REFUND_PAYABLE := "SYS:REFUND:PAYABLE"
  const SUSPENSE := "SYS:SUSPENSE"
  const MONNIFY_CLEARING := "SYS:PSP:MONNIFY"
  const FLUTTERWAVE_CLEARING := "SYS:PSP:FLUTTERWAVE"
  const PAYSTACK_CLEARING := "SYS:PSP:PAYSTACK"
  const MONNIFY_PAYOUT_CLEARING := "SYS:PAYOUT:MONNIFY"
  const FLUTTERWAVE_PAYOUT_CLEARING := "SYS:PAYOUT:FLUTTERWAVE"

  function Receivable(agent: string): string {
    "AGENT:" + agent + ":RECEIVABLE"
  }

  function AgentWallet(agent: string): string {
    "WALLET:AGENT:" + agent + ":AVAILABLE"
  }

  predicate IsSystem(code: string) {
    code != [] && code[0] == 'S'
  }

  lemma CodesDiffer(a: string, b: string)
    ensures Receivable(a) == Receivable(b) <==> a == b
    ensures AgentWallet(a) == AgentWallet(b) <==> a == b
    ensures Receivable(a) != AgentWallet(b)
    ensures !IsSystem(Receivable(a)) && !IsSystem(AgentWallet(a))
  {
    assert Receivable(a)[0] == 'A' && AgentWallet(b)[0] == 'W' && AgentWallet(a)[0] == 'W';
    assert Receivable(a)[6..|Receivable(a)| - 11] == a && AgentWallet(a)[13..|AgentWallet(a)| - 10] == a;
    assert Receivable(b)[6..|Receivable(b)| - 11] == b && AgentWallet(b)[13..|AgentWallet(b)| - 10] == b;
  }

  /** The system accounts the flows tell apart. */
  lemma SystemCodesDiffer()
    ensures TICKET_SALES_REVENUE != SUSPENSE
    ensures forall code :: code in [MONNIFY_CLEARING, FLUTTERWAVE_CLEARING, PAYSTACK_CLEARING, MONNIFY_PAYOUT_CLEARING, FLUTTERWAVE_PAYOUT_CLEARING] ==>
              code != TICKET_SALES_REVENUE && code != SUSPENSE && code != REFUND_PAYABLE
    ensures REFUND_PAYABLE != TICKET_SALES_REVENUE && REFUND_PAYABLE != SUSPENSE
  {
    assert |TICKET_SALES_REVENUE| == 16 && |SUSPENSE| == 12 && |REFUND_PAYABLE| == 18;
    assert |MONNIFY_CLEARING| == 15 && |FLUTTERWAVE_CLEARING| == 19 && |FLUTTERWAVE_PAYOUT_CLEARING| == 22;
    assert |PAYSTACK_CLEARING| == 16 && PAYSTACK_CLEARING[4] == 'P' && TICKET_SALES_REVENUE[4] == 'S';
    assert |MONNIFY_PAYOUT_CLEARING| == 18 && MONNIFY_PAYOUT_CLEARING[4] == 'P' && REFUND_PAYABLE[4] == 'R';
  }
}
