/**
 The USTN lending bank (USTNFinance), its auction house (USTNAuction) and its token (USTN)
 as one ledger. Every transaction is a function from the ledger to an optional ledger,
 None being a revert. The classes in UstnContracts are proved to compute these functions.
 */
module UstnModel {
  import opened Prelude

  const PERIOD: nat := 600
  const BID_DURATION: nat := 600
  const MULTIPLE: nat := 1_000_000_000_000_000_000
  const MIN_AMOUNT: nat := 1_000_000_000

  // ---------- Platform parameters and call context ----------

  datatype Parameters = Parameters(
    reserveRatio: nat, loanInterestRate: nat, loanPledgeRate: nat, liquidationRatio: nat)

  /** The ranges that ParameterInfo enforces when a parameter is set. */
  type Config = p: Parameters |
      p.reserveRatio <= 10000 && p.loanInterestRate <= 100
      && 12000 <= p.loanPledgeRate <= 66600 && 9000 <= p.liquidationRatio <= 9900
    witness Parameters(1000, 5, 15000, 9000)

  function WarningRate(p: Config): nat { p.loanPledgeRate * 9900 / 10000 }

  function LiquidationRate(p: Config): nat { p.loanPledgeRate * p.liquidationRatio / 10000 }

  /** Who calls, with which roles, under which parameters and oracle prices. */
  datatype Context = Context(
    sender: Account, foundation: bool, liquidator: bool,
    config: Config, unitPrice: nat, ustnPrice: nat)

  // ---------- State ----------

  datatype Status = Normal | Warning | Closed

  datatype Loan = Loan(
    timestamp: nat, initialDebt: nat, mortgage: nat, debt: nat, interest: nat, status: Status)

  datatype Bank = Bank(
    bankLoanLimit: nat,
    depositUsers: seq<Address>,
    depositers: set<Address>,
    depositBalances: map<Address, nat>,
    pastTime: map<Address, nat>,
    depositPoint: map<Address, nat>,
    loansTotalInterest: nat,
    interestMint: nat,
    loanUsers: seq<Address>,
    loaners: set<Address>,
    loanAccount: map<Address, seq<Loan>>,
    unitBalance: nat)

  /** One auctioned collateral with its bids; bider is 0 until the first bid. */
  datatype Lot = Lot(
    sales: nat, startValue: nat, nowValue: nat, timeOver: nat, settled: bool, debt: nat,
    bider: Address, bids: map<Address, nat>)

  datatype Token = Token(totalSupply: nat, balance: map<Address, nat>, manager: Account)

  datatype Ledger = Ledger(bank: Bank, lots: seq<Lot>, token: Token)

  function LoansOf(accounts: map<Address, seq<Loan>>, u: Address): seq<Loan> {
    if u in accounts then accounts[u] else []
  }

  // ---------- Deposits ----------

  function Reserve(tokens: nat, p: Config): nat {
    tokens * (10000 - p.reserveRatio) / 10000
  }

  function Deposit(l: Ledger, now: nat, c: Context, tokens: nat): Option<Ledger> {
    var u, b := c.sender, l.bank;
    if !(MIN_AMOUNT <= tokens <= Get(l.token.balance, u)) then None
    else
      var joined := if u in b.depositers then b else b.(
        depositers := b.depositers + {u},
        depositUsers := b.depositUsers + [u],
        pastTime := b.pastTime[u := now]);
      Some(l.(
        bank := joined.(
          depositBalances := b.depositBalances[u := Get(b.depositBalances, u) + tokens],
          bankLoanLimit := b.bankLoanLimit + Reserve(tokens, c.config)),
        token := l.token.(balance := l.token.balance[u := Get(l.token.balance, u) - tokens])))
  }

  function Withdraw(l: Ledger, now: nat, c: Context, tokens: nat): Option<Ledger> {
    var u, b := c.sender, l.bank;
    if Get(b.depositBalances, u) < tokens || b.bankLoanLimit < Reserve(tokens, c.config) then None
    else Some(l.(
        bank := b.(
          depositBalances := b.depositBalances[u := Get(b.depositBalances, u) - tokens],
          bankLoanLimit := b.bankLoanLimit - Reserve(tokens, c.config)),
        token := l.token.(balance := l.token.balance[u := Get(l.token.balance, u) + tokens])))
  }

  /** Whole periods since a depositor was last credited. */
  function PeriodsSince(t: nat, now: nat): nat {
    if now <= t then 0 else (now - t) / PERIOD
  }

  /** A depositor's points after crediting balance times whole periods. */
  function PointAfter(b: Bank, now: nat, u: Address): nat {
    Get(b.depositPoint, u) + Get(b.depositBalances, u) * PeriodsSince(Get(b.pastTime, u), now)
  }

  function TimeAfter(b: Bank, now: nat, u: Address): nat {
    Get(b.pastTime, u) + PeriodsSince(Get(b.pastTime, u), now) * PERIOD
  }

  function PointTotal(b: Bank, now: nat, users: seq<Address>): nat {
    if users == [] then 0
    else PointTotal(b, now, users[..|users| - 1]) + PointAfter(b, now, users[|users| - 1])
  }

  /** The share of the collected interest that one depositor receives. */
  function Share(b: Bank, now: nat, u: Address, total: nat): nat
    requires total > 0
  {
    b.loansTotalInterest * PointAfter(b, now, u) / total
  }

  /** Points, credit times and balances once the given members have been dealt with. */
  function PointsWith(b: Bank, now: nat, members: set<Address>): map<Address, nat> {
    map u | u in b.depositPoint.Keys + members ::
      if u in members then PointAfter(b, now, u) else b.depositPoint[u]
  }

  function TimesWith(b: Bank, now: nat, members: set<Address>): map<Address, nat> {
    map u | u in b.pastTime.Keys + members ::
      if u in members then TimeAfter(b, now, u) else b.pastTime[u]
  }

  function BalancesWith(b: Bank, now: nat, members: set<Address>, total: nat): map<Address, nat>
    requires total > 0 || members == {}
  {
    map u | u in b.depositBalances.Keys + members ::
      if u in members then Get(b.depositBalances, u) + Share(b, now, u, total) else b.depositBalances[u]
  }

  function DistributeTo(b: Bank, now: nat, total: nat): Bank
    requires total > 0 || b.depositUsers == []
  {
    var members := set u | u in b.depositUsers;
    b.(
      depositPoint := PointsWith(b, now, members),
      pastTime := TimesWith(b, now, members),
      depositBalances := BalancesWith(b, now, members, total),
      loansTotalInterest := 0)
  }

  function Distribute(l: Ledger, now: nat, c: Context): Option<Ledger> {
    var b := l.bank;
    var total := PointTotal(b, now, b.depositUsers);
    if !c.foundation || (b.depositUsers != [] && total == 0)
       || exists u :: u in b.depositUsers && now < Get(b.pastTime, u) then None
    else Some(l.(bank := DistributeTo(b, now, total)))
  }

  // ---------- Loans ----------

  function LoansRate(tokens: nat, c: Context): nat
    requires c.ustnPrice > 0
  {
    c.unitPrice * tokens / c.ustnPrice * c.config.loanPledgeRate / 10000
  }

  function FirstInterest(amount: nat, p: Config): nat { amount * p.loanInterestRate / 10000 }

  function NewLoan(now: nat, value: nat, amount: nat, p: Config): Loan {
    Loan(now, amount, value, amount + FirstInterest(amount, p), FirstInterest(amount, p), Normal)
  }

  /** The bank's books after lending an amount against a new loan of borrower u. */
  function Lend(b: Bank, u: Address, loan: Loan, amount: nat): Bank
    requires amount <= b.bankLoanLimit
  {
    b.(
      loaners := if u in b.loaners then b.loaners else b.loaners + {u},
      loanUsers := if u in b.loaners then b.loanUsers else b.loanUsers + [u],
      loanAccount := b.loanAccount[u := LoansOf(b.loanAccount, u) + [loan]],
      bankLoanLimit := b.bankLoanLimit - amount,
      loansTotalInterest := b.loansTotalInterest + loan.interest,
      interestMint := b.interestMint + loan.interest,
      unitBalance := b.unitBalance + loan.mortgage)
  }

  function Borrow(l: Ledger, now: nat, c: Context, value: nat): Option<Ledger> {
    var u, b := c.sender, l.bank;
    if value < MIN_AMOUNT || c.ustnPrice == 0 || LoansRate(value, c) > b.bankLoanLimit then None
    else
      var amount := LoansRate(value, c);
      Some(l.(
        bank := Lend(b, u, NewLoan(now, value, amount, c.config), amount),
        token := l.token.(
          balance := l.token.balance[u := Get(l.token.balance, u) + amount],
          totalSupply := l.token.totalSupply + amount + FirstInterest(amount, c.config))))
  }

  /** The collateral rate of a position in hundredths of a percent. */
  function Pledge(mortgage: nat, debt: nat, c: Context): nat
    requires debt > 0 && c.ustnPrice > 0
  {
    mortgage * c.unitPrice * 10000 / debt / c.ustnPrice
  }

  function TopUp(l: Ledger, now: nat, c: Context, number: nat, value: nat): Option<Ledger> {
    var u, b := c.sender, l.bank;
    var loans := LoansOf(b.loanAccount, u);
    if number >= |loans| || loans[number].status.Closed?
       || loans[number].debt == 0 || c.ustnPrice == 0 then None
    else
      var loan := loans[number];
      var rate := Pledge(loan.mortgage + value, loan.debt, c);
      var topped := loan.(
        mortgage := loan.mortgage + value,
        status := if rate >= WarningRate(c.config) then Normal else Warning);
      Some(l.(bank := b.(
        loanAccount := b.loanAccount[u := loans[number := topped]],
        unitBalance := b.unitBalance + value)))
  }

  /** The part of the collateral released by a repayment, as a fraction of MULTIPLE. */
  function BackPercent(loan: Loan, tokens: nat): nat
    requires loan.debt > 0
  {
    if tokens >= loan.debt then MULTIPLE else tokens * MULTIPLE / loan.debt
  }

  function BackUnit(loan: Loan, tokens: nat): (r: nat)
    requires loan.debt > 0
    ensures r <= loan.mortgage
    ensures tokens >= loan.debt ==> r == loan.mortgage
    ensures tokens < loan.debt ==> r * loan.debt <= loan.mortgage * tokens
  {
    var percent := BackPercent(loan, tokens);
    var r := loan.mortgage * percent / MULTIPLE;
    BackUnitBounds(loan, tokens, percent, r);
    r
  }

  lemma BackUnitBounds(loan: Loan, tokens: nat, percent: nat, r: nat)
    requires loan.debt > 0 && percent == BackPercent(loan, tokens)
    requires r == loan.mortgage * percent / MULTIPLE
    ensures r <= loan.mortgage
    ensures tokens >= loan.debt ==> r == loan.mortgage
    ensures tokens < loan.debt ==> r * loan.debt <= loan.mortgage * tokens
  {
    if tokens < loan.debt {
      TwoFloors(loan.mortgage, tokens, loan.debt, MULTIPLE, percent, r);
      MultiplyMonotone(tokens, loan.debt, loan.mortgage);
      MultiplyCancel(r, loan.mortgage, loan.debt);
    }
  }

  /** The loan after a repayment: interest is paid before principal. */
  function RepaidLoan(loan: Loan, tokens: nat): Loan
    requires loan.debt > 0
  {
    var left := loan.mortgage - BackUnit(loan, tokens);
    if tokens >= loan.debt then
      loan.(debt := 0, interest := 0, status := Closed, mortgage := left)
    else
      loan.(
        debt := loan.debt - tokens,
        interest := if loan.interest <= tokens then 0 else loan.interest - tokens,
        mortgage := left)
  }

  /** The principal that a repayment returns to the lending limit. */
  function PrincipalPaid(loan: Loan, tokens: nat): nat {
    var paid := if tokens >= loan.debt then loan.debt else tokens;
    if loan.interest <= paid then paid - loan.interest else 0
  }

  /** The amount a repayment takes off interestMint: only a payment short of the interest does. */
  function MintPaid(loan: Loan, tokens: nat): nat {
    if tokens < loan.debt && tokens < loan.interest then tokens else 0
  }

  /** The bank's books after a repayment on one loan. */
  function PayIn(b: Bank, u: Address, number: nat, tokens: nat, value: nat): Bank
    requires number < |LoansOf(b.loanAccount, u)|
    requires var loan := LoansOf(b.loanAccount, u)[number];
      loan.debt > 0 && MintPaid(loan, tokens) <= b.interestMint
      && BackUnit(loan, tokens) <= b.unitBalance + value
  {
    var loans := LoansOf(b.loanAccount, u);
    var loan := loans[number];
    b.(
      loanAccount := b.loanAccount[u := loans[number := RepaidLoan(loan, tokens)]],
      bankLoanLimit := b.bankLoanLimit + PrincipalPaid(loan, tokens),
      interestMint := b.interestMint - MintPaid(loan, tokens),
      unitBalance := b.unitBalance + value - BackUnit(loan, tokens))
  }

  function Repay(l: Ledger, now: nat, c: Context, number: nat, tokens: nat, value: nat): Option<Ledger> {
    var u, b := c.sender, l.bank;
    var loans := LoansOf(b.loanAccount, u);
    if Get(l.token.balance, u) < tokens || number >= |loans| || loans[number].status.Closed?
       || loans[number].debt == 0 || tokens == 0
       || loans[number].interest > loans[number].debt
       || MintPaid(loans[number], tokens) > b.interestMint
       || BackUnit(loans[number], tokens) > b.unitBalance + value then None
    else
      var loan := loans[number];
      var cost := if tokens >= loan.debt then loan.debt else tokens;
      Some(l.(
        bank := PayIn(b, u, number, tokens, value),
        token := l.token.(balance := l.token.balance[u := Get(l.token.balance, u) - cost])))
  }

  // ---------- Liquidation ----------

  /** The debt after k periods of compounding, each period rounded down. */
  function Compound(debt: nat, rate: nat, k: nat): (r: nat)
    ensures debt <= r
  {
    if k == 0 then debt
    else
      var d := Compound(debt, rate, k - 1);
      d + d * rate / 10000
  }

  function AccrueLoan(loan: Loan, now: nat, rate: nat): Loan {
    var k := PeriodsSince(loan.timestamp, now);
    var d := if loan.status.Closed? then loan.debt else Compound(loan.debt, rate, k);
    loan.(
      timestamp := loan.timestamp + k * PERIOD,
      debt := d,
      interest := loan.interest + (d - loan.debt))
  }

  function AccrueLoans(loans: seq<Loan>, now: nat, rate: nat): (r: seq<Loan>)
    ensures |r| == |loans|
    ensures forall i :: 0 <= i < |r| ==> r[i] == AccrueLoan(loans[i], now, rate)
  {
    seq(|loans|, i requires 0 <= i < |loans| => AccrueLoan(loans[i], now, rate))
  }

  function AccrueAccounts(accounts: map<Address, seq<Loan>>, now: nat, rate: nat): map<Address, seq<Loan>> {
    map u | u in accounts :: AccrueLoans(accounts[u], now, rate)
  }

  function LoanGain(loan: Loan, now: nat, rate: nat): nat {
    AccrueLoan(loan, now, rate).debt - loan.debt
  }

  function LoansGain(loans: seq<Loan>, now: nat, rate: nat): nat {
    if loans == [] then 0
    else LoansGain(loans[..|loans| - 1], now, rate) + LoanGain(loans[|loans| - 1], now, rate)
  }

  /** All the interest that accrues to the loans of the listed borrowers, each loan once. */
  function AccountsGain(users: seq<Address>, accounts: map<Address, seq<Loan>>, now: nat, rate: nat): nat {
    if users == [] then 0
    else AccountsGain(users[..|users| - 1], accounts, now, rate)
         + LoansGain(LoansOf(accounts, users[|users| - 1]), now, rate)
  }

  /** The status a loan gets from its collateral rate; a closed loan stays closed. */
  function ClassifyLoan(loan: Loan, c: Context): Status
    requires !loan.status.Closed? ==> loan.debt > 0 && c.ustnPrice > 0
  {
    if loan.status.Closed? then Closed
    else
      var rate := Pledge(loan.mortgage, loan.debt, c);
      if rate > WarningRate(c.config) then Normal
      else if rate >= LiquidationRate(c.config) then Warning
      else Closed
  }

  ghost predicate Priced(loans: seq<Loan>, c: Context) {
    forall i :: 0 <= i < |loans| && !loans[i].status.Closed? ==> loans[i].debt > 0 && c.ustnPrice > 0
  }

  function LotOf(loan: Loan, now: nat): Lot {
    Lot(loan.mortgage, loan.debt, loan.debt, now + BID_DURATION, false, loan.interest, 0, map[])
  }

  ghost function ClassifyLoans(loans: seq<Loan>, c: Context): (r: seq<Loan>)
    requires Priced(loans, c)
    ensures |r| == |loans|
    ensures forall i :: 0 <= i < |r| ==> r[i] == loans[i].(status := ClassifyLoan(loans[i], c))
  {
    seq(|loans|, i requires 0 <= i < |loans| => loans[i].(status := ClassifyLoan(loans[i], c)))
  }

  /** The lots opened for the loans that liquidation closes, in order. */
  ghost function LoansLots(loans: seq<Loan>, now: nat, c: Context): seq<Lot>
    requires Priced(loans, c)
  {
    if loans == [] then []
    else
      var last := loans[|loans| - 1];
      LoansLots(loans[..|loans| - 1], now, c)
      + if !last.status.Closed? && ClassifyLoan(last, c).Closed? then [LotOf(last, now)] else []
  }

  ghost predicate AllPriced(accounts: map<Address, seq<Loan>>, c: Context) {
    forall u :: u in accounts ==> Priced(accounts[u], c)
  }

  ghost function ClassifyAccounts(accounts: map<Address, seq<Loan>>, c: Context): map<Address, seq<Loan>>
    requires AllPriced(accounts, c)
  {
    map u | u in accounts :: ClassifyLoans(accounts[u], c)
  }

  ghost function AccountsLots(users: seq<Address>, accounts: map<Address, seq<Loan>>, now: nat, c: Context): seq<Lot>
    requires AllPriced(accounts, c)
  {
    if users == [] then []
    else AccountsLots(users[..|users| - 1], accounts, now, c)
         + LoansLots(LoansOf(accounts, users[|users| - 1]), now, c)
  }

  ghost predicate NotBefore(accounts: map<Address, seq<Loan>>, now: nat) {
    forall u, i :: u in accounts && 0 <= i < |accounts[u]| ==> accounts[u][i].timestamp <= now
  }

  ghost function Liquidate(l: Ledger, now: nat, c: Context): Option<Ledger> {
    var b := l.bank;
    var rate := c.config.loanInterestRate;
    var accrued := AccrueAccounts(b.loanAccount, now, rate);
    if !c.liquidator || !NotBefore(b.loanAccount, now) || !AllPriced(accrued, c) then None
    else
      var gain := AccountsGain(b.loanUsers, b.loanAccount, now, rate);
      Some(Ledger(
        b.(
          loanAccount := ClassifyAccounts(accrued, c),
          loansTotalInterest := b.loansTotalInterest + gain,
          interestMint := b.interestMint + gain),
        l.lots + AccountsLots(b.loanUsers, accrued, now, c),
        l.token.(totalSupply := l.token.totalSupply + gain)))
  }

  // ---------- Auctions ----------

  function Bid(l: Ledger, now: nat, c: Context, n: nat, amount: nat): Option<Ledger> {
    if n >= |l.lots| || l.lots[n].timeOver <= now
       || Get(l.lots[n].bids, c.sender) + amount <= l.lots[n].nowValue
       || Get(l.token.balance, c.sender) <= amount then None
    else
      var lot := l.lots[n];
      var total := Get(lot.bids, c.sender) + amount;
      var paid := l.token.balance[c.sender := Get(l.token.balance, c.sender) - amount];
      Some(l.(
        lots := l.lots[n := lot.(
          bider := c.sender, nowValue := total, bids := lot.bids[c.sender := total])],
        token := l.token.(balance := paid[l.token.manager := Get(paid, l.token.manager) + amount])))
  }

  function WithdrawBid(l: Ledger, now: nat, c: Context, n: nat): Option<Ledger> {
    if n >= |l.lots| || l.lots[n].bider == c.sender || Get(l.lots[n].bids, c.sender) == 0 then None
    else
      var lot := l.lots[n];
      var amount := Get(lot.bids, c.sender);
      var paid := l.token.balance[c.sender := Get(l.token.balance, c.sender) + amount];
      if Get(paid, l.token.manager) < amount then None
      else Some(l.(
          lots := l.lots[n := lot.(bids := lot.bids[c.sender := 0])],
          token := l.token.(balance := paid[l.token.manager := Get(paid, l.token.manager) - amount])))
  }

  /** The guards that getAuction itself states. */
  predicate MaySettle(l: Ledger, now: nat, c: Context, n: nat) {
    n < |l.lots| && !l.lots[n].settled && l.lots[n].timeOver < now && l.lots[n].bider == c.sender
  }

  function Settle(l: Ledger, now: nat, c: Context, n: nat): Option<Ledger> {
    if !MaySettle(l, now, c, n)
       || l.lots[n].startValue < l.lots[n].debt
       || l.bank.unitBalance < l.lots[n].sales
       || l.bank.interestMint < l.lots[n].debt
       || Get(l.token.balance, l.token.manager) < l.lots[n].startValue
       || l.token.totalSupply < l.lots[n].startValue then None
    else
      var lot := l.lots[n];
      Some(Ledger(
        l.bank.(
          unitBalance := l.bank.unitBalance - lot.sales,
          interestMint := l.bank.interestMint - lot.debt,
          bankLoanLimit := l.bank.bankLoanLimit + (lot.startValue - lot.debt)),
        l.lots[n := lot.(settled := true)],
        l.token.(
          totalSupply := l.token.totalSupply - lot.startValue,
          balance := l.token.balance[l.token.manager :=
            Get(l.token.balance, l.token.manager) - lot.startValue])))
  }

  function RelistLot(lot: Lot, now: nat): Lot {
    if lot.timeOver < now && lot.bider == 0 then lot.(timeOver := now + BID_DURATION) else lot
  }

  function Relist(l: Ledger, now: nat, c: Context): Option<Ledger> {
    if !c.foundation then None
    else Some(l.(lots := seq(|l.lots|, i requires 0 <= i < |l.lots| => RelistLot(l.lots[i], now))))
  }

  // ---------- Runs ----------

  datatype Op =
    | ODeposit(tokens: nat)
    | OWithdraw(tokens: nat)
    | ODistribute
    | OBorrow(value: nat)
    | OTopUp(number: nat, value: nat)
    | ORepay(number: nat, tokens: nat, value: nat)
    | OLiquidate
    | OBid(n: nat, amount: nat)
    | OWithdrawBid(n: nat)
    | OSettle(n: nat)
    | ORelist
      // Token activity outside the bank and the house (transfers, mint, mintBack, the balance and
      // supply helpers that anyone may call): any new balances and any new supply.
    | OElsewhere(balance: map<Address, nat>, supply: nat)

  ghost function Apply(l: Ledger, now: nat, c: Context, op: Op): Option<Ledger> {
    match op
    case ODeposit(tokens) => Deposit(l, now, c, tokens)
    case OWithdraw(tokens) => Withdraw(l, now, c, tokens)
    case ODistribute => Distribute(l, now, c)
    case OBorrow(value) => Borrow(l, now, c, value)
    case OTopUp(number, value) => TopUp(l, now, c, number, value)
    case ORepay(number, tokens, value) => Repay(l, now, c, number, tokens, value)
    case OLiquidate => Liquidate(l, now, c)
    case OBid(n, amount) => Bid(l, now, c, n, amount)
    case OWithdrawBid(n) => WithdrawBid(l, now, c, n)
    case OSettle(n) => Settle(l, now, c, n)
    case ORelist => Relist(l, now, c)
    case OElsewhere(balance, supply) =>
      Some(l.(token := l.token.(balance := balance, totalSupply := supply)))
  }

  /** A call made some time after the previous one. */
  datatype Call = Call(wait: nat, context: Context, op: Op)

  datatype System = System(now: nat, ledger: Ledger)

  ghost function Outcome(s: System, call: Call): Option<Ledger> {
    Apply(s.ledger, s.now + call.wait, call.context, call.op)
  }

  /** One call: time passes, and a reverted call changes nothing else. */
  ghost function Step(s: System, call: Call): System {
    var now := s.now + call.wait;
    match Outcome(s, call)
    case None => System(now, s.ledger)
    case Some(l) => System(now, l)
  }

  ghost function Run(s: System, calls: seq<Call>): System {
    if calls == [] then s
    else Step(Run(s, calls[..|calls| - 1]), calls[|calls| - 1])
  }

  ghost predicate Initial(s: System) {
    var b := s.ledger.bank;
    && b.bankLoanLimit == b.loansTotalInterest == b.interestMint == b.unitBalance == 0
    && b.depositUsers == [] && b.depositers == {}
    && b.depositBalances == map[] && b.pastTime == map[] && b.depositPoint == map[]
    && b.loanUsers == [] && b.loaners == {} && b.loanAccount == map[]
    && s.ledger.lots == []
  }
}
