/**
 The TCash system: the loan contract, its auction house and the TCash token, as pure transactions
 on one ledger. A reverted transaction is None.
 */
module TCashModel {
  import opened Prelude

  const BASIS: nat := 10_000
  const RATIO_SCALE: nat := 1_000_000
  const MIN_LOAN: nat := 1_000_000_000
  const DAY: nat := 86_400
  const MAX_DURATION: nat := 30 * DAY

  datatype Status = Running | Cleared | Warned | Liquidated

  datatype Loan = Loan(
    account: Account,
    collateral: nat,
    total: nat,
    unitPrice: nat,
    tcashPrice: nat,
    time: nat,
    interest: nat,
    cycles: nat,
    status: Status)

  /** Per borrower: loans cleared (NCL), loans taken (TNL), total borrowed (TLA), total repaid (TRA). */
  datatype Records = Records(
    userLoans: map<Address, seq<nat>>,
    borrowed: map<Address, nat>,
    ncl: map<Address, nat>,
    tnl: map<Address, nat>,
    tla: map<Address, nat>,
    tra: map<Address, nat>)

  /** System-wide: outstanding balance, repaid amount, total lent, and the risk factor in force. */
  datatype Books = Books(olb: nat, ra: nat, tld: nat, srf: nat, srfTime: nat, unitBalance: nat)

  datatype Lot = Lot(
    sales: nat,
    startValue: nat,
    nowValue: nat,
    timeOver: nat,
    settled: bool,
    debt: nat,
    bider: Address,
    bids: map<Address, nat>)

  datatype House = House(lots: seq<Lot>, duration: nat)

  datatype Coin = Coin(supply: nat, balance: map<Address, nat>, locked: map<Address, nat>)

  datatype State = State(loans: seq<Loan>, records: Records, books: Books, house: House, coin: Coin)

  datatype Parameters = Parameters(dailyRate: nat, warning: nat, liquidation: nat, cycle: nat)

  /**
   The ranges that ParameterInfo enforces when a parameter is set. The liquidation line is set at or
   below the warning line, but the warning line can be lowered past it afterwards.
   */
  type Config = p: Parameters |
      0 < p.dailyRate <= 1000 && 500_000 < p.warning <= 2_000_000
      && 400_000 < p.liquidation <= 2_000_000 && 0 < p.cycle <= 1000
    witness Parameters(5, 750_000, 500_000, 365)

  /** What a transaction finds outside the ledger: sender, roles, oracle, TAT record, parameters. */
  datatype Context = Context(
    sender: Account,
    foundation: bool,
    unitPrice: nat,
    tcashPrice: nat,
    mintOpen: bool,
    tat: seq<nat>,
    auctionManager: Account,
    config: Config)

  // ---------- The TCash token ----------

  function Minted(k: Coin, account: Account, amount: nat): Coin {
    k.(supply := k.supply + amount, balance := k.balance[account := Get(k.balance, account) + amount])
  }

  function Burnt(k: Coin, account: Address, amount: nat): Option<Coin> {
    if Get(k.balance, account) < amount || k.supply < amount then None
    else Some(k.(supply := k.supply - amount, balance := k.balance[account := Get(k.balance, account) - amount]))
  }

  /** burnFrom refuses to burn nothing; locked TCash is burnt like any other. */
  function BurnFrom(k: Coin, account: Address, amount: nat): Option<Coin> {
    if amount == 0 then None else Burnt(k, account, amount)
  }

  function Transfer(k: Coin, sender: Account, receiver: Account, amount: nat): Option<Coin> {
    if Get(k.balance, sender) < Get(k.locked, sender)
       || amount > Get(k.balance, sender) - Get(k.locked, sender) then None
    else
      var paid := k.balance[sender := Get(k.balance, sender) - amount];
      Some(k.(balance := paid[receiver := Get(paid, receiver) + amount]))
  }

  /** A bid locks TCash; what earlier bids have locked is not set aside. */
  function BidCost(k: Coin, user: Address, amount: nat): Option<Coin> {
    if Get(k.balance, user) < amount then None
    else Some(k.(locked := k.locked[user := Get(k.locked, user) + amount]))
  }

  function BidBack(k: Coin, user: Address, amount: nat): Option<Coin> {
    if Get(k.locked, user) < amount then None
    else Some(k.(locked := k.locked[user := Get(k.locked, user) - amount]))
  }

  // ---------- Risk factors ----------

  const SRF_TABLE: seq<nat> := [
    10000, 9000, 7000, 5000, 3000,
    9000, 8000, 7000, 4000, 2000,
    8000, 7000, 6000, 3000, 1000,
    5000, 4000, 3000, 2000, 1000,
    2000, 1000, 1000, 1000, 1000]

  function LoanRatioRow(ratio: nat): nat {
    if ratio < 6000 then 0 else if ratio < 7000 then 1 else if ratio < 8000 then 2 else if ratio < 9000 then 3 else 4
  }

  function RepayRateColumn(rate: nat): nat {
    if rate > 3000 then 0 else if rate > 2000 then 1 else if rate > 1000 then 2 else if rate > 500 then 3 else 4
  }

  function LoanRatio(olb: nat, supply: nat): nat
    requires supply > 0
  {
    olb * BASIS / supply
  }

  /** The system risk factor for given outstanding balance, repaid amount, total lent and supply. */
  function Rating(olb: nat, ra: nat, tld: nat, supply: nat): nat {
    if supply == 0 || tld == 0 then BASIS
    else SRF_TABLE[LoanRatioRow(LoanRatio(olb, supply)) * 5 + RepayRateColumn(LoanRatio(ra, tld))]
  }

  function RatingNow(s: State): nat { Rating(s.books.olb, s.books.ra, s.books.tld, s.coin.supply) }

  /** The risk factor is recomputed at most once a day, and not kept while there is nothing to rate. */
  function Rate(s: State, now: nat): State {
    if now < s.books.srfTime + DAY || s.coin.supply == 0 || s.books.tld == 0 then s
    else s.(books := s.books.(srf := RatingNow(s), srfTime := now))
  }

  function LoansOf(r: Records, u: Address): seq<nat> {
    if u in r.userLoans then r.userLoans[u] else []
  }

  function Total(amounts: seq<nat>): nat {
    if amounts == [] then 0 else Total(amounts[..|amounts| - 1]) + amounts[|amounts| - 1]
  }

  /** The personal credit limit: a third of the recorded TAT, times three, or twelve from the third loan on. */
  function CreditLimit(r: Records, u: Address, tat: seq<nat>): nat {
    if |tat| < 2 then 0 else Total(tat) / 3 * if |LoansOf(r, u)| <= 2 then 3 else 12
  }

  function Available(r: Records, u: Address, tat: seq<nat>): nat {
    var limit := CreditLimit(r, u, tat);
    if limit > Get(r.borrowed, u) then limit - Get(r.borrowed, u) else 0
  }

  function OccupancyCoefficient(rate: nat): nat {
    if rate <= 8500 then 10000 else if rate <= 9500 then 8000 else 6000
  }

  function RepaymentCoefficient(ncl: nat, tnl: nat): nat
    requires tnl > 0
  {
    var ratio := LoanRatio(ncl, tnl);
    if ncl == 0 then 2000 else if ratio <= 3000 then 4000 else if ratio <= 6000 then 5000
    else if ratio <= 8000 then 8000 else 10000
  }

  /** The personal risk factor; None where more loans count as cleared than were taken. */
  function Prf(r: Records, u: Address, tat: seq<nat>): Option<nat> {
    var taken, cleared, limit := Get(r.tnl, u), Get(r.ncl, u), CreditLimit(r, u, tat);
    if taken == 0 then Some(BASIS)
    else if taken < cleared then None
    else if taken - cleared <= 2 || limit == 0 then Some(BASIS)
    else Some(OccupancyCoefficient(LoanRatio(Get(r.tla, u), limit)) * RepaymentCoefficient(cleared, taken) / BASIS)
  }

  function Crf(s: State, u: Address, tat: seq<nat>): Option<nat> {
    var prf := Prf(s.records, u, tat);
    if prf.None? then None else Some(prf.value * s.books.srf / BASIS)
  }

  // ---------- Loans ----------

  function Quote(value: nat, c: Context, crf: nat): nat
    requires c.tcashPrice > 0
  {
    value * c.unitPrice * crf / (BASIS * c.tcashPrice)
  }

  /** What a borrower gets for a collateral: by risk factor and prices, within the limit, at least the minimum. */
  function LoanAmount(s: State, c: Context, value: nat): Option<nat> {
    var crf := Crf(s, c.sender, c.tat);
    if c.unitPrice == 0 || c.tcashPrice == 0 || crf.None? || crf.value == 0 then None
    else if CreditLimit(s.records, c.sender, c.tat) == 0 then None
    else
      var quote := Quote(value, c, crf.value);
      var available := Available(s.records, c.sender, c.tat);
      var within := if quote > available then available else quote;
      Some(if within < MIN_LOAN then MIN_LOAN else within)
  }

  function InterestOn(amount: nat, c: Context): nat { amount * c.config.dailyRate / BASIS }

  function Recorded(s: State, now: nat, c: Context, account: Account, amount: nat, collateral: nat): State {
    var interest := InterestOn(amount, c);
    var total := amount + interest;
    var r, b := s.records, s.books;
    s.(
    loans := s.loans + [Loan(account, collateral, total, c.unitPrice, c.tcashPrice, now, interest, 1, Running)],
    records := r.(
      userLoans := r.userLoans[account := LoansOf(r, account) + [|s.loans|]],
      borrowed := r.borrowed[account := Get(r.borrowed, account) + total],
      tnl := r.tnl[account := Get(r.tnl, account) + 1],
      tla := r.tla[account := Get(r.tla, account) + total]),
    books := b.(olb := b.olb + total, tld := b.tld + total))
  }

  function CreateLoan(s: State, now: nat, c: Context, value: nat): Option<State> {
    if !c.mintOpen || value == 0 || Available(s.records, c.sender, c.tat) == 0 then None
    else
      var amount := LoanAmount(s, c, value);
      if amount.None? then None
      else
        var s' := Recorded(s, now, c, c.sender, amount.value, value);
        Some(s'.(
          books := s'.books.(unitBalance := s'.books.unitBalance + value),
          coin := Minted(s.coin, c.sender, amount.value)))
  }

  /** The foundation books a loan that was made elsewhere; no TCash is minted and no UNIT arrives. */
  function SetRecord(s: State, now: nat, c: Context, account: Account, amount: nat, collateral: nat): Option<State> {
    if !c.foundation || amount == 0 || collateral == 0 then None
    else Some(Recorded(s, now, c, account, amount, collateral))
  }

  function UnitToRelease(loan: Loan, amount: nat): nat
    requires loan.total > 0
  {
    amount * loan.collateral / loan.total
  }

  /** A loan after a repayment, which pays the interest first and releases collateral pro rata. */
  function RepaidLoan(loan: Loan, amount: nat, unit: nat, c: Context): Loan
    requires amount <= loan.total && unit <= loan.collateral
  {
    loan.(
    unitPrice := c.unitPrice,
    tcashPrice := c.tcashPrice,
    interest := if amount <= loan.interest then loan.interest - amount else 0,
    total := loan.total - amount,
    collateral := loan.collateral - unit,
    status := if amount == loan.total then Cleared else loan.status)
  }

  function RepaidRecords(r: Records, u: Account, amount: nat, cleared: bool): Records
    requires amount <= Get(r.borrowed, u)
  {
    r.(borrowed := r.borrowed[u := Get(r.borrowed, u) - amount],
       tra := r.tra[u := Get(r.tra, u) + amount],
       ncl := if cleared then r.ncl[u := Get(r.ncl, u) + 1] else r.ncl)
  }

  function Repay(s: State, c: Context, id: nat, amount: nat): Option<State> {
    if id >= |s.loans| || s.loans[id].account != c.sender || amount == 0 || amount > s.loans[id].total then None
    else
      var loan, b := s.loans[id], s.books;
      var unit, coin := UnitToRelease(loan, amount), BurnFrom(s.coin, c.sender, amount);
      if coin.None? || loan.collateral < unit || Get(s.records.borrowed, c.sender) < amount
         || b.olb < amount || b.unitBalance < unit then None
      else Some(s.(
          loans := s.loans[id := RepaidLoan(loan, amount, unit, c)],
          records := RepaidRecords(s.records, c.sender, amount, amount == loan.total),
          books := b.(olb := b.olb - amount, ra := b.ra + amount, unitBalance := b.unitBalance - unit),
          coin := coin.value))
  }

  /** Collateral value over debt value in millionths; None where the debt is worth nothing. */
  function CollateralRatio(loan: Loan): Option<nat> {
    if loan.total * loan.tcashPrice == 0 then None
    else Some(loan.collateral * loan.unitPrice * RATIO_SCALE / (loan.total * loan.tcashPrice))
  }

  function TopUp(s: State, c: Context, id: nat, value: nat): Option<State> {
    if id >= |s.loans| || s.loans[id].account != c.sender || value == 0 then None
    else
      var loan := s.loans[id].(
                  unitPrice := c.unitPrice, tcashPrice := c.tcashPrice,
                  collateral := s.loans[id].collateral + value);
      var ratio := CollateralRatio(loan);
      if ratio.None? then None
      else
        var status := if ratio.value >= c.config.warning then Running
                      else if ratio.value <= c.config.liquidation then Liquidated else Warned;
        Some(s.(
          loans := s.loans[id := loan.(status := status)],
          books := s.books.(unitBalance := s.books.unitBalance + value)))
  }

  function AccruedLoan(loan: Loan, c: Context): Loan {
    loan.(
    unitPrice := c.unitPrice,
    tcashPrice := c.tcashPrice,
    interest := loan.interest + InterestOn(loan.total, c),
    total := loan.total + InterestOn(loan.total, c),
    cycles := loan.cycles + 1)
  }

  function Classified(loan: Loan, ratio: nat, config: Config): Status {
    if loan.cycles >= config.cycle || ratio <= config.liquidation then Liquidated
    else if ratio <= config.warning then Warned
    else loan.status
  }

  function LotFor(s: State, now: nat, loan: Loan): Lot {
    Lot(loan.collateral, loan.total, loan.total, now + s.house.duration, false, loan.interest, 0, map[])
  }

  function Listed(s: State, now: nat, loan: Loan): House {
    s.house.(lots := s.house.lots + [LotFor(s, now, loan)])
  }

  /** A closed loan's amount leaves the borrower's totals. */
  function ClosedRecords(r: Records, u: Account, total: nat): Option<Records> {
    if Get(r.tla, u) < total || Get(r.borrowed, u) < total then None
    else Some(r.(tla := r.tla[u := Get(r.tla, u) - total],
                 borrowed := r.borrowed[u := Get(r.borrowed, u) - total]))
  }

  /** One interest period of a loan, which may close it and put its collateral up for auction. */
  function Accrue(s: State, now: nat, c: Context, id: nat): Option<State> {
    if !c.foundation || id >= |s.loans| || s.loans[id].status.Cleared? || s.loans[id].status.Liquidated? then None
    else
      var interest, loan, b, r := InterestOn(s.loans[id].total, c), AccruedLoan(s.loans[id], c), s.books, s.records;
      var u, ratio := loan.account, CollateralRatio(loan);
      if ratio.None? then None
      else
        var done := loan.(status := Classified(loan, ratio.value, c.config));
        var grown := r.(
                       borrowed := r.borrowed[u := Get(r.borrowed, u) + interest],
                       tla := r.tla[u := Get(r.tla, u) + interest]);
        var closed := if done.status.Liquidated? then ClosedRecords(grown, u, done.total) else Some(grown);
        if closed.None? then None
        else Some(s.(
            loans := s.loans[id := done],
            records := closed.value,
            books := b.(olb := b.olb + interest, tld := b.tld + interest),
            house := if done.status.Liquidated? then Listed(s, now, done) else s.house))
  }

  /** The foundation puts a loan up for auction; the loan itself keeps its amounts and status. */
  function StartLiquidation(s: State, now: nat, c: Context, id: nat): Option<State> {
    if !c.foundation || id >= |s.loans| || s.loans[id].status.Cleared? then None
    else
      var loan := s.loans[id].(unitPrice := c.unitPrice, tcashPrice := c.tcashPrice);
      Some(s.(loans := s.loans[id := loan], house := Listed(s, now, loan)))
  }

  function SetStatus(s: State, c: Context, id: nat, status: Status): Option<State> {
    if !c.foundation then None
    else if id >= |s.loans| then Some(s)
    else Some(s.(loans := s.loans[id := s.loans[id].(status := status)]))
  }

  // ---------- Auctions ----------

  function Bid(s: State, now: nat, c: Context, n: nat, amount: nat): Option<State> {
    if n >= |s.house.lots| || s.house.lots[n].timeOver <= now then None
    else
      var lot := s.house.lots[n];
      var value, coin := Get(lot.bids, c.sender) + amount, BidCost(s.coin, c.sender, amount);
      if value <= lot.nowValue || coin.None? then None
      else Some(s.(
          house := s.house.(lots := s.house.lots[n :=
            lot.(bider := c.sender, nowValue := value, bids := lot.bids[c.sender := value])]),
          coin := coin.value))
  }

  function WithdrawBid(s: State, c: Context, n: nat): Option<State> {
    if n >= |s.house.lots| || s.house.lots[n].bider == c.sender || Get(s.house.lots[n].bids, c.sender) == 0 then None
    else
      var lot := s.house.lots[n];
      var coin := BidBack(s.coin, c.sender, Get(lot.bids, c.sender));
      if coin.None? then None
      else Some(s.(
          house := s.house.(lots := s.house.lots[n := lot.(bids := lot.bids[c.sender := 0])]),
          coin := coin.value))
  }

  predicate MaySettle(s: State, now: nat, c: Context, n: nat) {
    && n < |s.house.lots|
    && !s.house.lots[n].settled
    && s.house.lots[n].timeOver < now
    && s.house.lots[n].bider == c.sender
  }

  /** The winner takes the collateral; the start value counts as repaid and the manager's TCash is burnt. */
  function Settle(s: State, now: nat, c: Context, n: nat): Option<State> {
    if !MaySettle(s, now, c, n) then None
    else
      var lot, b := s.house.lots[n], s.books;
      var coin := BurnFrom(s.coin, c.auctionManager, lot.startValue);
      if lot.startValue < lot.debt || b.unitBalance < lot.sales || b.olb < lot.startValue || coin.None? then None
      else Some(s.(
          books := b.(
            olb := b.olb - lot.startValue,
            ra := b.ra + lot.startValue,
            unitBalance := b.unitBalance - lot.sales),
          house := s.house.(lots := s.house.lots[n := lot.(settled := true)]),
          coin := coin.value))
  }

  function RelistLot(lot: Lot, now: nat, duration: nat): Lot {
    if lot.timeOver < now && lot.bider == 0 then lot.(timeOver := now + duration) else lot
  }

  function Relist(s: State, now: nat, c: Context): Option<State> {
    if !c.foundation then None
    else Some(s.(house := s.house.(lots :=
        seq(|s.house.lots|, i requires 0 <= i < |s.house.lots| => RelistLot(s.house.lots[i], now, s.house.duration)))))
  }

  function SetDuration(s: State, c: Context, duration: nat): Option<State> {
    if !c.foundation || duration == 0 || duration > MAX_DURATION then None
    else Some(s.(house := s.house.(duration := duration)))
  }

  // ---------- Runs ----------

  datatype Op =
    | OCreate(value: nat)
    | ORecord(account: Account, amount: nat, collateral: nat)
    | ORepay(id: nat, amount: nat)
    | OTopUp(id: nat, value: nat)
    | OAccrue(id: nat)
    | OLiquidate(id: nat)
    | OSetStatus(id: nat, status: Status)
    | ORate
    | OBid(n: nat, amount: nat)
    | OWithdrawBid(n: nat)
    | OSettle(n: nat)
    | ORelist
    | OSetDuration(duration: nat)
    | OMint(receiver: Account, amount: nat)
    | OBurn(holder: Account, amount: nat)
    | OTransfer(holder: Account, receiver: Account, amount: nat)

  datatype Call = Call(wait: nat, context: Context, op: Op)

  datatype System = System(now: nat, state: State)

  function WithCoin(s: State, coin: Option<Coin>): Option<State> {
    if coin.None? then None else Some(s.(coin := coin.value))
  }

  function Apply(s: State, now: nat, c: Context, op: Op): Option<State> {
    match op
    case OCreate(value) => CreateLoan(s, now, c, value)
    case ORecord(account, amount, collateral) => SetRecord(s, now, c, account, amount, collateral)
    case ORepay(id, amount) => Repay(s, c, id, amount)
    case OTopUp(id, value) => TopUp(s, c, id, value)
    case OAccrue(id) => Accrue(s, now, c, id)
    case OLiquidate(id) => StartLiquidation(s, now, c, id)
    case OSetStatus(id, status) => SetStatus(s, c, id, status)
    case ORate => Some(Rate(s, now))
    case OBid(n, amount) => Bid(s, now, c, n, amount)
    case OWithdrawBid(n) => WithdrawBid(s, c, n)
    case OSettle(n) => Settle(s, now, c, n)
    case ORelist => Relist(s, now, c)
    case OSetDuration(duration) => SetDuration(s, c, duration)
    case OMint(receiver, amount) => WithCoin(s, Some(Minted(s.coin, receiver, amount)))
    case OBurn(holder, amount) => WithCoin(s, Burnt(s.coin, holder, amount))
    case OTransfer(holder, receiver, amount) => WithCoin(s, Transfer(s.coin, holder, receiver, amount))
  }

  function Outcome(s: System, call: Call): Option<State> {
    Apply(s.state, s.now + call.wait, call.context, call.op)
  }

  function Step(s: System, call: Call): System {
    System(s.now + call.wait, if Outcome(s, call).None? then s.state else Outcome(s, call).value)
  }

  function Run(s: System, calls: seq<Call>): System {
    if calls == [] then s else Step(Run(s, calls[..|calls| - 1]), calls[|calls| - 1])
  }

  /** Freshly deployed contracts around a TCash token that nothing is locked in yet. */
  ghost predicate Initial(s: System) {
    && s.state.loans == []
    && s.state.records == Records(map[], map[], map[], map[], map[], map[])
    && s.state.books == Books(0, 0, 0, BASIS, 0, 0)
    && s.state.house.lots == []
    && s.state.coin.locked == map[]
    && s.state.coin.supply == SumMap(s.state.coin.balance)
  }
}
