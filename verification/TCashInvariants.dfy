/** What every transaction of the TCash system keeps. */
module TCashInvariants {
  import opened Prelude
  import opened TCashModel

  // ---------- Measures ----------

  function Debt(loan: Loan): nat { loan.total }

  function SettledValue(lot: Lot): nat { if lot.settled then lot.startValue else 0 }

  function OwnedBy(u: Address): Loan -> nat { (loan: Loan) => if loan.account == u then 1 else 0 }

  function ClearedBy(u: Address): Loan -> nat { (loan: Loan) => if loan.account == u && loan.total == 0 then 1 else 0 }

  function BidBy(u: Address): Lot -> nat { (lot: Lot) => Get(lot.bids, u) }

  // ---------- The invariant, part by part ----------

  ghost predicate LoansOk(s: State) {
    && (forall i :: 0 <= i < |s.loans| ==> s.loans[i].interest <= s.loans[i].total)
    && 1000 <= s.books.srf <= BASIS
  }

  /** The borrower's counters count: loans taken, and loans with nothing left to pay. */
  ghost predicate CountersOk(loans: seq<Loan>, r: Records) {
    forall u: Address ::
      && Get(r.tnl, u) == SumOf(loans, OwnedBy(u)) == |LoansOf(r, u)|
      && Get(r.ncl, u) == SumOf(loans, ClearedBy(u))
  }

  /**
   The system's books: outstanding and repaid make up all that was lent; outstanding is what the
   loans owe less what settled auctions have paid; repaid is what borrowers and auctions have paid.
   */
  ghost predicate BooksOk(s: State) {
    && s.books.olb + s.books.ra == s.books.tld
    && s.books.olb + SumOf(s.house.lots, SettledValue) == SumOf(s.loans, Debt)
    && s.books.ra == SumMap(s.records.tra) + SumOf(s.house.lots, SettledValue)
  }

  /** The leader's bid is the price, all other bids are below it, and a settled lot is past its end. */
  ghost predicate LotOk(lot: Lot, now: nat) {
    && lot.debt <= lot.startValue <= lot.nowValue
    && (forall u: Address :: Get(lot.bids, u) <= lot.nowValue)
    && (forall u: Address :: u != lot.bider ==> Get(lot.bids, u) == 0 || Get(lot.bids, u) < lot.nowValue)
    && (lot.bider == 0 ==> lot.nowValue == lot.startValue && !lot.settled && forall u: Address :: Get(lot.bids, u) == 0)
    && (lot.bider != 0 ==> Get(lot.bids, lot.bider) == lot.nowValue > lot.startValue)
    && (lot.settled ==> lot.timeOver < now)
  }

  ghost predicate LotsOk(lots: seq<Lot>, now: nat) {
    forall n :: 0 <= n < |lots| ==> LotOk(lots[n], now)
  }

  /** A bidder's locked TCash is exactly what the recorded bids say. */
  ghost predicate LocksOk(lots: seq<Lot>, k: Coin) {
    forall u: Address :: Get(k.locked, u) == SumOf(lots, BidBy(u))
  }

  ghost predicate CoinOk(k: Coin) { k.supply == SumMap(k.balance) }

  ghost predicate Inv(s: State, now: nat) {
    && LoansOk(s) && CountersOk(s.loans, s.records) && BooksOk(s)
    && LotsOk(s.house.lots, now) && LocksOk(s.house.lots, s.coin) && CoinOk(s.coin)
  }

  // ---------- The token ----------

  lemma MintKeeps(k: Coin, account: Address, amount: nat)
    requires CoinOk(k)
    ensures CoinOk(k.(supply := k.supply + amount, balance := k.balance[account := Get(k.balance, account) + amount]))
  {
    SumMapUpdate(k.balance, account, Get(k.balance, account) + amount);
  }

  /** The supply always covers a balance, so burning never underflows it. */
  lemma BurnKeeps(k: Coin, account: Address, amount: nat)
    requires CoinOk(k)
    ensures Burnt(k, account, amount).Some? <==> amount <= Get(k.balance, account)
    ensures Burnt(k, account, amount).Some? ==> CoinOk(Burnt(k, account, amount).value)
  {
    SumMapCoversTwo(k.balance, account, account + 1);
    if amount <= Get(k.balance, account) {
      SumMapUpdate(k.balance, account, Get(k.balance, account) - amount);
    }
  }

  lemma TransferKeeps(k: Coin, sender: Account, receiver: Account, amount: nat)
    requires CoinOk(k) && Transfer(k, sender, receiver, amount).Some?
    ensures CoinOk(Transfer(k, sender, receiver, amount).value)
  {
    SumMapUpdate(k.balance, sender, Get(k.balance, sender) - amount);
    var paid := k.balance[sender := Get(k.balance, sender) - amount];
    SumMapUpdate(paid, receiver, Get(paid, receiver) + amount);
  }

  // ---------- Counters and sums under one change ----------

  /** Changing a loan, but not its owner nor whether it is paid off, moves no counter. */
  lemma CountersStay(loans: seq<Loan>, id: nat, loan: Loan, r: Records, r': Records)
    requires CountersOk(loans, r) && id < |loans|
    requires loan.account == loans[id].account && (loan.total == 0 <==> loans[id].total == 0)
    requires r'.userLoans == r.userLoans && r'.tnl == r.tnl && r'.ncl == r.ncl
    ensures CountersOk(loans[id := loan], r')
  {
    forall u: Address ensures SumOf(loans[id := loan], OwnedBy(u)) == SumOf(loans, OwnedBy(u))
      && SumOf(loans[id := loan], ClearedBy(u)) == SumOf(loans, ClearedBy(u)) && LoansOf(r', u) == LoansOf(r, u)
    {
      SumUpdate(loans, id, loan, OwnedBy(u));
      SumUpdate(loans, id, loan, ClearedBy(u));
    }
  }

  /** Paying a loan off raises the owner's count of cleared loans by one. */
  lemma CountersClear(loans: seq<Loan>, id: nat, loan: Loan, r: Records, r': Records)
    requires CountersOk(loans, r) && id < |loans|
    requires loan.account == loans[id].account && loan.total == 0 < loans[id].total
    requires r'.userLoans == r.userLoans && r'.tnl == r.tnl
    requires r'.ncl == r.ncl[loan.account := Get(r.ncl, loan.account) + 1]
    ensures CountersOk(loans[id := loan], r')
  {
    forall u: Address ensures SumOf(loans[id := loan], OwnedBy(u)) == SumOf(loans, OwnedBy(u))
      && SumOf(loans[id := loan], ClearedBy(u)) == Get(r'.ncl, u) && LoansOf(r', u) == LoansOf(r, u)
    {
      SumUpdate(loans, id, loan, OwnedBy(u));
      SumUpdate(loans, id, loan, ClearedBy(u));
    }
  }

  lemma CountersGrow(loans: seq<Loan>, loan: Loan, r: Records, r': Records)
    requires CountersOk(loans, r) && loan.total > 0
    requires r'.ncl == r.ncl && r'.tnl == r.tnl[loan.account := Get(r.tnl, loan.account) + 1]
    requires r'.userLoans == r.userLoans[loan.account := LoansOf(r, loan.account) + [|loans|]]
    ensures CountersOk(loans + [loan], r')
  {
    forall u: Address ensures Get(r'.tnl, u) == SumOf(loans + [loan], OwnedBy(u)) == |LoansOf(r', u)|
      && SumOf(loans + [loan], ClearedBy(u)) == SumOf(loans, ClearedBy(u))
    {
      SumAppend(loans, loan, OwnedBy(u));
      SumAppend(loans, loan, ClearedBy(u));
      assert u != loan.account ==> LoansOf(r', u) == LoansOf(r, u);
    }
  }

  // ---------- Loans ----------

  lemma RecordKeeps(s: State, now: nat, c: Context, account: Account, amount: nat, collateral: nat)
    requires Inv(s, now) && amount > 0
    ensures Inv(Recorded(s, now, c, account, amount, collateral), now)
  {
    hide InterestOn, CoinOk, LotsOk, LocksOk, CountersOk;
    var s' := Recorded(s, now, c, account, amount, collateral);
    var loan := s'.loans[|s.loans|];
    CountersGrow(s.loans, loan, s.records, s'.records);
    SumAppend(s.loans, loan, Debt);
  }

  lemma CreateKeeps(s: State, now: nat, c: Context, value: nat)
    requires Inv(s, now) && CreateLoan(s, now, c, value).Some?
    ensures Inv(CreateLoan(s, now, c, value).value, now)
  {
    hide LotsOk, CountersOk, Recorded, LocksOk, Quote, Crf, CreditLimit, Available;
    var amount := LoanAmount(s, c, value).value;
    assert amount > 0;
    hide LoanAmount;
    RecordKeeps(s, now, c, c.sender, amount, value);
    RecordedElsewhere(s, now, c, c.sender, amount, value);
    MintKeeps(s.coin, c.sender, amount);
    hide CoinOk;
    assert LocksOk(s.house.lots, Minted(s.coin, c.sender, amount)) by {
      MintLocks(s.house.lots, s.coin, c.sender, amount);
    }
  }

  lemma RecordedElsewhere(s: State, now: nat, c: Context, account: Account, amount: nat, collateral: nat)
    ensures var s' := Recorded(s, now, c, account, amount, collateral); s'.house == s.house && s'.coin == s.coin
  {}

  lemma MintLocks(lots: seq<Lot>, k: Coin, account: Account, amount: nat)
    requires LocksOk(lots, k)
    ensures LocksOk(lots, Minted(k, account, amount))
  {}

  lemma UnitWithin(loan: Loan, amount: nat)
    requires amount <= loan.total && loan.total > 0
    ensures UnitToRelease(loan, amount) <= loan.collateral
  {
    var unit := UnitToRelease(loan, amount);
    DivisionBound(amount * loan.collateral, loan.total, unit);
    MultiplyMonotone(amount, loan.total, loan.collateral);
    MultiplyCancel(unit, loan.collateral, loan.total);
  }

  lemma RepayKeeps(s: State, now: nat, c: Context, id: nat, amount: nat)
    requires Inv(s, now) && Repay(s, c, id, amount).Some?
    ensures Inv(Repay(s, c, id, amount).value, now)
  {
    hide UnitToRelease, LotsOk, CountersOk;
    var s' := Repay(s, c, id, amount).value;
    var loan, loan' := s.loans[id], s'.loans[id];
    if amount == loan.total {
      CountersClear(s.loans, id, loan', s.records, s'.records);
    } else {
      CountersStay(s.loans, id, loan', s.records, s'.records);
    }
    SumUpdate(s.loans, id, loan', Debt);
    SumMapUpdate(s.records.tra, c.sender, Get(s.records.tra, c.sender) + amount);
    BurnKeeps(s.coin, c.sender, amount);
  }

  lemma TopUpKeeps(s: State, now: nat, c: Context, id: nat, value: nat)
    requires Inv(s, now) && TopUp(s, c, id, value).Some?
    ensures Inv(TopUp(s, c, id, value).value, now)
  {
    hide CollateralRatio, LotsOk, LocksOk, CountersOk, CoinOk;
    var s' := TopUp(s, c, id, value).value;
    CountersStay(s.loans, id, s'.loans[id], s.records, s'.records);
    SumUpdate(s.loans, id, s'.loans[id], Debt);
  }

  lemma SetStatusKeeps(s: State, now: nat, c: Context, id: nat, status: Status)
    requires Inv(s, now) && SetStatus(s, c, id, status).Some?
    ensures Inv(SetStatus(s, c, id, status).value, now)
  {
    hide LotsOk, LocksOk, CountersOk, CoinOk;
    if id < |s.loans| {
      var s' := SetStatus(s, c, id, status).value;
      CountersStay(s.loans, id, s'.loans[id], s.records, s'.records);
      SumUpdate(s.loans, id, s'.loans[id], Debt);
    }
  }

  /** A fresh lot has no bids, is not settled, and starts at the whole debt. */
  lemma ListedKeeps(s: State, now: nat, loan: Loan)
    requires LotsOk(s.house.lots, now) && LocksOk(s.house.lots, s.coin) && loan.interest <= loan.total
    ensures LotsOk(Listed(s, now, loan).lots, now) && LocksOk(Listed(s, now, loan).lots, s.coin)
    ensures SumOf(Listed(s, now, loan).lots, SettledValue) == SumOf(s.house.lots, SettledValue)
  {
    var lot := LotFor(s, now, loan);
    SumAppend(s.house.lots, lot, SettledValue);
    forall u: Address ensures SumOf(s.house.lots + [lot], BidBy(u)) == SumOf(s.house.lots, BidBy(u)) {
      SumAppend(s.house.lots, lot, BidBy(u));
    }
  }

  lemma AccrueKeeps(s: State, now: nat, c: Context, id: nat)
    requires Inv(s, now) && Accrue(s, now, c, id).Some?
    ensures Inv(Accrue(s, now, c, id).value, now)
  {
    hide InterestOn, LotsOk, LocksOk, CountersOk, CoinOk, Listed;
    var s' := Accrue(s, now, c, id).value;
    var loan, loan' := s.loans[id], s'.loans[id];
    assert loan.total == 0 ==> loan'.total == 0 by { InterestOnNothing(c); }
    CountersStay(s.loans, id, loan', s.records, s'.records);
    SumUpdate(s.loans, id, loan', Debt);
    ListedKeeps(s, now, loan');
  }

  lemma InterestOnNothing(c: Context)
    ensures InterestOn(0, c) == 0
  {}

  lemma StartLiquidationKeeps(s: State, now: nat, c: Context, id: nat)
    requires Inv(s, now) && StartLiquidation(s, now, c, id).Some?
    ensures Inv(StartLiquidation(s, now, c, id).value, now)
  {
    hide LotsOk, LocksOk, CountersOk, CoinOk, Listed;
    var s' := StartLiquidation(s, now, c, id).value;
    CountersStay(s.loans, id, s'.loans[id], s.records, s'.records);
    SumUpdate(s.loans, id, s'.loans[id], Debt);
    ListedKeeps(s, now, s'.loans[id]);
  }

  lemma RateKeeps(s: State, now: nat)
    requires Inv(s, now)
    ensures Inv(Rate(s, now), now)
  {
    hide LotsOk, LocksOk, CountersOk, CoinOk;
    RatingBounds(s.books.olb, s.books.ra, s.books.tld, s.coin.supply);
    hide Rating;
  }

  lemma RatingBounds(olb: nat, ra: nat, tld: nat, supply: nat)
    ensures 1000 <= Rating(olb, ra, tld, supply) <= BASIS
  {
    hide LoanRatio;
  }

  // ---------- Auctions ----------

  /** A lot that was and stays unsettled, or whose bids alone change, moves only the bidder's lock. */
  lemma LocksMove(lots: seq<Lot>, n: nat, lot: Lot, k: Coin, k': Coin, u: Address)
    requires n < |lots| && LocksOk(lots, k)
    requires lot.bids == lots[n].bids[u := Get(lot.bids, u)]
    requires Get(k.locked, u) + Get(lot.bids, u) >= Get(lots[n].bids, u)
    requires k'.locked == k.locked[u := Get(k.locked, u) + Get(lot.bids, u) - Get(lots[n].bids, u)]
    ensures LocksOk(lots[n := lot], k')
  {
    forall v: Address ensures Get(k'.locked, v) == SumOf(lots[n := lot], BidBy(v)) {
      SumUpdate(lots, n, lot, BidBy(v));
      assert v != u ==> Get(lot.bids, v) == Get(lots[n].bids, v);
    }
  }

  lemma BidLot(lot: Lot, now: nat, u: Account, value: nat)
    requires LotOk(lot, now) && now < lot.timeOver && lot.nowValue < value
    ensures LotOk(lot.(bider := u, nowValue := value, bids := lot.bids[u := value]), now)
  {
    var bids := lot.bids[u := value];
    forall v: Address ensures Get(bids, v) == if v == u then value else Get(lot.bids, v) {}
  }

  lemma WithdrawnLot(lot: Lot, now: nat, u: Account)
    requires LotOk(lot, now) && u != lot.bider
    ensures LotOk(lot.(bids := lot.bids[u := 0]), now)
  {
    var bids := lot.bids[u := 0];
    forall v: Address ensures Get(bids, v) == if v == u then 0 else Get(lot.bids, v) {}
  }

  lemma BidKeeps(s: State, now: nat, c: Context, n: nat, amount: nat)
    requires Inv(s, now) && Bid(s, now, c, n, amount).Some?
    ensures Inv(Bid(s, now, c, n, amount).value, now)
  {
    hide LocksOk, CountersOk;
    var s' := Bid(s, now, c, n, amount).value;
    var lot, lot' := s.house.lots[n], s'.house.lots[n];
    assert LotOk(lot, now);
    BidLot(lot, now, c.sender, Get(lot.bids, c.sender) + amount);
    hide LotOk;
    LocksMove(s.house.lots, n, lot', s.coin, s'.coin, c.sender);
    SumUpdate(s.house.lots, n, lot', SettledValue);
  }

  lemma WithdrawKeeps(s: State, now: nat, c: Context, n: nat)
    requires Inv(s, now) && WithdrawBid(s, c, n).Some?
    ensures Inv(WithdrawBid(s, c, n).value, now)
  {
    hide LocksOk, CountersOk;
    var s' := WithdrawBid(s, c, n).value;
    var lot, lot' := s.house.lots[n], s'.house.lots[n];
    assert LotOk(lot, now);
    WithdrawnLot(lot, now, c.sender);
    hide LotOk;
    LocksMove(s.house.lots, n, lot', s.coin, s'.coin, c.sender);
    SumUpdate(s.house.lots, n, lot', SettledValue);
  }

  lemma SettleKeeps(s: State, now: nat, c: Context, n: nat)
    requires Inv(s, now) && Settle(s, now, c, n).Some?
    ensures Inv(Settle(s, now, c, n).value, now)
  {
    hide LocksOk, CountersOk;
    var s' := Settle(s, now, c, n).value;
    var lot, lot' := s.house.lots[n], s'.house.lots[n];
    assert LotOk(lot, now);
    LocksSame(lot', s, s', n);
    SumUpdate(s.house.lots, n, lot', SettledValue);
    BurnKeeps(s.coin, c.auctionManager, lot.startValue);
  }

  lemma LocksSame(lot: Lot, s: State, s': State, n: nat)
    requires n < |s.house.lots| && LocksOk(s.house.lots, s.coin)
    requires lot.bids == s.house.lots[n].bids && s'.house.lots == s.house.lots[n := lot]
    requires s'.coin.locked == s.coin.locked
    ensures LocksOk(s'.house.lots, s'.coin)
  {
    forall u: Address ensures SumOf(s'.house.lots, BidBy(u)) == SumOf(s.house.lots, BidBy(u)) {
      SumUpdate(s.house.lots, n, lot, BidBy(u));
    }
  }

  lemma RelistKeeps(s: State, now: nat, c: Context)
    requires Inv(s, now) && Relist(s, now, c).Some?
    ensures Inv(Relist(s, now, c).value, now)
  {
    hide CountersOk, LotsOk, LocksOk, CoinOk;
    RelistedLots(s.house.lots, Relist(s, now, c).value.house.lots, now, s.house.duration, s.coin);
  }

  lemma RelistedLots(lots: seq<Lot>, lots': seq<Lot>, now: nat, duration: nat, k: Coin)
    requires LotsOk(lots, now) && LocksOk(lots, k) && |lots'| == |lots|
    requires forall n :: 0 <= n < |lots| ==> lots'[n] == RelistLot(lots[n], now, duration)
    ensures LotsOk(lots', now) && LocksOk(lots', k)
    ensures SumOf(lots', SettledValue) == SumOf(lots, SettledValue)
  {
    forall n | 0 <= n < |lots| ensures LotOk(lots'[n], now) {
      assert LotOk(lots[n], now);
    }
    hide LotOk;
    SumSame(lots', lots, SettledValue);
    forall u: Address ensures SumOf(lots', BidBy(u)) == SumOf(lots, BidBy(u)) {
      SumSame(lots', lots, BidBy(u));
    }
  }

  // ---------- Every transaction, every run ----------

  lemma InvLater(s: State, now: nat, later: nat)
    requires Inv(s, now) && now <= later
    ensures Inv(s, later)
  {
    forall n | 0 <= n < |s.house.lots| ensures LotOk(s.house.lots[n], later) {
      assert LotOk(s.house.lots[n], now);
    }
  }

  lemma TokenKeeps(s: State, now: nat, k: Coin)
    requires Inv(s, now) && k.locked == s.coin.locked && CoinOk(k)
    ensures Inv(s.(coin := k), now)
  {
    hide CountersOk, LotsOk;
  }

  lemma ApplyKeeps(s: State, now: nat, c: Context, op: Op)
    requires Inv(s, now) && Apply(s, now, c, op).Some?
    ensures Inv(Apply(s, now, c, op).value, now)
  {
    hide Inv, Recorded, CreateLoan, Repay, TopUp, Accrue, StartLiquidation, SetStatus, Rate;
    hide Bid, WithdrawBid, Settle, Relist;
    match op
    case OCreate(value) => CreateKeeps(s, now, c, value);
    case ORecord(account, amount, collateral) => RecordKeeps(s, now, c, account, amount, collateral);
    case ORepay(id, amount) => RepayKeeps(s, now, c, id, amount);
    case OTopUp(id, value) => TopUpKeeps(s, now, c, id, value);
    case OAccrue(id) => AccrueKeeps(s, now, c, id);
    case OLiquidate(id) => StartLiquidationKeeps(s, now, c, id);
    case OSetStatus(id, status) => SetStatusKeeps(s, now, c, id, status);
    case ORate => RateKeeps(s, now);
    case OBid(n, amount) => BidKeeps(s, now, c, n, amount);
    case OWithdrawBid(n) => WithdrawKeeps(s, now, c, n);
    case OSettle(n) => SettleKeeps(s, now, c, n);
    case ORelist => RelistKeeps(s, now, c);
    case OSetDuration(_) => DurationKeeps(s, now, s.house.(duration := Apply(s, now, c, op).value.house.duration));
    case OMint(receiver, amount) =>
      CoinOfInv(s, now);
      MintKeeps(s.coin, receiver, amount);
      TokenKeeps(s, now, Minted(s.coin, receiver, amount));
    case OBurn(holder, amount) =>
      CoinOfInv(s, now);
      BurnKeeps(s.coin, holder, amount);
      TokenKeeps(s, now, Burnt(s.coin, holder, amount).value);
    case OTransfer(holder, receiver, amount) =>
      CoinOfInv(s, now);
      TransferKeeps(s.coin, holder, receiver, amount);
      TokenKeeps(s, now, Transfer(s.coin, holder, receiver, amount).value);
  }

  lemma CoinOfInv(s: State, now: nat)
    requires Inv(s, now)
    ensures CoinOk(s.coin)
  {}

  lemma DurationKeeps(s: State, now: nat, house: House)
    requires Inv(s, now) && house.lots == s.house.lots
    ensures Inv(s.(house := house), now)
  {
    hide CountersOk, LotsOk, LocksOk;
  }

  lemma StepKeeps(s: System, call: Call)
    requires Inv(s.state, s.now)
    ensures Inv(Step(s, call).state, Step(s, call).now)
  {
    hide Inv, Apply;
    InvLater(s.state, s.now, s.now + call.wait);
    if Outcome(s, call).Some? {
      ApplyKeeps(s.state, s.now + call.wait, call.context, call.op);
    }
  }

  lemma {:induction false} RunKeeps(s: System, calls: seq<Call>)
    requires Inv(s.state, s.now)
    ensures Inv(Run(s, calls).state, Run(s, calls).now)
  {
    hide Inv, Step;
    if calls != [] {
      RunKeeps(s, calls[..|calls| - 1]);
      StepKeeps(Run(s, calls[..|calls| - 1]), calls[|calls| - 1]);
    }
  }

  lemma RunLast(s: System, calls: seq<Call>, call: Call)
    ensures Run(s, calls + [call]) == Step(Run(s, calls), call)
  {
    assert (calls + [call])[..|calls|] == calls;
  }

  lemma InitialInv(s: System)
    requires Initial(s)
    ensures Inv(s.state, s.now)
  {}

  /** Every part of the invariant holds after every run from deployment. */
  lemma {:induction false} Reachable(s: System, calls: seq<Call>)
    requires Initial(s)
    ensures Inv(Run(s, calls).state, Run(s, calls).now)
  {
    InitialInv(s);
    RunKeeps(s, calls);
  }
}
