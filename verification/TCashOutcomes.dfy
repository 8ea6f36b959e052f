/**
 What each TCash transaction gives, and when, in terms of the amounts before and after. Every rounded
 amount is a parameter that is pinned by two inequalities, so nothing here depends on how it is computed.
 */
module TCashOutcomes {
  import opened Prelude
  import opened TCashModel
  import opened TCashInvariants
  import opened TCashResults

  // ---------- Risk factors ----------

  /** The documented table: a row for each ratio of loans to supply, a column for each repayment rate. */
  const FACTORS: seq<seq<nat>> := [
    [10000, 9000, 7000, 5000, 3000],
    [9000, 8000, 7000, 4000, 2000],
    [8000, 7000, 6000, 3000, 1000],
    [5000, 4000, 3000, 2000, 1000],
    [2000, 1000, 1000, 1000, 1000]]

  /** Row r holds ratios from 60%, 70%, 80%, 90% on; the first one those below. */
  ghost predicate InRow(r: nat, olb: nat, supply: nat) {
    && r <= 4
    && (r > 0 ==> 10 * olb >= (r + 5) * supply)
    && (r < 4 ==> 10 * olb < (r + 6) * supply)
  }

  /** Column k holds rates above 30%, 20%, 10%, 5%, each rounded down to a hundredth of a percent. */
  ghost predicate InColumn(k: nat, ra: nat, tld: nat) {
    && k <= 4
    && (k == 0 ==> 10000 * ra >= 3001 * tld)
    && (k == 1 ==> 2001 * tld <= 10000 * ra < 3001 * tld)
    && (k == 2 ==> 1001 * tld <= 10000 * ra < 2001 * tld)
    && (k == 3 ==> 501 * tld <= 10000 * ra < 1001 * tld)
    && (k == 4 ==> 10000 * ra < 501 * tld)
  }

  lemma RatioBelow(a: nat, b: nat, n: nat)
    requires b > 0
    ensures LoanRatio(a, b) < n <==> a * 10000 < n * b
  {
    DivisionBound(a * BASIS, b, n);
  }

  lemma RowIs(r: nat, olb: nat, supply: nat)
    requires supply > 0 && InRow(r, olb, supply)
    ensures r == LoanRatioRow(LoanRatio(olb, supply))
  {
    RatioBelow(olb, supply, 6000);
    RatioBelow(olb, supply, 7000);
    RatioBelow(olb, supply, 8000);
    RatioBelow(olb, supply, 9000);
    hide LoanRatio;
  }

  lemma ColumnIs(k: nat, ra: nat, tld: nat)
    requires tld > 0 && InColumn(k, ra, tld)
    ensures k == RepayRateColumn(LoanRatio(ra, tld))
  {
    RatioBelow(ra, tld, 3001);
    RatioBelow(ra, tld, 2001);
    RatioBelow(ra, tld, 1001);
    RatioBelow(ra, tld, 501);
    hide LoanRatio;
  }

  lemma TableIs(r: nat, k: nat)
    requires r <= 4 && k <= 4
    ensures SRF_TABLE[r * 5 + k] == FACTORS[r][k]
  {}

  /**
   The system risk factor is the documented one; it is recomputed a day or more after the last time,
   when there is something to rate, and otherwise kept.
   */
  lemma {:induction false} RatingGives(s: State, now: nat, r: nat, k: nat)
    requires InRow(r, s.books.olb, s.coin.supply) && InColumn(k, s.books.ra, s.books.tld)
    ensures Rate(s, now) ==
      if now >= s.books.srfTime + 86_400 && s.coin.supply > 0 && s.books.tld > 0
      then s.(books := s.books.(srf := FACTORS[r][k], srfTime := now)) else s
  {
    if s.coin.supply > 0 && s.books.tld > 0 {
      RowIs(r, s.books.olb, s.coin.supply);
      ColumnIs(k, s.books.ra, s.books.tld);
      TableIs(r, k);
    }
    hide InRow, InColumn, LoanRatio, LoanRatioRow, RepayRateColumn;
  }

  // ---------- Credit ----------

  lemma {:induction false} TotalSums(tat: seq<nat>)
    ensures Total(tat) == SumOf<nat>(tat, Itself)
  {
    if tat != [] { TotalSums(tat[..|tat| - 1]); }
  }

  /**
   The credit limit: nothing without two months of TAT, otherwise a third of all TAT, rounded down, and
   that three times up to the second loan and twelve times from the third on.
   */
  ghost predicate IsLimit(limit: nat, third: nat, loans: nat, tat: seq<nat>) {
    && IsFloor(third, SumOf<nat>(tat, Itself), 3)
    && limit == (if |tat| < 2 then 0 else if loans <= 2 then 3 * third else 12 * third)
  }

  lemma {:induction false} LimitGives(r: Records, u: Address, tat: seq<nat>, limit: nat, third: nat)
    requires IsLimit(limit, third, |LoansOf(r, u)|, tat)
    ensures CreditLimit(r, u, tat) == limit
    ensures Available(r, u, tat) == if limit > Get(r.borrowed, u) then limit - Get(r.borrowed, u) else 0
  {
    TotalSums(tat);
    FloorIs(third, Total(tat), 3);
    hide Total;
  }

  /** Borrowed against the limit: up to 85% counts fully, up to 95% four fifths, beyond three fifths. */
  function Occupied(tla: nat, limit: nat): nat {
    if 10000 * tla < 8501 * limit then 10000 else if 10000 * tla < 9501 * limit then 8000 else 6000
  }

  /** Cleared loans against loans taken. */
  function ClearedShare(ncl: nat, tnl: nat): nat {
    if ncl == 0 then 2000
    else if 10000 * ncl < 3001 * tnl then 4000
    else if 10000 * ncl < 6001 * tnl then 5000
    else if 10000 * ncl < 8001 * tnl then 8000
    else 10000
  }

  lemma OccupiedIs(tla: nat, limit: nat)
    requires limit > 0
    ensures OccupancyCoefficient(LoanRatio(tla, limit)) == Occupied(tla, limit)
  {
    RatioBelow(tla, limit, 8501);
    RatioBelow(tla, limit, 9501);
    hide LoanRatio;
  }

  lemma ClearedIs(ncl: nat, tnl: nat)
    requires tnl > 0
    ensures RepaymentCoefficient(ncl, tnl) == ClearedShare(ncl, tnl)
  {
    RatioBelow(ncl, tnl, 3001);
    RatioBelow(ncl, tnl, 6001);
    RatioBelow(ncl, tnl, 8001);
    hide LoanRatio;
  }

  /**
   The combined risk factor: full where at most two loans are open or there is no limit, otherwise the
   product of both coefficients; and of that the part the system factor allows, rounded down.
   */
  lemma {:induction false} RiskFactorGives(s: State, u: Address, tat: seq<nat>, crf: nat)
    requires Get(s.records.ncl, u) <= Get(s.records.tnl, u)
    requires var tnl, ncl, limit := Get(s.records.tnl, u), Get(s.records.ncl, u), CreditLimit(s.records, u, tat);
      var prf := if tnl - ncl <= 2 || limit == 0 then 10000
                 else Occupied(Get(s.records.tla, u), limit) * ClearedShare(ncl, tnl) / 10000;
      IsFloor(crf, prf * s.books.srf, 10000)
    ensures Crf(s, u, tat) == Some(crf)
  {
    var tnl, ncl, limit := Get(s.records.tnl, u), Get(s.records.ncl, u), CreditLimit(s.records, u, tat);
    if limit > 0 && tnl > 0 {
      OccupiedIs(Get(s.records.tla, u), limit);
      ClearedIs(ncl, tnl);
    }
    hide CreditLimit, OccupancyCoefficient, RepaymentCoefficient, Occupied, ClearedShare, LoanRatio;
    var prf := Prf(s.records, u, tat).value;
    FloorIs(crf, prf * s.books.srf, 10000);
  }

  // ---------- Loans ----------

  /** All the borrower could get for its collateral: more would exceed the risk-weighted value. */
  ghost predicate Worth(quote: nat, value: nat, c: Context, crf: nat) {
    IsFloor(quote, value * c.unitPrice * crf, BASIS * c.tcashPrice)
  }

  /**
   What is granted, exactly: the risk-weighted value of the collateral, or the credit left where that
   is less, but never less than the minimum.
   */
  lemma {:induction false} AmountGives(s: State, c: Context, value: nat, crf: nat, quote: nat)
    requires Crf(s, c.sender, c.tat) == Some(crf) && crf > 0 && c.unitPrice > 0 && c.tcashPrice > 0
    requires CreditLimit(s.records, c.sender, c.tat) > 0 && Worth(quote, value, c, crf)
    ensures var available := Available(s.records, c.sender, c.tat);
      LoanAmount(s, c, value) == Some(
        if quote < 1_000_000_000 || available < 1_000_000_000 then 1_000_000_000
        else if quote <= available then quote else available)
  {
    FloorIs(quote, value * c.unitPrice * crf, BASIS * c.tcashPrice);
    hide Crf, CreditLimit, Available;
  }

  /** The borrower is never given less than its collateral is worth, where it has the credit for more. */
  lemma {:induction false} NothingWithheld(s: State, c: Context, value: nat, x: nat)
    requires LoanAmount(s, c, value).Some?
    requires LoanAmount(s, c, value).value < x <= Available(s.records, c.sender, c.tat)
    ensures Crf(s, c.sender, c.tat).Some?
    ensures value * c.unitPrice * Crf(s, c.sender, c.tat).value < x * (BASIS * c.tcashPrice)
  {
    hide Crf, CreditLimit, Available;
    var crf := Crf(s, c.sender, c.tat).value;
    DivisionBound(value * c.unitPrice * crf, BASIS * c.tcashPrice, x);
  }

  /** A loan on the books: amount and first interest are owed, and counted wherever loans are counted. */
  ghost predicate BookedAs(s: State, s': State, now: nat, c: Context, u: Account, amount: nat, interest: nat,
      collateral: nat) {
    var total, r, r' := amount + interest, s.records, s'.records;
    && s'.loans == s.loans + [Loan(u, collateral, total, c.unitPrice, c.tcashPrice, now, interest, 1, Running)]
    && LoansOf(r', u) == LoansOf(r, u) + [|s.loans|]
    && (forall v: Address ::
          && Get(r'.borrowed, v) == Get(r.borrowed, v) + (if v == u then total else 0)
          && Get(r'.tla, v) == Get(r.tla, v) + (if v == u then total else 0)
          && Get(r'.tnl, v) == Get(r.tnl, v) + (if v == u then 1 else 0))
    && r'.ncl == r.ncl && r'.tra == r.tra
    && s'.books.olb == s.books.olb + total && s'.books.tld == s.books.tld + total && s'.books.ra == s.books.ra
    && s'.house == s.house
  }

  lemma RecordBooks(s: State, now: nat, c: Context, u: Account, amount: nat, interest: nat, collateral: nat)
    requires IsFloor(interest, amount * c.config.dailyRate, 10000)
    ensures BookedAs(s, Recorded(s, now, c, u, amount, collateral), now, c, u, amount, interest, collateral)
  {
    FloorIs(interest, amount * c.config.dailyRate, 10000);
    hide IsFloor;
  }

  /** A loan that is granted: the amount is minted to the borrower, the UNIT stays, and it is booked. */
  lemma {:induction false} CreationGives(s: State, now: nat, c: Context, value: nat, amount: nat, interest: nat)
    requires CreateLoan(s, now, c, value).Some? && LoanAmount(s, c, value) == Some(amount)
    requires IsFloor(interest, amount * c.config.dailyRate, 10000)
    ensures var s' := CreateLoan(s, now, c, value).value;
      && BookedAs(s, s', now, c, c.sender, amount, interest, value)
      && s'.books.unitBalance == s.books.unitBalance + value
      && s'.coin.supply == s.coin.supply + amount && s'.coin.locked == s.coin.locked
      && (forall v: Address :: Get(s'.coin.balance, v) == Get(s.coin.balance, v) + if v == c.sender then amount else 0)
  {
    hide LoanAmount, Available, IsFloor;
    RecordBooks(s, now, c, c.sender, amount, interest, value);
    hide InterestOn;
  }

  /** A loan that the foundation books: the same, but nothing is minted and no UNIT arrives. */
  lemma {:induction false} BookingGives(s: State, now: nat, c: Context, u: Account, amount: nat, collateral: nat,
      interest: nat)
    requires IsFloor(interest, amount * c.config.dailyRate, 10000)
    ensures SetRecord(s, now, c, u, amount, collateral).Some? <==> c.foundation && amount > 0 && collateral > 0
    ensures SetRecord(s, now, c, u, amount, collateral).Some? ==>
      var s' := SetRecord(s, now, c, u, amount, collateral).value;
      && BookedAs(s, s', now, c, u, amount, interest, collateral)
      && s'.books.unitBalance == s.books.unitBalance && s'.coin == s.coin
  {
    hide IsFloor;
    RecordBooks(s, now, c, u, amount, interest, collateral);
    hide InterestOn;
  }

  /** A loan a before and b after a repayment of an amount that releases some UNIT. */
  predicate RepaidAs(a: Loan, b: Loan, amount: nat, unit: nat, c: Context) {
    && b.account == a.account && b.time == a.time && b.cycles == a.cycles
    && b.unitPrice == c.unitPrice && b.tcashPrice == c.tcashPrice
    && b.collateral + unit == a.collateral && b.total + amount == a.total
    && b.interest == (if amount <= a.interest then a.interest - amount else 0)
    && b.status == (if b.total == 0 then Cleared else a.status)
  }

  /** What it does to the books, the borrower's counters and its balance. */
  ghost predicate PaidBack(s: State, s': State, u: Account, amount: nat, unit: nat, cleared: bool) {
    && (forall v: Address ::
          && Get(s'.records.borrowed, v) == Get(s.records.borrowed, v) - (if v == u then amount else 0)
          && Get(s'.records.tra, v) == Get(s.records.tra, v) + (if v == u then amount else 0)
          && Get(s'.records.ncl, v) == Get(s.records.ncl, v) + (if v == u && cleared then 1 else 0)
          && Get(s'.coin.balance, v) == Get(s.coin.balance, v) - (if v == u then amount else 0))
    && s'.records.tla == s.records.tla && s'.records.tnl == s.records.tnl
    && s'.books.olb + amount == s.books.olb && s'.books.ra == s.books.ra + amount && s'.books.tld == s.books.tld
    && s'.books.unitBalance + unit == s.books.unitBalance
    && s'.coin.supply + amount == s.coin.supply && s'.coin.locked == s.coin.locked && s'.house == s.house
  }

  /**
   A repayment: interest before principal, the exact share of the collateral comes back, rounded down,
   and the last one clears the loan.
   */
  lemma {:induction false} RepaymentGives(s: State, s': State, c: Context, id: nat, amount: nat, unit: nat)
    requires Repay(s, c, id, amount) == Some(s')
    requires id < |s.loans| && IsFloor(unit, amount * s.loans[id].collateral, s.loans[id].total)
    ensures |s'.loans| == |s.loans| && forall k :: 0 <= k < |s.loans| && k != id ==> s'.loans[k] == s.loans[k]
    ensures s.loans[id].account == c.sender && amount > 0 && RepaidAs(s.loans[id], s'.loans[id], amount, unit, c)
    ensures PaidBack(s, s', c.sender, amount, unit, s'.loans[id].total == 0)
  {
    FloorIs(unit, amount * s.loans[id].collateral, s.loans[id].total);
    hide IsFloor;
  }

  /** The collateral's value over the debt's, in millionths. */
  ghost predicate IsRatio(ratio: nat, loan: Loan) {
    IsFloor(ratio, loan.collateral * loan.unitPrice * 1_000_000, loan.total * loan.tcashPrice)
  }

  lemma RatioIs(ratio: nat, loan: Loan)
    requires loan.total > 0 && loan.tcashPrice > 0
    ensures IsRatio(ratio, loan) <==> CollateralRatio(loan) == Some(ratio)
  {
    ProductPositive(loan.total, loan.tcashPrice);
    FloorIs(ratio, loan.collateral * loan.unitPrice * RATIO_SCALE, loan.total * loan.tcashPrice);
  }

  /** A top-up adds its UNIT at the prices of the day and sets the status by the ratio it leads to. */
  lemma {:induction false} TopUpGives(s: State, c: Context, id: nat, value: nat, ratio: nat)
    requires id < |s.loans| && s.loans[id].total > 0 && c.tcashPrice > 0
    requires IsRatio(ratio, s.loans[id].(unitPrice := c.unitPrice, tcashPrice := c.tcashPrice,
                                         collateral := s.loans[id].collateral + value))
    ensures TopUp(s, c, id, value).Some? <==> s.loans[id].account == c.sender && value > 0
    ensures TopUp(s, c, id, value).Some? ==>
      TopUp(s, c, id, value).value == s.(
        loans := s.loans[id := s.loans[id].(
          unitPrice := c.unitPrice, tcashPrice := c.tcashPrice, collateral := s.loans[id].collateral + value,
          status := if ratio >= c.config.warning then Running
                    else if ratio <= c.config.liquidation then Liquidated else Warned)],
        books := s.books.(unitBalance := s.books.unitBalance + value))
  {
    RatioIs(ratio, s.loans[id].(unitPrice := c.unitPrice, tcashPrice := c.tcashPrice,
                                collateral := s.loans[id].collateral + value));
    hide CollateralRatio, IsRatio;
  }

  /** A fresh lot for a loan: all its collateral, at all it owes, for the duration in force. */
  function FreshLot(loan: Loan, end: nat): Lot {
    Lot(loan.collateral, loan.total, loan.total, end, false, loan.interest, 0, map[])
  }

  /**
   An interest period charges the daily rate once, and classifies by the ratio after that, or closes
   the loan with its last cycle; closing lists it and takes it off its borrower's totals.
   */
  lemma {:induction false} PeriodGives(s: State, now: nat, c: Context, id: nat, interest: nat, ratio: nat)
    requires Accrue(s, now, c, id).Some? && id < |s.loans|
    requires IsFloor(interest, s.loans[id].total * c.config.dailyRate, 10000)
    requires IsRatio(ratio, Accrue(s, now, c, id).value.loans[id])
    ensures var s', a, u := Accrue(s, now, c, id).value, s.loans[id], s.loans[id].account;
      var status := if a.cycles + 1 >= c.config.cycle || ratio <= c.config.liquidation then Liquidated
                    else if ratio <= c.config.warning then Warned else a.status;
      var b := Loan(u, a.collateral, a.total + interest, c.unitPrice, c.tcashPrice, a.time, a.interest + interest,
                    a.cycles + 1, status);
      var off := if status.Liquidated? then b.total else 0;
      && s'.loans == s.loans[id := b]
      && (forall v: Address ::
            && Get(s'.records.borrowed, v) == Get(s.records.borrowed, v) + (if v == u then interest - off else 0)
            && Get(s'.records.tla, v) == Get(s.records.tla, v) + (if v == u then interest - off else 0))
      && s'.records.tnl == s.records.tnl && s'.records.ncl == s.records.ncl && s'.records.tra == s.records.tra
      && s'.books == s.books.(olb := s.books.olb + interest, tld := s.books.tld + interest)
      && s'.house.duration == s.house.duration
      && s'.house.lots == s.house.lots
           + (if status.Liquidated? then [FreshLot(b, now + s.house.duration)] else [])
      && s'.coin == s.coin
  {
    PeriodBooks(s, now, c, id, interest, CollateralRatio(AccruedLoan(s.loans[id], c)).value);
    var b := Accrue(s, now, c, id).value.loans[id];
    hide Accrue;
    PeriodRatio(AccruedLoan(s.loans[id], c), b, ratio);
    assert s.house.lots + [] == s.house.lots;
    hide AccruedLoan, CollateralRatio, IsRatio, IsFloor;
  }

  lemma BothPositive(a: nat, b: nat)
    requires a * b != 0
    ensures a > 0 && b > 0
  {}

  lemma PeriodRatio(loan: Loan, b: Loan, ratio: nat)
    requires b == loan.(status := b.status) && CollateralRatio(loan).Some? && IsRatio(ratio, b)
    ensures CollateralRatio(loan).value == ratio
  {
    BothPositive(loan.total, loan.tcashPrice);
    assert CollateralRatio(b) == CollateralRatio(loan);
    RatioIs(ratio, b);
  }

  lemma PeriodBooks(s: State, now: nat, c: Context, id: nat, interest: nat, ratio: nat)
    requires Accrue(s, now, c, id).Some? && id < |s.loans|
    requires IsFloor(interest, s.loans[id].total * c.config.dailyRate, 10000)
    requires CollateralRatio(AccruedLoan(s.loans[id], c)) == Some(ratio)
    ensures var s', a, u := Accrue(s, now, c, id).value, s.loans[id], s.loans[id].account;
      var status := if a.cycles + 1 >= c.config.cycle || ratio <= c.config.liquidation then Liquidated
                    else if ratio <= c.config.warning then Warned else a.status;
      var b := AccruedLoan(a, c).(status := status);
      var off := if status.Liquidated? then b.total else 0;
      && b == Loan(u, a.collateral, a.total + interest, c.unitPrice, c.tcashPrice, a.time, a.interest + interest,
                   a.cycles + 1, status)
      && s'.loans == s.loans[id := b]
      && (forall v: Address ::
            && Get(s'.records.borrowed, v) == Get(s.records.borrowed, v) + (if v == u then interest - off else 0)
            && Get(s'.records.tla, v) == Get(s.records.tla, v) + (if v == u then interest - off else 0))
      && s'.records.tnl == s.records.tnl && s'.records.ncl == s.records.ncl && s'.records.tra == s.records.tra
      && s'.books == s.books.(olb := s.books.olb + interest, tld := s.books.tld + interest)
      && s'.house == (if status.Liquidated?
           then s.house.(lots := s.house.lots + [FreshLot(b, now + s.house.duration)]) else s.house)
      && s'.coin == s.coin
  {
    FloorIs(interest, s.loans[id].total * c.config.dailyRate, 10000);
    assert InterestOn(s.loans[id].total, c) == interest;
    hide CollateralRatio, InterestOn, IsFloor;
  }

  /** The foundation lists any loan that is not cleared, at the prices of the day, and changes nothing else. */
  lemma {:induction false} ListingGives(s: State, now: nat, c: Context, id: nat)
    ensures StartLiquidation(s, now, c, id).Some? <==> c.foundation && id < |s.loans| && !s.loans[id].status.Cleared?
    ensures StartLiquidation(s, now, c, id).Some? ==>
      var a := s.loans[id];
      StartLiquidation(s, now, c, id).value == s.(
        loans := s.loans[id := a.(unitPrice := c.unitPrice, tcashPrice := c.tcashPrice)],
        house := s.house.(lots := s.house.lots + [FreshLot(a, now + s.house.duration)]))
  {}

  /** The foundation may give any loan any status, and changes nothing else. */
  lemma {:induction false} StatusGives(s: State, c: Context, id: nat, status: Status)
    ensures SetStatus(s, c, id, status).Some? <==> c.foundation
    ensures c.foundation ==>
      var s' := SetStatus(s, c, id, status).value;
      s' == if id < |s.loans| then s.(loans := s.loans[id := s.loans[id].(status := status)]) else s
  {}

  // ---------- Auctions and the token ----------

  /**
   A bid goes through exactly while the lot is open, with the bidder's earlier bid above the price, and
   no more than the balance, locked or not. It then leads, and its amount is locked.
   */
  lemma {:induction false} BidGives(s: State, now: nat, c: Context, n: nat, amount: nat)
    ensures Bid(s, now, c, n, amount).Some? <==>
      && n < |s.house.lots| && now < s.house.lots[n].timeOver
      && s.house.lots[n].nowValue < Get(s.house.lots[n].bids, c.sender) + amount
      && amount <= Get(s.coin.balance, c.sender)
    ensures Bid(s, now, c, n, amount).Some? ==>
      var s', u := Bid(s, now, c, n, amount).value, c.sender;
      && |s'.house.lots| == |s.house.lots|
      && var a, b := s.house.lots[n], s'.house.lots[n];
      && b.bider == u && b.nowValue == Get(b.bids, u) == Get(a.bids, u) + amount
      && (forall v: Address :: v != u ==> Get(b.bids, v) == Get(a.bids, v))
      && b.timeOver == a.timeOver && b.settled == a.settled
      && (forall k :: 0 <= k < |s.house.lots| && k != n ==> s'.house.lots[k] == s.house.lots[k])
      && (forall v: Address :: Get(s'.coin.locked, v) == Get(s.coin.locked, v) + if v == u then amount else 0)
      && s'.coin.balance == s.coin.balance && s'.coin.supply == s.coin.supply
      && s'.loans == s.loans && s'.records == s.records && s'.books == s.books
  {}

  /** A refund unlocks the whole bid, once. */
  lemma {:induction false} RefundGives(s: State, c: Context, n: nat)
    requires WithdrawBid(s, c, n).Some?
    ensures n < |s.house.lots|
    ensures var s', u, amount := WithdrawBid(s, c, n).value, c.sender, Get(s.house.lots[n].bids, c.sender);
      && |s'.house.lots| == |s.house.lots| && amount > 0 && Get(s'.house.lots[n].bids, u) == 0
      && (forall v: Address :: v != u ==> Get(s'.house.lots[n].bids, v) == Get(s.house.lots[n].bids, v))
      && s'.house.lots[n].bider == s.house.lots[n].bider != u
      && s'.house.lots[n].nowValue == s.house.lots[n].nowValue
      && (forall v: Address :: Get(s'.coin.locked, v) == Get(s.coin.locked, v) - if v == u then amount else 0)
      && s'.coin.balance == s.coin.balance && s'.books == s.books && WithdrawBid(s', c, n).None?
  {}

  /** The winner gets the collateral; the start value is burnt from the manager and counts as repaid. */
  lemma {:induction false} SettlementGives(s: State, now: nat, c: Context, n: nat)
    requires Settle(s, now, c, n).Some?
    ensures n < |s.house.lots|
    ensures var s', lot := Settle(s, now, c, n).value, s.house.lots[n];
      && lot.bider == c.sender && lot.timeOver < now && !lot.settled
      && s'.house.lots == s.house.lots[n := lot.(settled := true)]
      && s'.books == s.books.(olb := s.books.olb - lot.startValue, ra := s.books.ra + lot.startValue,
                              unitBalance := s.books.unitBalance - lot.sales)
      && s'.coin.supply == s.coin.supply - lot.startValue && s'.coin.locked == s.coin.locked
      && (forall v: Address :: Get(s'.coin.balance, v)
            == Get(s.coin.balance, v) - if v == c.auctionManager then lot.startValue else 0)
      && s'.loans == s.loans && s'.records == s.records
  {}

  /** The foundation reopens, for the duration in force, exactly the lots that ended without a bid. */
  lemma {:induction false} RelistingGives(s: State, now: nat, c: Context)
    ensures Relist(s, now, c).Some? <==> c.foundation
    ensures Relist(s, now, c).Some? ==>
      var s' := Relist(s, now, c).value;
      && s'.coin == s.coin && s'.loans == s.loans && s'.records == s.records && s'.books == s.books
      && s'.house.duration == s.house.duration && |s'.house.lots| == |s.house.lots|
      && forall n :: 0 <= n < |s.house.lots| ==>
           s'.house.lots[n] == if s.house.lots[n].timeOver < now && s.house.lots[n].bider == 0
                               then s.house.lots[n].(timeOver := now + s.house.duration) else s.house.lots[n]
  {}

  /** It sets how long later lots stay open, up to thirty days. */
  lemma {:induction false} DurationGives(s: State, c: Context, duration: nat)
    ensures SetDuration(s, c, duration).Some? <==> c.foundation && 0 < duration <= 2_592_000
    ensures SetDuration(s, c, duration).Some? ==>
      SetDuration(s, c, duration).value == s.(house := s.house.(duration := duration))
  {}

  /** A transfer takes the amount from the one and gives it to the other, who may be the same. */
  lemma {:induction false} TransferGives(k: Coin, sender: Account, receiver: Account, amount: nat)
    requires Transfer(k, sender, receiver, amount).Some?
    ensures var k' := Transfer(k, sender, receiver, amount).value;
      && k'.supply == k.supply && k'.locked == k.locked
      && forall v: Address :: Get(k'.balance, v) == Get(k.balance, v)
           - (if v == sender then amount else 0) + (if v == receiver then amount else 0)
  {}
}
