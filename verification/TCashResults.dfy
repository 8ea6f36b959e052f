/** The main results about the TCash system: the books, the risk factors, repayments and auctions. */
module TCashResults {
  import opened Prelude
  import opened TCashModel
  import opened TCashInvariants

  // ---------- The books ----------

  /**
   After every run from deployment: outstanding plus repaid is all that was lent; outstanding is
   exactly what the loans owe less the start values of settled auctions; repaid is exactly what
   borrowers and auctions have paid; and the TCash supply is the sum of all balances.
   */
  lemma {:induction false} BooksBalance(s: System, calls: seq<Call>)
    requires Initial(s)
    ensures var t := Run(s, calls).state;
      && t.books.olb + t.books.ra == t.books.tld
      && t.books.olb + SumOf(t.house.lots, SettledValue) == SumOf(t.loans, Debt)
      && t.books.ra == SumMap(t.records.tra) + SumOf(t.house.lots, SettledValue)
      && t.coin.supply == SumMap(t.coin.balance)
  {
    hide Step;
    Reachable(s, calls);
  }

  // ---------- The system risk factor ----------

  lemma TableMonotone(row: nat, row': nat, column: nat, column': nat)
    requires row' <= row <= 4 && column' <= column <= 4
    ensures SRF_TABLE[row * 5 + column] <= SRF_TABLE[row' * 5 + column']
  {}

  /** Taking the same amount from both sides of a ratio up to one never raises it. */
  lemma RatioShrinks(a: nat, b: nat, x: nat)
    requires x <= a <= b && x < b
    ensures LoanRatio(a - x, b - x) <= LoanRatio(a, b)
  {
    assert (a - x) * BASIS * b <= a * BASIS * (b - x) by {
      MultiplyMonotone(a, b, x);
      MultiplyMonotone(a * x, b * x, BASIS);
      calc {
        (a - x) * BASIS * b;
        ((a * b) - x * b) * BASIS;
        a * b * BASIS - b * x * BASIS;
      <=
        a * b * BASIS - a * x * BASIS;
        (a * b - a * x) * BASIS;
        a * BASIS * (b - x);
      }
    }
    DivisionMonotone((a - x) * BASIS, b - x, a * BASIS, b);
  }

  lemma RatioAboveOne(a: nat, b: nat)
    requires b > 0 && b < a
    ensures LoanRatio(a, b) >= 9000
  {
    MultiplyMonotone(b, a, BASIS);
    DivisionBound(a * BASIS, b, BASIS);
  }

  lemma RateGrows(ra: nat, tld: nat, x: nat)
    requires tld > 0
    ensures LoanRatio(ra, tld) <= LoanRatio(ra + x, tld)
  {
    MultiplyMonotone(ra * BASIS, (ra + x) * BASIS, tld);
    DivisionMonotone(ra * BASIS, tld, (ra + x) * BASIS, tld);
  }

  /**
   Paying back never lowers the rating, for every ratio of outstanding balance to supply, also
   above one, and also when the payment burns the whole supply.
   */
  lemma {:induction false} PayingBackRaisesRating(olb: nat, ra: nat, tld: nat, supply: nat, x: nat)
    requires x <= olb && x <= supply
    ensures Rating(olb, ra, tld, supply) <= Rating(olb - x, ra + x, tld, supply - x)
  {
    if supply != x && tld != 0 {
      var row, row' := LoanRatioRow(LoanRatio(olb, supply)), LoanRatioRow(LoanRatio(olb - x, supply - x));
      assert row' <= row by {
        if olb <= supply {
          RatioShrinks(olb, supply, x);
        } else {
          RatioAboveOne(olb, supply);
        }
      }
      RateGrows(ra, tld, x);
      TableMonotone(row, row', RepayRateColumn(LoanRatio(ra, tld)), RepayRateColumn(LoanRatio(ra + x, tld)));
    } else {
      RatingBounds(olb, ra, tld, supply);
    }
  }

  /** A repayment never makes the risk factor recomputed just after it worse than just before it. */
  lemma {:induction false} RepaymentKeepsRating(s: State, c: Context, id: nat, amount: nat)
    requires Repay(s, c, id, amount).Some?
    ensures RatingNow(s) <= RatingNow(Repay(s, c, id, amount).value)
  {
    hide Rating, UnitToRelease;
    PayingBackRaisesRating(s.books.olb, s.books.ra, s.books.tld, s.coin.supply, amount);
  }

  /** Nor does the settlement of an auction, which pays the start value back and burns it. */
  lemma {:induction false} SettlementKeepsRating(s: State, now: nat, c: Context, n: nat)
    requires Settle(s, now, c, n).Some?
    ensures RatingNow(s) <= RatingNow(Settle(s, now, c, n).value)
  {
    hide Rating;
    PayingBackRaisesRating(s.books.olb, s.books.ra, s.books.tld, s.coin.supply, s.house.lots[n].startValue);
  }

  // ---------- The personal and combined risk factors ----------

  lemma PrfBounds(r: Records, u: Address, tat: seq<nat>)
    requires Get(r.ncl, u) <= Get(r.tnl, u)
    ensures Prf(r, u, tat).Some? && 1200 <= Prf(r, u, tat).value <= BASIS
  {
    hide LoanRatio, CreditLimit;
  }

  lemma ProductBounds(prf: nat, srf: nat)
    requires 1200 <= prf <= BASIS && 1000 <= srf <= BASIS
    ensures 120 <= prf * srf / BASIS <= BASIS
  {
    MultiplyMonotone(1200, prf, srf);
    MultiplyMonotone(prf, BASIS, srf);
    DivisionBound(prf * srf, BASIS, 120);
    DivisionMonotone(prf * srf, BASIS, BASIS * BASIS, BASIS);
  }

  lemma RiskFactorBounds(s: State, now: nat, u: Address, tat: seq<nat>)
    requires Inv(s, now)
    ensures Get(s.records.ncl, u) <= Get(s.records.tnl, u)
    ensures Crf(s, u, tat).Some? && 120 <= Crf(s, u, tat).value <= BASIS
  {
    SumBelow(s.loans, ClearedBy(u), OwnedBy(u));
    PrfBounds(s.records, u, tat);
    hide Prf;
    ProductBounds(Prf(s.records, u, tat).value, s.books.srf);
  }

  /**
   After every run, status changes by the foundation included: a borrower's counters count the
   loans taken and the loans with nothing left to pay, no loan owes more interest than it owes in
   all, and the combined risk factor is defined and between 120 and 10000 for any TAT record.
   */
  lemma {:induction false} RiskFactorsDefined(s: System, calls: seq<Call>, u: Address, tat: seq<nat>)
    requires Initial(s)
    ensures var t := Run(s, calls).state;
      && Get(t.records.tnl, u) == SumOf(t.loans, OwnedBy(u))
      && Get(t.records.ncl, u) == SumOf(t.loans, ClearedBy(u)) <= Get(t.records.tnl, u)
      && (forall i :: 0 <= i < |t.loans| ==> t.loans[i].interest <= t.loans[i].total)
      && Crf(t, u, tat).Some? && 120 <= Crf(t, u, tat).value <= BASIS
  {
    hide Step, Crf;
    Reachable(s, calls);
    RiskFactorBounds(Run(s, calls).state, Run(s, calls).now, u, tat);
  }

  /**
   When a loan is granted, exactly: the guards against a missing or zero risk factor never fire,
   nor does the one against an empty credit limit, once something is left to borrow.
   */
  lemma {:induction false} LoanGranted(s: System, calls: seq<Call>, wait: nat, c: Context, value: nat)
    requires Initial(s)
    ensures var t := Run(s, calls);
      CreateLoan(t.state, t.now + wait, c, value).Some? <==>
        && c.mintOpen && value > 0 && c.unitPrice > 0 && c.tcashPrice > 0
        && Get(t.state.records.borrowed, c.sender) < CreditLimit(t.state.records, c.sender, c.tat)
  {
    hide Step, Crf, CreditLimit, Quote, Recorded;
    Reachable(s, calls);
    RiskFactorBounds(Run(s, calls).state, Run(s, calls).now, c.sender, c.tat);
  }

  /**
   What a borrower is granted: at least the minimum; and where it is more than that, no more than
   the credit left and no more than the risk-weighted value of the collateral.
   */
  lemma {:induction false} LoanWithinBounds(s: State, c: Context, value: nat)
    requires LoanAmount(s, c, value).Some?
    ensures var amount := LoanAmount(s, c, value).value;
      && amount >= MIN_LOAN
      && (amount > MIN_LOAN ==>
            && amount <= Available(s.records, c.sender, c.tat)
            && amount * (BASIS * c.tcashPrice) <= value * c.unitPrice * Crf(s, c.sender, c.tat).value)
  {
    hide Crf, CreditLimit, Available;
    var crf, amount := Crf(s, c.sender, c.tat).value, LoanAmount(s, c, value).value;
    DivisionBound(value * c.unitPrice * crf, BASIS * c.tcashPrice, Quote(value, c, crf));
    DivisionBound(value * c.unitPrice * crf, BASIS * c.tcashPrice, amount);
    hide Quote;
  }

  /**
   One interest period: the principal stays, outstanding and total lent grow by the interest, and
   the loan closes exactly when its ratio is at or below the liquidation line or its cycles are
   up; then, and only then, one lot opens that is worth the whole loan.
   */
  lemma {:induction false} PeriodClosesExactlyWhen(s: State, now: nat, c: Context, id: nat)
    requires Accrue(s, now, c, id).Some?
    ensures var s' := Accrue(s, now, c, id).value;
      var a, b, ratio := s.loans[id], s'.loans[id], CollateralRatio(s'.loans[id]);
      && b.total - b.interest == a.total - a.interest && b.collateral == a.collateral && b.total >= a.total
      && s'.books.olb - s.books.olb == s'.books.tld - s.books.tld == b.total - a.total
      && ratio.Some?
      && (b.status.Liquidated? <==> ratio.value <= c.config.liquidation || a.cycles + 1 >= c.config.cycle)
      && (!b.status.Liquidated? && ratio.value <= c.config.warning ==> b.status.Warned?)
      && s'.house.lots == s.house.lots
           + if b.status.Liquidated?
             then [Lot(b.collateral, b.total, b.total, now + s.house.duration, false, b.interest, 0, map[])]
             else []
  {
    var s' := Accrue(s, now, c, id).value;
    var loan := AccruedLoan(s.loans[id], c);
    assert CollateralRatio(s'.loans[id]) == CollateralRatio(loan);
    hide CollateralRatio, InterestOn;
    assert s.house.lots + [] == s.house.lots;
  }

  lemma RatioOfMore(a: nat, v: nat, p: nat, d: nat)
    requires d > 0
    ensures a * p * RATIO_SCALE / d <= (a + v) * p * RATIO_SCALE / d
  {
    MultiplyMonotone(a, a + v, p * RATIO_SCALE * d);
    assert a * (p * RATIO_SCALE * d) == (a * p * RATIO_SCALE) * d;
    assert (a + v) * (p * RATIO_SCALE * d) == ((a + v) * p * RATIO_SCALE) * d;
    DivisionMonotone(a * p * RATIO_SCALE, d, (a + v) * p * RATIO_SCALE, d);
  }

  /** A top-up never lowers the ratio at the prices of the day, and classifies by the new ratio. */
  lemma {:induction false} TopUpClassifies(s: State, c: Context, id: nat, value: nat)
    requires TopUp(s, c, id, value).Some?
    ensures var before := s.loans[id].(unitPrice := c.unitPrice, tcashPrice := c.tcashPrice);
      var after := TopUp(s, c, id, value).value.loans[id];
      && CollateralRatio(before).Some? && CollateralRatio(after).Some?
      && CollateralRatio(before).value <= CollateralRatio(after).value
      && (after.status.Running? <==> CollateralRatio(after).value >= c.config.warning)
      && (after.status.Liquidated? <==>
            CollateralRatio(after).value <= c.config.liquidation && CollateralRatio(after).value < c.config.warning)
      && after.total == before.total && after.interest == before.interest
  {
    var loan := s.loans[id];
    RatioOfMore(loan.collateral, value, c.unitPrice, loan.total * c.tcashPrice);
  }

  // ---------- Repayments ----------

  /** Releasing at most the repaid share of the collateral leaves the ratio no lower. */
  lemma ShareReleased(collateral: nat, total: nat, amount: nat, unit: nat)
    requires 0 < total && amount <= total && unit == amount * collateral / total && unit <= collateral
    ensures collateral * (total - amount) <= (collateral - unit) * total
  {
    DivisionBound(amount * collateral, total, unit);
    calc {
      collateral * (total - amount);
      collateral * total - amount * collateral;
    <=
      collateral * total - unit * total;
      (collateral - unit) * total;
    }
  }

  lemma RatioImproves(c: nat, t: nat, c': nat, t': nat, p: nat, q: nat)
    requires c * t' <= c' * t && t * q > 0 && t' * q > 0
    ensures c * p * RATIO_SCALE / (t * q) <= c' * p * RATIO_SCALE / (t' * q)
  {
    assert (c * p * RATIO_SCALE) * (t' * q) <= (c' * p * RATIO_SCALE) * (t * q) by {
      MultiplyMonotone(c * t', c' * t, p * RATIO_SCALE * q);
      calc {
        (c * p * RATIO_SCALE) * (t' * q);
        (c * t') * (p * RATIO_SCALE * q);
      <=
        (c' * t) * (p * RATIO_SCALE * q);
        (c' * p * RATIO_SCALE) * (t * q);
      }
    }
    DivisionMonotone(c * p * RATIO_SCALE, t * q, c' * p * RATIO_SCALE, t' * q);
  }

  /**
   At the prices of the day a partial repayment never lowers the collateral ratio, in spite of all
   rounding down; and the repayment that clears the debt releases all that is left.
   */
  lemma {:induction false} RepaymentNeverWorsens(s: State, c: Context, id: nat, amount: nat)
    requires Repay(s, c, id, amount).Some? && c.tcashPrice > 0
    ensures var before := s.loans[id].(unitPrice := c.unitPrice, tcashPrice := c.tcashPrice);
      var after := Repay(s, c, id, amount).value.loans[id];
      if amount == s.loans[id].total then
        after.collateral == 0 && after.total == 0 && after.interest <= before.interest && after.status.Cleared?
      else
        CollateralRatio(before).Some? && CollateralRatio(after).Some?
        && CollateralRatio(before).value <= CollateralRatio(after).value
  {
    var loan := s.loans[id];
    var unit := UnitToRelease(loan, amount);
    ShareReleased(loan.collateral, loan.total, amount, unit);
    if amount == loan.total {
      AllReleased(loan.collateral, loan.total);
    } else {
      hide UnitToRelease;
      ProductPositive(loan.total, c.tcashPrice);
      ProductPositive(loan.total - amount, c.tcashPrice);
      RatioImproves(loan.collateral, loan.total, loan.collateral - unit, loan.total - amount,
                    c.unitPrice, c.tcashPrice);
    }
  }

  /**
   Whether a loan counts as settled or under liquidation plays no part in its repayment: what is
   refused or accepted, paid and released is the same for every status.
   */
  lemma RepaymentIgnoresStatus(s: State, c: Context, id: nat, amount: nat, status: Status)
    requires id < |s.loans|
    ensures var t := s.(loans := s.loans[id := s.loans[id].(status := status)]);
      && (Repay(t, c, id, amount).Some? <==> Repay(s, c, id, amount).Some?)
      && (Repay(s, c, id, amount).Some? ==>
            var a, b := Repay(s, c, id, amount).value, Repay(t, c, id, amount).value;
            && b.books == a.books && b.records == a.records && b.coin == a.coin
            && b.loans[id].(status := a.loans[id].status) == a.loans[id])
  {
    var t := s.(loans := s.loans[id := s.loans[id].(status := status)]);
    assert id < |t.loans| && t.loans[id] == s.loans[id].(status := status);
    assert s.loans[id].total > 0 ==> UnitToRelease(t.loans[id], amount) == UnitToRelease(s.loans[id], amount);
    hide UnitToRelease;
  }

  lemma ProductPositive(a: nat, b: nat)
    requires a > 0 && b > 0
    ensures a * b > 0
  {}

  lemma AllReleased(collateral: nat, total: nat)
    requires total > 0
    ensures total * collateral / total == collateral
  {
    DivisionBound(total * collateral, total, collateral);
    DivisionBound(total * collateral, total, collateral + 1);
    assert (collateral + 1) * total == total * collateral + total;
  }

  /** The UNIT a call posts for a loan, and the UNIT it releases from it. */
  function Posted(s: System, call: Call, id: nat): nat {
    if Outcome(s, call).Some? && call.op.OTopUp? && call.op.id == id then call.op.value else 0
  }

  function Released(s: System, call: Call, id: nat): nat {
    if Outcome(s, call).Some? && call.op.ORepay? && call.op.id == id
    then UnitToRelease(s.state.loans[id], call.op.amount) else 0
  }

  function PostedOver(s: System, calls: seq<Call>, id: nat): nat {
    if calls == [] then 0
    else PostedOver(s, calls[..|calls| - 1], id) + Posted(Run(s, calls[..|calls| - 1]), calls[|calls| - 1], id)
  }

  function ReleasedOver(s: System, calls: seq<Call>, id: nat): nat {
    if calls == [] then 0
    else ReleasedOver(s, calls[..|calls| - 1], id) + Released(Run(s, calls[..|calls| - 1]), calls[|calls| - 1], id)
  }

  lemma StepCollateral(s: System, call: Call, id: nat)
    requires id < |s.state.loans|
    ensures id < |Step(s, call).state.loans|
    ensures Step(s, call).state.loans[id].collateral + Released(s, call, id)
         == s.state.loans[id].collateral + Posted(s, call, id)
    ensures Step(s, call).state.loans[id].account == s.state.loans[id].account
  {
    hide InterestOn, UnitToRelease, CollateralRatio, Classified, LoanAmount, Rating;
  }

  /** Over any run, what a loan still holds and what was released make up what was posted for it. */
  lemma {:induction false} CollateralAccounted(s: System, calls: seq<Call>, id: nat)
    requires id < |s.state.loans|
    ensures var t := Run(s, calls).state;
      && id < |t.loans|
      && t.loans[id].collateral + ReleasedOver(s, calls, id) == s.state.loans[id].collateral + PostedOver(s, calls, id)
      && t.loans[id].account == s.state.loans[id].account
  {
    hide Step, Posted, Released;
    if calls != [] {
      CollateralAccounted(s, calls[..|calls| - 1], id);
      StepCollateral(Run(s, calls[..|calls| - 1]), calls[|calls| - 1], id);
    }
  }

  // ---------- Auctions ----------

  /** After every run the locked TCash of every user is the sum of the recorded bids. */
  lemma {:induction false} LocksMatchBids(s: System, calls: seq<Call>, u: Address)
    requires Initial(s)
    ensures Get(Run(s, calls).state.coin.locked, u) == SumOf(Run(s, calls).state.house.lots, BidBy(u))
  {
    hide Step;
    Reachable(s, calls);
  }

  /** So a refund never fails for want of locked TCash: whoever has a bid and does not lead gets it back. */
  lemma {:induction false} RefundsAlwaysPaid(s: System, calls: seq<Call>, c: Context, n: nat)
    requires Initial(s)
    ensures var t := Run(s, calls).state;
      WithdrawBid(t, c, n).Some? <==>
        n < |t.house.lots| && t.house.lots[n].bider != c.sender && Get(t.house.lots[n].bids, c.sender) > 0
  {
    hide Step;
    Reachable(s, calls);
    var t := Run(s, calls).state;
    if n < |t.house.lots| {
      SumCovers(t.house.lots, BidBy(c.sender), n);
    }
  }

  /**
   After every run, once anyone has bid on a lot the leader's bid is the price and every other bid
   is strictly lower; the price is never below the start value, nor the start value below the
   interest it contains.
   */
  lemma {:induction false} LeaderLeads(s: System, calls: seq<Call>, n: nat)
    requires Initial(s) && n < |Run(s, calls).state.house.lots|
    ensures var lot := Run(s, calls).state.house.lots[n];
      && lot.debt <= lot.startValue <= lot.nowValue
      && (lot.bider != 0 ==>
            && Get(lot.bids, lot.bider) == lot.nowValue > lot.startValue
            && forall u: Address :: u != lot.bider ==> Get(lot.bids, u) < lot.nowValue)
  {
    hide Step;
    Reachable(s, calls);
    assert LotOk(Run(s, calls).state.house.lots[n], Run(s, calls).now);
  }

  /** A settled lot takes no bid and is not settled again, whatever happens in between. */
  ghost predicate LotEvolves(a: Lot, b: Lot) {
    && b.sales == a.sales && b.startValue == a.startValue && b.debt == a.debt
    && a.nowValue <= b.nowValue
    && (a.settled ==> b.settled && b.bider == a.bider && b.nowValue == a.nowValue && b.timeOver == a.timeOver)
  }

  lemma StepEvolves(s: System, call: Call, n: nat)
    requires Inv(s.state, s.now) && n < |s.state.house.lots|
    ensures n < |Step(s, call).state.house.lots|
    ensures LotEvolves(s.state.house.lots[n], Step(s, call).state.house.lots[n])
  {
    hide LoansOk, CountersOk, BooksOk, LocksOk, CoinOk;
    assert LotOk(s.state.house.lots[n], s.now);
    if call.op.OBid? || call.op.OWithdrawBid? || call.op.OSettle? || call.op.ORelist? || call.op.OSetDuration? {
      hide LotsOk;
    } else {
      hide Inv, LotsOk, LotOk;
      ElsewhereLotsStay(s, call);
    }
  }

  /** Whatever is not about auctions leaves the lots alone, or lists one more. */
  lemma ElsewhereLotsStay(s: System, call: Call)
    requires !call.op.OBid? && !call.op.OWithdrawBid? && !call.op.OSettle? && !call.op.ORelist?
    ensures s.state.house.lots <= Step(s, call).state.house.lots
  {
    hide InterestOn, UnitToRelease, CollateralRatio, Classified, LoanAmount, Rating, ClosedRecords, AccruedLoan;
    hide RepaidLoan, RepaidRecords, Available, Minted, Burnt, Transfer, BurnFrom;
  }

  lemma {:induction false} RunEvolves(s: System, calls: seq<Call>, n: nat)
    requires Inv(s.state, s.now) && n < |s.state.house.lots|
    ensures n < |Run(s, calls).state.house.lots|
    ensures LotEvolves(s.state.house.lots[n], Run(s, calls).state.house.lots[n])
  {
    hide Step, Inv;
    if calls != [] {
      RunEvolves(s, calls[..|calls| - 1], n);
      RunKeeps(s, calls[..|calls| - 1]);
      StepEvolves(Run(s, calls[..|calls| - 1]), calls[|calls| - 1], n);
    }
  }

  lemma {:induction false} SettledIsFinal(s: System, calls: seq<Call>, n: nat, wait: nat, c: Context, amount: nat)
    requires Inv(s.state, s.now) && n < |s.state.house.lots| && s.state.house.lots[n].settled
    ensures var t := Run(s, calls);
      && Bid(t.state, t.now + wait, c, n, amount).None?
      && Settle(t.state, t.now + wait, c, n).None?
  {
    hide Step;
    RunEvolves(s, calls, n);
    RunKeeps(s, calls);
    assert LotOk(Run(s, calls).state.house.lots[n], Run(s, calls).now);
  }

  /**
   When a won auction can be settled, exactly: getAuction's own guards hold, the loan contract has
   the UNIT, the start value is positive and within the outstanding balance, and the manager holds
   it in TCash. The subtraction of the interest from the start value never underflows, and the
   supply always covers the burn.
   */
  lemma {:induction false} SettlesExactlyWhen(s: System, calls: seq<Call>, wait: nat, c: Context, n: nat)
    requires Initial(s)
    ensures var t := Run(s, calls);
      Settle(t.state, t.now + wait, c, n).Some? <==>
        && MaySettle(t.state, t.now + wait, c, n)
        && var lot := t.state.house.lots[n];
        && lot.sales <= t.state.books.unitBalance
        && 0 < lot.startValue <= t.state.books.olb
        && lot.startValue <= Get(t.state.coin.balance, c.auctionManager)
  {
    hide Step;
    Reachable(s, calls);
    var t := Run(s, calls);
    if MaySettle(t.state, t.now + wait, c, n) {
      assert LotOk(t.state.house.lots[n], t.now);
      BurnKeeps(t.state.coin, c.auctionManager, t.state.house.lots[n].startValue);
    }
  }
}
