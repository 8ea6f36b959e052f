/**
 One loan through a whole run: how each call changes it, that closing is final, that compounding
 does not depend on when it is run, and that repaying never worsens a position.
 */
module UstnLoans {
  import opened Prelude
  import opened UstnModel
  import opened UstnInvariants

  // ---------- Compounding ----------

  lemma {:induction false} CompoundAdd(debt: nat, rate: nat, j: nat, k: nat)
    ensures Compound(Compound(debt, rate, j), rate, k) == Compound(debt, rate, j + k)
  {
    if k != 0 {
      CompoundAdd(debt, rate, j, k - 1);
    }
  }

  function Power(b: nat, e: nat): nat { if e == 0 then 1 else b * Power(b, e - 1) }

  /** One more period: rounding the interest down keeps the bound of exact compounding. */
  lemma PowerStep(debt: nat, d: nat, interest: nat, rate: nat, p: nat, q: nat)
    requires interest * 10000 <= d * rate && d * p <= debt * q
    ensures (d + interest) * (10000 * p) <= debt * ((10000 + rate) * q)
  {
    calc {
      (d + interest) * (10000 * p);
      (d * 10000 + interest * 10000) * p;
    <= { MultiplyMonotone(d * 10000 + interest * 10000, d * (10000 + rate), p); }
      (d * (10000 + rate)) * p;
      (d * p) * (10000 + rate);
    <= { MultiplyMonotone(d * p, debt * q, 10000 + rate); }
      (debt * q) * (10000 + rate);
      debt * ((10000 + rate) * q);
    }
  }

  /** k periods earn at least k times the interest of the first period. */
  lemma {:induction false} CompoundAtLeast(debt: nat, rate: nat, k: nat)
    ensures debt + k * (debt * rate / 10000) <= Compound(debt, rate, k)
  {
    if k != 0 {
      var d := Compound(debt, rate, k - 1);
      CompoundAtLeast(debt, rate, k - 1);
      MultiplyMonotone(debt, d, rate);
      DivisionMonotone(debt * rate, 10000, d * rate, 10000);
      var first := debt * rate / 10000;
      assert k * first == (k - 1) * first + first;
    }
  }

  /** Never more than compounding without rounding: debt * (1 + rate/10000)^k, multiplied out. */
  lemma {:induction false} CompoundAtMost(debt: nat, rate: nat, k: nat)
    ensures Compound(debt, rate, k) * Power(10000, k) <= debt * Power(10000 + rate, k)
  {
    if k != 0 {
      var d := Compound(debt, rate, k - 1);
      CompoundAtMost(debt, rate, k - 1);
      DivisionBound(d * rate, 10000, d * rate / 10000);
      PowerStep(debt, d, d * rate / 10000, rate, Power(10000, k - 1), Power(10000 + rate, k - 1));
    }
  }

  lemma PeriodsSplit(t: nat, t1: nat, t2: nat)
    requires t <= t1 <= t2
    ensures var k1 := PeriodsSince(t, t1);
      t + k1 * PERIOD <= t1
      && k1 + PeriodsSince(t + k1 * PERIOD, t2) == PeriodsSince(t, t2)
  {}

  /** Accruing at t1 and again at t2 is accruing once at t2. */
  lemma AccrueTwice(loan: Loan, t1: nat, t2: nat, rate: nat)
    requires loan.timestamp <= t1 <= t2
    ensures AccrueLoan(AccrueLoan(loan, t1, rate), t2, rate) == AccrueLoan(loan, t2, rate)
  {
    PeriodsSplit(loan.timestamp, t1, t2);
    var k1 := PeriodsSince(loan.timestamp, t1);
    CompoundAdd(loan.debt, rate, k1, PeriodsSince(loan.timestamp + k1 * PERIOD, t2));
  }

  // ---------- One loan, one call ----------

  function LoanAt(l: Ledger, u: Address, i: nat): Loan
    requires i < |LoansOf(l.bank.loanAccount, u)|
  {
    LoansOf(l.bank.loanAccount, u)[i]
  }

  ghost predicate HasLoan(l: Ledger, u: Address, i: nat) { i < |LoansOf(l.bank.loanAccount, u)| }

  /** The only calls that change loan i of borrower u, and what they make of it. */
  ghost function NextLoan(s: System, call: Call, u: Address, i: nat): Loan
    requires HasLoan(s.ledger, u, i)
  {
    var loan := LoanAt(s.ledger, u, i);
    var mine := call.context.sender == u;
    if Outcome(s, call).None? then loan
    else match call.op
      case ORepay(number, tokens, value) => if mine && number == i then RepaidLoan(loan, tokens) else loan
      case OTopUp(number, value) =>
        if !mine || number != i then loan
        else
          var rate := Pledge(loan.mortgage + value, loan.debt, call.context);
          loan.(
            mortgage := loan.mortgage + value,
            status := if rate >= WarningRate(call.context.config) then Normal else Warning)
      case OLiquidate => LiquidatedLoan(s, call, u, i)
      case _ => loan
  }

  ghost function LiquidatedLoan(s: System, call: Call, u: Address, i: nat): Loan
    requires HasLoan(s.ledger, u, i) && call.op.OLiquidate? && Outcome(s, call).Some?
  {
    var rate := call.context.config.loanInterestRate;
    var accrued := AccrueLoan(LoanAt(s.ledger, u, i), s.now + call.wait, rate);
    assert AccrueAccounts(s.ledger.bank.loanAccount, s.now + call.wait, rate)[u][i] == accrued;
    accrued.(status := ClassifyLoan(accrued, call.context))
  }

  lemma LiquidateLoan(s: System, call: Call, u: Address, i: nat)
    requires HasLoan(s.ledger, u, i) && call.op.OLiquidate? && Outcome(s, call).Some?
    ensures HasLoan(Outcome(s, call).value, u, i)
    ensures LoanAt(Outcome(s, call).value, u, i) == LiquidatedLoan(s, call, u, i)
  {}

  lemma OtherLoan(s: System, call: Call, u: Address, i: nat)
    requires HasLoan(s.ledger, u, i) && !call.op.OLiquidate? && Outcome(s, call).Some?
    ensures HasLoan(Outcome(s, call).value, u, i)
    ensures LoanAt(Outcome(s, call).value, u, i) == NextLoan(s, call, u, i)
  {
    hide Liquidate, PointsWith, TimesWith, BalancesWith, PointTotal;
    hide LoansRate, FirstInterest, Reserve, Pledge, WarningRate, RepaidLoan, BackUnit;
  }

  lemma StepLoan(s: System, call: Call, u: Address, i: nat)
    requires HasLoan(s.ledger, u, i)
    ensures HasLoan(Step(s, call).ledger, u, i)
    ensures LoanAt(Step(s, call).ledger, u, i) == NextLoan(s, call, u, i)
  {
    hide Outcome, LiquidatedLoan;
    if Outcome(s, call).Some? {
      if call.op.OLiquidate? {
        LiquidateLoan(s, call, u, i);
      } else {
        OtherLoan(s, call, u, i);
      }
    }
  }

  /** Liquidation never touches the terms of a loan or its collateral, only debt and status. */
  lemma LiquidatedKeepsTerms(s: System, call: Call, u: Address, i: nat)
    requires HasLoan(s.ledger, u, i) && call.op.OLiquidate? && Outcome(s, call).Some?
    ensures var a, b := LoanAt(s.ledger, u, i), LiquidatedLoan(s, call, u, i);
      b.mortgage == a.mortgage && b.initialDebt == a.initialDebt && a.debt <= b.debt
      && b.debt - b.interest == a.debt - a.interest
  {}

  /**
   Liquidation classifies completely: a live loan ends normal, in warning or closed exactly as its
   collateral rate after accrual lies above the warning rate, between the two rates, or below the
   liquidation rate; a closed loan stays closed.
   */
  lemma {:induction false} LiquidationClassifies(s: System, call: Call, u: Address, i: nat)
    requires HasLoan(s.ledger, u, i) && call.op.OLiquidate? && Outcome(s, call).Some?
    ensures HasLoan(Step(s, call).ledger, u, i)
    ensures var c := call.context;
      var a, b := LoanAt(s.ledger, u, i), LoanAt(Step(s, call).ledger, u, i);
      && LiquidationRate(c.config) <= WarningRate(c.config)
      && (a.status.Closed? ==> b == a.(timestamp := b.timestamp))
      && (!a.status.Closed? ==>
        && b.debt > 0 && c.ustnPrice > 0
        && (b.status.Normal? <==> Pledge(b.mortgage, b.debt, c) > WarningRate(c.config))
        && (b.status.Warning? <==>
            LiquidationRate(c.config) <= Pledge(b.mortgage, b.debt, c) <= WarningRate(c.config))
        && (b.status.Closed? <==> Pledge(b.mortgage, b.debt, c) < LiquidationRate(c.config)))
  {
    StepLoan(s, call, u, i);
    var p := call.context.config;
    MultiplyMonotone(p.liquidationRatio, 9900, p.loanPledgeRate);
    DivisionMonotone(p.loanPledgeRate * p.liquidationRatio, 10000, p.loanPledgeRate * 9900, 10000);
  }

  /** Accrual neither clears a debt nor creates one out of nothing. */
  lemma AccruedPriced(loans: seq<Loan>, now: nat, rate: nat, c: Context)
    ensures Priced(AccrueLoans(loans, now, rate), c) <==> Priced(loans, c)
  {
    var accrued := AccrueLoans(loans, now, rate);
    forall i | 0 <= i < |loans|
      ensures accrued[i].status == loans[i].status
      ensures !loans[i].status.Closed? ==> (accrued[i].debt > 0 <==> loans[i].debt > 0)
    {
      CompoundZero(rate, PeriodsSince(loans[i].timestamp, now));
    }
  }

  /** Liquidation goes through exactly when every live loan has a debt and USTN has a price. */
  lemma LiquidationRuns(l: Ledger, now: nat, c: Context)
    requires Inv(l, now)
    ensures Liquidate(l, now, c).Some? <==> c.liquidator && AllPriced(l.bank.loanAccount, c)
  {
    var accounts: map<Address, seq<Loan>> := l.bank.loanAccount;
    var rate := c.config.loanInterestRate;
    var accrued: map<Address, seq<Loan>> := AccrueAccounts(accounts, now, rate);
    forall u | u in accounts ensures Priced(accrued[u], c) <==> Priced(accounts[u], c) {
      AccruedPriced(accounts[u], now, rate, c);
    }
    forall u, i | u in accounts && 0 <= i < |accounts[u]| ensures accounts[u][i].timestamp <= now {
      assert LoansOk(accounts[u], now) && LoanOk(accounts[u][i], now);
    }
    assert accrued.Keys == accounts.Keys;
  }

  lemma {:induction false} CompoundZero(rate: nat, k: nat)
    ensures Compound(0, rate, k) == 0
  {
    if k != 0 {
      CompoundZero(rate, k - 1);
    }
  }

  // ---------- One loan, a whole run ----------

  /** A live loan without a debt, which no collateral rate can be computed for. */
  ghost predicate Rateless(l: Ledger, u: Address, i: nat) {
    HasLoan(l, u, i) && !LoanAt(l, u, i).status.Closed? && LoanAt(l, u, i).debt == 0
  }

  lemma StepRateless(s: System, call: Call, u: Address, i: nat)
    requires Rateless(s.ledger, u, i)
    ensures Rateless(Step(s, call).ledger, u, i)
    ensures call.op.OLiquidate? ==> Outcome(s, call).None?
  {
    if call.op.OLiquidate? {
      LiquidationBlocked(s.ledger, s.now + call.wait, call.context, u, i);
    } else {
      StepLoan(s, call, u, i);
    }
  }

  lemma LiquidationBlocked(l: Ledger, now: nat, c: Context, u: Address, i: nat)
    requires Rateless(l, u, i)
    ensures Liquidate(l, now, c).None?
  {
    var accounts: map<Address, seq<Loan>> := l.bank.loanAccount;
    var rate := c.config.loanInterestRate;
    CompoundZero(rate, PeriodsSince(LoanAt(l, u, i).timestamp, now));
    assert !Priced(AccrueAccounts(accounts, now, rate)[u], c) by {
      assert AccrueAccounts(accounts, now, rate)[u][i] == AccrueLoan(LoanAt(l, u, i), now, rate);
    }
  }

  /**
   One rateless loan blocks liquidation for good: it can be neither repaid, topped up nor closed,
   so in every later state liquidation fails, for every caller and at every price.
   */
  lemma {:induction false} RatelessBlocksForGood(s: System, calls: seq<Call>, u: Address, i: nat, wait: nat, c: Context)
    requires Rateless(s.ledger, u, i)
    ensures Rateless(Run(s, calls).ledger, u, i)
    ensures Liquidate(Run(s, calls).ledger, Run(s, calls).now + wait, c).None?
  {
    hide Step, Rateless;
    if calls != [] {
      RatelessBlocksForGood(s, calls[..|calls| - 1], u, i, wait, c);
      StepRateless(Run(s, calls[..|calls| - 1]), calls[|calls| - 1], u, i);
    }
    LiquidationBlocked(Run(s, calls).ledger, Run(s, calls).now + wait, c, u, i);
  }

  /** A new loan is rateless exactly when the prices of the day make nothing of its collateral. */
  lemma {:induction false} RatelessFromTheStart(l: Ledger, now: nat, c: Context, value: nat)
    requires Borrow(l, now, c, value).Some?
    ensures Rateless(Borrow(l, now, c, value).value, c.sender, |LoansOf(l.bank.loanAccount, c.sender)|)
      <==> LoansRate(value, c) == 0
  {
    var amount := LoansRate(value, c);
    hide LoansRate;
    var l' := Borrow(l, now, c, value).value;
    assert LoansOf(l'.bank.loanAccount, c.sender)
        == LoansOf(l.bank.loanAccount, c.sender) + [NewLoan(now, value, amount, c.config)];
  }

  lemma {:induction false} RunHasLoan(s: System, calls: seq<Call>, u: Address, i: nat)
    requires HasLoan(s.ledger, u, i)
    ensures HasLoan(Run(s, calls).ledger, u, i)
  {
    hide Step;
    if calls != [] {
      var before := calls[..|calls| - 1];
      RunHasLoan(s, before, u, i);
      StepLoan(Run(s, before), calls[|calls| - 1], u, i);
    }
  }

  lemma StepClosed(s: System, call: Call, u: Address, i: nat)
    requires HasLoan(s.ledger, u, i) && LoanAt(s.ledger, u, i).status.Closed?
    ensures HasLoan(Step(s, call).ledger, u, i)
    ensures var a, b := LoanAt(s.ledger, u, i), LoanAt(Step(s, call).ledger, u, i);
      b == a.(timestamp := b.timestamp)
  {
    StepLoan(s, call, u, i);
  }

  /** Closing is final: over any run a closed loan keeps its status and every amount. */
  lemma {:induction false} ClosedIsFinal(s: System, calls: seq<Call>, u: Address, i: nat)
    requires HasLoan(s.ledger, u, i) && LoanAt(s.ledger, u, i).status.Closed?
    ensures HasLoan(Run(s, calls).ledger, u, i)
    ensures var a, b := LoanAt(s.ledger, u, i), LoanAt(Run(s, calls).ledger, u, i);
      b == a.(timestamp := b.timestamp)
  {
    hide Step;
    if calls != [] {
      var before := calls[..|calls| - 1];
      ClosedIsFinal(s, before, u, i);
      StepClosed(Run(s, before), calls[|calls| - 1], u, i);
    }
  }

  /** The call neither repays loan i of u nor liquidates at another rate. */
  ghost predicate Undisturbed(call: Call, u: Address, i: nat, rate: nat) {
    && !(call.op.ORepay? && call.op.number == i && call.context.sender == u)
    && (call.op.OLiquidate? ==> call.context.config.loanInterestRate == rate)
  }

  /** When liquidation last went through. */
  ghost function LastLiquidation(s: System, calls: seq<Call>, otherwise: nat): nat {
    if calls == [] then otherwise
    else
      var before, call := calls[..|calls| - 1], calls[|calls| - 1];
      if call.op.OLiquidate? && Outcome(Run(s, before), call).Some? then Run(s, before).now + call.wait
      else LastLiquidation(s, before, otherwise)
  }

  lemma {:induction false} LastLiquidationBounds(s: System, calls: seq<Call>, otherwise: nat)
    requires otherwise <= s.now
    ensures otherwise <= LastLiquidation(s, calls, otherwise) <= Run(s, calls).now
    ensures s.now <= Run(s, calls).now
  {
    if calls != [] {
      LastLiquidationBounds(s, calls[..|calls| - 1], otherwise);
    }
  }

  ghost predicate SameAccrual(a: Loan, b: Loan) {
    a.debt == b.debt && a.interest == b.interest && a.timestamp == b.timestamp
  }

  lemma AccrueSame(a: Loan, b: Loan, now: nat, rate: nat)
    requires SameAccrual(a, b) && (a.status.Closed? <==> b.status.Closed?)
    ensures SameAccrual(AccrueLoan(a, now, rate), AccrueLoan(b, now, rate))
  {}

  /** One undisturbed call either accrues the loan up to now or leaves what it owes alone. */
  lemma StepAccrues(s: System, call: Call, u: Address, i: nat, rate: nat)
    requires HasLoan(s.ledger, u, i) && Undisturbed(call, u, i, rate)
    ensures HasLoan(Step(s, call).ledger, u, i)
    ensures var a, b := LoanAt(s.ledger, u, i), LoanAt(Step(s, call).ledger, u, i);
      SameAccrual(b, if call.op.OLiquidate? && Outcome(s, call).Some?
                     then AccrueLoan(a, s.now + call.wait, rate) else a)
  {
    StepLoan(s, call, u, i);
  }

  /**
   Compounding does not depend on when it is run: whatever calls are made in between, a loan that
   is still live and was not repaid owes exactly what one accrual at the time of the last
   liquidation gives.
   */
  lemma {:induction false} CompoundingRun(s: System, calls: seq<Call>, u: Address, i: nat, rate: nat)
    requires Inv(s.ledger, s.now) && HasLoan(s.ledger, u, i)
    requires forall j :: 0 <= j < |calls| ==> Undisturbed(calls[j], u, i, rate)
    requires HasLoan(Run(s, calls).ledger, u, i) && !LoanAt(Run(s, calls).ledger, u, i).status.Closed?
    ensures var t0 := LoanAt(s.ledger, u, i).timestamp;
      t0 <= s.now && SameAccrual(LoanAt(Run(s, calls).ledger, u, i),
                  AccrueLoan(LoanAt(s.ledger, u, i), LastLiquidation(s, calls, t0), rate))
  {
    hide Step, Outcome;
    LoansOfOk(s.ledger.bank, s.now, u);
    var loan := LoanAt(s.ledger, u, i);
    assert LoanOk(loan, s.now);
    if loan.status.Closed? {
      ClosedIsFinal(s, calls, u, i);
      assert false;
    }
    if calls != [] {
      var before, call := calls[..|calls| - 1], calls[|calls| - 1];
      var mid := Run(s, before);
      RunHasLoan(s, before, u, i);
      if LoanAt(mid.ledger, u, i).status.Closed? {
        StepClosed(mid, call, u, i);
        assert false;
      }
      CompoundingRun(s, before, u, i, rate);
      LastLiquidationBounds(s, before, loan.timestamp);
      StepAccrues(mid, call, u, i, rate);
      var t := LastLiquidation(s, before, loan.timestamp);
      AccrueTwice(loan, t, mid.now + call.wait, rate);
      AccrueSame(LoanAt(mid.ledger, u, i), AccrueLoan(loan, t, rate), mid.now + call.wait, rate);
    } else {
      assert PeriodsSince(loan.timestamp, loan.timestamp) == 0;
    }
  }

  /** Two schedules whose last liquidation is at the same time leave the loan owing the same. */
  lemma {:induction false} ScheduleIndependent(s: System, calls: seq<Call>, others: seq<Call>, u: Address, i: nat,
      rate: nat)
    requires Inv(s.ledger, s.now) && HasLoan(s.ledger, u, i)
    requires forall j :: 0 <= j < |calls| ==> Undisturbed(calls[j], u, i, rate)
    requires forall j :: 0 <= j < |others| ==> Undisturbed(others[j], u, i, rate)
    requires LastLiquidation(s, calls, LoanAt(s.ledger, u, i).timestamp)
          == LastLiquidation(s, others, LoanAt(s.ledger, u, i).timestamp)
    requires HasLoan(Run(s, calls).ledger, u, i) && !LoanAt(Run(s, calls).ledger, u, i).status.Closed?
    requires HasLoan(Run(s, others).ledger, u, i) && !LoanAt(Run(s, others).ledger, u, i).status.Closed?
    ensures SameAccrual(LoanAt(Run(s, calls).ledger, u, i), LoanAt(Run(s, others).ledger, u, i))
  {
    hide Step, Outcome;
    CompoundingRun(s, calls, u, i, rate);
    CompoundingRun(s, others, u, i, rate);
  }

  // ---------- Repayment and collateral ----------

  /** Giving back no more than the repaid share of m keeps m/d from falling. */
  lemma RatioStep(m: nat, d: nat, r: nat, t: nat, w: nat)
    requires t <= d && r <= m && r * d <= m * t
    ensures m * w * (d - t) <= (m - r) * w * d
  {
    assert m * (d - t) == m * d - m * t;
    assert (m - r) * d == m * d - r * d;
    MultiplyMonotone(m * (d - t), (m - r) * d, w);
    assert m * w * (d - t) == m * (d - t) * w;
    assert (m - r) * w * d == (m - r) * d * w;
  }

  lemma PledgeAfterRelease(m: nat, d: nat, r: nat, t: nat, c: Context)
    requires t < d && r <= m && r * d <= m * t && c.ustnPrice > 0
    ensures Pledge(m, d, c) <= Pledge(m - r, d - t, c)
  {
    var w := c.unitPrice * 10000;
    RatioStep(m, d, r, t, w);
    assert m * c.unitPrice * 10000 == m * w && (m - r) * c.unitPrice * 10000 == (m - r) * w;
    FloorsMonotone(m * w, d, (m - r) * w, d - t, c.ustnPrice);
  }

  lemma FloorsMonotone(p: nat, d: nat, q: nat, e: nat, price: nat)
    requires d > 0 && e > 0 && price > 0 && p * e <= q * d
    ensures p / d / price <= q / e / price
  {
    DivisionMonotone(p, d, q, e);
    var x, y := p / d, q / e;
    MultiplyMonotone(x, y, price);
    DivisionMonotone(x, price, y, price);
  }

  /** At fixed prices a partial repayment never lowers the collateral rate, in spite of rounding. */
  lemma {:induction false} RepaymentNeverWorsens(loan: Loan, tokens: nat, c: Context)
    requires 0 < tokens < loan.debt && c.ustnPrice > 0
    ensures RepaidLoan(loan, tokens).debt > 0
    ensures Pledge(loan.mortgage, loan.debt, c)
         <= Pledge(RepaidLoan(loan, tokens).mortgage, RepaidLoan(loan, tokens).debt, c)
  {
    hide Pledge;
    PledgeAfterRelease(loan.mortgage, loan.debt, BackUnit(loan, tokens), tokens, c);
  }

  /** UNIT posted to, and released from, loan i of u by one call. */
  ghost function Posted(s: System, call: Call, u: Address, i: nat): nat {
    if call.op.OTopUp? && Outcome(s, call).Some? && call.context.sender == u && call.op.number == i
    then call.op.value else 0
  }

  ghost function Released(s: System, call: Call, u: Address, i: nat): nat
    requires HasLoan(s.ledger, u, i)
  {
    if call.op.ORepay? && Outcome(s, call).Some? && call.context.sender == u && call.op.number == i
    then BackUnit(LoanAt(s.ledger, u, i), call.op.tokens) else 0
  }

  ghost function RunPosted(s: System, calls: seq<Call>, u: Address, i: nat): nat {
    if calls == [] then 0
    else RunPosted(s, calls[..|calls| - 1], u, i) + Posted(Run(s, calls[..|calls| - 1]), calls[|calls| - 1], u, i)
  }

  ghost function RunReleased(s: System, calls: seq<Call>, u: Address, i: nat): nat
    requires HasLoan(s.ledger, u, i)
  {
    if calls == [] then 0
    else
      var before := calls[..|calls| - 1];
      RunHasLoan(s, before, u, i);
      RunReleased(s, before, u, i) + Released(Run(s, before), calls[|calls| - 1], u, i)
  }

  lemma StepCollateral(s: System, call: Call, u: Address, i: nat)
    requires HasLoan(s.ledger, u, i)
    ensures HasLoan(Step(s, call).ledger, u, i)
    ensures LoanAt(Step(s, call).ledger, u, i).mortgage + Released(s, call, u, i)
         == LoanAt(s.ledger, u, i).mortgage + Posted(s, call, u, i)
  {
    StepLoan(s, call, u, i);
  }

  /** Over any run, what was released from a loan plus the collateral still recorded equals what was posted. */
  lemma {:induction false} CollateralAccounted(s: System, calls: seq<Call>, u: Address, i: nat)
    requires HasLoan(s.ledger, u, i)
    ensures HasLoan(Run(s, calls).ledger, u, i)
    ensures LoanAt(Run(s, calls).ledger, u, i).mortgage + RunReleased(s, calls, u, i)
         == LoanAt(s.ledger, u, i).mortgage + RunPosted(s, calls, u, i)
  {
    hide Step, Outcome;
    if calls != [] {
      var before := calls[..|calls| - 1];
      RunHasLoan(s, before, u, i);
      CollateralAccounted(s, before, u, i);
      StepCollateral(Run(s, before), calls[|calls| - 1], u, i);
    }
  }
}
