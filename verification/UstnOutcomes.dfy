/**
 What each USTN transaction gives, and when, in terms of the amounts before and after. Every rounded
 amount is a parameter that is pinned by two inequalities, so nothing here depends on how it is computed.
 */
module UstnOutcomes {
  import opened Prelude
  import opened UstnModel
  import opened UstnInvariants
  import opened UstnLoans

  // ---------- Deposits ----------

  /** The part of a deposit that can be lent on. */
  ghost predicate IsReserve(reserve: nat, tokens: nat, p: Config) {
    IsFloor(reserve, tokens * (10000 - p.reserveRatio), 10000)
  }

  lemma ReserveIs(reserve: nat, tokens: nat, p: Config)
    ensures IsReserve(reserve, tokens, p) <==> reserve == Reserve(tokens, p)
  {
    FloorIs(reserve, tokens * (10000 - p.reserveRatio), 10000);
  }

  /** A deposit of at least the minimum that is held: it moves from one balance to the other. */
  lemma DepositGives(l: Ledger, now: nat, c: Context, tokens: nat, reserve: nat)
    requires IsReserve(reserve, tokens, c.config)
    ensures Deposit(l, now, c, tokens).Some? <==> MIN_AMOUNT <= tokens <= Get(l.token.balance, c.sender)
    ensures Deposit(l, now, c, tokens).Some? ==>
      var b, l' := l.bank, Deposit(l, now, c, tokens).value;
      var b' := l'.bank;
      && b'.bankLoanLimit == b.bankLoanLimit + reserve
      && (forall u: Address :: Get(b'.depositBalances, u)
            == Get(b.depositBalances, u) + if u == c.sender then tokens else 0)
      && (forall u: Address :: Get(l'.token.balance, u)
            == Get(l.token.balance, u) - if u == c.sender then tokens else 0)
      && b'.depositUsers == b.depositUsers + (if c.sender in b.depositers then [] else [c.sender])
      && (c.sender !in b.depositers ==> Get(b'.pastTime, c.sender) == now)
      && b'.depositPoint == b.depositPoint && l'.token.totalSupply == l.token.totalSupply
  {
    ReserveIs(reserve, tokens, c.config);
    hide Reserve;
    assert l.bank.depositUsers + [] == l.bank.depositUsers;
  }

  lemma WithdrawalGives(l: Ledger, now: nat, c: Context, tokens: nat, reserve: nat)
    requires IsReserve(reserve, tokens, c.config)
    ensures Withdraw(l, now, c, tokens).Some? <==>
      tokens <= Get(l.bank.depositBalances, c.sender) && reserve <= l.bank.bankLoanLimit
    ensures Withdraw(l, now, c, tokens).Some? ==>
      var l' := Withdraw(l, now, c, tokens).value;
      && l'.bank.bankLoanLimit == l.bank.bankLoanLimit - reserve
      && (forall u: Address :: Get(l'.bank.depositBalances, u)
            == Get(l.bank.depositBalances, u) - if u == c.sender then tokens else 0)
      && (forall u: Address :: Get(l'.token.balance, u)
            == Get(l.token.balance, u) + if u == c.sender then tokens else 0)
      && l'.token.totalSupply == l.token.totalSupply
  {
    ReserveIs(reserve, tokens, c.config);
    hide Reserve;
  }

  /** The points of a depositor after a distribution: balance times whole periods are added. */
  ghost predicate Pointed(b: Bank, b': Bank, now: nat, u: Address) {
    exists k: nat ::
      && Get(b.pastTime, u) <= now && IsFloor(k, now - Get(b.pastTime, u), PERIOD)
      && Get(b'.depositPoint, u) == Get(b.depositPoint, u) + Get(b.depositBalances, u) * k
      && Get(b'.pastTime, u) == Get(b.pastTime, u) + k * PERIOD
  }

  ghost function PointOf(b: Bank): Address -> nat { (u: Address) => Get(b.depositPoint, u) }

  /** The interest a depositor gets is the proportion that its new points are of all new points. */
  ghost predicate Rewarded(b: Bank, b': Bank, u: Address) {
    && Get(b.depositBalances, u) <= Get(b'.depositBalances, u)
    && IsFloor(Get(b'.depositBalances, u) - Get(b.depositBalances, u),
               b.loansTotalInterest * Get(b'.depositPoint, u), SumOf(b.depositUsers, PointOf(b')))
  }

  lemma PeriodsAre(t: nat, now: nat)
    requires t <= now
    ensures IsFloor(PeriodsSince(t, now), now - t, PERIOD)
  {
    FloorIs(PeriodsSince(t, now), now - t, PERIOD);
  }

  lemma {:induction false} PointsListed(b: Bank, b': Bank, now: nat, users: seq<Address>)
    requires forall u :: u in users ==> Get(b'.depositPoint, u) == PointAfter(b, now, u)
    ensures SumOf(users, PointOf(b')) == PointTotal(b, now, users)
  {
    hide PointAfter;
    if users != [] { PointsListed(b, b', now, users[..|users| - 1]); }
  }

  /**
   Everyone's points grow by balance times whole periods, and everyone's balance by the exact
   proportion of the collected interest that its new points are of all new points, rounded down.
   */
  lemma {:induction false} DistributionGives(l: Ledger, l': Ledger, now: nat, c: Context, u: Address)
    requires BankOk(l.bank, now) && Distribute(l, now, c) == Some(l') && u in l.bank.depositUsers
    ensures Pointed(l.bank, l'.bank, now, u) && Rewarded(l.bank, l'.bank, u)
  {
    hide Distribute, PointTotal, SumOf, PointAfter, TimeAfter, IsFloor;
    var b, b' := l.bank, l'.bank;
    forall v | v in b.depositUsers ensures Get(b'.depositPoint, v) == PointAfter(b, now, v) {
      Dealt(l, l', now, c, v);
    }
    Dealt(l, l', now, c, u);
    PointsListed(b, b', now, b.depositUsers);
    assert u in b.depositers;
    PointedAfter(b, b', now, u);
    hide BankOk, Pointed, Rewarded;
    RewardedBy(b, b', u, PointTotal(b, now, b.depositUsers));
  }

  lemma RewardedBy(b: Bank, b': Bank, u: Address, total: nat)
    requires total > 0 && total == SumOf(b.depositUsers, PointOf(b'))
    requires Get(b'.depositBalances, u)
          == Get(b.depositBalances, u) + b.loansTotalInterest * Get(b'.depositPoint, u) / total
    ensures Rewarded(b, b', u)
  {
    hide SumOf;
    var x := b.loansTotalInterest * Get(b'.depositPoint, u);
    FloorIs(x / total, x, total);
  }

  lemma PointedAfter(b: Bank, b': Bank, now: nat, u: Address)
    requires Get(b.pastTime, u) <= now
    requires Get(b'.depositPoint, u) == PointAfter(b, now, u) && Get(b'.pastTime, u) == TimeAfter(b, now, u)
    ensures Pointed(b, b', now, u)
  {
    PeriodsAre(Get(b.pastTime, u), now);
  }

  /** What a distribution writes for one depositor. */
  lemma Dealt(l: Ledger, l': Ledger, now: nat, c: Context, u: Address)
    requires Distribute(l, now, c) == Some(l') && u in l.bank.depositUsers
    ensures PointTotal(l.bank, now, l.bank.depositUsers) > 0
    ensures var b, b' := l.bank, l'.bank;
      && Get(b'.depositPoint, u) == PointAfter(b, now, u) && Get(b'.pastTime, u) == TimeAfter(b, now, u)
      && Get(b'.depositBalances, u) == Get(b.depositBalances, u)
         + b.loansTotalInterest * PointAfter(b, now, u) / PointTotal(b, now, b.depositUsers)
  {
    hide PointAfter, TimeAfter;
  }

  /** A distribution goes through exactly for the foundation, and once someone has points to show. */
  lemma {:induction false} DistributesExactlyWhen(l: Ledger, now: nat, c: Context)
    requires Inv(l, now)
    ensures Distribute(l, now, c).Some? <==>
      && c.foundation
      && (l.bank.depositUsers == [] || exists u :: u in l.bank.depositUsers && HasPoints(l.bank, now, u))
  {
    var b := l.bank;
    assert forall u :: u in b.depositUsers ==> u in b.depositers;
    TotalPositive(b, now, b.depositUsers);
    hide PointTotal;
  }

  /** Points from before, or a balance held for a whole period since. */
  ghost predicate HasPoints(b: Bank, now: nat, u: Address) {
    Get(b.depositPoint, u) > 0 || (Get(b.depositBalances, u) > 0 && now >= Get(b.pastTime, u) + PERIOD)
  }

  lemma {:induction false} TotalPositive(b: Bank, now: nat, users: seq<Address>)
    ensures PointTotal(b, now, users) > 0 <==> exists u :: u in users && HasPoints(b, now, u)
  {
    if users != [] {
      var rest, v := users[..|users| - 1], users[|users| - 1];
      TotalPositive(b, now, rest);
      PointsPositive(b, now, v);
      assert forall u :: u in users <==> u in rest || u == v;
    }
  }

  lemma PointsPositive(b: Bank, now: nat, u: Address)
    ensures PointAfter(b, now, u) > 0 <==> HasPoints(b, now, u)
  {
    var k, balance := PeriodsSince(Get(b.pastTime, u), now), Get(b.depositBalances, u);
    assert k > 0 <==> now >= Get(b.pastTime, u) + PERIOD;
    assert balance * k > 0 <==> balance > 0 && k > 0;
  }

  // ---------- Borrowing ----------

  /** What the UNIT sent in is worth in USTN, and the part of it that is lent. */
  ghost predicate IsLoan(worth: nat, amount: nat, value: nat, c: Context) {
    IsFloor(worth, c.unitPrice * value, c.ustnPrice) && IsFloor(amount, worth * c.config.loanPledgeRate, 10000)
  }

  lemma LoanIs(worth: nat, amount: nat, value: nat, c: Context)
    requires c.ustnPrice > 0
    ensures IsLoan(worth, amount, value, c) ==> amount == LoansRate(value, c)
  {
    FloorIs(worth, c.unitPrice * value, c.ustnPrice);
    FloorIs(amount, worth * c.config.loanPledgeRate, 10000);
  }

  /**
   A loan: the borrower gets the pledged part of the worth of its UNIT, and owes that and one period's
   interest, which is added to the supply, to the interest to distribute and to interestMint.
   */
  lemma BorrowingGives(l: Ledger, now: nat, c: Context, value: nat, worth: nat, amount: nat, interest: nat)
    requires c.ustnPrice > 0 && IsLoan(worth, amount, value, c)
    requires IsFloor(interest, amount * c.config.loanInterestRate, 10000)
    ensures Borrow(l, now, c, value).Some? <==> value >= MIN_AMOUNT && amount <= l.bank.bankLoanLimit
    ensures Borrow(l, now, c, value).Some? ==>
      var b, l', u := l.bank, Borrow(l, now, c, value).value, c.sender;
      var b' := l'.bank;
      && LoansOf(b'.loanAccount, u)
         == LoansOf(b.loanAccount, u) + [Loan(now, amount, value, amount + interest, interest, Normal)]
      && (forall v: Address :: v != u ==> LoansOf(b'.loanAccount, v) == LoansOf(b.loanAccount, v))
      && b'.bankLoanLimit == b.bankLoanLimit - amount
      && b'.loansTotalInterest == b.loansTotalInterest + interest
      && b'.interestMint == b.interestMint + interest
      && b'.unitBalance == b.unitBalance + value
      && (forall v: Address :: Get(l'.token.balance, v) == Get(l.token.balance, v) + if v == u then amount else 0)
      && l'.token.totalSupply == l.token.totalSupply + amount + interest
  {
    LoanIs(worth, amount, value, c);
    FloorIs(interest, amount * c.config.loanInterestRate, 10000);
    hide LoansRate;
  }

  /** Without a price of USTN nothing is lent. */
  lemma {:induction false} NothingLentUnpriced(s: System, call: Call)
    requires call.context.ustnPrice == 0 && (call.op.OBorrow? || call.op.OTopUp?)
    ensures Step(s, call).ledger == s.ledger
  {}

  // ---------- The collateral rate ----------

  /** A position's collateral value over its debt, in hundredths of a percent. */
  ghost predicate IsRate(rate: nat, mortgage: nat, debt: nat, c: Context) {
    IsFloor(rate, mortgage * c.unitPrice * 10000, debt * c.ustnPrice)
  }

  lemma RateIs(rate: nat, mortgage: nat, debt: nat, c: Context)
    requires debt > 0 && c.ustnPrice > 0
    ensures IsRate(rate, mortgage, debt, c) <==> rate == Pledge(mortgage, debt, c)
  {
    FloorsCompose(rate, mortgage * c.unitPrice * 10000, debt, c.ustnPrice);
  }

  /** Comparing with a rounded line is comparing with the line itself. */
  lemma LineIs(rate: nat, line: nat)
    ensures rate > line / 10000 <==> rate * 10000 > line
    ensures rate >= line / 10000 <==> (rate + 1) * 10000 > line
  {}

  /** 99% of the pledge rate, and the liquidation ratio's part of it, times ten thousand. */
  function WarningLine(p: Config): nat { p.loanPledgeRate * 9900 }

  function LiquidationLine(p: Config): nat { p.loanPledgeRate * p.liquidationRatio }

  /** A top-up adds its UNIT to a live loan of the sender, which is normal or in warning by its new rate. */
  lemma TopUpGives(l: Ledger, now: nat, c: Context, number: nat, value: nat, rate: nat)
    requires number < |LoansOf(l.bank.loanAccount, c.sender)| && c.ustnPrice > 0
    requires var loan := LoansOf(l.bank.loanAccount, c.sender)[number];
      loan.debt > 0 && IsRate(rate, loan.mortgage + value, loan.debt, c)
    ensures var loan := LoansOf(l.bank.loanAccount, c.sender)[number];
      && (TopUp(l, now, c, number, value).Some? <==> !loan.status.Closed?)
      && (TopUp(l, now, c, number, value).Some? ==>
            var l' := TopUp(l, now, c, number, value).value;
            && LoansOf(l'.bank.loanAccount, c.sender) == LoansOf(l.bank.loanAccount, c.sender)[number :=
                 loan.(mortgage := loan.mortgage + value,
                       status := if (rate + 1) * 10000 > WarningLine(c.config) then Normal else Warning)]
            && l'.bank.unitBalance == l.bank.unitBalance + value && l'.token == l.token)
  {
    var loan := LoansOf(l.bank.loanAccount, c.sender)[number];
    RateIs(rate, loan.mortgage + value, loan.debt, c);
    LineIs(rate, WarningLine(c.config));
    hide Pledge, IsRate;
  }

  // ---------- Repayment ----------

  /** The loan a repayment is for, before and after. */
  ghost predicate Repays(l: Ledger, l': Ledger, now: nat, c: Context, number: nat, tokens: nat, value: nat,
      a: Loan, b: Loan) {
    && Repay(l, now, c, number, tokens, value) == Some(l')
    && number < |LoansOf(l.bank.loanAccount, c.sender)| == |LoansOf(l'.bank.loanAccount, c.sender)|
    && a == LoansOf(l.bank.loanAccount, c.sender)[number] && b == LoansOf(l'.bank.loanAccount, c.sender)[number]
  }

  /**
   A repayment: interest is paid before principal, the principal goes back to the lending limit, and
   the borrower pays no more than the debt. Only a payment short of the interest lowers interestMint.
   */
  lemma RepaymentGives(l: Ledger, l': Ledger, now: nat, c: Context, number: nat, tokens: nat, value: nat,
      a: Loan, b: Loan)
    requires Repays(l, l', now, c, number, tokens, value, a, b) && a.interest <= a.debt
    ensures var cost := if tokens >= a.debt then a.debt else tokens;
      && b.debt == a.debt - cost
      && b.interest == (if a.interest <= cost then 0 else a.interest - cost)
      && b.status == (if tokens >= a.debt then Closed else a.status)
      && b.timestamp == a.timestamp && b.initialDebt == a.initialDebt && b.mortgage <= a.mortgage
      && l'.bank.bankLoanLimit - l.bank.bankLoanLimit == (a.debt - a.interest) - (b.debt - b.interest)
      && l'.bank.interestMint == l.bank.interestMint - (if tokens < a.interest then tokens else 0)
      && l'.bank.unitBalance == l.bank.unitBalance + value - (a.mortgage - b.mortgage)
      && (forall u: Address :: Get(l'.token.balance, u)
            == Get(l.token.balance, u) - if u == c.sender then cost else 0)
      && l'.token.totalSupply == l.token.totalSupply && l'.lots == l.lots
      && l'.bank.loansTotalInterest == l.bank.loansTotalInterest
  {
    hide BackUnit;
  }

  lemma MortgageAfter(l: Ledger, l': Ledger, now: nat, c: Context, number: nat, tokens: nat, value: nat,
      a: Loan, b: Loan)
    requires Repays(l, l', now, c, number, tokens, value, a, b)
    ensures a.debt > 0 && tokens > 0 && b.mortgage == a.mortgage - BackUnit(a, tokens)
  {
    hide BackUnit;
  }

  /** What comes back: all collateral with the whole debt, otherwise the repaid share, rounded twice. */
  lemma ReleaseIs(l: Ledger, l': Ledger, now: nat, c: Context, number: nat, tokens: nat, value: nat,
      a: Loan, b: Loan, share: nat, released: nat)
    requires Repays(l, l', now, c, number, tokens, value, a, b)
    requires tokens < a.debt ==>
      IsFloor(share, tokens * MULTIPLE, a.debt) && IsFloor(released, a.mortgage * share, MULTIPLE)
    ensures b.mortgage == if tokens >= a.debt then 0 else a.mortgage - released
  {
    MortgageAfter(l, l', now, c, number, tokens, value, a, b);
    if tokens < a.debt {
      FloorIs(share, tokens * MULTIPLE, a.debt);
      FloorIs(released, a.mortgage * share, MULTIPLE);
    }
  }

  /** Two roundings lose less than d + m * d / q against the exact share. */
  lemma ReleaseAtLeast(m: nat, t: nat, d: nat, q: nat, share: nat, r: nat)
    requires d > 0 && q > 0 && IsFloor(share, t * q, d) && IsFloor(r, m * share, q)
    ensures q * (m * t - r * d) < d * (m + q)
  {
    MultiplyMonotone(t * q, (share + 1) * d, m);
    MultiplyMonotone(m * share, (r + 1) * q - 1, d);
    hide IsFloor;
    LossBound(m, t, d, q, share, r);
  }

  lemma LossBound(m: int, t: int, d: int, q: int, share: int, r: int)
    requires d > 0 && t * q * m <= (share + 1) * d * m && m * share * d <= ((r + 1) * q - 1) * d
    ensures q * (m * t - r * d) < d * (m + q)
  {
    assert (share + 1) * d * m == m * share * d + d * m;
    assert ((r + 1) * q - 1) * d == q * (r * d) + q * d - d;
    assert q * (m * t - r * d) == t * q * m - q * (r * d) by {
      assert q * (m * t) == t * q * m;
    }
  }

  /** A partial repayment releases the repaid share of the collateral: no more, and short by rounding only. */
  lemma PartialReleaseFair(l: Ledger, l': Ledger, now: nat, c: Context, number: nat, tokens: nat, value: nat,
      a: Loan, b: Loan)
    requires Repays(l, l', now, c, number, tokens, value, a, b) && tokens < a.debt
    ensures b.mortgage <= a.mortgage
    ensures var r := a.mortgage - b.mortgage;
      && r * a.debt <= a.mortgage * tokens
      && MULTIPLE * (a.mortgage * tokens - r * a.debt) < a.debt * (a.mortgage + MULTIPLE)
  {
    MortgageAfter(l, l', now, c, number, tokens, value, a, b);
    var share, r := BackPercent(a, tokens), BackUnit(a, tokens);
    FloorIs(share, tokens * MULTIPLE, a.debt);
    FloorIs(r, a.mortgage * share, MULTIPLE);
    hide BackUnit, BackPercent, IsFloor;
    ReleaseAtLeast(a.mortgage, tokens, a.debt, MULTIPLE, share, r);
  }

  // ---------- Liquidation ----------

  /** The debt at the end of each of k periods, each of which charges its interest, rounded down. */
  ghost predicate Charged(ds: seq<nat>, first: nat, last: nat, rate: nat, k: nat) {
    && |ds| == k + 1 && ds[0] == first && ds[k] == last
    && forall j :: 0 <= j < k ==> ds[j] <= ds[j + 1] && IsFloor(ds[j + 1] - ds[j], ds[j] * rate, 10000)
  }

  lemma {:induction false} CompoundCharges(debt: nat, rate: nat, k: nat) returns (ds: seq<nat>)
    ensures Charged(ds, debt, Compound(debt, rate, k), rate, k)
  {
    if k == 0 {
      ds := [debt];
    } else {
      var d := Compound(debt, rate, k - 1);
      var before := CompoundCharges(debt, rate, k - 1);
      ds := before + [d + d * rate / 10000];
      FloorIs(d * rate / 10000, d * rate, 10000);
      hide IsFloor;
    }
  }

  /**
   What a live loan owes some time later: the whole periods since its time stamp are charged, one by
   one, and no others; so at least their simple interest, and at most exact compounding.
   */
  ghost predicate ChargedUpTo(a: Loan, b: Loan, now: nat, rate: nat) {
    exists k: nat ::
      && a.timestamp <= now && IsFloor(k, now - a.timestamp, PERIOD)
      && b.timestamp == a.timestamp + k * PERIOD
      && b.debt - a.debt == b.interest - a.interest
      && (exists ds :: Charged(ds, a.debt, b.debt, rate, k))
      && a.debt + k * (a.debt * rate / 10000) <= b.debt
      && b.debt * Power(10000, k) <= a.debt * Power(10000 + rate, k)
  }

  lemma AccrueCharges(a: Loan, now: nat, rate: nat)
    requires !a.status.Closed? && a.timestamp <= now
    ensures ChargedUpTo(a, AccrueLoan(a, now, rate), now, rate)
  {
    var k := PeriodsSince(a.timestamp, now);
    PeriodsAre(a.timestamp, now);
    var ds := CompoundCharges(a.debt, rate, k);
    CompoundAtLeast(a.debt, rate, k);
    CompoundAtMost(a.debt, rate, k);
    hide Charged, IsFloor;
  }

  /**
   A liquidation charges every live loan the whole periods since its time stamp, keeps its terms and
   collateral, and classifies it by its rate after that against both lines. A closed loan stays closed.
   */
  lemma {:induction false} LiquidationGives(s: System, call: Call, u: Address, i: nat, rate: nat)
    requires HasLoan(s.ledger, u, i) && call.op.OLiquidate? && Outcome(s, call).Some?
    requires HasLoan(Step(s, call).ledger, u, i) && !LoanAt(s.ledger, u, i).status.Closed?
    requires var b := LoanAt(Step(s, call).ledger, u, i); IsRate(rate, b.mortgage, b.debt, call.context)
    ensures var c, a, b := call.context, LoanAt(s.ledger, u, i), LoanAt(Step(s, call).ledger, u, i);
      && ChargedUpTo(a, b, s.now + call.wait, c.config.loanInterestRate)
      && b.mortgage == a.mortgage && b.initialDebt == a.initialDebt
      && (b.status.Normal? <==> rate * 10000 > WarningLine(c.config))
      && (b.status.Closed? <==> (rate + 1) * 10000 <= LiquidationLine(c.config))
  {
    var c, a, b := call.context, LoanAt(s.ledger, u, i), LoanAt(Step(s, call).ledger, u, i);
    assert a.timestamp <= s.now + call.wait by {
      assert s.ledger.bank.loanAccount[u][i] == a;
    }
    LiquidationClassifies(s, call, u, i);
    StepLoan(s, call, u, i);
    hide Step, Outcome, IsRate, Pledge, ChargedUpTo;
    AccrueCharges(a, s.now + call.wait, c.config.loanInterestRate);
    StatusApart(a, b, s.now + call.wait, c.config.loanInterestRate);
    RateIs(rate, b.mortgage, b.debt, c);
    LineIs(rate, WarningLine(c.config));
    LineIs(rate, LiquidationLine(c.config));
  }

  /** The status plays no part in what is charged. */
  lemma StatusApart(a: Loan, b: Loan, now: nat, rate: nat)
    requires ChargedUpTo(a, AccrueLoan(a, now, rate), now, rate) && b == AccrueLoan(a, now, rate).(status := b.status)
    ensures ChargedUpTo(a, b, now, rate)
  {
    hide AccrueLoan, Charged, IsFloor;
  }

  /**
   Over a run, what is charged to a loan that is still live and was not repaid is the whole periods up
   to the last liquidation, whatever other liquidations there were.
   */
  lemma {:induction false} RunCharges(s: System, calls: seq<Call>, u: Address, i: nat, rate: nat)
    requires Inv(s.ledger, s.now) && HasLoan(s.ledger, u, i)
    requires forall j :: 0 <= j < |calls| ==> Undisturbed(calls[j], u, i, rate)
    requires HasLoan(Run(s, calls).ledger, u, i) && !LoanAt(Run(s, calls).ledger, u, i).status.Closed?
    ensures var a, b := LoanAt(s.ledger, u, i), LoanAt(Run(s, calls).ledger, u, i);
      var last := LastLiquidation(s, calls, a.timestamp);
      a.timestamp <= last <= Run(s, calls).now && ChargedUpTo(a, b, last, rate)
  {
    hide Step;
    var a, b := LoanAt(s.ledger, u, i), LoanAt(Run(s, calls).ledger, u, i);
    var last := LastLiquidation(s, calls, a.timestamp);
    CompoundingRun(s, calls, u, i, rate);
    LastLiquidationBounds(s, calls, a.timestamp);
    if a.status.Closed? {
      ClosedIsFinal(s, calls, u, i);
      assert false;
    }
    AccrueCharges(a, last, rate);
    hide Run, LastLiquidation, AccrueLoan, Charged, IsFloor;
  }

  /** Every lot that a liquidation opens is open for bids until ten minutes later, at the debt it stands for. */
  ghost predicate FreshLot(lot: Lot, now: nat) {
    && lot.timeOver == now + 600 && !lot.settled && lot.bider == 0 && lot.bids == map[]
    && lot.nowValue == lot.startValue
  }

  lemma {:induction false} LoansLotsFresh(loans: seq<Loan>, now: nat, c: Context)
    requires Priced(loans, c)
    ensures forall n :: 0 <= n < |LoansLots(loans, now, c)| ==> FreshLot(LoansLots(loans, now, c)[n], now)
  {
    if loans != [] { LoansLotsFresh(loans[..|loans| - 1], now, c); }
  }

  lemma {:induction false} AccountsLotsFresh(users: seq<Address>, accounts: map<Address, seq<Loan>>, now: nat,
      c: Context)
    requires AllPriced(accounts, c)
    ensures forall n :: 0 <= n < |AccountsLots(users, accounts, now, c)| ==>
      FreshLot(AccountsLots(users, accounts, now, c)[n], now)
  {
    hide FreshLot;
    if users != [] {
      AccountsLotsFresh(users[..|users| - 1], accounts, now, c);
      LoansLotsFresh(LoansOf(accounts, users[|users| - 1]), now, c);
    }
  }

  /** A liquidation leaves the lots there are as they are, and adds fresh ones. */
  lemma {:induction false} LotsOpened(l: Ledger, now: nat, c: Context)
    requires Liquidate(l, now, c).Some?
    ensures l.lots <= Liquidate(l, now, c).value.lots
    ensures forall n :: |l.lots| <= n < |Liquidate(l, now, c).value.lots| ==>
      FreshLot(Liquidate(l, now, c).value.lots[n], now)
  {
    AccountsLotsFresh(l.bank.loanUsers, AccrueAccounts(l.bank.loanAccount, now, c.config.loanInterestRate), now, c);
    hide FreshLot;
  }

  // ---------- Auctions ----------

  /**
   A bid goes through exactly while the lot is open, with the bidder's earlier bid above the price, and
   more than the bid held. It then leads; its amount goes to the manager, and every other bid stays.
   */
  lemma BidGives(l: Ledger, now: nat, c: Context, n: nat, amount: nat)
    ensures Bid(l, now, c, n, amount).Some? <==>
      && n < |l.lots| && now < l.lots[n].timeOver
      && l.lots[n].nowValue < Get(l.lots[n].bids, c.sender) + amount
      && amount < Get(l.token.balance, c.sender)
    ensures Bid(l, now, c, n, amount).Some? ==>
      var l', u := Bid(l, now, c, n, amount).value, c.sender;
      && |l'.lots| == |l.lots|
      && var a, b := l.lots[n], l'.lots[n];
      && b.bider == u && b.nowValue == Get(b.bids, u) == Get(a.bids, u) + amount
      && (forall v: Address :: v != u ==> Get(b.bids, v) == Get(a.bids, v))
      && b.timeOver == a.timeOver && b.settled == a.settled
      && (forall k :: 0 <= k < |l.lots| && k != n ==> l'.lots[k] == l.lots[k])
      && (forall v: Address :: Get(l'.token.balance, v) == Get(l.token.balance, v)
            - (if v == u then amount else 0) + (if v == l.token.manager then amount else 0))
      && l'.bank == l.bank && l'.token.totalSupply == l.token.totalSupply
  {}

  /** A refund pays the whole bid back from the manager, once. */
  lemma RefundGives(l: Ledger, now: nat, c: Context, n: nat)
    requires WithdrawBid(l, now, c, n).Some?
    ensures n < |l.lots|
    ensures var l', u, amount := WithdrawBid(l, now, c, n).value, c.sender, Get(l.lots[n].bids, c.sender);
      && |l'.lots| == |l.lots| && amount > 0
      && Get(l'.lots[n].bids, u) == 0
      && (forall v: Address :: v != u ==> Get(l'.lots[n].bids, v) == Get(l.lots[n].bids, v))
      && l'.lots[n].bider == l.lots[n].bider != u && l'.lots[n].nowValue == l.lots[n].nowValue
      && (forall v: Address :: Get(l'.token.balance, v) == Get(l.token.balance, v)
            + (if v == u then amount else 0) - (if v == l.token.manager then amount else 0))
      && WithdrawBid(l', now, c, n).None?
  {}

  /** The winner gets the collateral out of the bank; the start value is burnt, its principal lent anew. */
  lemma SettlementGives(l: Ledger, now: nat, c: Context, n: nat)
    requires Settle(l, now, c, n).Some?
    ensures n < |l.lots|
    ensures var l', lot := Settle(l, now, c, n).value, l.lots[n];
      && lot.bider == c.sender && lot.timeOver < now && !lot.settled
      && l'.lots == l.lots[n := lot.(settled := true)]
      && l'.bank.unitBalance == l.bank.unitBalance - lot.sales
      && l'.bank.interestMint == l.bank.interestMint - lot.debt
      && l'.bank.bankLoanLimit == l.bank.bankLoanLimit + (lot.startValue - lot.debt)
      && l'.token.totalSupply == l.token.totalSupply - lot.startValue
      && (forall v: Address :: Get(l'.token.balance, v)
            == Get(l.token.balance, v) - if v == l.token.manager then lot.startValue else 0)
      && l'.bank.loanAccount == l.bank.loanAccount && l'.bank.loansTotalInterest == l.bank.loansTotalInterest
  {}

  /** The foundation reopens, for ten minutes, exactly the lots that ended without a bid. */
  lemma RelistingGives(l: Ledger, now: nat, c: Context)
    ensures Relist(l, now, c).Some? <==> c.foundation
    ensures Relist(l, now, c).Some? ==>
      var l' := Relist(l, now, c).value;
      && l'.bank == l.bank && l'.token == l.token && |l'.lots| == |l.lots|
      && forall n :: 0 <= n < |l.lots| ==>
           l'.lots[n] == if l.lots[n].timeOver < now && l.lots[n].bider == 0
                         then l.lots[n].(timeOver := now + 600) else l.lots[n]
  {}
}
