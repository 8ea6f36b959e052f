/** The distribution of loan interest to depositors: fair up to rounding, and no period lost or paid twice. */
module UstnSavings {
  import opened Prelude
  import opened UstnModel
  import opened UstnInvariants

  // ---------- Fairness of one distribution ----------

  function Credited(b: Bank, now: nat, users: seq<Address>, total: nat): nat
    requires total > 0
  {
    if users == [] then 0
    else Credited(b, now, users[..|users| - 1], total) + Share(b, now, users[|users| - 1], total)
  }

  function Balances(users: seq<Address>, balances: map<Address, nat>): nat {
    if users == [] then 0
    else Balances(users[..|users| - 1], balances) + Get(balances, users[|users| - 1])
  }

  /** One more floored share: the sum of floors stays within one unit per share of the exact sum. */
  lemma FloorSumStep(credited: nat, points: nat, n: nat, interest: nat, point: nat, total: nat)
    requires total > 0
    requires total * credited <= interest * points && interest * points + n <= total * (credited + n)
    ensures var share := interest * point / total;
      total * (credited + share) <= interest * (points + point)
      && interest * (points + point) + (n + 1) <= total * (credited + share + (n + 1))
  {
    var x := interest * point;
    var share := x / total;
    DivisionBound(x, total, share);
    DivisionBound(x, total, share + 1);
    assert total * (credited + share) == total * credited + share * total;
    assert interest * (points + point) == interest * points + x;
    assert total * (credited + share + (n + 1)) == total * (credited + n) + (share + 1) * total;
  }

  lemma {:induction false} CreditedBounds(b: Bank, now: nat, users: seq<Address>, total: nat)
    requires total > 0
    ensures var c, p, i := Credited(b, now, users, total), PointTotal(b, now, users), b.loansTotalInterest;
      total * c <= i * p && i * p + |users| <= total * (c + |users|)
  {
    if users != [] {
      var before, last := users[..|users| - 1], users[|users| - 1];
      CreditedBounds(b, now, before, total);
      FloorSumStep(Credited(b, now, before, total), PointTotal(b, now, before), |before|,
                   b.loansTotalInterest, PointAfter(b, now, last), total);
    }
  }

  lemma {:induction false} BalancesGrow(b: Bank, now: nat, users: seq<Address>, total: nat)
    requires total > 0 && forall u :: u in users ==> u in b.depositUsers
    ensures Balances(users, DistributeTo(b, now, total).depositBalances)
         == Balances(users, b.depositBalances) + Credited(b, now, users, total)
  {
    if users != [] {
      BalancesGrow(b, now, users[..|users| - 1], total);
    }
  }

  /**
   A distribution hands out the whole collected interest up to rounding: never more, and short by
   fewer units than there are depositors. Without depositors it hands out nothing.
   */
  lemma DistributionFair(l: Ledger, now: nat, c: Context)
    requires Distribute(l, now, c).Some?
    ensures var b, b' := l.bank, Distribute(l, now, c).value.bank;
      var users, interest := b.depositUsers, b.loansTotalInterest;
      && b'.loansTotalInterest == 0
      && Balances(users, b.depositBalances) <= Balances(users, b'.depositBalances)
         <= Balances(users, b.depositBalances) + interest
      && (users != [] ==>
           Balances(users, b.depositBalances) + interest < Balances(users, b'.depositBalances) + |users|)
      && (users == [] ==> b'.depositBalances == b.depositBalances)
  {
    var b := l.bank;
    var users, total := b.depositUsers, PointTotal(b, now, b.depositUsers);
    if users != [] {
      CreditedBounds(b, now, users, total);
      BalancesGrow(b, now, users, total);
      FloorSumEnds(Credited(b, now, users, total), b.loansTotalInterest, |users|, total);
    }
  }

  lemma FloorSumEnds(credited: nat, interest: nat, n: nat, total: nat)
    requires total > 0 && n > 0
    requires total * credited <= interest * total && interest * total + n <= total * (credited + n)
    ensures credited <= interest < credited + n
  {
    MultiplyCancel(credited, interest, total);
    assert interest * total < (credited + n) * total;
    if credited + n <= interest {
      MultiplyMonotone(credited + n, interest, total);
    }
  }

  /** Each depositor gets the exact proportion of the interest, rounded down. */
  lemma {:induction false} DistributionProportional(l: Ledger, now: nat, c: Context, u: Address)
    requires Distribute(l, now, c).Some? && u in l.bank.depositUsers
    ensures var b, b' := l.bank, Distribute(l, now, c).value.bank;
      var gain := Get(b'.depositBalances, u) - Get(b.depositBalances, u);
      var total := PointTotal(b, now, b.depositUsers);
      0 <= gain && gain * total <= b.loansTotalInterest * PointAfter(b, now, u) < (gain + 1) * total
  {
    var b := l.bank;
    var total := PointTotal(b, now, b.depositUsers);
    var x, gain := b.loansTotalInterest * PointAfter(b, now, u), Share(b, now, u, total);
    DivisionBound(x, total, gain);
    DivisionBound(x, total, gain + 1);
  }

  // ---------- Periods over whole runs ----------

  /** The whole periods that one call credits to depositor u. */
  ghost function PeriodsCredited(s: System, call: Call, u: Address): nat {
    if call.op.ODistribute? && Outcome(s, call).Some? && u in s.ledger.bank.depositUsers
    then PeriodsSince(Get(s.ledger.bank.pastTime, u), s.now + call.wait)
    else 0
  }

  ghost function RunPeriods(s: System, calls: seq<Call>, u: Address): nat {
    if calls == [] then 0
    else RunPeriods(s, calls[..|calls| - 1], u)
         + PeriodsCredited(Run(s, calls[..|calls| - 1]), calls[|calls| - 1], u)
  }

  lemma DistributePeriods(l: Ledger, now: nat, c: Context, u: Address)
    requires Distribute(l, now, c).Some? && u in l.bank.depositUsers
    ensures Distribute(l, now, c).value.bank.depositers == l.bank.depositers
    ensures Get(Distribute(l, now, c).value.bank.pastTime, u)
         == Get(l.bank.pastTime, u) + PeriodsSince(Get(l.bank.pastTime, u), now) * PERIOD
  {}

  /** Only a distribution moves the time a known depositor is credited up to. */
  lemma OtherPeriods(s: System, call: Call, u: Address)
    requires u in s.ledger.bank.depositers && !call.op.ODistribute? && Outcome(s, call).Some?
    ensures u in Outcome(s, call).value.bank.depositers
    ensures Get(Outcome(s, call).value.bank.pastTime, u) == Get(s.ledger.bank.pastTime, u)
  {
    hide Distribute, LoansRate, FirstInterest, Reserve, Pledge, WarningRate, RepaidLoan, BackUnit;
    hide AccountsGain, AccrueAccounts, ClassifyAccounts, AccountsLots;
  }

  lemma StepPeriods(s: System, call: Call, u: Address)
    requires Inv(s.ledger, s.now) && u in s.ledger.bank.depositers
    ensures var b, b' := s.ledger.bank, Step(s, call).ledger.bank;
      u in b'.depositers
      && Get(b'.pastTime, u) == Get(b.pastTime, u) + PeriodsCredited(s, call, u) * PERIOD
  {
    hide Distribute;
    assert u in s.ledger.bank.depositUsers;
    if Outcome(s, call).Some? {
      if call.op.ODistribute? {
        DistributePeriods(s.ledger, s.now + call.wait, call.context, u);
      } else {
        OtherPeriods(s, call, u);
      }
    }
  }

  lemma {:induction false} PeriodsAddUp(s: System, calls: seq<Call>, u: Address)
    requires Inv(s.ledger, s.now) && u in s.ledger.bank.depositers
    ensures u in Run(s, calls).ledger.bank.depositers
    ensures Get(Run(s, calls).ledger.bank.pastTime, u)
         == Get(s.ledger.bank.pastTime, u) + RunPeriods(s, calls, u) * PERIOD
  {
    hide Step, Outcome;
    if calls != [] {
      var before := calls[..|calls| - 1];
      PeriodsAddUp(s, before, u);
      RunKeeps(s, before);
      StepPeriods(Run(s, before), calls[|calls| - 1], u);
    }
  }

  /**
   None lost, none counted twice: over any run that ends with a distribution, a depositor has been
   credited exactly the whole periods between the start and that distribution.
   */
  lemma {:induction false} PeriodsTelescope(s: System, calls: seq<Call>, u: Address)
    requires Inv(s.ledger, s.now) && u in s.ledger.bank.depositers && calls != []
    requires calls[|calls| - 1].op.ODistribute?
    requires Outcome(Run(s, calls[..|calls| - 1]), calls[|calls| - 1]).Some?
    ensures Get(s.ledger.bank.pastTime, u) <= s.now <= Run(s, calls).now
    ensures RunPeriods(s, calls, u) == (Run(s, calls).now - Get(s.ledger.bank.pastTime, u)) / PERIOD
  {
    hide Outcome;
    var before, call := calls[..|calls| - 1], calls[|calls| - 1];
    var mid := Run(s, before);
    PeriodsAddUp(s, before, u);
    RunKeeps(s, before);
    TimePasses(s, before);
    assert u in mid.ledger.bank.depositUsers;
    var start, t, now := Get(s.ledger.bank.pastTime, u), Get(mid.ledger.bank.pastTime, u), mid.now + call.wait;
    PeriodsSinceBound(t, now);
  }

  lemma {:induction false} TimePasses(s: System, calls: seq<Call>)
    ensures s.now <= Run(s, calls).now
  {
    hide Outcome;
    if calls != [] {
      TimePasses(s, calls[..|calls| - 1]);
    }
  }

  // ---------- Deposits and withdrawals ----------

  /**
   A withdrawal undoes a deposit: the amount just deposited can always be taken out again, and that
   leaves every balance, every deposit, the lending limit and all else as before, but for the
   depositor now being enlisted.
   */
  lemma DepositUndone(l: Ledger, now: nat, c: Context, tokens: nat)
    requires Deposit(l, now, c, tokens).Some?
    ensures Withdraw(Deposit(l, now, c, tokens).value, now, c, tokens).Some?
    ensures var d := Withdraw(Deposit(l, now, c, tokens).value, now, c, tokens).value;
      && (forall u: Address :: Get(d.bank.depositBalances, u) == Get(l.bank.depositBalances, u))
      && (forall u: Address :: Get(d.token.balance, u) == Get(l.token.balance, u))
      && d.bank.bankLoanLimit == l.bank.bankLoanLimit
      && d.token.totalSupply == l.token.totalSupply && d.lots == l.lots
      && d.bank.loanAccount == l.bank.loanAccount
      && c.sender in d.bank.depositers
  {
    hide Reserve;
    var l' := Deposit(l, now, c, tokens).value;
    var d := Withdraw(l', now, c, tokens).value;
    forall u: Address ensures Get(d.bank.depositBalances, u) == Get(l.bank.depositBalances, u) {}
    forall u: Address ensures Get(d.token.balance, u) == Get(l.token.balance, u) {}
  }
}
