/**
 What the bank and the auction house together owe and hold, summed over all live loans and all
 unsettled lots, and the exact accounts that every run keeps balanced.
 */
module UstnConservation {
  import opened Prelude
  import opened UstnModel
  import opened UstnInvariants

  /**
   What is summed: outstanding principal, outstanding interest, UNIT held as collateral, or closed
   loans in excess of lots.
   */
  datatype Kind = Principal | Interest | Collateral | Closings

  function LoanStake(k: Kind, loan: Loan): int {
    var live := !loan.status.Closed?;
    match k
    case Principal => if live then loan.debt - loan.interest else 0
    case Interest => if live then loan.interest else 0
    case Collateral => if live then loan.mortgage else 0
    case Closings => if live then 0 else 1
  }

  function LoansStake(k: Kind, loans: seq<Loan>): int {
    if loans == [] then 0
    else LoansStake(k, loans[..|loans| - 1]) + LoanStake(k, loans[|loans| - 1])
  }

  function AccountsStake(k: Kind, users: seq<Address>, accounts: map<Address, seq<Loan>>): int {
    if users == [] then 0
    else AccountsStake(k, users[..|users| - 1], accounts)
         + LoansStake(k, LoansOf(accounts, users[|users| - 1]))
  }

  function LotStake(k: Kind, lot: Lot): int {
    match k
    case Principal => if lot.settled then 0 else lot.startValue - lot.debt
    case Interest => if lot.settled then 0 else lot.debt
    case Collateral => if lot.settled then 0 else lot.sales
    case Closings => -1
  }

  function LotsStake(k: Kind, lots: seq<Lot>): int {
    if lots == [] then 0
    else LotsStake(k, lots[..|lots| - 1]) + LotStake(k, lots[|lots| - 1])
  }

  /** The sum over all live loans and all unsettled lots. */
  function Stake(k: Kind, l: Ledger): int {
    AccountsStake(k, l.bank.loanUsers, l.bank.loanAccount) + LotsStake(k, l.lots)
  }

  // ---------- Sums under updates ----------

  lemma {:induction false} LoansStakeUpdate(k: Kind, loans: seq<Loan>, i: nat, loan: Loan)
    requires i < |loans|
    ensures LoansStake(k, loans[i := loan])
         == LoansStake(k, loans) - LoanStake(k, loans[i]) + LoanStake(k, loan)
  {
    var last := |loans| - 1;
    if i == last {
      assert loans[i := loan][..last] == loans[..last];
    } else {
      assert loans[i := loan][..last] == loans[..last][i := loan];
      LoansStakeUpdate(k, loans[..last], i, loan);
    }
  }

  lemma LoansStakePush(k: Kind, loans: seq<Loan>, loan: Loan)
    ensures LoansStake(k, loans + [loan]) == LoansStake(k, loans) + LoanStake(k, loan)
  {
    assert (loans + [loan])[..|loans|] == loans;
  }

  lemma {:induction false} LotsStakeUpdate(k: Kind, lots: seq<Lot>, n: nat, lot: Lot)
    requires n < |lots|
    ensures LotsStake(k, lots[n := lot]) == LotsStake(k, lots) - LotStake(k, lots[n]) + LotStake(k, lot)
  {
    var last := |lots| - 1;
    if n == last {
      assert lots[n := lot][..last] == lots[..last];
    } else {
      assert lots[n := lot][..last] == lots[..last][n := lot];
      LotsStakeUpdate(k, lots[..last], n, lot);
    }
  }

  lemma {:induction false} LotsStakeConcat(k: Kind, a: seq<Lot>, b: seq<Lot>)
    ensures LotsStake(k, a + b) == LotsStake(k, a) + LotsStake(k, b)
  {
    if b == [] {
      assert a + b == a;
    } else {
      var last := |b| - 1;
      assert (a + b)[..|a + b| - 1] == a + b[..last];
      LotsStakeConcat(k, a, b[..last]);
    }
  }

  /** Accounts outside the list do not count. */
  lemma {:induction false} AccountsStakeFrame(k: Kind, users: seq<Address>,
      accounts: map<Address, seq<Loan>>, u: Address, loans: seq<Loan>)
    requires u !in users
    ensures AccountsStake(k, users, accounts[u := loans]) == AccountsStake(k, users, accounts)
  {
    if users != [] {
      AccountsStakeFrame(k, users[..|users| - 1], accounts, u, loans);
    }
  }

  /** Each listed account counts exactly once, because no borrower is listed twice. */
  lemma {:induction false} AccountsStakeUpdate(k: Kind, users: seq<Address>,
      accounts: map<Address, seq<Loan>>, u: Address, loans: seq<Loan>)
    requires NoDuplicates(users) && u in users
    ensures AccountsStake(k, users, accounts[u := loans])
         == AccountsStake(k, users, accounts) - LoansStake(k, LoansOf(accounts, u)) + LoansStake(k, loans)
  {
    var last := |users| - 1;
    if users[last] == u {
      AccountsStakeFrame(k, users[..last], accounts, u, loans);
    } else {
      AccountsStakeUpdate(k, users[..last], accounts, u, loans);
    }
  }

  lemma AccountsStakePush(k: Kind, users: seq<Address>,
      accounts: map<Address, seq<Loan>>, u: Address, loans: seq<Loan>)
    requires u !in users
    ensures AccountsStake(k, users + [u], accounts[u := loans])
         == AccountsStake(k, users, accounts) + LoansStake(k, loans)
  {
    assert (users + [u])[..|users|] == users;
    AccountsStakeFrame(k, users, accounts, u, loans);
  }

  // ---------- Liquidation moves stakes, it does not create them ----------

  /** Accrual adds to the interest and to nothing else. */
  function GainOf(k: Kind, gain: nat): nat { if k.Interest? then gain else 0 }

  lemma {:induction false} AccrueLoansStake(k: Kind, loans: seq<Loan>, now: nat, rate: nat)
    ensures LoansStake(k, AccrueLoans(loans, now, rate))
         == LoansStake(k, loans) + GainOf(k, LoansGain(loans, now, rate))
  {
    if loans != [] {
      var last := |loans| - 1;
      assert AccrueLoans(loans, now, rate)[..last] == AccrueLoans(loans[..last], now, rate);
      AccrueLoansStake(k, loans[..last], now, rate);
    }
  }

  lemma {:induction false} AccrueAccountsStake(k: Kind, users: seq<Address>,
      accounts: map<Address, seq<Loan>>, now: nat, rate: nat)
    ensures AccountsStake(k, users, AccrueAccounts(accounts, now, rate))
         == AccountsStake(k, users, accounts) + GainOf(k, AccountsGain(users, accounts, now, rate))
  {
    if users != [] {
      var u := users[|users| - 1];
      AccrueAccountsStake(k, users[..|users| - 1], accounts, now, rate);
      AccrueLoansStake(k, LoansOf(accounts, u), now, rate);
      assert LoansOf(AccrueAccounts(accounts, now, rate), u) == AccrueLoans(LoansOf(accounts, u), now, rate);
    }
  }

  lemma {:induction false} ClassifyLoansStake(k: Kind, loans: seq<Loan>, now: nat, c: Context)
    requires Priced(loans, c)
    ensures LoansStake(k, ClassifyLoans(loans, c)) + LotsStake(k, LoansLots(loans, now, c))
         == LoansStake(k, loans)
  {
    if loans != [] {
      var last := |loans| - 1;
      var lots := LoansLots(loans[..last], now, c);
      assert ClassifyLoans(loans, c)[..last] == ClassifyLoans(loans[..last], c);
      ClassifyLoansStake(k, loans[..last], now, c);
      if !loans[last].status.Closed? && ClassifyLoan(loans[last], c).Closed? {
        assert (lots + [LotOf(loans[last], now)])[..|lots|] == lots;
      } else {
        assert lots + [] == lots;
      }
    }
  }

  lemma {:induction false} ClassifyAccountsStake(k: Kind, users: seq<Address>,
      accounts: map<Address, seq<Loan>>, now: nat, c: Context)
    requires AllPriced(accounts, c)
    ensures AccountsStake(k, users, ClassifyAccounts(accounts, c))
            + LotsStake(k, AccountsLots(users, accounts, now, c))
         == AccountsStake(k, users, accounts)
  {
    if users != [] {
      var u := users[|users| - 1];
      ClassifyAccountsStake(k, users[..|users| - 1], accounts, now, c);
      ClassifyLoansStake(k, LoansOf(accounts, u), now, c);
      LotsStakeConcat(k, AccountsLots(users[..|users| - 1], accounts, now, c),
                      LoansLots(LoansOf(accounts, u), now, c));
      assert LoansOf(ClassifyAccounts(accounts, c), u) == ClassifyLoans(LoansOf(accounts, u), c);
    }
  }

  /** Liquidation adds exactly the accrued interest to what is outstanding; lots take over closed loans. */
  lemma LiquidateStake(k: Kind, l: Ledger, now: nat, c: Context)
    requires Liquidate(l, now, c).Some?
    ensures Stake(k, Liquidate(l, now, c).value) == Stake(k, l)
      + GainOf(k, AccountsGain(l.bank.loanUsers, l.bank.loanAccount, now, c.config.loanInterestRate))
  {
    var b, rate := l.bank, c.config.loanInterestRate;
    var accrued := AccrueAccounts(b.loanAccount, now, rate);
    AccrueAccountsStake(k, b.loanUsers, b.loanAccount, now, rate);
    ClassifyAccountsStake(k, b.loanUsers, accrued, now, c);
    LotsStakeConcat(k, l.lots, AccountsLots(b.loanUsers, accrued, now, c));
  }

  // ---------- Flows across the boundary, one call at a time ----------

  /** Reserve that a successful call credits to (or takes from) the lending limit from outside. */
  ghost function ReserveFlow(s: System, call: Call): int {
    if Outcome(s, call).None? then 0
    else match call.op
      case ODeposit(tokens) => Reserve(tokens, call.context.config)
      case OWithdraw(tokens) => 0 - Reserve(tokens, call.context.config)
      case _ => 0
  }

  /** Interest that a repayment pays off without taking it from interestMint. */
  ghost function WaivedFlow(s: System, call: Call): nat {
    if Outcome(s, call).None? || !call.op.ORepay? then 0
    else
      var loan := LoansOf(s.ledger.bank.loanAccount, call.context.sender)[call.op.number];
      if call.op.tokens >= loan.debt || call.op.tokens >= loan.interest then loan.interest else 0
  }

  /** A repayment in full closes a loan without opening a lot. */
  ghost function PayoffFlow(s: System, call: Call): nat {
    if Outcome(s, call).None? || !call.op.ORepay? then 0
    else
      var loan := LoansOf(s.ledger.bank.loanAccount, call.context.sender)[call.op.number];
      if call.op.tokens >= loan.debt then 1 else 0
  }

  /** UNIT sent along with a repayment, which the bank keeps. */
  ghost function StrayFlow(s: System, call: Call): nat {
    if Outcome(s, call).None? || !call.op.ORepay? then 0 else call.op.value
  }

  /** The counter that answers for each kind: lending limit, interestMint, native balance, none. */
  function Counter(k: Kind, l: Ledger): int {
    match k
    case Principal => l.bank.bankLoanLimit
    case Interest => l.bank.interestMint
    case Collateral => l.bank.unitBalance
    case Closings => 0
  }

  /** Lent principal leaves the limit; interest and collateral are counted as they come in. */
  function Account(k: Kind, l: Ledger): int {
    if k.Principal? || k.Closings? then Counter(k, l) + Stake(k, l) else Counter(k, l) - Stake(k, l)
  }

  ghost function Flow(k: Kind, s: System, call: Call): int {
    match k
    case Principal => ReserveFlow(s, call)
    case Interest => WaivedFlow(s, call)
    case Collateral => StrayFlow(s, call)
    case Closings => PayoffFlow(s, call)
  }

  /** A new loan adds its own stake, whether or not the borrower is new. */
  lemma NewLoanStake(k: Kind, l: Ledger, l': Ledger, now: nat, u: Address, loan: Loan)
    requires BankOk(l.bank, now) && l'.lots == l.lots
    requires l'.bank.loanUsers == if u in l.bank.loaners then l.bank.loanUsers else l.bank.loanUsers + [u]
    requires l'.bank.loanAccount == l.bank.loanAccount[u := LoansOf(l.bank.loanAccount, u) + [loan]]
    ensures Stake(k, l') == Stake(k, l) + LoanStake(k, loan)
  {
    var b := l.bank;
    var loans := LoansOf(b.loanAccount, u);
    LoansStakePush(k, loans, loan);
    if u in b.loaners {
      AccountsStakeUpdate(k, b.loanUsers, b.loanAccount, u, loans + [loan]);
    } else {
      AccountsStakePush(k, b.loanUsers, b.loanAccount, u, loans + [loan]);
    }
  }

  /** The books after lending an amount against a new loan. */
  ghost predicate Lends(l: Ledger, l': Ledger, u: Address, loan: Loan, amount: nat) {
    && l'.lots == l.lots
    && !loan.status.Closed? && loan.debt == amount + loan.interest
    && l'.bank.loanUsers == (if u in l.bank.loaners then l.bank.loanUsers else l.bank.loanUsers + [u])
    && l'.bank.loanAccount == l.bank.loanAccount[u := LoansOf(l.bank.loanAccount, u) + [loan]]
    && l'.bank.bankLoanLimit == l.bank.bankLoanLimit - amount
    && l'.bank.interestMint == l.bank.interestMint + loan.interest
    && l'.bank.unitBalance == l.bank.unitBalance + loan.mortgage
    && l'.token.totalSupply == l.token.totalSupply + loan.debt
  }

  /** Lending out an amount moves it from the limit into the loan, whatever the amount. */
  lemma LendBalances(l: Ledger, l': Ledger, now: nat, u: Address, loan: Loan, amount: nat)
    requires BankOk(l.bank, now) && Lends(l, l', u, loan, amount)
    ensures forall k :: Account(k, l') == Account(k, l)
    ensures SupplySlack(l') == SupplySlack(l)
  {
    hide Stake, BankOk;
    NewLoanStake(Principal, l, l', now, u, loan);
    NewLoanStake(Interest, l, l', now, u, loan);
    NewLoanStake(Collateral, l, l', now, u, loan);
    NewLoanStake(Closings, l, l', now, u, loan);
    forall k: Kind ensures Account(k, l') == Account(k, l) {
      match k
      case Principal =>
      case Interest =>
      case Collateral =>
      case Closings =>
    }
  }

  lemma BorrowLends(l: Ledger, now: nat, c: Context, value: nat)
    requires Borrow(l, now, c, value).Some?
    ensures var amount := LoansRate(value, c);
      Lends(l, Borrow(l, now, c, value).value, c.sender, NewLoan(now, value, amount, c.config), amount)
  {
    hide LoansRate, FirstInterest;
  }

  lemma BorrowBalances(k: Kind, s: System, call: Call)
    requires Inv(s.ledger, s.now + call.wait) && call.op.OBorrow? && Outcome(s, call).Some?
    ensures Account(k, Outcome(s, call).value) == Account(k, s.ledger) + Flow(k, s, call)
    ensures SupplySlack(Outcome(s, call).value) == SupplySlack(s.ledger) + SlackFlow(s, call)
  {
    hide Stake, Account, SupplySlack, LoansRate, FirstInterest, Lends, NewLoan;
    var now, c := s.now + call.wait, call.context;
    var amount := LoansRate(call.op.value, c);
    hide Borrow;
    BorrowLends(s.ledger, now, c, call.op.value);
    LendBalances(s.ledger, Outcome(s, call).value, now, c.sender,
                 NewLoan(now, call.op.value, amount, c.config), amount);
  }

  /** Replacing one loan moves the total by the difference of the two. */
  lemma ReplaceLoanStake(k: Kind, b: Bank, now: nat, u: Address, number: nat, loan: Loan)
    requires BankOk(b, now) && number < |LoansOf(b.loanAccount, u)|
    ensures var loans := LoansOf(b.loanAccount, u);
      AccountsStake(k, b.loanUsers, b.loanAccount[u := loans[number := loan]])
      == AccountsStake(k, b.loanUsers, b.loanAccount) - LoanStake(k, loans[number]) + LoanStake(k, loan)
  {
    var loans := LoansOf(b.loanAccount, u);
    assert u in b.loanUsers;
    LoansStakeUpdate(k, loans, number, loan);
    AccountsStakeUpdate(k, b.loanUsers, b.loanAccount, u, loans[number := loan]);
  }

  lemma TopUpBalances(k: Kind, s: System, call: Call)
    requires Inv(s.ledger, s.now + call.wait) && call.op.OTopUp? && Outcome(s, call).Some?
    ensures Account(k, Outcome(s, call).value) == Account(k, s.ledger) + Flow(k, s, call)
  {
    var u, number := call.context.sender, call.op.number;
    var topped := Outcome(s, call).value.bank.loanAccount[u][number];
    ReplaceLoanStake(k, s.ledger.bank, s.now + call.wait, u, number, topped);
  }

  lemma RepayBalances(k: Kind, s: System, call: Call)
    requires Inv(s.ledger, s.now + call.wait) && call.op.ORepay? && Outcome(s, call).Some?
    ensures Account(k, Outcome(s, call).value) == Account(k, s.ledger) + Flow(k, s, call)
  {
    var c := call.context;
    var loan := LoansOf(s.ledger.bank.loanAccount, c.sender)[call.op.number];
    ReplaceLoanStake(k, s.ledger.bank, s.now + call.wait, c.sender, call.op.number,
                     RepaidLoan(loan, call.op.tokens));
  }

  /** A bid, a withdrawn bid or a relisting leaves what a lot stands for untouched. */
  lemma {:induction false} SameLotsStake(k: Kind, lots: seq<Lot>, lots': seq<Lot>)
    requires |lots| == |lots'|
    requires forall n :: 0 <= n < |lots| ==> LotStake(k, lots[n]) == LotStake(k, lots'[n])
    ensures LotsStake(k, lots) == LotsStake(k, lots')
  {
    if lots != [] {
      SameLotsStake(k, lots[..|lots| - 1], lots'[..|lots| - 1]);
    }
  }

  lemma SettleBalances(k: Kind, s: System, call: Call)
    requires call.op.OSettle? && Outcome(s, call).Some?
    ensures Account(k, Outcome(s, call).value) == Account(k, s.ledger) + Flow(k, s, call)
  {
    var lots, n := s.ledger.lots, call.op.n;
    LotsStakeUpdate(k, lots, n, lots[n].(settled := true));
  }

  lemma SavingsBalances(k: Kind, s: System, call: Call)
    requires call.op.ODeposit? || call.op.OWithdraw? || call.op.ODistribute?
    requires Outcome(s, call).Some?
    ensures Account(k, Outcome(s, call).value) == Account(k, s.ledger) + Flow(k, s, call)
    ensures SupplySlack(Outcome(s, call).value) == SupplySlack(s.ledger) + SlackFlow(s, call)
  {
    hide PointsWith, TimesWith, BalancesWith, PointTotal, Reserve;
    hide Borrow, TopUp, Repay, Liquidate, Bid, WithdrawBid, Settle, Relist;
  }

  lemma BiddingBalances(k: Kind, s: System, call: Call)
    requires call.op.OBid? || call.op.OWithdrawBid? || call.op.ORelist? || call.op.OElsewhere?
    requires Outcome(s, call).Some?
    ensures Account(k, Outcome(s, call).value) == Account(k, s.ledger) + Flow(k, s, call)
  {
    hide Deposit, Withdraw, Distribute, Borrow, TopUp, Repay, Liquidate, Settle;
    SameLotsStake(k, s.ledger.lots, Outcome(s, call).value.lots);
  }

  /** Every call keeps each account, up to its own flow. */
  lemma StepBalances(k: Kind, s: System, call: Call)
    requires Inv(s.ledger, s.now)
    ensures Account(k, Step(s, call).ledger) == Account(k, s.ledger) + Flow(k, s, call)
  {
    InvLater(s.ledger, s.now, s.now + call.wait);
    if Outcome(s, call).Some? {
      OutcomeBalances(k, s, call);
    }
  }

  lemma OutcomeBalances(k: Kind, s: System, call: Call)
    requires Inv(s.ledger, s.now + call.wait) && Outcome(s, call).Some?
    ensures Account(k, Outcome(s, call).value) == Account(k, s.ledger) + Flow(k, s, call)
  {
    match call.op
    case OBorrow(_) => BorrowBalances(k, s, call);
    case OTopUp(_, _) => TopUpBalances(k, s, call);
    case OLiquidate => LiquidateBalances(k, s, call);
    case OSettle(_) => SettleBalances(k, s, call);
    case ORepay(_, _, _) => RepayBalances(k, s, call);
    case ODeposit(_) => SavingsBalances(k, s, call);
    case OWithdraw(_) => SavingsBalances(k, s, call);
    case ODistribute => SavingsBalances(k, s, call);
    case OBid(_, _) => BiddingBalances(k, s, call);
    case OWithdrawBid(_) => BiddingBalances(k, s, call);
    case ORelist => BiddingBalances(k, s, call);
    case OElsewhere(_, _) => BiddingBalances(k, s, call);
  }

  lemma LiquidateBalances(k: Kind, s: System, call: Call)
    requires call.op.OLiquidate? && Outcome(s, call).Some?
    ensures Account(k, Outcome(s, call).value) == Account(k, s.ledger) + Flow(k, s, call)
    ensures SupplySlack(Outcome(s, call).value) == SupplySlack(s.ledger) + SlackFlow(s, call)
  {
    var l, now, c := s.ledger, s.now + call.wait, call.context;
    LiquidateStake(Principal, l, now, c);
    LiquidateStake(Interest, l, now, c);
    LiquidateStake(Collateral, l, now, c);
    LiquidateStake(Closings, l, now, c);
  }

  /**
   One liquidation raises the interest to distribute, interestMint and the supply by one and the
   same amount: exactly what the interest of all live loans together grew by, each loan counted
   once. No principal and no collateral appears or gets lost on the way to the auctions, and one
   lot opens for each loan that closes.
   */
  lemma LiquidationBooksInterest(l: Ledger, now: nat, c: Context)
    requires Liquidate(l, now, c).Some?
    ensures var l' := Liquidate(l, now, c).value;
      var gain := Stake(Interest, l') - Stake(Interest, l);
      && l'.bank.loansTotalInterest == l.bank.loansTotalInterest + gain
      && l'.bank.interestMint == l.bank.interestMint + gain
      && l'.token.totalSupply == l.token.totalSupply + gain
      && Stake(Principal, l') == Stake(Principal, l)
      && Stake(Collateral, l') == Stake(Collateral, l)
      && ClosedLoans(l') - ClosedLoans(l) == |l'.lots| - |l.lots|
  {
    LiquidateStake(Principal, l, now, c);
    LiquidateStake(Interest, l, now, c);
    LiquidateStake(Collateral, l, now, c);
    LiquidateStake(Closings, l, now, c);
    LotsCount(l.lots);
    LotsCount(Liquidate(l, now, c).value.lots);
  }

  /** How far the supply exceeds all outstanding debt. */
  function SupplySlack(l: Ledger): int {
    l.token.totalSupply - Stake(Principal, l) - Stake(Interest, l)
  }

  /** The debt a call pays off: repayments cancel debt, but burn no supply. */
  ghost function DebtRepaid(s: System, call: Call): nat {
    if Outcome(s, call).None? || !call.op.ORepay? then 0
    else
      var debt := LoansOf(s.ledger.bank.loanAccount, call.context.sender)[call.op.number].debt;
      if call.op.tokens >= debt then debt else call.op.tokens
  }

  /** What other token activity mints, less what it takes off the supply. */
  function MintedElsewhere(s: System, call: Call): int {
    if call.op.OElsewhere? then call.op.supply - s.ledger.token.totalSupply else 0
  }

  /** What a call adds to the supply beyond new debt. */
  ghost function SlackFlow(s: System, call: Call): int { DebtRepaid(s, call) + MintedElsewhere(s, call) }

  lemma RepaySlack(s: System, call: Call)
    requires Inv(s.ledger, s.now + call.wait) && call.op.ORepay? && Outcome(s, call).Some?
    ensures SupplySlack(Outcome(s, call).value) == SupplySlack(s.ledger) + SlackFlow(s, call)
  {
    RepayBalances(Principal, s, call);
    RepayBalances(Interest, s, call);
  }

  lemma SettleSlack(s: System, call: Call)
    requires call.op.OSettle? && Outcome(s, call).Some?
    ensures SupplySlack(Outcome(s, call).value) == SupplySlack(s.ledger) + SlackFlow(s, call)
  {
    SettleBalances(Principal, s, call);
    SettleBalances(Interest, s, call);
  }

  lemma BiddingSlack(s: System, call: Call)
    requires call.op.OBid? || call.op.OWithdrawBid? || call.op.ORelist? || call.op.OElsewhere?
    requires Outcome(s, call).Some?
    ensures SupplySlack(Outcome(s, call).value) == SupplySlack(s.ledger) + SlackFlow(s, call)
  {
    BiddingBalances(Principal, s, call);
    BiddingBalances(Interest, s, call);
  }

  lemma TopUpSlack(s: System, call: Call)
    requires Inv(s.ledger, s.now + call.wait) && call.op.OTopUp? && Outcome(s, call).Some?
    ensures SupplySlack(Outcome(s, call).value) == SupplySlack(s.ledger) + SlackFlow(s, call)
  {
    TopUpBalances(Principal, s, call);
    TopUpBalances(Interest, s, call);
  }

  lemma OutcomeSlack(s: System, call: Call)
    requires Inv(s.ledger, s.now + call.wait) && Outcome(s, call).Some?
    ensures SupplySlack(Outcome(s, call).value) == SupplySlack(s.ledger) + SlackFlow(s, call)
  {
    match call.op
    case OBorrow(_) => BorrowBalances(Principal, s, call);
    case OTopUp(_, _) => TopUpSlack(s, call);
    case OLiquidate => LiquidateBalances(Principal, s, call);
    case OSettle(_) => SettleSlack(s, call);
    case ORepay(_, _, _) => RepaySlack(s, call);
    case ODeposit(_) => SavingsBalances(Principal, s, call);
    case OWithdraw(_) => SavingsBalances(Principal, s, call);
    case ODistribute => SavingsBalances(Principal, s, call);
    case OBid(_, _) => BiddingSlack(s, call);
    case OWithdrawBid(_) => BiddingSlack(s, call);
    case ORelist => BiddingSlack(s, call);
    case OElsewhere(_, _) => BiddingSlack(s, call);
  }

  /** Every call widens the gap between supply and debt by what it repays or mints, and nothing else. */
  lemma StepSupplySlack(s: System, call: Call)
    requires Inv(s.ledger, s.now)
    ensures SupplySlack(Step(s, call).ledger) == SupplySlack(s.ledger) + SlackFlow(s, call)
  {
    InvLater(s.ledger, s.now, s.now + call.wait);
    if Outcome(s, call).Some? {
      OutcomeSlack(s, call);
    }
  }

  // ---------- Whole runs ----------

  /** Everything that flowed in over a run. */
  ghost function RunFlow(k: Kind, s: System, calls: seq<Call>): int {
    if calls == [] then 0
    else RunFlow(k, s, calls[..|calls| - 1]) + Flow(k, Run(s, calls[..|calls| - 1]), calls[|calls| - 1])
  }

  lemma {:induction false} RunBalances(k: Kind, s: System, calls: seq<Call>)
    requires Inv(s.ledger, s.now)
    ensures Account(k, Run(s, calls).ledger) == Account(k, s.ledger) + RunFlow(k, s, calls)
  {
    if calls != [] {
      var before := calls[..|calls| - 1];
      RunBalances(k, s, before);
      RunKeeps(s, before);
      StepBalances(k, Run(s, before), calls[|calls| - 1]);
    }
  }

  lemma {:induction false} LoansStakeBounds(k: Kind, loans: seq<Loan>, now: nat)
    requires LoansOk(loans, now)
    ensures 0 <= LoansStake(k, loans)
    ensures forall i :: 0 <= i < |loans| ==> LoanStake(k, loans[i]) <= LoansStake(k, loans)
  {
    if loans != [] {
      var last := |loans| - 1;
      assert LoanOk(loans[last], now);
      LoansStakeBounds(k, loans[..last], now);
      forall i | 0 <= i < |loans| ensures LoanStake(k, loans[i]) <= LoansStake(k, loans) {
        if i < last {
          assert loans[..last][i] == loans[i];
        }
      }
    }
  }

  lemma {:induction false} AccountsStakeBounds(k: Kind, users: seq<Address>,
      accounts: map<Address, seq<Loan>>, now: nat)
    requires forall u :: u in accounts ==> LoansOk(accounts[u], now)
    ensures 0 <= AccountsStake(k, users, accounts)
    ensures forall u :: u in users ==> LoansStake(k, LoansOf(accounts, u)) <= AccountsStake(k, users, accounts)
  {
    if users != [] {
      var last := |users| - 1;
      AccountsStakeBounds(k, users[..last], accounts, now);
      LoansStakeBounds(k, LoansOf(accounts, users[last]), now);
      assert forall u :: u in users ==> u == users[last] || u in users[..last];
    }
  }

  lemma {:induction false} LotsStakeBounds(k: Kind, lots: seq<Lot>, now: nat)
    requires LotsOk(lots, now) && !k.Closings?
    ensures 0 <= LotsStake(k, lots)
    ensures forall n :: 0 <= n < |lots| ==> LotStake(k, lots[n]) <= LotsStake(k, lots)
  {
    if lots != [] {
      var last := |lots| - 1;
      assert LotOk(lots[last], now);
      LotsStakeBounds(k, lots[..last], now);
      forall n | 0 <= n < |lots| ensures LotStake(k, lots[n]) <= LotsStake(k, lots) {
        if n < last {
          assert lots[..last][n] == lots[n];
        }
      }
    }
  }

  lemma StakeNonNegative(k: Kind, s: System)
    requires Inv(s.ledger, s.now) && !k.Closings?
    ensures 0 <= Stake(k, s.ledger)
  {
    AccountsStakeBounds(k, s.ledger.bank.loanUsers, s.ledger.bank.loanAccount, s.now);
    LotsStakeBounds(k, s.ledger.lots, s.now);
  }

  /**
   Principal is conserved across bank and auction house: the lending limit plus all outstanding
   principal is exactly the reserve credited by deposits minus the reserve taken by withdrawals,
   and so withdrawals never take more reserve than deposits brought.
   */
  lemma {:induction false} PrincipalConserved(s: System, calls: seq<Call>)
    requires Initial(s)
    ensures var l := Run(s, calls).ledger;
      && l.bank.bankLoanLimit + Stake(Principal, l) == RunFlow(Principal, s, calls)
      && 0 <= Stake(Principal, l) <= RunFlow(Principal, s, calls)
  {
    InitialInv(s);
    RunBalances(Principal, s, calls);
    RunKeeps(s, calls);
    StakeNonNegative(Principal, Run(s, calls));
  }

  /**
   UNIT solvency, exactly: the bank holds the collateral of every live loan and unsettled lot,
   plus only what callers sent along with repayments.
   */
  lemma {:induction false} UnitSolvent(s: System, calls: seq<Call>)
    requires Initial(s)
    ensures var l := Run(s, calls).ledger;
      l.bank.unitBalance == Stake(Collateral, l) + RunFlow(Collateral, s, calls)
    ensures Stake(Collateral, Run(s, calls).ledger) <= Run(s, calls).ledger.bank.unitBalance
  {
    InitialInv(s);
    RunBalances(Collateral, s, calls);
    FlowNonNegative(Collateral, s, calls);
  }

  /**
   interestMint exceeds live interest plus unsettled auction interest by exactly the interest that
   repayments cleared without deducting it.
   */
  lemma {:induction false} InterestMintExact(s: System, calls: seq<Call>)
    requires Initial(s)
    ensures var l := Run(s, calls).ledger;
      l.bank.interestMint == Stake(Interest, l) + RunFlow(Interest, s, calls)
    ensures Stake(Interest, Run(s, calls).ledger) <= Run(s, calls).ledger.bank.interestMint
  {
    InitialInv(s);
    RunBalances(Interest, s, calls);
    FlowNonNegative(Interest, s, calls);
  }

  lemma {:induction false} FlowNonNegative(k: Kind, s: System, calls: seq<Call>)
    requires !k.Principal?
    ensures 0 <= RunFlow(k, s, calls)
  {
    if calls != [] {
      FlowNonNegative(k, s, calls[..|calls| - 1]);
    }
  }

  ghost function RunRepaid(s: System, calls: seq<Call>): nat {
    if calls == [] then 0
    else RunRepaid(s, calls[..|calls| - 1]) + DebtRepaid(Run(s, calls[..|calls| - 1]), calls[|calls| - 1])
  }

  ghost function RunMinted(s: System, calls: seq<Call>): int {
    if calls == [] then 0
    else RunMinted(s, calls[..|calls| - 1]) + MintedElsewhere(Run(s, calls[..|calls| - 1]), calls[|calls| - 1])
  }

  /**
   After every run the supply exceeds all outstanding debt, live or under auction, by exactly the
   supply at the start, plus the debt repaid since, plus what was minted elsewhere less what was
   taken off the supply there.
   */
  lemma {:induction false} SupplyExact(s: System, calls: seq<Call>)
    requires Initial(s)
    ensures SupplySlack(Run(s, calls).ledger)
         == s.ledger.token.totalSupply + RunRepaid(s, calls) + RunMinted(s, calls)
  {
    InitialInv(s);
    if calls != [] {
      var before := calls[..|calls| - 1];
      SupplyExact(s, before);
      RunKeeps(s, before);
      hide Step, SupplySlack, DebtRepaid, MintedElsewhere;
      StepSupplySlack(Run(s, before), calls[|calls| - 1]);
    }
  }

  /** Over the run nobody but the auction house takes anything off the supply. */
  ghost predicate SupplyKept(s: System, calls: seq<Call>) {
    calls == []
    || (SupplyKept(s, calls[..|calls| - 1]) && 0 <= MintedElsewhere(Run(s, calls[..|calls| - 1]), calls[|calls| - 1]))
  }

  /**
   The supply covers all outstanding debt exactly while what was taken off the supply elsewhere
   stays within the supply at the start, the debt repaid and what was minted; so it always does
   where nothing was taken off it.
   */
  lemma {:induction false} SupplyCoversDebt(s: System, calls: seq<Call>)
    requires Initial(s)
    ensures 0 <= SupplySlack(Run(s, calls).ledger)
      <==> 0 <= s.ledger.token.totalSupply + RunRepaid(s, calls) + RunMinted(s, calls)
    ensures SupplyKept(s, calls) ==> 0 <= SupplySlack(Run(s, calls).ledger)
  {
    SupplyExact(s, calls);
    hide Run, Initial, SupplySlack;
    if SupplyKept(s, calls) {
      MintedNonNegative(s, calls);
    }
  }

  lemma {:induction false} MintedNonNegative(s: System, calls: seq<Call>)
    requires SupplyKept(s, calls)
    ensures 0 <= RunMinted(s, calls)
  {
    if calls != [] {
      MintedNonNegative(s, calls[..|calls| - 1]);
    }
  }

  /** The gap between interestMint and the interest it answers for. */
  function InterestGap(l: Ledger): int { l.bank.interestMint - Stake(Interest, l) }

  /**
   The gap never closes, and a call widens it exactly when it is a repayment that covers a positive
   interest: that interest is zeroed before it is subtracted.
   */
  lemma {:induction false} GapWidensExactlyWhen(s: System, call: Call)
    requires Inv(s.ledger, s.now)
    ensures InterestGap(s.ledger) <= InterestGap(Step(s, call).ledger)
    ensures InterestGap(s.ledger) < InterestGap(Step(s, call).ledger) <==>
      && call.op.ORepay? && Outcome(s, call).Some?
      && var loan := LoansOf(s.ledger.bank.loanAccount, call.context.sender)[call.op.number];
         0 < loan.interest <= call.op.tokens
  {
    hide Stake, Step;
    StepBalances(Interest, s, call);
    if call.op.ORepay? && Outcome(s, call).Some? {
      LoansOfOk(s.ledger.bank, s.now, call.context.sender);
      assert LoanOk(LoansOf(s.ledger.bank.loanAccount, call.context.sender)[call.op.number], s.now);
    }
  }

  /**
   In every reachable state a repayment succeeds exactly when its own stated guards hold: neither
   interestMint nor the UNIT balance can ever be short.
   */
  lemma {:induction false} RepayNeverShort(s: System, calls: seq<Call>, wait: nat, c: Context, number: nat,
      tokens: nat, value: nat)
    requires Initial(s)
    ensures var l := Run(s, calls).ledger;
      var loans := LoansOf(l.bank.loanAccount, c.sender);
      Repay(l, Run(s, calls).now + wait, c, number, tokens, value).Some?
      <==> tokens <= Get(l.token.balance, c.sender) && number < |loans|
           && !loans[number].status.Closed? && loans[number].debt > 0 && tokens > 0
  {
    InitialInv(s);
    RunKeeps(s, calls);
    UnitSolvent(s, calls);
    InterestMintExact(s, calls);
    var now, l := Run(s, calls).now, Run(s, calls).ledger;
    var loans := LoansOf(l.bank.loanAccount, c.sender);
    if number < |loans| {
      LoansOfOk(l.bank, now, c.sender);
      assert LoanOk(loans[number], now);
      assert c.sender in l.bank.loanUsers;
      LoanWithinStake(Interest, l, now, c.sender, number);
      LoanWithinStake(Collateral, l, now, c.sender, number);
    }
  }

  /** One loan never holds more than the total. */
  lemma LoanWithinStake(k: Kind, l: Ledger, now: nat, u: Address, number: nat)
    requires Inv(l, now) && number < |LoansOf(l.bank.loanAccount, u)| && !k.Closings?
    ensures LoanStake(k, LoansOf(l.bank.loanAccount, u)[number]) <= Stake(k, l)
  {
    LoansOfOk(l.bank, now, u);
    assert u in l.bank.loanUsers;
    LoansStakeBounds(k, LoansOf(l.bank.loanAccount, u), now);
    AccountsStakeBounds(k, l.bank.loanUsers, l.bank.loanAccount, now);
    LotsStakeBounds(k, l.lots, now);
  }

  lemma LotWithinStake(k: Kind, l: Ledger, now: nat, n: nat)
    requires Inv(l, now) && n < |l.lots| && !k.Closings?
    ensures LotStake(k, l.lots[n]) <= Stake(k, l)
  {
    AccountsStakeBounds(k, l.bank.loanUsers, l.bank.loanAccount, now);
    LotsStakeBounds(k, l.lots, now);
  }

  /** The number of closed loans of all borrowers. */
  function ClosedLoans(l: Ledger): int {
    AccountsStake(Closings, l.bank.loanUsers, l.bank.loanAccount)
  }

  lemma {:induction false} LotsCount(lots: seq<Lot>)
    ensures LotsStake(Closings, lots) == -|lots|
  {
    if lots != [] {
      LotsCount(lots[..|lots| - 1]);
    }
  }

  /**
   Every closed loan was either repaid in full or auctioned once: the closed loans are as many as
   the lots ever opened plus the repayments in full.
   */
  lemma {:induction false} EveryClosingAccounted(s: System, calls: seq<Call>)
    requires Initial(s)
    ensures var l := Run(s, calls).ledger;
      ClosedLoans(l) == |l.lots| + RunFlow(Closings, s, calls)
  {
    InitialInv(s);
    RunBalances(Closings, s, calls);
    LotsCount(Run(s, calls).ledger.lots);
  }
}
