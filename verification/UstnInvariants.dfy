/** What every USTN transaction keeps: bookkeeping of users and loans, and the shape of every lot. */
module UstnInvariants {
  import opened Prelude
  import opened UstnModel

  ghost function Members(users: seq<Address>): set<Address> { set u | u in users }

  ghost predicate LoanOk(loan: Loan, now: nat) {
    loan.interest <= loan.debt && loan.timestamp <= now
  }

  ghost predicate LoansOk(loans: seq<Loan>, now: nat) {
    forall i :: 0 <= i < |loans| ==> LoanOk(loans[i], now)
  }

  /** Once anyone has bid, the leader's bid is the current value and every other bid is lower. */
  ghost predicate LotOk(lot: Lot, now: nat) {
    && lot.debt <= lot.startValue <= lot.nowValue
    && (lot.bider == 0 ==> lot.nowValue == lot.startValue && forall u :: u in lot.bids ==> lot.bids[u] == 0)
    && (lot.bider != 0 ==>
      && lot.startValue < lot.nowValue == Get(lot.bids, lot.bider)
      && forall u :: u in lot.bids && u != lot.bider ==> lot.bids[u] < lot.nowValue)
    && (lot.settled ==> lot.bider != 0 && lot.timeOver < now)
  }

  ghost predicate LotsOk(lots: seq<Lot>, now: nat) {
    forall n :: 0 <= n < |lots| ==> LotOk(lots[n], now)
  }

  ghost predicate BankOk(b: Bank, now: nat) {
    && NoDuplicates(b.loanUsers) && b.loaners == Members(b.loanUsers) == b.loanAccount.Keys
    && NoDuplicates(b.depositUsers) && b.depositers == Members(b.depositUsers)
    && (forall u :: u in b.depositers ==> Get(b.pastTime, u) <= now)
    && (forall u :: u in b.loanAccount ==> LoansOk(b.loanAccount[u], now))
  }

  ghost predicate Inv(l: Ledger, now: nat) {
    BankOk(l.bank, now) && LotsOk(l.lots, now)
  }

  lemma InvLater(l: Ledger, now: nat, later: nat)
    requires Inv(l, now) && now <= later
    ensures Inv(l, later)
  {
    forall u | u in l.bank.loanAccount ensures LoansOk(l.bank.loanAccount[u], later) {
      assert LoansOk(l.bank.loanAccount[u], now);
    }
    forall n | 0 <= n < |l.lots| ensures LotOk(l.lots[n], later) {
      assert LotOk(l.lots[n], now);
    }
  }

  lemma LoansOfOk(b: Bank, now: nat, u: Address)
    requires BankOk(b, now)
    ensures LoansOk(LoansOf(b.loanAccount, u), now)
  {}

  lemma NoDuplicatesPush(s: seq<Address>, u: Address)
    requires NoDuplicates(s) && u !in s
    ensures NoDuplicates(s + [u]) && Members(s + [u]) == Members(s) + {u}
  {}

  lemma DepositKeeps(l: Ledger, now: nat, c: Context, tokens: nat)
    requires Inv(l, now) && Deposit(l, now, c, tokens).Some?
    ensures Inv(Deposit(l, now, c, tokens).value, now)
  {
    if c.sender !in l.bank.depositers {
      NoDuplicatesPush(l.bank.depositUsers, c.sender);
    }
  }

  lemma PeriodsSinceBound(t: nat, now: nat)
    requires t <= now
    ensures t + PeriodsSince(t, now) * PERIOD <= now < t + (PeriodsSince(t, now) + 1) * PERIOD
  {}

  lemma DistributeKeeps(l: Ledger, now: nat, c: Context)
    requires Inv(l, now) && Distribute(l, now, c).Some?
    ensures Inv(Distribute(l, now, c).value, now)
  {
    var b := l.bank;
    var b' := Distribute(l, now, c).value.bank;
    forall u | u in b'.depositers ensures Get(b'.pastTime, u) <= now {
      PeriodsSinceBound(Get(b.pastTime, u), now);
    }
  }

  lemma BorrowKeeps(l: Ledger, now: nat, c: Context, value: nat)
    requires Inv(l, now) && Borrow(l, now, c, value).Some?
    ensures Inv(Borrow(l, now, c, value).value, now)
  {
    if c.sender !in l.bank.loaners {
      NoDuplicatesPush(l.bank.loanUsers, c.sender);
    }
    LoansOfOk(l.bank, now, c.sender);
  }

  /** Replacing one loan of one borrower by a sound one keeps the bank sound. */
  lemma ReplaceLoanKeeps(b: Bank, now: nat, u: Address, number: nat, loan: Loan, b': Bank)
    requires BankOk(b, now) && number < |LoansOf(b.loanAccount, u)| && LoanOk(loan, now)
    requires b' == b.(
      loanAccount := b.loanAccount[u := LoansOf(b.loanAccount, u)[number := loan]],
      bankLoanLimit := b'.bankLoanLimit, interestMint := b'.interestMint, unitBalance := b'.unitBalance)
    ensures BankOk(b', now)
  {
    LoansOfOk(b, now, u);
  }

  lemma TopUpKeeps(l: Ledger, now: nat, c: Context, number: nat, value: nat)
    requires Inv(l, now) && TopUp(l, now, c, number, value).Some?
    ensures Inv(TopUp(l, now, c, number, value).value, now)
  {
    var u := c.sender;
    var b' := TopUp(l, now, c, number, value).value.bank;
    LoansOfOk(l.bank, now, u);
    ReplaceLoanKeeps(l.bank, now, u, number, b'.loanAccount[u][number], b');
  }

  lemma RepayKeeps(l: Ledger, now: nat, c: Context, number: nat, tokens: nat, value: nat)
    requires Inv(l, now) && Repay(l, now, c, number, tokens, value).Some?
    ensures Inv(Repay(l, now, c, number, tokens, value).value, now)
  {
    var u := c.sender;
    var loan := LoansOf(l.bank.loanAccount, u)[number];
    LoansOfOk(l.bank, now, u);
    assert LoanOk(loan, now);
    ReplaceLoanKeeps(l.bank, now, u, number, RepaidLoan(loan, tokens),
                     Repay(l, now, c, number, tokens, value).value.bank);
  }

  lemma AccrueKeeps(loan: Loan, now: nat, rate: nat)
    requires LoanOk(loan, now)
    ensures LoanOk(AccrueLoan(loan, now, rate), now)
  {
    PeriodsSinceBound(loan.timestamp, now);
  }

  /** Every lot opened by liquidation is sound and unbid, whatever the loans it comes from. */
  lemma {:induction false} LoansLotsOk(loans: seq<Loan>, now: nat, c: Context)
    requires Priced(loans, c) && LoansOk(loans, now)
    ensures LotsOk(LoansLots(loans, now, c), now)
  {
    if loans != [] {
      assert LoanOk(loans[|loans| - 1], now);
      LoansLotsOk(loans[..|loans| - 1], now, c);
    }
  }

  lemma {:induction false} AccountsLotsOk(users: seq<Address>, accounts: map<Address, seq<Loan>>, now: nat, c: Context)
    requires AllPriced(accounts, c) && forall u :: u in accounts ==> LoansOk(accounts[u], now)
    ensures LotsOk(AccountsLots(users, accounts, now, c), now)
  {
    if users != [] {
      AccountsLotsOk(users[..|users| - 1], accounts, now, c);
      LoansLotsOk(LoansOf(accounts, users[|users| - 1]), now, c);
    }
  }

  lemma AccrueAccountsKeeps(accounts: map<Address, seq<Loan>>, now: nat, rate: nat)
    requires forall u :: u in accounts ==> LoansOk(accounts[u], now)
    ensures forall u :: u in accounts ==> LoansOk(AccrueAccounts(accounts, now, rate)[u], now)
  {
    forall u, i | u in accounts && 0 <= i < |accounts[u]|
      ensures LoanOk(AccrueAccounts(accounts, now, rate)[u][i], now)
    {
      AccrueKeeps(accounts[u][i], now, rate);
    }
  }

  lemma LiquidateKeeps(l: Ledger, now: nat, c: Context)
    requires Inv(l, now) && Liquidate(l, now, c).Some?
    ensures Inv(Liquidate(l, now, c).value, now)
  {
    var b, rate := l.bank, c.config.loanInterestRate;
    var accrued := AccrueAccounts(b.loanAccount, now, rate);
    AccrueAccountsKeeps(b.loanAccount, now, rate);
    AccountsLotsOk(b.loanUsers, accrued, now, c);
    var b' := Liquidate(l, now, c).value.bank;
    assert b'.loanAccount.Keys == b.loanAccount.Keys;
    forall u | u in b'.loanAccount ensures LoansOk(b'.loanAccount[u], now) {
      assert LoansOk(accrued[u], now);
      forall i | 0 <= i < |b'.loanAccount[u]| ensures LoanOk(b'.loanAccount[u][i], now) {
        assert LoanOk(accrued[u][i], now);
      }
    }
  }

  /** A bid makes its sender the leader and stays above every other bid. */
  lemma BidKeeps(l: Ledger, now: nat, c: Context, n: nat, amount: nat)
    requires Inv(l, now) && Bid(l, now, c, n, amount).Some?
    ensures Inv(Bid(l, now, c, n, amount).value, now)
  {
    assert LotOk(l.lots[n], now);
    var lot' := Bid(l, now, c, n, amount).value.lots[n];
    assert LotOk(lot', now);
  }

  lemma WithdrawBidKeeps(l: Ledger, now: nat, c: Context, n: nat)
    requires Inv(l, now) && WithdrawBid(l, now, c, n).Some?
    ensures Inv(WithdrawBid(l, now, c, n).value, now)
  {
    assert LotOk(l.lots[n], now);
  }

  lemma RelistKeeps(l: Ledger, now: nat, c: Context)
    requires Inv(l, now) && Relist(l, now, c).Some?
    ensures Inv(Relist(l, now, c).value, now)
  {
    forall n | 0 <= n < |l.lots| ensures LotOk(RelistLot(l.lots[n], now), now) {
      assert LotOk(l.lots[n], now);
    }
  }

  lemma WithdrawKeeps(l: Ledger, now: nat, c: Context, tokens: nat)
    requires Inv(l, now) && Withdraw(l, now, c, tokens).Some?
    ensures Inv(Withdraw(l, now, c, tokens).value, now)
  {}

  lemma SettleKeeps(l: Ledger, now: nat, c: Context, n: nat)
    requires Inv(l, now) && Settle(l, now, c, n).Some?
    ensures Inv(Settle(l, now, c, n).value, now)
  {
    assert LotOk(l.lots[n], now);
  }

  lemma ElsewhereKeeps(l: Ledger, l': Ledger, now: nat)
    requires Inv(l, now) && l'.bank == l.bank && l'.lots == l.lots
    ensures Inv(l', now)
  {}

  lemma ApplyKeeps(l: Ledger, now: nat, c: Context, op: Op)
    requires Inv(l, now) && Apply(l, now, c, op).Some?
    ensures Inv(Apply(l, now, c, op).value, now)
  {
    hide Inv, Deposit, Withdraw, Distribute, Borrow, TopUp, Repay, Liquidate, Bid, WithdrawBid, Settle, Relist;
    match op
    case ODeposit(tokens) => DepositKeeps(l, now, c, tokens);
    case OWithdraw(tokens) => WithdrawKeeps(l, now, c, tokens);
    case ODistribute => DistributeKeeps(l, now, c);
    case OBorrow(value) => BorrowKeeps(l, now, c, value);
    case OTopUp(number, value) => TopUpKeeps(l, now, c, number, value);
    case ORepay(number, tokens, value) => RepayKeeps(l, now, c, number, tokens, value);
    case OLiquidate => LiquidateKeeps(l, now, c);
    case OBid(n, amount) => BidKeeps(l, now, c, n, amount);
    case OWithdrawBid(n) => WithdrawBidKeeps(l, now, c, n);
    case OSettle(n) => SettleKeeps(l, now, c, n);
    case ORelist => RelistKeeps(l, now, c);
    case OElsewhere(_, _) => ElsewhereKeeps(l, Apply(l, now, c, op).value, now);
  }

  lemma StepKeeps(s: System, call: Call)
    requires Inv(s.ledger, s.now)
    ensures Inv(Step(s, call).ledger, Step(s, call).now)
  {
    hide Inv, Apply;
    InvLater(s.ledger, s.now, s.now + call.wait);
    if Outcome(s, call).Some? {
      ApplyKeeps(s.ledger, s.now + call.wait, call.context, call.op);
    }
  }

  /** The invariant holds in every state of every run. */
  lemma {:induction false} RunKeeps(s: System, calls: seq<Call>)
    requires Inv(s.ledger, s.now)
    ensures Inv(Run(s, calls).ledger, Run(s, calls).now)
  {
    if calls != [] {
      RunKeeps(s, calls[..|calls| - 1]);
      StepKeeps(Run(s, calls[..|calls| - 1]), calls[|calls| - 1]);
    }
  }

  lemma InitialInv(s: System)
    requires Initial(s)
    ensures Inv(s.ledger, s.now)
  {}
}
