/**
 The three USTN contracts as objects that update their fields in place. Every method is proved to
 compute the transaction of the same name in UstnModel, reverts included.
 */
module UstnContracts {
  import opened Prelude
  import opened UstnModel
  import opened UstnInvariants
  import M = UstnModel

  /** A transaction either went through with this result, or reverted and changed nothing. */
  ghost predicate Performs(before: Ledger, ok: bool, after: Ledger, result: Option<Ledger>) {
    ok == result.Some? && after == if ok then result.value else before
  }

  // ---------- Prefixes of the depositor list, for the loops below ----------

  lemma MembersGrow(users: seq<Address>, i: nat)
    requires i < |users| && NoDuplicates(users)
    ensures Members(users[..i + 1]) == Members(users[..i]) + {users[i]}
    ensures users[i] !in Members(users[..i])
  {
    assert users[..i + 1] == users[..i] + [users[i]];
  }

  lemma NoneCredited(b: Bank, now: nat)
    ensures PointsWith(b, now, {}) == b.depositPoint && TimesWith(b, now, {}) == b.pastTime
  {
    assert b.depositPoint.Keys + {} == b.depositPoint.Keys;
    assert b.pastTime.Keys + {} == b.pastTime.Keys;
  }

  lemma PointsStep(b: Bank, now: nat, members: set<Address>, u: Address)
    requires u !in members
    ensures Get(PointsWith(b, now, members), u) == Get(b.depositPoint, u)
    ensures PointsWith(b, now, members + {u}) == PointsWith(b, now, members)[u := PointAfter(b, now, u)]
  {
    hide PointAfter;
  }

  lemma TimesStep(b: Bank, now: nat, members: set<Address>, u: Address)
    requires u !in members
    ensures Get(TimesWith(b, now, members), u) == Get(b.pastTime, u)
    ensures TimesWith(b, now, members + {u}) == TimesWith(b, now, members)[u := TimeAfter(b, now, u)]
  {
    hide TimeAfter;
  }

  lemma AllCredited(b: Bank, now: nat)
    ensures forall u :: u in b.depositUsers ==>
      Get(PointsWith(b, now, Members(b.depositUsers)), u) == PointAfter(b, now, u)
  {}

  lemma NonePaid(b: Bank, now: nat, total: nat)
    ensures BalancesWith(b, now, {}, total) == b.depositBalances
  {
    assert b.depositBalances.Keys + {} == b.depositBalances.Keys;
  }

  lemma OneMorePaid(b: Bank, now: nat, members: set<Address>, u: Address, total: nat)
    requires u !in members && total > 0
    ensures BalancesWith(b, now, members + {u}, total) == BalancesWith(b, now, members, total)[u :=
      Get(BalancesWith(b, now, members, total), u) + Share(b, now, u, total)]
  {}

  // ---------- Prefixes of the borrower list ----------

  ghost function AccruedFor(accounts: map<Address, seq<Loan>>, members: set<Address>, now: nat, rate: nat)
    : map<Address, seq<Loan>>
  {
    map u | u in accounts :: if u in members then AccrueLoans(accounts[u], now, rate) else accounts[u]
  }

  lemma NoneAccrued(accounts: map<Address, seq<Loan>>, now: nat, rate: nat)
    ensures AccruedFor(accounts, {}, now, rate) == accounts
  {}

  lemma OneMoreAccrued(accounts: map<Address, seq<Loan>>, members: set<Address>, u: Address, now: nat, rate: nat)
    requires u !in members
    ensures u in accounts ==>
      u in AccruedFor(accounts, members, now, rate)
      && AccruedFor(accounts, members, now, rate)[u] == accounts[u]
      && AccruedFor(accounts, members + {u}, now, rate)
         == AccruedFor(accounts, members, now, rate)[u := AccrueLoans(accounts[u], now, rate)]
  {}

  lemma NoGain(accounts: map<Address, seq<Loan>>, now: nat, rate: nat)
    ensures AccountsGain([], accounts, now, rate) == 0
  {}

  lemma OneMoreGain(users: seq<Address>, i: nat, accounts: map<Address, seq<Loan>>, now: nat, rate: nat)
    requires i < |users|
    ensures AccountsGain(users[..i + 1], accounts, now, rate)
         == AccountsGain(users[..i], accounts, now, rate) + LoansGain(LoansOf(accounts, users[i]), now, rate)
  {
    assert users[..i + 1][..i] == users[..i];
  }

  lemma AllAccrued(accounts: map<Address, seq<Loan>>, now: nat, rate: nat)
    ensures AccruedFor(accounts, accounts.Keys, now, rate) == AccrueAccounts(accounts, now, rate)
  {}

  lemma SameBorrowers(accounts: map<Address, seq<Loan>>, now: nat, rate: nat)
    ensures AccrueAccounts(accounts, now, rate).Keys == accounts.Keys
  {}

  ghost function ClassifiedFor(accounts: map<Address, seq<Loan>>, members: set<Address>, c: Context)
    : map<Address, seq<Loan>>
    requires AllPriced(accounts, c)
  {
    map u | u in accounts :: if u in members then ClassifyLoans(accounts[u], c) else accounts[u]
  }

  lemma NoneClassified(accounts: map<Address, seq<Loan>>, c: Context)
    requires AllPriced(accounts, c)
    ensures ClassifiedFor(accounts, {}, c) == accounts
  {}

  lemma OneMoreClassified(accounts: map<Address, seq<Loan>>, members: set<Address>, u: Address, c: Context)
    requires AllPriced(accounts, c) && u !in members && u in accounts
    ensures u in ClassifiedFor(accounts, members, c)
      && ClassifiedFor(accounts, members, c)[u] == accounts[u]
      && ClassifiedFor(accounts, members + {u}, c)
         == ClassifiedFor(accounts, members, c)[u := ClassifyLoans(accounts[u], c)]
  {}

  lemma AllClassified(accounts: map<Address, seq<Loan>>, c: Context)
    requires AllPriced(accounts, c)
    ensures ClassifiedFor(accounts, accounts.Keys, c) == ClassifyAccounts(accounts, c)
  {}

  class Ustn {
    var totalSupply: nat
    var balance: map<Address, nat>
    const manager: Account

    ghost function State(): Token reads this { Token(totalSupply, balance, manager) }

    constructor (auctionManager: Account)
      ensures State() == Token(0, map[], auctionManager)
    {
      totalSupply, balance, manager := 0, map[], auctionManager;
    }

    method BidCost(bider: Address, amount: nat) returns (ok: bool)
      modifies this`balance
      ensures ok == (Get(old(balance), bider) > amount)
      ensures ok ==>
        var paid := old(balance)[bider := Get(old(balance), bider) - amount];
        balance == paid[manager := Get(paid, manager) + amount]
      ensures !ok ==> balance == old(balance)
    {
      if Get(balance, bider) <= amount { return false; }
      balance := balance[bider := Get(balance, bider) - amount];
      balance := balance[manager := Get(balance, manager) + amount];
      return true;
    }

    method BidBack(bider: Address, amount: nat) returns (ok: bool)
      requires bider != 0
      modifies this`balance
      ensures var paid := old(balance)[bider := Get(old(balance), bider) + amount];
        && ok == (amount <= Get(paid, manager))
        && balance == if ok then paid[manager := Get(paid, manager) - amount] else old(balance)
    {
      var before := balance;
      balance := balance[bider := Get(balance, bider) + amount];
      if Get(balance, manager) < amount {
        balance := before;
        return false;
      }
      balance := balance[manager := Get(balance, manager) - amount];
      return true;
    }

    method Burn(account: Address, tokens: nat) returns (ok: bool)
      modifies this
      ensures ok == (tokens <= Get(old(balance), account) && tokens <= old(totalSupply))
      ensures ok ==>
        totalSupply == old(totalSupply) - tokens
        && balance == old(balance)[account := Get(old(balance), account) - tokens]
      ensures !ok ==> State() == old(State())
    {
      if Get(balance, account) < tokens || totalSupply < tokens { return false; }
      totalSupply := totalSupply - tokens;
      balance := balance[account := Get(balance, account) - tokens];
      return true;
    }

    method AddTotalSupply(amount: nat)
      modifies this`totalSupply
      ensures totalSupply == old(totalSupply) + amount
    {
      totalSupply := totalSupply + amount;
    }

    method AddBalance(add: Address, amount: nat)
      modifies this`balance
      ensures balance == old(balance)[add := Get(old(balance), add) + amount]
    {
      balance := balance[add := Get(balance, add) + amount];
    }

    method ReduceBalance(add: Address, amount: nat) returns (ok: bool)
      modifies this`balance
      ensures ok == (0 < amount <= Get(old(balance), add))
      ensures balance == if ok then old(balance)[add := Get(old(balance), add) - amount] else old(balance)
    {
      if amount == 0 || Get(balance, add) < amount { return false; }
      balance := balance[add := Get(balance, add) - amount];
      return true;
    }
  }

  class UstnAuction {
    var lots: seq<Lot>
    const token: Ustn
    var finance: UstnFinance?

    constructor (ustn: Ustn)
      ensures lots == [] && token == ustn && finance == null
    {
      lots, token, finance := [], ustn, null;
    }

    ghost predicate Wired()
      reads this, finance
    {
      finance != null && finance.auction == this && finance.token == token
    }

    ghost function View(): Ledger
      requires Wired()
      reads this, finance, token
    {
      Ledger(finance.State(), lots, token.State())
    }

    /** Called by the bank when it closes a loan. */
    method AuctionStart(now: nat, mortgage: nat, debt: nat, interest: nat)
      modifies this`lots
      ensures lots == old(lots)
        + [Lot(mortgage, debt, debt, now + BID_DURATION, false, interest, 0, map[])]
    {
      lots := lots + [Lot(mortgage, debt, debt, now + BID_DURATION, false, interest, 0, map[])];
    }

    method Bid(now: nat, c: Context, n: nat, bidAmount: nat) returns (ok: bool)
      requires Wired()
      modifies this`lots, token
      ensures Wired()
      ensures Performs(old(View()), ok, View(), M.Bid(old(View()), now, c, n, bidAmount))
    {
      if n >= |lots| || lots[n].timeOver <= now { return false; }
      if Get(lots[n].bids, c.sender) + bidAmount <= lots[n].nowValue { return false; }
      var paid := token.BidCost(c.sender, bidAmount);
      if !paid { return false; }
      var total := Get(lots[n].bids, c.sender) + bidAmount;
      lots := lots[n := lots[n].(bider := c.sender)];
      lots := lots[n := lots[n].(nowValue := total)];
      lots := lots[n := lots[n].(bids := lots[n].bids[c.sender := total])];
      return true;
    }

    method BidWithdrawal(now: nat, c: Context, n: nat) returns (ok: bool)
      requires Wired()
      modifies this`lots, token
      ensures Wired()
      ensures Performs(old(View()), ok, View(), M.WithdrawBid(old(View()), now, c, n))
    {
      if n >= |lots| || lots[n].bider == c.sender || Get(lots[n].bids, c.sender) == 0 { return false; }
      var back := token.BidBack(c.sender, Get(lots[n].bids, c.sender));
      if !back { return false; }
      lots := lots[n := lots[n].(bids := lots[n].bids[c.sender := 0])];
      return true;
    }

    method GetAuction(now: nat, c: Context, n: nat) returns (ok: bool)
      requires Wired()
      modifies this`lots, token, finance
      ensures Wired()
      ensures Performs(old(View()), ok, View(), M.Settle(old(View()), now, c, n))
    {
      if n >= |lots| || lots[n].settled || lots[n].timeOver >= now || lots[n].bider != c.sender {
        return false;
      }
      var lot := lots[n];
      if lot.startValue < lot.debt { return false; }
      var unitBalance, interestMint, limit := finance.unitBalance, finance.interestMint, finance.bankLoanLimit;
      var paid := finance.AuctionOver(lot.sales, lot.debt, lot.startValue - lot.debt);
      if !paid { return false; }
      var burnt := token.Burn(token.manager, lot.startValue);
      if !burnt {
        finance.unitBalance, finance.interestMint, finance.bankLoanLimit := unitBalance, interestMint, limit;
        return false;
      }
      lots := lots[n := lot.(settled := true)];
      return true;
    }

    method UpgradeState(now: nat, c: Context) returns (ok: bool)
      requires Wired()
      modifies this`lots
      ensures Wired()
      ensures Performs(old(View()), ok, View(), M.Relist(old(View()), now, c))
    {
      if !c.foundation { return false; }
      for a := 0 to |lots|
        invariant Wired() && |lots| == |old(lots)|
        invariant forall i :: 0 <= i < a ==> lots[i] == RelistLot(old(lots)[i], now)
        invariant forall i :: a <= i < |lots| ==> lots[i] == old(lots)[i]
      {
        if lots[a].timeOver < now && lots[a].bider == 0 {
          lots := lots[a := lots[a].(timeOver := now + BID_DURATION)];
        }
      }
      return true;
    }
  }

  class UstnFinance {
    var bankLoanLimit: nat
    var depositUsers: seq<Address>
    var depositers: set<Address>
    var depositBalances: map<Address, nat>
    var pastTime: map<Address, nat>
    var depositPoint: map<Address, nat>
    var loansTotalInterest: nat
    var interestMint: nat
    var loanUsers: seq<Address>
    var loaners: set<Address>
    var loanAccount: map<Address, seq<Loan>>
    var unitBalance: nat
    const token: Ustn
    const auction: UstnAuction

    ghost function State(): Bank reads this {
      Bank(bankLoanLimit, depositUsers, depositers, depositBalances, pastTime, depositPoint,
           loansTotalInterest, interestMint, loanUsers, loaners, loanAccount, unitBalance)
    }

    ghost function View(): Ledger reads this, auction, token {
      Ledger(State(), auction.lots, token.State())
    }

    ghost predicate Valid(now: nat)
      reads this, auction, token
    {
      auction.token == token && auction.finance == this && Inv(View(), now)
    }

    /** A fresh bank takes its place behind an unused auction house. */
    constructor (ustn: Ustn, house: UstnAuction)
      requires house.token == ustn && house.lots == [] && house.finance == null
      modifies house`finance
      ensures token == ustn && auction == house
      ensures forall now :: Valid(now) && Initial(System(now, View()))
    {
      bankLoanLimit, loansTotalInterest, interestMint, unitBalance := 0, 0, 0, 0;
      depositUsers, depositers, loanUsers, loaners := [], {}, [], {};
      depositBalances, pastTime, depositPoint, loanAccount := map[], map[], map[], map[];
      token, auction := ustn, house;
      new;
      house.finance := this;
    }

    // ---------- Deposits ----------

    method EnlistDepositor(u: Address, now: nat)
      modifies this`depositers, this`depositUsers, this`pastTime
      ensures u in old(depositers) ==>
        depositers == old(depositers) && depositUsers == old(depositUsers) && pastTime == old(pastTime)
      ensures u !in old(depositers) ==>
        depositers == old(depositers) + {u} && depositUsers == old(depositUsers) + [u]
        && pastTime == old(pastTime)[u := now]
    {
      if u !in depositers {
        depositers, depositUsers := depositers + {u}, depositUsers + [u];
        pastTime := pastTime[u := now];
      }
    }

    method Deposit(now: nat, c: Context, tokens: nat) returns (ok: bool)
      requires Valid(now)
      modifies this, token
      ensures Valid(now)
      ensures Performs(old(View()), ok, View(), M.Deposit(old(View()), now, c, tokens))
    {
      hide Inv, Reserve;
      if !(MIN_AMOUNT <= tokens <= Get(token.balance, c.sender)) { return false; }
      EnlistDepositor(c.sender, now);
      var reduced := token.ReduceBalance(c.sender, tokens);
      depositBalances := depositBalances[c.sender := Get(depositBalances, c.sender) + tokens];
      bankLoanLimit := bankLoanLimit + Reserve(tokens, c.config);
      ok := true;
      DepositKeeps(old(View()), now, c, tokens);
    }

    method Withdrawal(now: nat, c: Context, tokens: nat) returns (ok: bool)
      requires Valid(now)
      modifies this, token
      ensures Valid(now)
      ensures Performs(old(View()), ok, View(), M.Withdraw(old(View()), now, c, tokens))
    {
      hide Inv, Reserve;
      if Get(depositBalances, c.sender) < tokens { return false; }
      if bankLoanLimit < Reserve(tokens, c.config) { return false; }
      depositBalances := depositBalances[c.sender := Get(depositBalances, c.sender) - tokens];
      bankLoanLimit := bankLoanLimit - Reserve(tokens, c.config);
      token.AddBalance(c.sender, tokens);
      ok := true;
      WithdrawKeeps(old(View()), now, c, tokens);
    }

    /** The first loop of a distribution: whole periods since the last credit, for every depositor. */
    method CreditPoints(now: nat)
      requires NoDuplicates(depositUsers)
      requires forall u :: u in depositUsers ==> Get(pastTime, u) <= now
      modifies this`depositPoint, this`pastTime
      ensures depositPoint == PointsWith(old(State()), now, Members(depositUsers))
      ensures pastTime == TimesWith(old(State()), now, Members(depositUsers))
    {
      hide PointsWith, TimesWith;
      ghost var b := State();
      NoneCredited(b, now);
      assert Members(depositUsers[..0]) == {};
      for i := 0 to |depositUsers|
        invariant depositPoint == PointsWith(b, now, Members(depositUsers[..i]))
        invariant pastTime == TimesWith(b, now, Members(depositUsers[..i]))
      {
        var u := depositUsers[i];
        MembersGrow(depositUsers, i);
        PointsStep(b, now, Members(depositUsers[..i]), u);
        TimesStep(b, now, Members(depositUsers[..i]), u);
        var o := (now - Get(pastTime, u)) / PERIOD;
        depositPoint := depositPoint[u := Get(depositPoint, u) + Get(depositBalances, u) * o];
        pastTime := pastTime[u := Get(pastTime, u) + o * PERIOD];
      }
      assert depositUsers[..|depositUsers|] == depositUsers;
    }

    /** The third loop: every depositor's share of the collected interest. */
    method CreditInterest(ghost b: Bank, now: nat, total: nat)
      requires NoDuplicates(depositUsers) && total > 0
      requires State() == b.(depositPoint := depositPoint, pastTime := pastTime)
      requires forall u :: u in depositUsers ==> Get(depositPoint, u) == PointAfter(b, now, u)
      modifies this`depositBalances
      ensures depositBalances == BalancesWith(b, now, Members(depositUsers), total)
    {
      hide BalancesWith, PointAfter;
      NonePaid(b, now, total);
      assert Members(depositUsers[..0]) == {};
      for i := 0 to |depositUsers|
        invariant depositBalances == BalancesWith(b, now, Members(depositUsers[..i]), total)
      {
        var u := depositUsers[i];
        MembersGrow(depositUsers, i);
        OneMorePaid(b, now, Members(depositUsers[..i]), u, total);
        depositBalances := depositBalances[u :=
          Get(depositBalances, u) + loansTotalInterest * Get(depositPoint, u) / total];
      }
      assert depositUsers[..|depositUsers|] == depositUsers;
    }

    method DistributeDepositInterest(now: nat, c: Context) returns (ok: bool)
      requires Valid(now)
      modifies this
      ensures Valid(now)
      ensures Performs(old(View()), ok, View(), M.Distribute(old(View()), now, c))
    {
      hide PointsWith, TimesWith, BalancesWith, PointAfter, LotsOk;
      if !c.foundation { return false; }
      ghost var b := State();
      var points, times := depositPoint, pastTime;
      assert forall u :: u in depositUsers ==> u in depositers;
      CreditPoints(now);
      AllCredited(b, now);
      var total := 0;
      for i := 0 to |depositUsers|
        invariant total == PointTotal(b, now, depositUsers[..i])
      {
        assert depositUsers[..i + 1][..i] == depositUsers[..i];
        total := total + Get(depositPoint, depositUsers[i]);
      }
      assert depositUsers[..|depositUsers|] == depositUsers;
      if total == 0 && |depositUsers| > 0 {
        depositPoint, pastTime := points, times;
        return false;
      }
      if |depositUsers| > 0 {
        CreditInterest(b, now, total);
      } else {
        NonePaid(b, now, total);
      }
      loansTotalInterest := 0;
      ok := true;
      assert Members(depositUsers) == set u | u in b.depositUsers;
      assert !exists u :: u in b.depositUsers && now < Get(b.pastTime, u);
      assert depositPoint == PointsWith(b, now, Members(depositUsers));
      assert pastTime == TimesWith(b, now, Members(depositUsers));
      assert depositBalances == BalancesWith(b, now, Members(depositUsers), total);
      assert State() == DistributeTo(b, now, total);
      DistributeKeeps(old(View()), now, c);
    }

    // ---------- Loans ----------

    /** Enters a new loan into the books; a first-time borrower joins the list. */
    method BookLoan(u: Address, loan: Loan, amount: nat)
      requires amount <= bankLoanLimit
      modifies this
      ensures State() == Lend(old(State()), u, loan, amount)
    {
      if u !in loaners {
        loaners := loaners + {u};
        loanUsers := loanUsers + [u];
      }
      loanAccount := loanAccount[u := LoansOf(loanAccount, u) + [loan]];
      bankLoanLimit := bankLoanLimit - amount;
      loansTotalInterest := loansTotalInterest + loan.interest;
      interestMint := interestMint + loan.interest;
      unitBalance := unitBalance + loan.mortgage;
    }

    method Loans(now: nat, c: Context, value: nat) returns (ok: bool)
      requires Valid(now)
      modifies this, token
      ensures Valid(now)
      ensures Performs(old(View()), ok, View(), M.Borrow(old(View()), now, c, value))
    {
      hide Inv, LoansRate, FirstInterest, Lend;
      if value < MIN_AMOUNT || c.ustnPrice == 0 || LoansRate(value, c) > bankLoanLimit { return false; }
      var amount := LoansRate(value, c);
      var interest := FirstInterest(amount, c.config);
      var acc := Loan(now, amount, value, amount + interest, interest, Normal);
      BookLoan(c.sender, acc, amount);
      token.AddBalance(c.sender, amount);
      token.AddTotalSupply(amount + interest);
      ok := true;
      BorrowKeeps(old(View()), now, c, value);
    }

    method AddLoans(now: nat, c: Context, number: nat, value: nat) returns (ok: bool)
      requires Valid(now)
      modifies this
      ensures Valid(now)
      ensures Performs(old(View()), ok, View(), M.TopUp(old(View()), now, c, number, value))
    {
      hide Inv, Pledge;
      var loans := LoansOf(loanAccount, c.sender);
      if number >= |loans| || loans[number].status.Closed? { return false; }
      if loans[number].debt == 0 || c.ustnPrice == 0 { return false; }
      var loan := loans[number].(mortgage := loans[number].mortgage + value);
      unitBalance := unitBalance + value;
      if Pledge(loan.mortgage, loan.debt, c) >= WarningRate(c.config) {
        loan := loan.(status := Normal);
      } else {
        loan := loan.(status := Warning);
      }
      loanAccount := loanAccount[c.sender := loans[number := loan]];
      ok := true;
      TopUpKeeps(old(View()), now, c, number, value);
    }

    lemma InterestWithinDebt(now: nat, u: Address, number: nat)
      requires Inv(View(), now) && number < |LoansOf(loanAccount, u)|
      ensures LoansOf(loanAccount, u)[number].interest <= LoansOf(loanAccount, u)[number].debt
    {
      LoansOfOk(State(), now, u);
      assert LoanOk(LoansOf(loanAccount, u)[number], now);
    }

    /** Splits a repayment over interest and principal of one loan and releases its collateral. */
    method BookRepayment(u: Address, number: nat, tokens: nat, value: nat) returns (ok: bool)
      requires number < |LoansOf(loanAccount, u)|
      requires var loan := LoansOf(loanAccount, u)[number]; loan.interest <= loan.debt && loan.debt > 0
      modifies this
      ensures var loan := LoansOf(old(loanAccount), u)[number];
        && (ok <==> MintPaid(loan, tokens) <= old(interestMint)
                    && BackUnit(loan, tokens) <= old(unitBalance) + value)
        && (ok ==> State() == PayIn(old(State()), u, number, tokens, value))
      ensures !ok ==> State() == old(State())
    {
      hide BackUnit;
      var loans := LoansOf(loanAccount, u);
      var loan := loans[number];
      var limit, mint := bankLoanLimit, interestMint;
      var backUnit := BackUnit(loan, tokens);
      if tokens >= loan.debt {
        limit := limit + (loan.debt - loan.interest);
        loan := loan.(debt := 0, interest := 0, status := Closed);
      } else if loan.interest > 0 {
        if loan.interest <= tokens {
          limit := limit + (tokens - loan.interest);
          loan := loan.(interest := 0, debt := loan.debt - tokens);
        } else {
          if mint < tokens { return false; }
          mint := mint - tokens;
          loan := loan.(interest := loan.interest - tokens, debt := loan.debt - tokens);
        }
      } else {
        limit := limit + tokens;
        loan := loan.(debt := loan.debt - tokens);
      }
      if unitBalance + value < backUnit { return false; }
      loan := loan.(mortgage := loan.mortgage - backUnit);
      bankLoanLimit, interestMint, unitBalance := limit, mint, unitBalance + value - backUnit;
      loanAccount := loanAccount[u := loans[number := loan]];
      return true;
    }

    method LoansBack(now: nat, c: Context, number: nat, tokens: nat, value: nat) returns (ok: bool)
      requires Valid(now)
      modifies this, token
      ensures Valid(now)
      ensures Performs(old(View()), ok, View(), M.Repay(old(View()), now, c, number, tokens, value))
    {
      hide Inv, BackUnit, MintPaid, PayIn;
      var loans := LoansOf(loanAccount, c.sender);
      if Get(token.balance, c.sender) < tokens { return false; }
      if number >= |loans| || loans[number].status.Closed? { return false; }
      if loans[number].debt == 0 || tokens == 0 { return false; }
      InterestWithinDebt(now, c.sender, number);
      var cost := if tokens >= loans[number].debt then loans[number].debt else tokens;
      ok := BookRepayment(c.sender, number, tokens, value);
      if !ok { return; }
      var reduced := token.ReduceBalance(c.sender, cost);
      RepayKeeps(old(View()), now, c, number, tokens, value);
    }

    /** Called by the auction house when a winner collects: UNIT goes out, principal comes back. */
    method AuctionOver(tokens: nat, a: nat, b: nat) returns (ok: bool)
      modifies this`unitBalance, this`interestMint, this`bankLoanLimit
      ensures ok == (tokens <= old(unitBalance) && a <= old(interestMint))
      ensures ok ==>
        unitBalance == old(unitBalance) - tokens && interestMint == old(interestMint) - a
        && bankLoanLimit == old(bankLoanLimit) + b
      ensures !ok ==> State() == old(State())
    {
      if unitBalance < tokens || interestMint < a { return false; }
      unitBalance := unitBalance - tokens;
      interestMint := interestMint - a;
      bankLoanLimit := bankLoanLimit + b;
      return true;
    }

    // ---------- Liquidation ----------

    /** The innermost loop: one loan, one period at a time. */
    method AccrueOne(u: Address, b: nat, now: nat, rate: nat)
      requires u in loanAccount && b < |loanAccount[u]| && loanAccount[u][b].timestamp <= now
      modifies this`loanAccount, this`loansTotalInterest, this`interestMint, token`totalSupply
      ensures var loan := old(loanAccount)[u][b];
        && loanAccount == old(loanAccount)[u := old(loanAccount)[u][b := AccrueLoan(loan, now, rate)]]
        && loansTotalInterest == old(loansTotalInterest) + LoanGain(loan, now, rate)
        && interestMint == old(interestMint) + LoanGain(loan, now, rate)
        && token.totalSupply == old(token.totalSupply) + LoanGain(loan, now, rate)
    {
      var loan := loanAccount[u][b];
      var periods := (now - loan.timestamp) / PERIOD;
      var k := periods;
      loan := loan.(timestamp := loan.timestamp + k * PERIOD);
      ghost var debt := loan.debt;
      if !loan.status.Closed? {
        while k > 0
          invariant 0 <= k <= periods
          invariant var d := Compound(debt, rate, periods - k);
            && loan == old(loanAccount)[u][b].(
              timestamp := old(loanAccount)[u][b].timestamp + periods * PERIOD,
              debt := d, interest := old(loanAccount)[u][b].interest + (d - debt))
            && loansTotalInterest == old(loansTotalInterest) + (d - debt)
            && interestMint == old(interestMint) + (d - debt)
            && token.totalSupply == old(token.totalSupply) + (d - debt)
          invariant loanAccount == old(loanAccount)
        {
          var interest := loan.debt * rate / 10000;
          loansTotalInterest := loansTotalInterest + interest;
          interestMint := interestMint + interest;
          token.AddTotalSupply(interest);
          loan := loan.(interest := loan.interest + interest, debt := loan.debt + interest);
          k := k - 1;
        }
      }
      loanAccount := loanAccount[u := loanAccount[u][b := loan]];
    }

    /** The loop over one borrower's loans; it fails on a live loan that has no collateral rate. */
    method AccrueAccount(u: Address, now: nat, c: Context) returns (ok: bool)
      requires u in loanAccount && LoansOk(loanAccount[u], now)
      modifies this`loanAccount, this`loansTotalInterest, this`interestMint, token`totalSupply
      ensures ok <==> Priced(AccrueLoans(old(loanAccount)[u], now, c.config.loanInterestRate), c)
      ensures ok ==>
        var loans, rate := old(loanAccount)[u], c.config.loanInterestRate;
        && loanAccount == old(loanAccount)[u := AccrueLoans(loans, now, rate)]
        && loansTotalInterest == old(loansTotalInterest) + LoansGain(loans, now, rate)
        && interestMint == old(interestMint) + LoansGain(loans, now, rate)
        && token.totalSupply == old(token.totalSupply) + LoansGain(loans, now, rate)
    {
      ghost var loans := loanAccount[u];
      var rate := c.config.loanInterestRate;
      ghost var accrued := AccrueLoans(loans, now, rate);
      assert loanAccount == loanAccount[u := loans];
      for b := 0 to |loanAccount[u]|
        invariant u in loanAccount && |loanAccount[u]| == |loans|
        invariant loanAccount == old(loanAccount)[u := loanAccount[u]]
        invariant forall i :: 0 <= i < b ==> loanAccount[u][i] == accrued[i]
        invariant forall i :: b <= i < |loans| ==> loanAccount[u][i] == loans[i]
        invariant loansTotalInterest == old(loansTotalInterest) + LoansGain(loans[..b], now, rate)
        invariant interestMint == old(interestMint) + LoansGain(loans[..b], now, rate)
        invariant token.totalSupply == old(token.totalSupply) + LoansGain(loans[..b], now, rate)
        invariant forall i :: 0 <= i < b && !accrued[i].status.Closed? ==> accrued[i].debt > 0 && c.ustnPrice > 0
      {
        assert LoanOk(loans[b], now);
        AccrueOne(u, b, now, rate);
        assert loans[..b + 1][..b] == loans[..b];
        var loan := loanAccount[u][b];
        assert loan == accrued[b];
        if !loan.status.Closed? && (loan.debt == 0 || c.ustnPrice == 0) {
          return false;
        }
      }
      assert loans[..|loans|] == loans && loanAccount[u] == accrued;
      return true;
    }

    /** Classifies one live loan; a loan below the liquidation rate goes to the auction house. */
    method ClassifyOne(loan: Loan, now: nat, c: Context) returns (classified: Loan)
      requires !loan.status.Closed? ==> loan.debt > 0 && c.ustnPrice > 0
      modifies auction`lots
      ensures classified == loan.(status := ClassifyLoan(loan, c))
      ensures auction.lots == old(auction.lots)
        + if !loan.status.Closed? && classified.status.Closed? then [LotOf(loan, now)] else []
    {
      hide Pledge, WarningRate, LiquidationRate;
      classified := loan;
      if !loan.status.Closed? {
        var x := Pledge(loan.mortgage, loan.debt, c);
        if x <= WarningRate(c.config) {
          if x >= LiquidationRate(c.config) {
            classified := classified.(status := Warning);
          }
          if x < LiquidationRate(c.config) {
            classified := classified.(status := Closed);
            auction.AuctionStart(now, loan.mortgage, loan.debt, loan.interest);
          }
        } else {
          classified := classified.(status := Normal);
        }
      }
    }

    /** The classification loop over one borrower's loans. */
    method ClassifyAccount(u: Address, now: nat, c: Context)
      requires u in loanAccount && Priced(loanAccount[u], c)
      modifies this`loanAccount, auction`lots
      ensures loanAccount == old(loanAccount)[u := ClassifyLoans(old(loanAccount)[u], c)]
      ensures auction.lots == old(auction.lots) + LoansLots(old(loanAccount)[u], now, c)
    {
      hide ClassifyLoan;
      ghost var loans := loanAccount[u];
      ghost var classified := ClassifyLoans(loans, c);
      assert loanAccount == loanAccount[u := loans];
      for n := 0 to |loanAccount[u]|
        invariant u in loanAccount && |loanAccount[u]| == |loans|
        invariant loanAccount == old(loanAccount)[u := loanAccount[u]]
        invariant forall i :: 0 <= i < n ==> loanAccount[u][i] == classified[i]
        invariant forall i :: n <= i < |loans| ==> loanAccount[u][i] == loans[i]
        invariant auction.lots == old(auction.lots) + LoansLots(loans[..n], now, c)
      {
        assert loans[..n + 1][..n] == loans[..n];
        var loan := ClassifyOne(loanAccount[u][n], now, c);
        loanAccount := loanAccount[u := loanAccount[u][n := loan]];
      }
      assert loans[..|loans|] == loans && loanAccount[u] == classified;
    }

    /** The accrual loops over all borrowers; on a loan without a rate they fail. */
    method AccrueAll(now: nat, c: Context) returns (ok: bool)
      requires BankOk(State(), now)
      modifies this`loanAccount, this`loansTotalInterest, this`interestMint, token`totalSupply
      ensures ok <==> AllPriced(AccrueAccounts(old(loanAccount), now, c.config.loanInterestRate), c)
      ensures ok ==>
        var rate := c.config.loanInterestRate;
        var gain := AccountsGain(loanUsers, old(loanAccount), now, rate);
        && loanAccount == AccrueAccounts(old(loanAccount), now, rate)
        && loansTotalInterest == old(loansTotalInterest) + gain
        && interestMint == old(interestMint) + gain
        && token.totalSupply == old(token.totalSupply) + gain
    {
      hide AccruedFor, LoansGain, AccrueLoans, AccountsGain, Priced;
      var rate := c.config.loanInterestRate;
      ghost var accounts := loanAccount;
      NoneAccrued(accounts, now, rate);
      assert AccountsGain([], accounts, now, rate) == 0 by { NoGain(accounts, now, rate); }
      assert loanUsers[..0] == [];
      assert Members(loanUsers[..0]) == {};
      for a := 0 to |loanUsers|
        invariant loanAccount == AccruedFor(accounts, Members(loanUsers[..a]), now, rate)
        invariant loansTotalInterest == old(loansTotalInterest) + AccountsGain(loanUsers[..a], accounts, now, rate)
        invariant interestMint == old(interestMint) + AccountsGain(loanUsers[..a], accounts, now, rate)
        invariant token.totalSupply == old(token.totalSupply) + AccountsGain(loanUsers[..a], accounts, now, rate)
        invariant forall u :: u in loanUsers[..a] ==> Priced(AccrueLoans(LoansOf(accounts, u), now, rate), c)
      {
        var u := loanUsers[a];
        MembersGrow(loanUsers, a);
        OneMoreAccrued(accounts, Members(loanUsers[..a]), u, now, rate);
        OneMoreGain(loanUsers, a, accounts, now, rate);
        assert u in Members(loanUsers);
        var priced := AccrueAccount(u, now, c);
        if !priced {
          assert AccrueAccounts(accounts, now, rate)[u] == AccrueLoans(accounts[u], now, rate);
          return false;
        }
      }
      assert loanUsers[..|loanUsers|] == loanUsers;
      AllAccrued(accounts, now, rate);
      forall u | u in accounts ensures Priced(AccrueAccounts(accounts, now, rate)[u], c) {
        assert u in Members(loanUsers);
      }
      return true;
    }

    /** The classification loops over all borrowers. */
    method ClassifyAll(now: nat, c: Context)
      requires NoDuplicates(loanUsers) && Members(loanUsers) == loanAccount.Keys
      requires AllPriced(loanAccount, c)
      modifies this`loanAccount, auction`lots
      ensures loanAccount == ClassifyAccounts(old(loanAccount), c)
      ensures auction.lots == old(auction.lots) + AccountsLots(loanUsers, old(loanAccount), now, c)
    {
      hide ClassifiedFor, LoansLots, ClassifyLoans;
      ghost var accounts := loanAccount;
      NoneClassified(accounts, c);
      assert Members(loanUsers[..0]) == {};
      for m := 0 to |loanUsers|
        invariant loanAccount == ClassifiedFor(accounts, Members(loanUsers[..m]), c)
        invariant auction.lots == old(auction.lots) + AccountsLots(loanUsers[..m], accounts, now, c)
      {
        var u := loanUsers[m];
        MembersGrow(loanUsers, m);
        assert u in Members(loanUsers);
        OneMoreClassified(accounts, Members(loanUsers[..m]), u, c);
        assert loanUsers[..m + 1][..m] == loanUsers[..m];
        ClassifyAccount(u, now, c);
      }
      assert loanUsers[..|loanUsers|] == loanUsers;
      AllClassified(accounts, c);
    }

    method Liquidation(now: nat, c: Context) returns (ok: bool)
      requires Valid(now)
      modifies this, token, auction`lots
      ensures Valid(now)
      ensures Performs(old(View()), ok, View(), M.Liquidate(old(View()), now, c))
    {
      hide AccrueAccounts, ClassifyAccounts, AccountsLots, AccountsGain, LotsOk;
      if !c.liquidator { return false; }
      var accounts, total, mint, supply := loanAccount, loansTotalInterest, interestMint, token.totalSupply;
      NothingBefore(now);
      ok := AccrueAll(now, c);
      if !ok {
        loanAccount, loansTotalInterest, interestMint := accounts, total, mint;
        token.totalSupply := supply;
        return;
      }
      SameBorrowers(accounts, now, c.config.loanInterestRate);
      ClassifyAll(now, c);
      LiquidateKeeps(old(View()), now, c);
    }

    lemma NothingBefore(now: nat)
      requires BankOk(State(), now)
      ensures NotBefore(loanAccount, now)
    {
      forall u, i | u in loanAccount && 0 <= i < |loanAccount[u]| ensures loanAccount[u][i].timestamp <= now {
        assert LoanOk(loanAccount[u][i], now);
      }
    }
  }
}
