/**
 The three TCash contracts as objects that update their fields in place. Every method is proved to
 compute the transaction of the same name in TCashModel, reverts included. As a revert undoes every
 write, the requirements of a transaction are checked before its first write.
 */
module TCashContracts {
  import opened Prelude
  import opened TCashModel
  import M = TCashModel

  /** A transaction either went through with this result, or reverted and changed nothing. */
  ghost predicate Performs(before: State, ok: bool, after: State, result: Option<State>) {
    ok == result.Some? && after == if ok then result.value else before
  }

  class TCash {
    var supply: nat
    var balance: map<Address, nat>
    var locked: map<Address, nat>

    ghost function View(): Coin reads this { Coin(supply, balance, locked) }

    constructor (initialReceiver: Account)
      ensures View() == Minted(Coin(0, map[], map[]), initialReceiver, 1_000_000_000_000_000_000_000_000)
    {
      supply, locked := 1_000_000_000_000_000_000_000_000, map[];
      balance := map[initialReceiver := 1_000_000_000_000_000_000_000_000];
    }

    method BidCost(user: Address, amount: nat) returns (ok: bool)
      modifies `locked
      ensures ok == M.BidCost(old(View()), user, amount).Some?
      ensures View() == if ok then M.BidCost(old(View()), user, amount).value else old(View())
    {
      if Get(balance, user) < amount { return false; }
      locked := locked[user := Get(locked, user) + amount];
      return true;
    }

    method BidBack(user: Address, amount: nat) returns (ok: bool)
      modifies `locked
      ensures ok == M.BidBack(old(View()), user, amount).Some?
      ensures View() == if ok then M.BidBack(old(View()), user, amount).value else old(View())
    {
      if Get(locked, user) < amount { return false; }
      locked := locked[user := Get(locked, user) - amount];
      return true;
    }

    method Mint(account: Account, amount: nat)
      modifies `supply, `balance
      ensures View() == Minted(old(View()), account, amount)
    {
      supply := supply + amount;
      balance := balance[account := Get(balance, account) + amount];
    }

    method BurnFrom(account: Address, amount: nat) returns (ok: bool)
      modifies `supply, `balance
      ensures ok == M.BurnFrom(old(View()), account, amount).Some?
      ensures View() == if ok then M.BurnFrom(old(View()), account, amount).value else old(View())
    {
      if amount == 0 || Get(balance, account) < amount || supply < amount { return false; }
      balance := balance[account := Get(balance, account) - amount];
      supply := supply - amount;
      return true;
    }

    method Transfer(sender: Account, receiver: Account, amount: nat) returns (ok: bool)
      modifies `balance
      ensures ok == M.Transfer(old(View()), sender, receiver, amount).Some?
      ensures View() == if ok then M.Transfer(old(View()), sender, receiver, amount).value else old(View())
    {
      if Get(balance, sender) < Get(locked, sender) || amount > Get(balance, sender) - Get(locked, sender) {
        return false;
      }
      balance := balance[sender := Get(balance, sender) - amount];
      balance := balance[receiver := Get(balance, receiver) + amount];
      return true;
    }
  }

  class TCashAuction {
    var lots: seq<Lot>
    var duration: nat
    const token: TCash
    var loan: TCashLoan?

    constructor (tcash: TCash)
      ensures lots == [] && duration == 600 && token == tcash && loan == null
    {
      lots, duration, token, loan := [], 600, tcash, null;
    }

    ghost predicate Wired()
      reads this, loan
    {
      loan != null && loan.house == this && loan.token == token
    }

    ghost function View(): State
      requires Wired()
      reads this, loan, token
    {
      loan.View()
    }

    /** Called by the loan contract for a loan to be auctioned. */
    method AuctionStart(now: nat, mortgage: nat, debt: nat, interest: nat)
      modifies `lots
      ensures lots == old(lots) + [Lot(mortgage, debt, debt, now + duration, false, interest, 0, map[])]
    {
      lots := lots + [Lot(mortgage, debt, debt, now + duration, false, interest, 0, map[])];
    }

    method Bid(now: nat, c: Context, n: nat, bidAmount: nat) returns (ok: bool)
      requires Wired()
      modifies `lots, token`locked
      ensures Wired() && Performs(old(View()), ok, View(), M.Bid(old(View()), now, c, n, bidAmount))
    {
      if n >= |lots| || lots[n].timeOver <= now { return false; }
      var value := Get(lots[n].bids, c.sender) + bidAmount;
      if value <= lots[n].nowValue { return false; }
      ok := token.BidCost(c.sender, bidAmount);
      if !ok { return; }
      lots := lots[n := lots[n].(bider := c.sender)];
      lots := lots[n := lots[n].(nowValue := value)];
      lots := lots[n := lots[n].(bids := lots[n].bids[c.sender := value])];
    }

    method BidWithdrawal(c: Context, n: nat) returns (ok: bool)
      requires Wired()
      modifies `lots, token`locked
      ensures Wired() && Performs(old(View()), ok, View(), M.WithdrawBid(old(View()), c, n))
    {
      if n >= |lots| || lots[n].bider == c.sender || Get(lots[n].bids, c.sender) == 0 { return false; }
      ok := token.BidBack(c.sender, Get(lots[n].bids, c.sender));
      if !ok { return; }
      lots := lots[n := lots[n].(bids := lots[n].bids[c.sender := 0])];
    }

    method GetAuction(now: nat, c: Context, n: nat) returns (ok: bool)
      requires Wired()
      modifies `lots, token`supply, token`balance, loan`books
      ensures Wired() && Performs(old(View()), ok, View(), M.Settle(old(View()), now, c, n))
    {
      if n >= |lots| || lots[n].settled || lots[n].timeOver >= now || lots[n].bider != c.sender { return false; }
      var lot := lots[n];
      if lot.startValue < lot.debt || loan.books.unitBalance < lot.sales || loan.books.olb < lot.startValue {
        return false;
      }
      ok := token.BurnFrom(c.auctionManager, lot.startValue);
      if !ok { return; }
      loan.AuctionOver(lot.sales, lot.debt, lot.startValue - lot.debt);
      lots := lots[n := lot.(settled := true)];
    }

    method UpgradeState(now: nat, c: Context) returns (ok: bool)
      requires Wired()
      modifies `lots
      ensures Wired() && Performs(old(View()), ok, View(), M.Relist(old(View()), now, c))
    {
      if !c.foundation { return false; }
      for a := 0 to |lots|
        invariant Wired() && |lots| == |old(lots)|
        invariant forall i :: 0 <= i < a ==> lots[i] == RelistLot(old(lots)[i], now, duration)
        invariant forall i :: a <= i < |lots| ==> lots[i] == old(lots)[i]
      {
        if lots[a].timeOver < now && lots[a].bider == 0 {
          lots := lots[a := lots[a].(timeOver := now + duration)];
        }
      }
      return true;
    }

    method UpdateBidDuration(c: Context, newDuration: nat) returns (ok: bool)
      requires Wired()
      modifies `duration
      ensures Wired() && Performs(old(View()), ok, View(), M.SetDuration(old(View()), c, newDuration))
    {
      if !c.foundation || newDuration == 0 || newDuration > MAX_DURATION { return false; }
      duration := newDuration;
      return true;
    }
  }

  class TCashLoan {
    var loans: seq<Loan>
    var records: Records
    var books: Books
    const token: TCash
    const house: TCashAuction

    ghost function View(): State
      reads this, house, token
    {
      State(loans, records, books, House(house.lots, house.duration), token.View())
    }

    ghost predicate Wired()
      reads this, house
    {
      house.loan == this && house.token == token
    }

    /** The loan contract takes its place before an unused auction house. */
    constructor (tcash: TCash, auction: TCashAuction)
      requires auction.token == tcash && auction.lots == [] && auction.loan == null
      requires tcash.locked == map[] && tcash.supply == SumMap(tcash.balance)
      modifies auction`loan
      ensures Wired() && token == tcash && house == auction
      ensures forall now :: Initial(System(now, View()))
    {
      loans, records, books := [], Records(map[], map[], map[], map[], map[], map[]), Books(0, 0, 0, BASIS, 0, 0);
      token, house := tcash, auction;
      new;
      auction.loan := this;
    }

    /** Called by the auction house when the winner collects. */
    method AuctionOver(tokens: nat, a: nat, b: nat)
      requires tokens <= books.unitBalance && a + b <= books.olb
      modifies `books
      ensures books == old(books).(
        unitBalance := old(books.unitBalance) - tokens, olb := old(books.olb) - (a + b), ra := old(books.ra) + (a + b))
    {
      books := books.(unitBalance := books.unitBalance - tokens);
      books := books.(olb := books.olb - (a + b));
      books := books.(ra := books.ra + (a + b));
    }

    // ---------- Credit and risk ----------

    method GetPersonalCreditAndAvailable(account: Address, tat: seq<nat>) returns (limit: nat, available: nat)
      ensures limit == CreditLimit(records, account, tat) && available == Available(records, account, tat)
    {
      if |tat| >= 2 {
        var total: nat := 0;
        for i := 0 to |tat|
          invariant total == Total(tat[..i])
        {
          assert tat[..i + 1][..i] == tat[..i];
          total := total + tat[i];
        }
        assert tat[..|tat|] == tat;
        limit := total / 3 * if |LoansOf(records, account)| <= 2 then 3 else 12;
      } else {
        limit := 0;
      }
      available := if limit > Get(records.borrowed, account) then limit - Get(records.borrowed, account) else 0;
    }

    method GetSrf(now: nat)
      requires Wired()
      modifies `books
      ensures Wired() && View() == Rate(old(View()), now)
    {
      if now >= books.srfTime + DAY {
        if token.supply == 0 || books.tld == 0 { return; }
        var row := LoanRatioRow(LoanRatio(books.olb, token.supply));
        var column := RepayRateColumn(LoanRatio(books.ra, books.tld));
        books := books.(srf := SRF_TABLE[row * 5 + column]);
        books := books.(srfTime := now);
      }
    }

    // ---------- Loans ----------

    /** Books a loan: the record, the borrower's counters and the system's totals. */
    method Record(now: nat, c: Context, account: Account, amount: nat, collateral: nat)
      requires Wired()
      modifies `loans, `records, `books
      ensures Wired() && View() == Recorded(old(View()), now, c, account, amount, collateral)
    {
      hide InterestOn;
      var id := |loans|;
      var interest := InterestOn(amount, c);
      var total := amount + interest;
      loans := loans + [Loan(account, collateral, total, c.unitPrice, c.tcashPrice, now, interest, 1, Running)];
      var r := records;
      r := r.(userLoans := r.userLoans[account := LoansOf(r, account) + [id]]);
      r := r.(borrowed := r.borrowed[account := Get(r.borrowed, account) + total]);
      r := r.(tnl := r.tnl[account := Get(r.tnl, account) + 1]);
      r := r.(tla := r.tla[account := Get(r.tla, account) + total]);
      records := r;
      books := books.(olb := books.olb + total);
      books := books.(tld := books.tld + total);
    }

    method SetRecord(now: nat, c: Context, account: Account, amount: nat, collateral: nat) returns (ok: bool)
      requires Wired()
      modifies `loans, `records, `books
      ensures Wired()
      ensures Performs(old(View()), ok, View(), M.SetRecord(old(View()), now, c, account, amount, collateral))
    {
      hide Recorded;
      if !c.foundation || amount == 0 || collateral == 0 { return false; }
      Record(now, c, account, amount, collateral);
      return true;
    }

    method CalculateLoanAmount(c: Context, value: nat) returns (amount: Option<nat>)
      ensures amount == LoanAmount(View(), c, value)
    {
      hide CreditLimit, Available, Quote, Prf;
      if c.unitPrice == 0 || c.tcashPrice == 0 { return None; }
      var prf := Prf(records, c.sender, c.tat);
      if prf.None? { return None; }
      var crf := prf.value * books.srf / BASIS;
      if crf == 0 { return None; }
      var quote := Quote(value, c, crf);
      var limit, available := GetPersonalCreditAndAvailable(c.sender, c.tat);
      if limit == 0 { return None; }
      if quote > available { quote := available; }
      if quote < MIN_LOAN { quote := MIN_LOAN; }
      return Some(quote);
    }

    method CreateLoan(now: nat, c: Context, value: nat) returns (ok: bool)
      requires Wired()
      modifies `loans, `records, `books, token`supply, token`balance
      ensures Wired() && Performs(old(View()), ok, View(), M.CreateLoan(old(View()), now, c, value))
    {
      hide Recorded, LoanAmount, Available, CreditLimit;
      if !c.mintOpen || value == 0 { return false; }
      var limit, available := GetPersonalCreditAndAvailable(c.sender, c.tat);
      if available == 0 { return false; }
      var amount := CalculateLoanAmount(c, value);
      if amount.None? { return false; }
      RecordedElsewhere(View(), now, c, c.sender, amount.value, value);
      Record(now, c, c.sender, amount.value, value);
      books := books.(unitBalance := books.unitBalance + value);
      token.Mint(c.sender, amount.value);
      return true;
    }

    method Repay(c: Context, id: nat, amount: nat) returns (ok: bool)
      requires Wired()
      modifies `loans, `records, `books, token`supply, token`balance
      ensures Wired() && Performs(old(View()), ok, View(), M.Repay(old(View()), c, id, amount))
    {
      hide UnitToRelease, M.BurnFrom, RepaidRecords, RepaidLoan;
      if id >= |loans| || loans[id].account != c.sender || amount == 0 || amount > loans[id].total { return false; }
      var unit := UnitToRelease(loans[id], amount);
      if loans[id].collateral < unit || Get(records.borrowed, c.sender) < amount
         || books.olb < amount || books.unitBalance < unit {
        return false;
      }
      ok := token.BurnFrom(c.sender, amount);
      if !ok { return; }
      var cleared := PayLoan(c, id, amount, unit);
      RecordRepaid(c.sender, amount, cleared);
      books := books.(olb := books.olb - amount);
      books := books.(ra := books.ra + amount);
      books := books.(unitBalance := books.unitBalance - unit);
    }

    /** The borrower's records of a repayment. */
    method RecordRepaid(u: Account, amount: nat, cleared: bool)
      requires amount <= Get(records.borrowed, u)
      modifies `records
      ensures records == RepaidRecords(old(records), u, amount, cleared)
    {
      records := records.(borrowed := records.borrowed[u := Get(records.borrowed, u) - amount]);
      records := records.(tra := records.tra[u := Get(records.tra, u) + amount]);
      if cleared {
        records := records.(ncl := records.ncl[u := Get(records.ncl, u) + 1]);
      }
    }

    /** The loan's own fields in a repayment: interest first, then principal, then collateral. */
    method PayLoan(c: Context, id: nat, amount: nat, unit: nat) returns (cleared: bool)
      requires id < |loans| && amount <= loans[id].total && unit <= loans[id].collateral
      modifies `loans
      ensures loans == old(loans)[id := RepaidLoan(old(loans[id]), amount, unit, c)]
      ensures cleared == (amount == old(loans[id]).total)
    {
      var loan := loans[id].(unitPrice := c.unitPrice, tcashPrice := c.tcashPrice);
      if amount <= loan.interest {
        loan := loan.(interest := loan.interest - amount);
      } else {
        loan := loan.(interest := 0);
      }
      loan := loan.(total := loan.total - amount);
      loan := loan.(collateral := loan.collateral - unit);
      cleared := loan.total == 0;
      if cleared {
        loan := loan.(status := Cleared);
      }
      loans := loans[id := loan];
    }

    method CollateralTopUp(c: Context, id: nat, value: nat) returns (ok: bool)
      requires Wired()
      modifies `loans, `books
      ensures Wired() && Performs(old(View()), ok, View(), M.TopUp(old(View()), c, id, value))
    {
      hide CollateralRatio;
      if id >= |loans| || loans[id].account != c.sender || value == 0 { return false; }
      var loan := loans[id].(unitPrice := c.unitPrice, tcashPrice := c.tcashPrice);
      loan := loan.(collateral := loan.collateral + value);
      var ratio := CollateralRatio(loan);
      if ratio.None? { return false; }
      if ratio.value >= c.config.warning {
        loan := loan.(status := Running);
      } else if ratio.value <= c.config.liquidation {
        loan := loan.(status := Liquidated);
      } else {
        loan := loan.(status := Warned);
      }
      loans := loans[id := loan];
      books := books.(unitBalance := books.unitBalance + value);
      return true;
    }

    method InterestCalculation(now: nat, c: Context, id: nat) returns (ok: bool)
      requires Wired()
      modifies `loans, `records, `books, house`lots
      ensures Wired() && Performs(old(View()), ok, View(), M.Accrue(old(View()), now, c, id))
    {
      hide CollateralRatio, InterestOn, Classified, AccruedLoan, ClosedRecords;
      if !c.foundation || id >= |loans| || loans[id].status.Cleared? || loans[id].status.Liquidated? { return false; }
      var interest, loan := InterestOn(loans[id].total, c), AccruedLoan(loans[id], c);
      var u, ratio := loan.account, CollateralRatio(loan);
      if ratio.None? { return false; }
      loan := Classify(loan, ratio.value, c.config);
      ok := RecordInterest(u, interest, loan.status.Liquidated?, loan.total);
      if !ok { return; }
      books := books.(olb := books.olb + interest);
      books := books.(tld := books.tld + interest);
      loans := loans[id := loan];
      if loan.status.Liquidated? {
        house.AuctionStart(now, loan.collateral, loan.total, loan.interest);
      }
    }

    method Classify(before: Loan, ratio: nat, config: Config) returns (loan: Loan)
      ensures loan == before.(status := Classified(before, ratio, config))
    {
      loan := before;
      if ratio <= config.liquidation {
        loan := loan.(status := Liquidated);
      } else if ratio <= config.warning {
        loan := loan.(status := Warned);
      }
      if loan.cycles >= config.cycle {
        loan := loan.(status := Liquidated);
      }
    }

    /** The borrower's records of an interest period, after which the loan may be closed. */
    method RecordInterest(u: Account, interest: nat, closed: bool, total: nat) returns (ok: bool)
      modifies `records
      ensures var r := old(records);
        var grown := r.(borrowed := r.borrowed[u := Get(r.borrowed, u) + interest],
                        tla := r.tla[u := Get(r.tla, u) + interest]);
        var result := if closed then ClosedRecords(grown, u, total) else Some(grown);
        ok == result.Some? && records == if ok then result.value else r
    {
      var r := records;
      if closed && (Get(r.tla, u) + interest < total || Get(r.borrowed, u) + interest < total) { return false; }
      r := r.(borrowed := r.borrowed[u := Get(r.borrowed, u) + interest]);
      r := r.(tla := r.tla[u := Get(r.tla, u) + interest]);
      if closed {
        r := r.(tla := r.tla[u := Get(r.tla, u) - total]);
        r := r.(borrowed := r.borrowed[u := Get(r.borrowed, u) - total]);
      }
      records := r;
      return true;
    }

    method StartLiquidation(now: nat, c: Context, id: nat) returns (ok: bool)
      requires Wired()
      modifies `loans, house`lots
      ensures Wired() && Performs(old(View()), ok, View(), M.StartLiquidation(old(View()), now, c, id))
    {
      if !c.foundation || id >= |loans| || loans[id].status.Cleared? { return false; }
      loans := loans[id := loans[id].(unitPrice := c.unitPrice, tcashPrice := c.tcashPrice)];
      house.AuctionStart(now, loans[id].collateral, loans[id].total, loans[id].interest);
      return true;
    }

    method SetLoanStatus(c: Context, id: nat, status: Status) returns (ok: bool)
      requires Wired()
      modifies `loans
      ensures Wired() && Performs(old(View()), ok, View(), M.SetStatus(old(View()), c, id, status))
    {
      if !c.foundation { return false; }
      if id < |loans| {
        loans := loans[id := loans[id].(status := status)];
      }
      return true;
    }
  }

  /** Booking a loan concerns neither the auction house nor the token. */
  lemma RecordedElsewhere(s: State, now: nat, c: Context, account: Account, amount: nat, collateral: nat)
    ensures var s' := Recorded(s, now, c, account, amount, collateral);
      s'.house == s.house && s'.coin == s.coin && s'.books.unitBalance == s.books.unitBalance
  {}
}
