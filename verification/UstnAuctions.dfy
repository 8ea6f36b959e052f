/** Auction safety: how lots evolve, and the auction manager's ledger against the recorded bids. */
module UstnAuctions {
  import opened Prelude
  import opened UstnModel
  import opened UstnInvariants
  import opened UstnConservation

  // ---------- How a lot may change ----------

  /**
   What is for sale never changes and the price never falls; after settlement the leader, the
   price and the deadline are frozen and no bid grows.
   */
  ghost predicate LotEvolves(a: Lot, b: Lot) {
    && b.sales == a.sales && b.startValue == a.startValue && b.debt == a.debt
    && a.nowValue <= b.nowValue
    && (a.bider != 0 ==> b.bider != 0)
    && (a.settled ==>
      && b.settled && b.bider == a.bider && b.nowValue == a.nowValue && b.timeOver == a.timeOver
      && forall u :: Get(b.bids, u) <= Get(a.bids, u))
  }

  ghost predicate LotsEvolve(a: seq<Lot>, b: seq<Lot>) {
    |a| <= |b| && forall n :: 0 <= n < |a| ==> LotEvolves(a[n], b[n])
  }

  lemma BidEvolves(l: Ledger, now: nat, c: Context, n: nat, amount: nat)
    requires Inv(l, now) && Bid(l, now, c, n, amount).Some?
    ensures LotsEvolve(l.lots, Bid(l, now, c, n, amount).value.lots)
    ensures !l.lots[n].settled
  {
    assert LotOk(l.lots[n], now);
  }

  lemma RelistEvolves(l: Ledger, now: nat, c: Context)
    requires Inv(l, now) && Relist(l, now, c).Some?
    ensures LotsEvolve(l.lots, Relist(l, now, c).value.lots)
  {
    forall n | 0 <= n < |l.lots| ensures LotEvolves(l.lots[n], RelistLot(l.lots[n], now)) {
      assert LotOk(l.lots[n], now);
    }
  }

  lemma StepEvolves(s: System, call: Call)
    requires Inv(s.ledger, s.now)
    ensures LotsEvolve(s.ledger.lots, Step(s, call).ledger.lots)
  {
    hide PointsWith, TimesWith, BalancesWith, PointTotal, LoansRate, FirstInterest, Reserve, Pledge;
    hide AccountsGain, AccrueAccounts, ClassifyAccounts, RepaidLoan, BackUnit;
    var l, now, c := s.ledger, s.now + call.wait, call.context;
    InvLater(l, s.now, now);
    match call.op
    case OBid(n, amount) => if Outcome(s, call).Some? { BidEvolves(l, now, c, n, amount); }
    case ORelist => if Outcome(s, call).Some? { RelistEvolves(l, now, c); }
    case _ =>
  }

  /** Over any run the lots evolve: none disappears, is reopened, or is settled twice. */
  lemma {:induction false} RunEvolves(s: System, calls: seq<Call>)
    requires Inv(s.ledger, s.now)
    ensures LotsEvolve(s.ledger.lots, Run(s, calls).ledger.lots)
  {
    if calls != [] {
      var before := calls[..|calls| - 1];
      var mid := Run(s, before);
      RunEvolves(s, before);
      RunKeeps(s, before);
      StepEvolves(mid, calls[|calls| - 1]);
      var a, b, d := s.ledger.lots, mid.ledger.lots, Run(s, calls).ledger.lots;
      forall n | 0 <= n < |a| ensures LotEvolves(a[n], d[n]) {
        assert LotEvolves(a[n], b[n]) && LotEvolves(b[n], d[n]);
      }
    }
  }

  /** A settled lot takes no further bid and cannot be settled again, in any later state. */
  lemma {:induction false} SettledIsFinal(s: System, calls: seq<Call>, n: nat, wait: nat, c: Context, amount: nat)
    requires Inv(s.ledger, s.now) && n < |s.ledger.lots| && s.ledger.lots[n].settled
    ensures var s' := Run(s, calls);
      && Bid(s'.ledger, s'.now + wait, c, n, amount).None?
      && Settle(s'.ledger, s'.now + wait, c, n).None?
  {
    RunEvolves(s, calls);
    RunKeeps(s, calls);
    var s' := Run(s, calls);
    hide Run, BankOk;
    assert LotEvolves(s.ledger.lots[n], s'.ledger.lots[n]);
    assert LotOk(s'.ledger.lots[n], s'.now);
  }

  // ---------- The manager's ledger ----------

  /** The bids recorded on a lot, less the start value burnt at settlement. */
  ghost function Held(lot: Lot): int {
    SumMap(lot.bids) - if lot.settled then lot.startValue else 0
  }

  ghost function LotsHeld(lots: seq<Lot>): int {
    if lots == [] then 0 else LotsHeld(lots[..|lots| - 1]) + Held(lots[|lots| - 1])
  }

  function ManagerBalance(l: Ledger): nat { Get(l.token.balance, l.token.manager) }

  /** The manager neither calls nor is paid by other token activity. */
  ghost predicate Passive(s: System, call: Call) {
    && call.context.sender != s.ledger.token.manager
    && (call.op.OElsewhere? ==> Get(call.op.balance, s.ledger.token.manager) == ManagerBalance(s.ledger))
  }

  ghost predicate PassiveRun(s: System, calls: seq<Call>) {
    calls == [] ||
    (PassiveRun(s, calls[..|calls| - 1]) && Passive(Run(s, calls[..|calls| - 1]), calls[|calls| - 1]))
  }

  lemma {:induction false} LotsHeldUpdate(lots: seq<Lot>, n: nat, lot: Lot)
    requires n < |lots|
    ensures LotsHeld(lots[n := lot]) == LotsHeld(lots) - Held(lots[n]) + Held(lot)
  {
    var last := |lots| - 1;
    if n == last {
      assert lots[n := lot][..last] == lots[..last];
    } else {
      assert lots[n := lot][..last] == lots[..last][n := lot];
      LotsHeldUpdate(lots[..last], n, lot);
    }
  }

  lemma {:induction false} LotsHeldSame(a: seq<Lot>, b: seq<Lot>)
    requires |a| == |b| && forall n :: 0 <= n < |a| ==> Held(a[n]) == Held(b[n])
    ensures LotsHeld(a) == LotsHeld(b)
  {
    if a != [] {
      LotsHeldSame(a[..|a| - 1], b[..|b| - 1]);
    }
  }

  /** Lots without bids hold nothing. */
  lemma {:induction false} LotsHeldNew(a: seq<Lot>, b: seq<Lot>)
    requires forall n :: 0 <= n < |b| ==> b[n].bids == map[] && !b[n].settled
    ensures LotsHeld(a + b) == LotsHeld(a)
  {
    if b == [] {
      assert a + b == a;
    } else {
      var last := |b| - 1;
      assert (a + b)[..|a + b| - 1] == a + b[..last];
      LotsHeldNew(a, b[..last]);
    }
  }

  lemma {:induction false} LoansLotsUnbid(loans: seq<Loan>, now: nat, c: Context)
    requires Priced(loans, c)
    ensures forall n :: 0 <= n < |LoansLots(loans, now, c)| ==>
      LoansLots(loans, now, c)[n].bids == map[] && !LoansLots(loans, now, c)[n].settled
  {
    if loans != [] {
      LoansLotsUnbid(loans[..|loans| - 1], now, c);
    }
  }

  lemma {:induction false} AccountsLotsUnbid(users: seq<Address>, accounts: map<Address, seq<Loan>>, now: nat,
      c: Context)
    requires AllPriced(accounts, c)
    ensures forall n :: 0 <= n < |AccountsLots(users, accounts, now, c)| ==>
      var lot := AccountsLots(users, accounts, now, c)[n]; lot.bids == map[] && !lot.settled
  {
    if users != [] {
      AccountsLotsUnbid(users[..|users| - 1], accounts, now, c);
      LoansLotsUnbid(LoansOf(accounts, users[|users| - 1]), now, c);
    }
  }

  lemma BidHeld(l: Ledger, now: nat, c: Context, n: nat, amount: nat)
    requires Bid(l, now, c, n, amount).Some? && c.sender != l.token.manager
    ensures var l' := Bid(l, now, c, n, amount).value;
      ManagerBalance(l') - LotsHeld(l'.lots) == ManagerBalance(l) - LotsHeld(l.lots)
      && l'.token.manager == l.token.manager
  {
    var lot := l.lots[n];
    var lot' := Bid(l, now, c, n, amount).value.lots[n];
    LotsHeldUpdate(l.lots, n, lot');
    SumMapUpdate(lot.bids, c.sender, Get(lot.bids, c.sender) + amount);
  }

  lemma WithdrawBidHeld(l: Ledger, now: nat, c: Context, n: nat)
    requires WithdrawBid(l, now, c, n).Some? && c.sender != l.token.manager
    ensures var l' := WithdrawBid(l, now, c, n).value;
      ManagerBalance(l') - LotsHeld(l'.lots) == ManagerBalance(l) - LotsHeld(l.lots)
      && l'.token.manager == l.token.manager
  {
    var lot := l.lots[n];
    LotsHeldUpdate(l.lots, n, lot.(bids := lot.bids[c.sender := 0]));
    SumMapUpdate(lot.bids, c.sender, 0);
  }

  lemma LiquidateHeld(l: Ledger, now: nat, c: Context)
    requires Liquidate(l, now, c).Some?
    ensures LotsHeld(Liquidate(l, now, c).value.lots) == LotsHeld(l.lots)
    ensures Liquidate(l, now, c).value.token.manager == l.token.manager
    ensures ManagerBalance(Liquidate(l, now, c).value) == ManagerBalance(l)
  {
    var accrued := AccrueAccounts(l.bank.loanAccount, now, c.config.loanInterestRate);
    AccountsLotsUnbid(l.bank.loanUsers, accrued, now, c);
    LotsHeldNew(l.lots, AccountsLots(l.bank.loanUsers, accrued, now, c));
  }

  lemma SettleHeld(l: Ledger, now: nat, c: Context, n: nat)
    requires Settle(l, now, c, n).Some?
    ensures var l' := Settle(l, now, c, n).value;
      ManagerBalance(l') - LotsHeld(l'.lots) == ManagerBalance(l) - LotsHeld(l.lots)
      && l'.token.manager == l.token.manager
  {
    LotsHeldUpdate(l.lots, n, l.lots[n].(settled := true));
  }

  lemma RelistHeld(l: Ledger, now: nat, c: Context)
    requires Relist(l, now, c).Some?
    ensures LotsHeld(Relist(l, now, c).value.lots) == LotsHeld(l.lots)
    ensures Relist(l, now, c).value.token == l.token
  {
    LotsHeldSame(l.lots, Relist(l, now, c).value.lots);
  }

  /** The bank's dealings with others leave the lots and the manager alone. */
  lemma BankHeld(s: System, call: Call)
    requires Passive(s, call) && Outcome(s, call).Some?
    requires !call.op.OBid? && !call.op.OWithdrawBid? && !call.op.OLiquidate? && !call.op.OSettle? && !call.op.ORelist?
    ensures var l, l' := s.ledger, Outcome(s, call).value;
      l'.lots == l.lots && ManagerBalance(l') == ManagerBalance(l) && l'.token.manager == l.token.manager
  {
    hide PointsWith, TimesWith, BalancesWith, PointTotal, LoansRate, FirstInterest, Reserve, Pledge;
    hide RepaidLoan, BackUnit, Lend, PayIn, DistributeTo;
  }

  /** Along passive calls the manager's balance moves exactly with the bids held. */
  lemma StepHeld(s: System, call: Call)
    requires Passive(s, call)
    ensures var l, l' := s.ledger, Step(s, call).ledger;
      ManagerBalance(l') - LotsHeld(l'.lots) == ManagerBalance(l) - LotsHeld(l.lots)
      && l'.token.manager == l.token.manager
  {
    hide Bid, WithdrawBid, Liquidate, Settle, Relist, LotsHeld;
    if Outcome(s, call).Some? {
      match call.op
      case OBid(n, amount) => BidHeld(s.ledger, s.now + call.wait, call.context, n, amount);
      case OWithdrawBid(n) => WithdrawBidHeld(s.ledger, s.now + call.wait, call.context, n);
      case OLiquidate => LiquidateHeld(s.ledger, s.now + call.wait, call.context);
      case OSettle(n) => SettleHeld(s.ledger, s.now + call.wait, call.context, n);
      case ORelist => RelistHeld(s.ledger, s.now + call.wait, call.context);
      case _ => BankHeld(s, call);
    }
  }

  /**
   Over any passive run the change of the manager's balance equals all recorded bids minus the
   start values of settled lots.
   */
  lemma {:induction false} ManagerLedger(s: System, calls: seq<Call>)
    requires PassiveRun(s, calls)
    ensures var l, l' := s.ledger, Run(s, calls).ledger;
      && ManagerBalance(l') - LotsHeld(l'.lots) == ManagerBalance(l) - LotsHeld(l.lots)
      && l'.token.manager == l.token.manager
  {
    if calls != [] {
      ManagerLedger(s, calls[..|calls| - 1]);
      StepHeld(Run(s, calls[..|calls| - 1]), calls[|calls| - 1]);
    }
  }

  /** What a lot holds covers the refund of any bidder but the leader, and the burn of its start value. */
  lemma HeldCovers(lot: Lot, now: nat, u: Address)
    requires LotOk(lot, now)
    ensures 0 <= Held(lot)
    ensures u != lot.bider ==> Get(lot.bids, u) <= Held(lot)
    ensures lot.bider != 0 && !lot.settled ==> lot.startValue <= Held(lot)
  {
    if lot.bider == 0 {
      SumMapZero(lot.bids);
    } else if u != lot.bider {
      SumMapCoversTwo(lot.bids, lot.bider, u);
    } else {
      SumMapCoversTwo(lot.bids, lot.bider, u + 1);
    }
  }

  lemma {:induction false} LotsHeldCovers(lots: seq<Lot>, now: nat)
    requires LotsOk(lots, now)
    ensures 0 <= LotsHeld(lots)
    ensures forall n :: 0 <= n < |lots| ==> Held(lots[n]) <= LotsHeld(lots)
  {
    if lots != [] {
      var last := |lots| - 1;
      LotsHeldCovers(lots[..last], now);
      HeldCovers(lots[last], now, 0);
      forall n | 0 <= n < |lots| ensures Held(lots[n]) <= LotsHeld(lots) {
        if n < last {
          assert lots[..last][n] == lots[n];
        }
      }
    }
  }

  /** The manager can pay out what every lot holds. */
  ghost predicate ManagerCovers(l: Ledger) {
    forall n :: 0 <= n < |l.lots| ==> Held(l.lots[n]) <= ManagerBalance(l)
  }

  lemma ManagerHolds(s: System, calls: seq<Call>)
    requires Initial(s) && PassiveRun(s, calls)
    ensures Inv(Run(s, calls).ledger, Run(s, calls).now)
    ensures ManagerCovers(Run(s, calls).ledger)
  {
    InitialInv(s);
    RunKeeps(s, calls);
    ManagerLedger(s, calls);
    LotsHeldCovers(Run(s, calls).ledger.lots, Run(s, calls).now);
  }

  /**
   When a bid is paid back, exactly, in any state: it is there, its owner does not lead, and the
   manager holds it. A manager that takes its own bid back pays it out of that same refund.
   */
  lemma {:induction false} RefundsExactlyWhen(l: Ledger, now: nat, c: Context, n: nat)
    ensures WithdrawBid(l, now, c, n).Some? <==>
      && n < |l.lots| && l.lots[n].bider != c.sender && Get(l.lots[n].bids, c.sender) > 0
      && (c.sender == l.token.manager || Get(l.lots[n].bids, c.sender) <= ManagerBalance(l))
  {
    if n < |l.lots| {
      var amount := Get(l.lots[n].bids, c.sender);
      var paid := l.token.balance[c.sender := Get(l.token.balance, c.sender) + amount];
      assert Get(paid, l.token.manager) == ManagerBalance(l) + if c.sender == l.token.manager then amount else 0;
    }
  }

  /** After any passive run, whoever has a bid and does not lead gets it back. */
  lemma {:induction false} RefundsAlwaysPaid(s: System, calls: seq<Call>, wait: nat, c: Context, n: nat)
    requires Initial(s) && PassiveRun(s, calls)
    ensures var s' := Run(s, calls);
      WithdrawBid(s'.ledger, s'.now + wait, c, n).Some?
      <==> n < |s'.ledger.lots| && s'.ledger.lots[n].bider != c.sender
           && Get(s'.ledger.lots[n].bids, c.sender) > 0
  {
    hide Step;
    var s' := Run(s, calls);
    ManagerHolds(s, calls);
    RefundsExactlyWhen(s'.ledger, s'.now + wait, c, n);
    if n < |s'.ledger.lots| {
      assert LotOk(s'.ledger.lots[n], s'.now);
      HeldCovers(s'.ledger.lots[n], s'.now, c.sender);
    }
  }

  /**
   When a won auction can be settled, exactly, after any run at all: getAuction's own guards hold,
   and the manager's balance and the total supply cover the start value to burn. The collateral and
   the interest counter are never short.
   */
  lemma {:induction false} SettlesExactlyWhen(s: System, calls: seq<Call>, wait: nat, c: Context, n: nat)
    requires Initial(s)
    ensures var s' := Run(s, calls);
      Settle(s'.ledger, s'.now + wait, c, n).Some? <==>
        && MaySettle(s'.ledger, s'.now + wait, c, n)
        && s'.ledger.lots[n].startValue <= ManagerBalance(s'.ledger)
        && s'.ledger.lots[n].startValue <= s'.ledger.token.totalSupply
  {
    hide Step;
    InitialInv(s);
    RunKeeps(s, calls);
    UnitSolvent(s, calls);
    InterestMintExact(s, calls);
    var s' := Run(s, calls);
    hide Run, Initial;
    if MaySettle(s'.ledger, s'.now + wait, c, n) {
      assert LotOk(s'.ledger.lots[n], s'.now);
      LotWithinStake(Interest, s'.ledger, s'.now, n);
      LotWithinStake(Collateral, s'.ledger, s'.now, n);
      hide Stake;
    }
  }

  /** Of an unsettled lot both parts of the start value are outstanding debt. */
  lemma StartValueWithinDebt(l: Ledger, now: nat, n: nat)
    requires Inv(l, now) && n < |l.lots| && !l.lots[n].settled
    ensures l.lots[n].startValue <= Stake(Principal, l) + Stake(Interest, l)
  {
    LotWithinStake(Principal, l, now, n);
    LotWithinStake(Interest, l, now, n);
  }

  /**
   After any run with a passive manager in which nothing is taken off the supply elsewhere, a won
   auction can always be settled: getAuction succeeds exactly when its own guards hold.
   */
  lemma {:induction false} SettlementNeverShort(s: System, calls: seq<Call>, wait: nat, c: Context, n: nat)
    requires Initial(s) && PassiveRun(s, calls) && SupplyKept(s, calls)
    ensures var s' := Run(s, calls);
      Settle(s'.ledger, s'.now + wait, c, n).Some? <==> MaySettle(s'.ledger, s'.now + wait, c, n)
  {
    hide Step;
    SettlesExactlyWhen(s, calls, wait, c, n);
    ManagerHolds(s, calls);
    SupplyCoversDebt(s, calls);
    var s' := Run(s, calls);
    hide Run, Initial, PassiveRun, SupplyKept, Inv;
    if MaySettle(s'.ledger, s'.now + wait, c, n) {
      StartValueWithinDebt(s'.ledger, s'.now, n);
      HeldCoversStart(s'.ledger, s'.now, n);
    }
  }

  lemma HeldCoversStart(l: Ledger, now: nat, n: nat)
    requires Inv(l, now) && n < |l.lots| && l.lots[n].bider != 0 && !l.lots[n].settled
    ensures l.lots[n].startValue <= Held(l.lots[n])
  {
    assert LotOk(l.lots[n], now);
    HeldCovers(l.lots[n], now, 0);
  }
}
