/** Concrete runs of the TCash system on which a documented or plausible rule fails. */
module TCashExamples {
  import opened Prelude
  import opened TCashModel
  import opened TCashInvariants
  import opened TCashLiquidation
  import opened TCashLocks
  import opened TCashAccounts

  /** The parameters a fresh deployment has, but with a repayment cycle of one period. */
  const CONFIG: Config := Parameters(5, 750_000, 500_000, 1)

  const LENDER := Context(1, true, 1, 1, true, [], 9, CONFIG)
  const BORROWER := LENDER.(sender := 7, foundation := false)
  const BIDDER := LENDER.(sender := 5, foundation := false)

  /** Fresh contracts around an empty token. */
  const START := System(0, State(
    [], Records(map[], map[], map[], map[], map[], map[]), Books(0, 0, 0, BASIS, 0, 0),
    House([], 600), Coin(0, map[], map[])))

  lemma EmptyRun()
    ensures Run(START, []) == START
  {}

  /** A loan of 100 against 100 is booked; interest on it rounds to nothing. */
  const RECORD := Call(0, LENDER, ORecord(7, 100, 100))
  const BOOKED := Loan(7, 100, 100, 1, 1, 0, 0, 1, Running)

  // ---------- Loans under liquidation ----------

  const TOP_UP := Call(0, BORROWER, OTopUp(0, 100))
  const PERIOD := Call(0, LENDER, OAccrue(0))
  const MINT := Call(0, LENDER, OMint(7, 50))
  const REPAY := Call(0, BORROWER, ORepay(0, 50))

  /** A state as far as the borrower 7 is concerned. */
  ghost predicate Looks(s: System, loans: seq<Loan>, borrowed: nat, unit: nat, balance: nat, lots: nat) {
    && s.state.loans == loans && s.now == 0
    && Get(s.state.records.borrowed, 7) == Get(s.state.records.tla, 7) == borrowed
    && s.state.books.unitBalance == unit && s.state.books.olb == 100 * |loans|
    && Get(s.state.coin.balance, 7) == balance && s.state.coin.supply == balance
    && |s.state.house.lots| == lots
  }

  lemma Recorded100(s: System, loans: seq<Loan>, borrowed: nat)
    requires Looks(s, loans, borrowed, 0, 0, 0)
    ensures Looks(Step(s, RECORD), loans + [BOOKED], borrowed + 100, 0, 0, 0)
  {}

  lemma ToppedUp(s: System, loans: seq<Loan>, borrowed: nat, unit: nat, lots: nat)
    requires Looks(s, loans, borrowed, unit, 0, lots) && loans != []
    requires loans[0].account == 7 && loans[0].total == 100
    ensures Looks(Step(s, TOP_UP), loans[0 := loans[0].(unitPrice := 1, tcashPrice := 1,
                    collateral := loans[0].collateral + 100, status := Running)], borrowed, unit + 100, 0, lots)
  {}

  lemma PeriodPassed(s: System, loans: seq<Loan>, borrowed: nat, unit: nat, lots: nat)
    requires Looks(s, loans, borrowed, unit, 0, lots) && loans != [] && loans[0].status.Running?
    requires loans[0].account == 7 && loans[0].total == 100 && loans[0].interest == 0 && borrowed >= 100
    ensures Outcome(s, PERIOD).Some?
    ensures Looks(Step(s, PERIOD), loans[0 := loans[0].(unitPrice := 1, tcashPrice := 1,
                    cycles := loans[0].cycles + 1, status := Liquidated)], borrowed - 100, unit, 0, lots + 1)
  {
    AccruesExactlyWhen(s.state, 0, LENDER, 0);
    RatioDefined(loans[0], LENDER);
  }

  const OPENING := [] + [RECORD] + [RECORD] + [TOP_UP] + [PERIOD]

  const CLOSED := Loan(7, 200, 100, 1, 1, 0, 0, 2, Liquidated)

  /** Two loans; the first is topped up, and its one period closes it. */
  lemma Opening()
    ensures Initial(START)
    ensures Looks(Run(START, OPENING), [CLOSED, BOOKED], 100, 100, 0, 1)
  {
    RunLast(START, [], RECORD);
    RunLast(START, [] + [RECORD], RECORD);
    RunLast(START, [] + [RECORD] + [RECORD], TOP_UP);
    RunLast(START, [] + [RECORD] + [RECORD] + [TOP_UP], PERIOD);
    EmptyRun();
    hide Run, Step;
    var one, two := Step(START, RECORD), Step(Step(START, RECORD), RECORD);
    Recorded100(START, [], 0);
    Recorded100(one, [BOOKED], 100);
    assert [] + [BOOKED] == [BOOKED] && [BOOKED] + [BOOKED] == [BOOKED, BOOKED];
    ToppedUp(two, [BOOKED, BOOKED], 200, 0, 0);
    var topped := [BOOKED, BOOKED][0 := BOOKED.(collateral := 200)];
    PeriodPassed(Step(two, TOP_UP), topped, 200, 100, 0);
    assert topped[0 := topped[0].(cycles := 2, status := Liquidated)] == [CLOSED, BOOKED];
  }

  /** A loan under liquidation really can be repaid, where its borrower has other debt. */
  lemma LiquidatedLoanRepaid()
    ensures Initial(START)
    ensures var t := Run(START, OPENING + [MINT]);
      t.state.loans != [] && t.state.loans[0].status.Liquidated? && Outcome(t, REPAY).Some?
  {
    Opening();
    RunLast(START, OPENING, MINT);
    hide Run;
    var s, t := Run(START, OPENING), Run(START, OPENING + [MINT]);
    assert UnitToRelease(CLOSED, 50) == 100;
    assert Looks(t, [CLOSED, BOOKED], 100, 100, 50, 1);
  }

  /** A top-up revives a closed loan, and its next period closes and auctions it a second time. */
  lemma LoanAuctionedTwice()
    ensures Initial(START)
    ensures Outcome(Run(START, OPENING + [TOP_UP]), PERIOD).Some?
    ensures var t := Run(START, OPENING + [TOP_UP] + [PERIOD]).state;
      |t.house.lots| == 2 && t.loans != [] && t.loans[0].status.Liquidated? && t.loans[0].total == 100
  {
    Opening();
    RunLast(START, OPENING, TOP_UP);
    RunLast(START, OPENING + [TOP_UP], PERIOD);
    hide Run, Step, Outcome;
    ToppedUp(Run(START, OPENING), [CLOSED, BOOKED], 100, 100, 1);
    var revived := [CLOSED, BOOKED][0 := CLOSED.(collateral := 300, status := Running)];
    PeriodPassed(Run(START, OPENING + [TOP_UP]), revived, 100, 200, 1);
  }

  // ---------- A revived loan that is stuck ----------

  const CLOSING := [] + [RECORD] + [PERIOD]
  const REVIVING := CLOSING + [TOP_UP]

  const OVERDUE := Loan(7, 200, 100, 1, 1, 0, 0, 2, Running)

  const SHUT := Loan(7, 100, 100, 1, 1, 0, 0, 2, Liquidated)

  lemma Closed()
    ensures Looks(Run(START, [] + [RECORD]), [BOOKED], 100, 0, 0, 0)
    ensures Outcome(Run(START, [] + [RECORD]), PERIOD).Some?
    ensures Looks(Run(START, CLOSING), [SHUT], 0, 0, 0, 1)
  {
    RunLast(START, [], RECORD);
    RunLast(START, [] + [RECORD], PERIOD);
    EmptyRun();
    hide Run, Step, Outcome;
    Recorded100(START, [], 0);
    assert [] + [BOOKED] == [BOOKED];
    PeriodPassed(Step(START, RECORD), [BOOKED], 100, 0, 0);
    assert [BOOKED][0 := SHUT] == [SHUT];
  }

  lemma FlowOfClosing(s: System)
    requires Outcome(s, PERIOD).Some? && Step(s, PERIOD).state.loans == [SHUT]
    ensures ClosedFlow(s, PERIOD, 7) == 100
  {
    StepIsOutcome(s, PERIOD);
    hide Outcome, Step;
  }

  /** The period takes all of the loan off its borrower's totals. */
  lemma ClosedOff()
    ensures ClosedOver(START, CLOSING, 7) >= 100
  {
    Closed();
    RunLast(START, [] + [RECORD], PERIOD);
    ClosedLast(START, [] + [RECORD], PERIOD, 7);
    hide Run, Step, Outcome, ClosedOver, ClosedFlow;
    FlowOfClosing(Run(START, [] + [RECORD]));
  }

  /** The borrower's only loan is closed, and then revived. */
  lemma Revived()
    ensures Initial(START)
    ensures Looks(Run(START, REVIVING), [OVERDUE], 0, 100, 0, 1)
  {
    Closed();
    RunLast(START, CLOSING, TOP_UP);
    hide Run, Step, Outcome;
    ToppedUp(Run(START, CLOSING), [SHUT], 0, 0, 1);
    assert [SHUT][0 := OVERDUE] == [OVERDUE];
  }

  lemma StepIsOutcome(s: System, call: Call)
    requires Outcome(s, call).Some?
    ensures Step(s, call).state == Outcome(s, call).value
  {}

  /**
   Where the closed loan was its borrower's only one, the top-up leaves it overdue and stuck: in
   every later state, as long as the borrower has taken no other loan, every interest period that
   finds it due reverts.
   */
  lemma RevivedOnlyLoanCannotClose(more: seq<Call>, wait: nat, c: Context, id: nat)
    requires var t := Run(START, REVIVING + more).state;
      && Get(t.records.tnl, 7) == 1
      && id < |t.loans| && t.loans[id].account == 7
      && CollateralRatio(AccruedLoan(t.loans[id], c)).Some? && Due(t.loans[id], c)
    ensures Initial(START)
    ensures var t := Run(START, REVIVING).state;
      t.loans == [OVERDUE] && Get(t.records.borrowed, 7) == 0 && OVERDUE.cycles >= CONFIG.cycle
    ensures var t := Run(START, REVIVING + more); Accrue(t.state, t.now + wait, c, id).None?
  {
    Revived();
    ClosedOff();
    hide Run, Initial, ClosedOver, Due, CollateralRatio, Accrue;
    assert REVIVING + more == CLOSING + ([TOP_UP] + more);
    ClosedGrows(START, CLOSING, [TOP_UP] + more, 7);
    OnlyLoanClosesOnce(START, REVIVING + more, wait, c, id);
  }

  /** The condition is met at once, by the lender's next period. */
  lemma RevivedLoanIsDue()
    ensures var t := Run(START, REVIVING + []).state;
      && Get(t.records.tnl, 7) == 1 && |t.loans| == 1 && t.loans[0].account == 7
      && CollateralRatio(AccruedLoan(t.loans[0], LENDER)).Some? && Due(t.loans[0], LENDER)
  {
    Revived();
    assert REVIVING + [] == REVIVING;
    Reachable(START, REVIVING);
    hide Run, Step;
    var t := Run(START, REVIVING).state;
    RatioDefined(OVERDUE, LENDER);
    SumAppend([], OVERDUE, OwnedBy(7));
    assert [] + [OVERDUE] == [OVERDUE];
  }

  // ---------- Lots and locks ----------

  const LIST := Call(0, LENDER, OLiquidate(0))
  const MINT_BIDDER := Call(0, LENDER, OMint(5, 150))

  /** The same hundred and fifty TCash is bid on both lots. */
  const BID0 := Call(0, BIDDER, OBid(0, 150))
  const BID1 := Call(0, BIDDER, OBid(1, 150))

  const LISTED := [] + [RECORD] + [LIST] + [LIST]
  const CALLS := LISTED + [MINT_BIDDER] + [BID0] + [BID1]

  const FRESH_LOT := Lot(100, 100, 100, 600, false, 0, 0, map[])

  /** What the steps below need of a state. */
  ghost predicate OnOffer(s: System, loans: seq<Loan>, lots: seq<Lot>) {
    && s.now == 0 && s.state.loans == loans && s.state.house == House(lots, 600)
    && s.state.coin == Coin(0, map[], map[]) && s.state.books.unitBalance == 0
  }

  lemma StartOffers()
    ensures OnOffer(START, [], [])
  {}

  lemma LoanRecorded(s: System)
    requires OnOffer(s, [], [])
    ensures OnOffer(Step(s, RECORD), [BOOKED], [])
  {
    assert [] + [BOOKED] == [BOOKED];
  }

  lemma LoanListed(s: System, lots: seq<Lot>)
    requires OnOffer(s, [BOOKED], lots)
    ensures OnOffer(Step(s, LIST), [BOOKED], lots + [FRESH_LOT])
  {
    assert [BOOKED][0 := BOOKED] == [BOOKED];
  }

  lemma ListedTwice()
    ensures Initial(START)
    ensures OnOffer(Run(START, LISTED), [BOOKED], [FRESH_LOT, FRESH_LOT])
  {
    RunLast(START, [], RECORD);
    RunLast(START, [] + [RECORD], LIST);
    RunLast(START, [] + [RECORD] + [LIST], LIST);
    EmptyRun();
    hide Run, Step, OnOffer;
    StartOffers();
    LoanRecorded(START);
    LoanListed(Step(START, RECORD), []);
    assert [] + [FRESH_LOT] == [FRESH_LOT];
    LoanListed(Step(Step(START, RECORD), LIST), [FRESH_LOT]);
    assert [FRESH_LOT] + [FRESH_LOT] == [FRESH_LOT, FRESH_LOT];
  }

  /** UNIT really can be short: a loan booked without its collateral is live and for sale twice over. */
  lemma UnitFallsShort()
    ensures Initial(START)
    ensures !Solvent(Run(START, LISTED).state)
  {
    hide Step;
    ListedTwice();
    hide Run;
    SumAppend([], BOOKED, LiveHeld);
    assert [] + [BOOKED] == [BOOKED];
  }

  /** Locks really can exceed a balance: one amount is bid on two lots, and nothing can be moved any more. */
  lemma LockedBeyondBalance()
    ensures Initial(START)
    ensures var k := Run(START, CALLS).state.coin;
      && Get(k.locked, 5) == 300 && Get(k.balance, 5) == 150
      && forall receiver: Account, amount: nat :: Transfer(k, 5, receiver, amount).None?
  {
    hide Step;
    ListedTwice();
    RunLast(START, LISTED, MINT_BIDDER);
    RunLast(START, LISTED + [MINT_BIDDER], BID0);
    RunLast(START, LISTED + [MINT_BIDDER] + [BID0], BID1);
    hide Run, OnOffer;
    TwoBids(Run(START, LISTED));
    var k := Run(START, CALLS).state.coin;
    forall receiver: Account, amount: nat ensures Transfer(k, 5, receiver, amount).None? {
      TransfersExactlyWhen(k, 5, receiver, amount);
    }
  }

  /** What the two bids need of a state. */
  ghost predicate Bids(s: System, locked: nat) {
    && s.now == 0 && |s.state.house.lots| == 2
    && Get(s.state.coin.balance, 5) == 150 && Get(s.state.coin.locked, 5) == locked
  }

  lemma BidPlaced(s: System, n: nat, locked: nat)
    requires Bids(s, locked) && n < 2 && s.state.house.lots[n] == FRESH_LOT
    ensures var t := Step(s, Call(0, BIDDER, OBid(n, 150)));
      Bids(t, locked + 150) && t.state.house.lots[1 - n] == s.state.house.lots[1 - n]
  {}

  lemma TwoBids(s: System)
    requires OnOffer(s, [BOOKED], [FRESH_LOT, FRESH_LOT])
    ensures var k := Step(Step(Step(s, MINT_BIDDER), BID0), BID1).state.coin;
      Get(k.locked, 5) == 300 && Get(k.balance, 5) == 150
  {
    var one := Step(s, MINT_BIDDER);
    assert Bids(one, 0) && one.state.house == s.state.house;
    hide Step;
    BidPlaced(one, 0, 0);
    BidPlaced(Step(one, BID0), 1, 150);
  }
}
