/**
 What the TCash books say of a borrower and of the UNIT held, against what the loans say: exactly,
 over whole runs. The two part where a closed loan is repaid or revived, where a loan is put aside
 without being closed, and where one is booked without its collateral.
 */
module TCashAccounts {
  import opened Prelude
  import opened TCashModel
  import opened TCashInvariants
  import opened TCashLiquidation

  // ---------- Measures ----------

  function OwedBy(u: Address): Loan -> nat { (loan: Loan) => if loan.account == u then loan.total else 0 }

  predicate Live(loan: Loan) { loan.status.Running? || loan.status.Warned? }

  function LiveOwedBy(u: Address): Loan -> nat {
    (loan: Loan) => if loan.account == u && Live(loan) then loan.total else 0
  }

  function Held(loan: Loan): nat { loan.collateral }

  function LiveHeld(loan: Loan): nat { if Live(loan) then loan.collateral else 0 }

  function OverHeld(loan: Loan): nat { if Live(loan) then 0 else loan.collateral }

  function Sales(lot: Lot): nat { lot.sales }

  function SettledSales(lot: Lot): nat { if lot.settled then lot.sales else 0 }

  function OnSale(lot: Lot): nat { if lot.settled then 0 else lot.sales }

  // ---------- What calls move ----------

  /** What a call takes off u's totals by closing a loan at an interest period. */
  function ClosedFlow(s: System, call: Call, u: Address): nat {
    if Outcome(s, call).None? || !call.op.OAccrue? then 0
    else
      var loan := Outcome(s, call).value.loans[call.op.id];
      if loan.account == u && loan.status.Liquidated? then loan.total else 0
  }

  function ClosedOver(s: System, calls: seq<Call>, u: Address): nat {
    if calls == [] then 0
    else ClosedOver(s, calls[..|calls| - 1], u) + ClosedFlow(Run(s, calls[..|calls| - 1]), calls[|calls| - 1], u)
  }

  /** Collateral of a loan that is booked without any UNIT arriving. */
  function BookedFlow(s: System, call: Call): nat {
    if Outcome(s, call).None? || !call.op.ORecord? then 0 else call.op.collateral
  }

  function BookedOver(s: System, calls: seq<Call>): nat {
    if calls == [] then 0
    else BookedOver(s, calls[..|calls| - 1]) + BookedFlow(Run(s, calls[..|calls| - 1]), calls[|calls| - 1])
  }

  /**
   How a call moves u's totalBorrowed against the debt of u's live loans: down by what is repaid on
   a loan that is not live, and by the debt of a loan that a top-up or the foundation revives; up by
   the debt of a loan that either of them puts aside.
   */
  function Shift(s: System, call: Call, u: Address): int {
    if Outcome(s, call).None? then 0
    else
      var loans, loans' := s.state.loans, Outcome(s, call).value.loans;
      match call.op
      case ORepay(id, amount) => if loans[id].account == u && !Live(loans[id]) then 0 - amount else 0
      case OTopUp(id, _) => LiveOwedBy(u)(loans[id]) - LiveOwedBy(u)(loans'[id])
      case OSetStatus(id, _) => if id < |loans| then LiveOwedBy(u)(loans[id]) - LiveOwedBy(u)(loans'[id]) else 0
      case _ => 0
  }

  function ShiftOver(s: System, calls: seq<Call>, u: Address): int {
    if calls == [] then 0
    else ShiftOver(s, calls[..|calls| - 1], u) + Shift(Run(s, calls[..|calls| - 1]), calls[|calls| - 1], u)
  }

  // ---------- One transaction ----------

  function Borrowed(s: State, u: Address): nat { Get(s.records.borrowed, u) }

  /** What a transaction does to u's totals, given what it closes and how it shifts them. */
  ghost predicate Moves(a: State, b: State, u: Address, closed: int, shift: int) {
    && Borrowed(b, u) - Borrowed(a, u) == SumOf(b.loans, OwedBy(u)) - SumOf(a.loans, OwedBy(u)) - closed
    && Borrowed(b, u) - Borrowed(a, u) == SumOf(b.loans, LiveOwedBy(u)) - SumOf(a.loans, LiveOwedBy(u)) + shift
    && Get(b.records.tla, u) - Get(a.records.tla, u)
       == Borrowed(b, u) - Borrowed(a, u) + Get(b.records.tra, u) - Get(a.records.tra, u)
  }

  lemma RecordMoves(s: State, now: nat, c: Context, account: Account, amount: nat, collateral: nat, u: Address)
    ensures Moves(s, Recorded(s, now, c, account, amount, collateral), u, 0, 0)
  {
    hide InterestOn, SumOf;
    var s' := Recorded(s, now, c, account, amount, collateral);
    SumAppend(s.loans, s'.loans[|s.loans|], OwedBy(u));
    SumAppend(s.loans, s'.loans[|s.loans|], LiveOwedBy(u));
  }

  /** Replacing one loan moves u's sums by that loan's difference. */
  lemma OneLoanMoves(loans: seq<Loan>, id: nat, loan: Loan, u: Address)
    requires id < |loans|
    ensures SumOf(loans[id := loan], OwedBy(u)) == SumOf(loans, OwedBy(u)) - OwedBy(u)(loans[id]) + OwedBy(u)(loan)
    ensures SumOf(loans[id := loan], LiveOwedBy(u))
         == SumOf(loans, LiveOwedBy(u)) - LiveOwedBy(u)(loans[id]) + LiveOwedBy(u)(loan)
  {
    SumUpdate(loans, id, loan, OwedBy(u));
    SumUpdate(loans, id, loan, LiveOwedBy(u));
  }

  lemma RepayMoves(s: System, call: Call, u: Address)
    requires call.op.ORepay? && Outcome(s, call).Some?
    ensures Moves(s.state, Outcome(s, call).value, u, 0, Shift(s, call, u))
  {
    hide UnitToRelease, SumOf;
    var id, s' := call.op.id, Outcome(s, call).value;
    OneLoanMoves(s.state.loans, id, s'.loans[id], u);
  }

  lemma AccrueMoves(s: System, call: Call, u: Address)
    requires call.op.OAccrue? && Outcome(s, call).Some?
    ensures Moves(s.state, Outcome(s, call).value, u, ClosedFlow(s, call, u), 0)
  {
    hide InterestOn, CollateralRatio, SumOf;
    var id, s' := call.op.id, Outcome(s, call).value;
    OneLoanMoves(s.state.loans, id, s'.loans[id], u);
  }

  lemma StatusMoves(s: System, call: Call, u: Address)
    requires call.op.OTopUp? || call.op.OSetStatus? || call.op.OLiquidate?
    requires Outcome(s, call).Some?
    ensures Moves(s.state, Outcome(s, call).value, u, 0, Shift(s, call, u))
  {
    hide CollateralRatio, SumOf;
    var id, s' := call.op.id, Outcome(s, call).value;
    if id < |s.state.loans| {
      OneLoanMoves(s.state.loans, id, s'.loans[id], u);
    }
  }

  /** Every transaction moves a borrower's totals by exactly these amounts. */
  lemma StepMoves(s: System, call: Call, u: Address)
    ensures Moves(s.state, Step(s, call).state, u, ClosedFlow(s, call, u), Shift(s, call, u))
  {
    hide Moves;
    var c, now := call.context, s.now + call.wait;
    if Outcome(s, call).None? {
      NothingMoves(s.state, s.state, u);
    } else {
      match call.op
      case OCreate(value) =>
        CreateIsRecord(s.state, now, c, value);
        var amount := LoanAmount(s.state, c, value).value;
        RecordMoves(s.state, now, c, c.sender, amount, value, u);
        hide CreateLoan, Recorded, LoanAmount;
        SameMoves(s.state, Recorded(s.state, now, c, c.sender, amount, value), Outcome(s, call).value, u, 0, 0);
      case ORecord(account, amount, collateral) => RecordMoves(s.state, now, c, account, amount, collateral, u);
      case ORepay(_, _) => RepayMoves(s, call, u);
      case OAccrue(_) => AccrueMoves(s, call, u);
      case OTopUp(_, _) => StatusMoves(s, call, u);
      case OSetStatus(_, _) => StatusMoves(s, call, u);
      case OLiquidate(_) => StatusMoves(s, call, u);
      case _ => NothingMoves(s.state, Outcome(s, call).value, u);
    }
  }

  lemma CreateIsRecord(s: State, now: nat, c: Context, value: nat)
    requires CreateLoan(s, now, c, value).Some?
    ensures LoanAmount(s, c, value).Some?
    ensures var s', r := CreateLoan(s, now, c, value).value,
      Recorded(s, now, c, c.sender, LoanAmount(s, c, value).value, value);
      s'.loans == r.loans && s'.records == r.records
  {
    hide LoanAmount, Recorded, Available;
  }

  lemma NothingMoves(a: State, b: State, u: Address)
    requires b.loans == a.loans && b.records == a.records
    ensures Moves(a, b, u, 0, 0)
  {}

  lemma SameMoves(a: State, b: State, b': State, u: Address, closed: int, shift: int)
    requires Moves(a, b, u, closed, shift) && b'.loans == b.loans && b'.records == b.records
    ensures Moves(a, b', u, closed, shift)
  {}

  // ---------- The borrower's totals, over runs ----------

  /**
   A borrower's totals after every run from deployment, exactly. totalBorrowed is the debt of all its
   loans less what interest periods closed; it is the debt of its live loans shifted by what happened
   to the others; and TLA is totalBorrowed plus all that was repaid.
   */
  lemma {:induction false} BorrowedExact(s: System, calls: seq<Call>, u: Address)
    requires Initial(s)
    ensures var t := Run(s, calls).state;
      && Get(t.records.borrowed, u) + ClosedOver(s, calls, u) == SumOf(t.loans, OwedBy(u))
      && Get(t.records.borrowed, u) == SumOf(t.loans, LiveOwedBy(u)) + ShiftOver(s, calls, u)
      && Get(t.records.tla, u) == Get(t.records.borrowed, u) + Get(t.records.tra, u)
  {
    hide Step, ClosedFlow, Shift;
    if calls != [] {
      BorrowedExact(s, calls[..|calls| - 1], u);
      StepMoves(Run(s, calls[..|calls| - 1]), calls[|calls| - 1], u);
    }
  }

  /**
   Which calls move totalBorrowed against the debt of u's live loans, exactly: repayments on a loan
   that is not live, and top-ups and status changes that put a loan with a debt among the live ones
   or take it away from them.
   */
  lemma {:induction false} ShiftsExactlyWhen(s: System, call: Call, u: Address)
    ensures var gap := Borrowed(s.state, u) - SumOf(s.state.loans, LiveOwedBy(u));
      var gap' := Borrowed(Step(s, call).state, u) - SumOf(Step(s, call).state.loans, LiveOwedBy(u));
      gap' != gap <==>
        && Outcome(s, call).Some?
        && (call.op.ORepay? || call.op.OTopUp? || call.op.OSetStatus?)
        && call.op.id < |s.state.loans|
        && var loan := s.state.loans[call.op.id];
        && loan.account == u && loan.total > 0
        && (if call.op.ORepay? then !Live(loan)
            else Live(Outcome(s, call).value.loans[call.op.id]) != Live(loan))
  {
    StepMoves(s, call, u);
    hide Step, SumOf, CollateralRatio, UnitToRelease;
  }

  // ---------- All borrowers together ----------

  /** What a call takes off its borrower's totals by closing a loan, whoever that is. */
  function ClosedByCall(s: System, call: Call): nat {
    if Outcome(s, call).None? || !call.op.OAccrue? then 0
    else
      var loan := Outcome(s, call).value.loans[call.op.id];
      if loan.status.Liquidated? then loan.total else 0
  }

  function ClosedInAll(s: System, calls: seq<Call>): nat {
    if calls == [] then 0
    else ClosedInAll(s, calls[..|calls| - 1]) + ClosedByCall(Run(s, calls[..|calls| - 1]), calls[|calls| - 1])
  }

  ghost predicate AllMove(a: State, b: State, closed: int) {
    SumMap(b.records.borrowed) - SumMap(a.records.borrowed) == SumOf(b.loans, Debt) - SumOf(a.loans, Debt) - closed
  }

  lemma RecordMovesAll(s: State, now: nat, c: Context, account: Account, amount: nat, collateral: nat)
    ensures AllMove(s, Recorded(s, now, c, account, amount, collateral), 0)
  {
    hide InterestOn, SumOf, SumMap;
    var s' := Recorded(s, now, c, account, amount, collateral);
    SumAppend(s.loans, s'.loans[|s.loans|], Debt);
    SumMapUpdate(s.records.borrowed, account, Borrowed(s', account));
  }

  lemma RepayMovesAll(s: System, call: Call)
    requires call.op.ORepay? && Outcome(s, call).Some?
    ensures AllMove(s.state, Outcome(s, call).value, 0)
  {
    hide UnitToRelease, SumOf, SumMap;
    var id, s', u := call.op.id, Outcome(s, call).value, call.context.sender;
    SumUpdate(s.state.loans, id, s'.loans[id], Debt);
    SumMapUpdate(s.state.records.borrowed, u, Borrowed(s', u));
  }

  lemma AccrueMovesAll(s: System, call: Call)
    requires call.op.OAccrue? && Outcome(s, call).Some?
    ensures AllMove(s.state, Outcome(s, call).value, ClosedByCall(s, call))
  {
    hide InterestOn, CollateralRatio, SumOf, SumMap;
    var id, s' := call.op.id, Outcome(s, call).value;
    var u := s.state.loans[id].account;
    SumUpdate(s.state.loans, id, s'.loans[id], Debt);
    assert s'.records.borrowed == s.state.records.borrowed[u := Borrowed(s', u)];
    SumMapUpdate(s.state.records.borrowed, u, Borrowed(s', u));
  }

  lemma StatusMovesAll(s: System, call: Call)
    requires call.op.OTopUp? || call.op.OSetStatus? || call.op.OLiquidate?
    requires Outcome(s, call).Some?
    ensures AllMove(s.state, Outcome(s, call).value, 0)
  {
    hide CollateralRatio, SumOf, SumMap;
    var id, s' := call.op.id, Outcome(s, call).value;
    if id < |s.state.loans| {
      SumUpdate(s.state.loans, id, s'.loans[id], Debt);
    }
  }

  lemma StepMovesAll(s: System, call: Call)
    ensures AllMove(s.state, Step(s, call).state, ClosedByCall(s, call))
  {
    var c, now := call.context, s.now + call.wait;
    if Outcome(s, call).Some? {
      match call.op
      case OCreate(value) =>
        CreateIsRecord(s.state, now, c, value);
        RecordMovesAll(s.state, now, c, c.sender, LoanAmount(s.state, c, value).value, value);
        hide CreateLoan, Recorded, LoanAmount, SumOf, SumMap;
      case ORecord(account, amount, collateral) => RecordMovesAll(s.state, now, c, account, amount, collateral);
      case ORepay(_, _) => RepayMovesAll(s, call);
      case OAccrue(_) => AccrueMovesAll(s, call);
      case OTopUp(_, _) => StatusMovesAll(s, call);
      case OSetStatus(_, _) => StatusMovesAll(s, call);
      case OLiquidate(_) => StatusMovesAll(s, call);
      case _ =>
    }
  }

  /**
   The outstanding balance of the system against what all borrowers together are said to have
   borrowed, after every run from deployment: it is more by what interest periods closed, and less
   by what settled auctions paid.
   */
  lemma {:induction false} OutstandingExact(s: System, calls: seq<Call>)
    requires Initial(s)
    ensures var t := Run(s, calls).state;
      t.books.olb + SumOf(t.house.lots, SettledValue) == SumMap(t.records.borrowed) + ClosedInAll(s, calls)
  {
    hide Step;
    BorrowedInAll(s, calls);
    Reachable(s, calls);
  }

  lemma {:induction false} BorrowedInAll(s: System, calls: seq<Call>)
    requires Initial(s)
    ensures var t := Run(s, calls).state;
      SumMap(t.records.borrowed) + ClosedInAll(s, calls) == SumOf(t.loans, Debt)
  {
    hide Step, ClosedByCall;
    if calls != [] {
      BorrowedInAll(s, calls[..|calls| - 1]);
      StepMovesAll(Run(s, calls[..|calls| - 1]), calls[|calls| - 1]);
    }
  }

  // ---------- Closing over runs ----------

  /** What the owner of loan id owes on its other loans. */
  ghost function OtherDebt(s: State, id: nat): nat
    requires id < |s.loans|
  {
    SumOf(s.loans[..id] + s.loans[id + 1..], OwedBy(s.loans[id].account))
  }

  /**
   When an interest period goes through, exactly, after any run: for the foundation, on a live loan
   with a debt and a price; and where it would close the loan, only if what earlier periods closed
   for the borrower is within what it owes on other loans.
   */
  lemma {:induction false} ClosesExactlyWhen(s: System, calls: seq<Call>, wait: nat, c: Context, id: nat)
    requires Initial(s)
    ensures var t := Run(s, calls);
      Accrue(t.state, t.now + wait, c, id).Some? <==>
        && c.foundation && id < |t.state.loans| && Live(t.state.loans[id])
        && t.state.loans[id].total > 0 && c.tcashPrice > 0
        && (CollateralRatio(AccruedLoan(t.state.loans[id], c)).Some? && Due(t.state.loans[id], c) ==>
              ClosedOver(s, calls, t.state.loans[id].account) <= OtherDebt(t.state, id))
  {
    var t := Run(s, calls);
    hide Run, Initial, ClosedOver, ShiftOver, SumOf, Due, CollateralRatio;
    AccruesExactlyWhen(t.state, t.now + wait, c, id);
    hide Accrue;
    if id < |t.state.loans| {
      var u := t.state.loans[id].account;
      BorrowedExact(s, calls, u);
      SumWithout(t.state.loans, id, OwedBy(u));
    }
  }

  lemma {:induction false} NothingOwned(loans: seq<Loan>, u: Address)
    requires SumOf(loans, OwnedBy(u)) == 0
    ensures SumOf(loans, OwedBy(u)) == 0
  {
    if loans != [] { NothingOwned(loans[..|loans| - 1], u); }
  }

  /**
   The only loan of a borrower is closed by an interest period at most once, whatever happens
   in between: if one was closed before, every period that finds the loan due reverts, for as long as
   its owner has taken no other.
   */
  lemma {:induction false} OnlyLoanClosesOnce(s: System, calls: seq<Call>, wait: nat, c: Context, id: nat)
    requires Initial(s) && id < |Run(s, calls).state.loans|
    requires var t, u := Run(s, calls).state, Run(s, calls).state.loans[id].account;
      Get(t.records.tnl, u) == 1 && ClosedOver(s, calls, u) > 0
    requires CollateralRatio(AccruedLoan(Run(s, calls).state.loans[id], c)).Some?
    requires Due(Run(s, calls).state.loans[id], c)
    ensures Accrue(Run(s, calls).state, Run(s, calls).now + wait, c, id).None?
  {
    hide Step, Due, CollateralRatio, Accrue;
    var t := Run(s, calls).state;
    var u, others := t.loans[id].account, t.loans[..id] + t.loans[id + 1..];
    Reachable(s, calls);
    assert Get(t.records.tnl, u) == SumOf(t.loans, OwnedBy(u));
    ClosesExactlyWhen(s, calls, wait, c, id);
    hide Run, SumOf, Inv, ClosedOver;
    SumWithout(t.loans, id, OwnedBy(u));
    NothingOwned(others, u);
  }

  lemma ClosedLast(s: System, calls: seq<Call>, call: Call, u: Address)
    ensures ClosedOver(s, calls + [call], u) == ClosedOver(s, calls, u) + ClosedFlow(Run(s, calls), call, u)
  {
    assert (calls + [call])[..|calls|] == calls;
  }

  lemma {:induction false} ClosedGrows(s: System, calls: seq<Call>, more: seq<Call>, u: Address)
    ensures ClosedOver(s, calls, u) <= ClosedOver(s, calls + more, u)
  {
    hide Run, ClosedFlow;
    if more == [] {
      assert calls + more == calls;
    } else {
      assert (calls + more)[..|calls + more| - 1] == calls + more[..|more| - 1];
      ClosedGrows(s, calls, more[..|more| - 1], u);
    }
  }

  // ---------- The UNIT held ----------

  /** What a transaction does to the UNIT held and to what loans and settled auctions say of it. */
  ghost predicate UnitMoves(a: State, b: State, booked: int) {
    b.books.unitBalance - a.books.unitBalance
      == SumOf(b.loans, Held) - SumOf(a.loans, Held) - booked
         - (SumOf(b.house.lots, SettledSales) - SumOf(a.house.lots, SettledSales))
  }

  lemma LoanUnit(s: System, call: Call)
    requires call.op.OCreate? || call.op.ORecord?
    requires Outcome(s, call).Some?
    ensures UnitMoves(s.state, Outcome(s, call).value, BookedFlow(s, call))
  {
    hide InterestOn, SumOf, LoanAmount, Available;
    SumAppend(s.state.loans, Outcome(s, call).value.loans[|s.state.loans|], Held);
  }

  lemma OneLoanUnit(s: System, call: Call)
    requires call.op.ORepay? || call.op.OTopUp? || call.op.OSetStatus?
    requires Outcome(s, call).Some?
    ensures UnitMoves(s.state, Outcome(s, call).value, 0)
  {
    hide UnitToRelease, CollateralRatio, SumOf;
    var id, s' := call.op.id, Outcome(s, call).value;
    if id < |s.state.loans| {
      SumUpdate(s.state.loans, id, s'.loans[id], Held);
    }
  }

  lemma ListingUnit(s: System, call: Call)
    requires call.op.OAccrue? || call.op.OLiquidate?
    requires Outcome(s, call).Some?
    ensures UnitMoves(s.state, Outcome(s, call).value, 0)
  {
    hide InterestOn, CollateralRatio, SumOf;
    var id, s' := call.op.id, Outcome(s, call).value;
    SumUpdate(s.state.loans, id, s'.loans[id], Held);
    SumAppend(s.state.house.lots, LotFor(s.state, s.now + call.wait, s'.loans[id]), SettledSales);
  }

  lemma LotUnit(s: System, call: Call)
    requires call.op.OBid? || call.op.OWithdrawBid? || call.op.OSettle?
    requires Outcome(s, call).Some?
    ensures UnitMoves(s.state, Outcome(s, call).value, 0)
  {
    hide SumOf;
    var n, s' := call.op.n, Outcome(s, call).value;
    SumUpdate(s.state.house.lots, n, s'.house.lots[n], SettledSales);
  }

  lemma StepUnit(s: System, call: Call)
    ensures UnitMoves(s.state, Step(s, call).state, BookedFlow(s, call))
  {
    if Outcome(s, call).Some? {
      match call.op
      case OCreate(_) => LoanUnit(s, call);
      case ORecord(_, _, _) => LoanUnit(s, call);
      case ORepay(_, _) => OneLoanUnit(s, call);
      case OTopUp(_, _) => OneLoanUnit(s, call);
      case OSetStatus(_, _) => OneLoanUnit(s, call);
      case OAccrue(_) => ListingUnit(s, call);
      case OLiquidate(_) => ListingUnit(s, call);
      case OBid(_, _) => LotUnit(s, call);
      case OWithdrawBid(_) => LotUnit(s, call);
      case OSettle(_) => LotUnit(s, call);
      case ORelist => SumSame(s.state.house.lots, Outcome(s, call).value.house.lots, SettledSales);
      case _ =>
    }
  }

  /**
   The loan contract's UNIT after every run from deployment is exactly the collateral all loans are
   said to hold, less what settled auctions have handed out and what was booked without arriving.
   */
  lemma {:induction false} UnitExact(s: System, calls: seq<Call>)
    requires Initial(s)
    ensures var t := Run(s, calls).state;
      t.books.unitBalance + SumOf(t.house.lots, SettledSales) + BookedOver(s, calls) == SumOf(t.loans, Held)
  {
    hide Step, BookedFlow;
    if calls != [] {
      UnitExact(s, calls[..|calls| - 1]);
      StepUnit(Run(s, calls[..|calls| - 1]), calls[|calls| - 1]);
    }
  }

  /** The UNIT is there for every live loan and every unsettled auction. */
  ghost predicate Solvent(s: State) {
    SumOf(s.loans, LiveHeld) + SumOf(s.house.lots, OnSale) <= s.books.unitBalance
  }

  /**
   It is there after a run exactly when what was booked without UNIT, together with all that was
   ever listed for sale, is within the collateral of the loans that are no longer live.
   */
  lemma {:induction false} SolventExactlyWhen(s: System, calls: seq<Call>)
    requires Initial(s)
    ensures var t := Run(s, calls).state;
      Solvent(t) <==> BookedOver(s, calls) + SumOf(t.house.lots, Sales) <= SumOf(t.loans, OverHeld)
  {
    UnitExact(s, calls);
    var t := Run(s, calls).state;
    SumSplits(t.loans, Held, LiveHeld, OverHeld);
    SumSplits(t.house.lots, Sales, SettledSales, OnSale);
  }
}
