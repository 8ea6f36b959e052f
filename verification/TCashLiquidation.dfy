/**
 Loans under liquidation: when they are closed, when they can still be repaid, revived and auctioned
 again. The documentation's rules for them hold on fewer inputs than it says, and these are the exact
 conditions.
 */
module TCashLiquidation {
  import opened Prelude
  import opened TCashModel
  import opened TCashInvariants

  // ---------- Repayment ----------

  /**
   When a loan can be repaid, exactly, after any run. The status of the loan plays no part; what
   does, for a loan that has been closed, is whether its borrower still has so much borrowed.
   */
  lemma {:induction false} RepaysExactlyWhen(s: System, calls: seq<Call>, c: Context, id: nat, amount: nat)
    requires Initial(s)
    ensures var t := Run(s, calls).state;
      Repay(t, c, id, amount).Some? <==>
        && id < |t.loans| && t.loans[id].account == c.sender
        && 0 < amount <= t.loans[id].total
        && amount <= Get(t.coin.balance, c.sender)
        && amount <= Get(t.records.borrowed, c.sender)
        && amount <= t.books.olb
        && UnitToRelease(t.loans[id], amount) <= t.books.unitBalance
  {
    hide Step;
    Reachable(s, calls);
    var t := Run(s, calls).state;
    hide Run, Initial, UnitToRelease;
    BurnKeeps(t.coin, c.sender, amount);
    if id < |t.loans| && 0 < amount <= t.loans[id].total {
      UnitWithin(t.loans[id], amount);
    }
  }

  /** The interest period takes the closed loan off what its borrower has borrowed. */
  lemma ClosedOffRecords(s: State, now: nat, c: Context, id: nat)
    requires Accrue(s, now, c, id).Some? && Accrue(s, now, c, id).value.loans[id].status.Liquidated?
    ensures var s', u := Accrue(s, now, c, id).value, s.loans[id].account;
      && Get(s'.records.borrowed, u) == Get(s.records.borrowed, u) - s.loans[id].total
      && Get(s'.records.tla, u) == Get(s.records.tla, u) - s.loans[id].total
      && s'.loans[id].account == u
  {
    hide InterestOn, CollateralRatio;
  }

  /**
   A repayment of a loan that an interest period has just closed is bounded by what its borrower has
   borrowed besides, so the rule that a loan under liquidation is not repaid holds exactly for a
   borrower who has nothing else.
   */
  lemma {:induction false} ClosedLoanRepaidWithin(s: State, now: nat, c: Context, id: nat, d: Context, amount: nat)
    requires Accrue(s, now, c, id).Some? && Accrue(s, now, c, id).value.loans[id].status.Liquidated?
    requires Repay(Accrue(s, now, c, id).value, d, id, amount).Some?
    ensures amount <= Get(s.records.borrowed, s.loans[id].account) - s.loans[id].total
  {
    ClosedOffRecords(s, now, c, id);
    hide Accrue;
  }

  lemma {:induction false} ClosedOnlyLoanCannotBeRepaid(s: State, now: nat, c: Context, id: nat, d: Context,
      amount: nat)
    requires Accrue(s, now, c, id).Some? && Accrue(s, now, c, id).value.loans[id].status.Liquidated?
    requires Get(s.records.borrowed, s.loans[id].account) == s.loans[id].total
    ensures Repay(Accrue(s, now, c, id).value, d, id, amount).None?
  {
    ClosedOffRecords(s, now, c, id);
    hide Accrue;
  }

  // ---------- Interest periods ----------

  /** Whether the coming interest period would close the loan. */
  predicate Due(loan: Loan, c: Context)
    requires CollateralRatio(AccruedLoan(loan, c)).Some?
  {
    Classified(AccruedLoan(loan, c), CollateralRatio(AccruedLoan(loan, c)).value, c.config).Liquidated?
  }

  lemma RatioDefined(loan: Loan, c: Context)
    ensures CollateralRatio(AccruedLoan(loan, c)).Some? <==> loan.total > 0 && c.tcashPrice > 0
  {
    var grown := AccruedLoan(loan, c).total;
    assert loan.total == 0 ==> grown == 0;
    assert grown * c.tcashPrice == 0 <==> grown == 0 || c.tcashPrice == 0;
  }

  /**
   When an interest period goes through, exactly: for the foundation, on a loan in progress with a
   debt and a price; and where it would close the loan, only if both the borrower's total and what
   it has borrowed still contain the whole loan. A loan they do not contain is not closed so.
   */
  lemma {:induction false} AccruesExactlyWhen(s: State, now: nat, c: Context, id: nat)
    ensures Accrue(s, now, c, id).Some? <==>
      && c.foundation && id < |s.loans|
      && !s.loans[id].status.Cleared? && !s.loans[id].status.Liquidated?
      && s.loans[id].total > 0 && c.tcashPrice > 0
      && (CollateralRatio(AccruedLoan(s.loans[id], c)).Some? && Due(s.loans[id], c) ==>
            && s.loans[id].total <= Get(s.records.tla, s.loans[id].account)
            && s.loans[id].total <= Get(s.records.borrowed, s.loans[id].account))
  {
    if id < |s.loans| {
      RatioDefined(s.loans[id], c);
      var u := s.loans[id].account;
      var interest := InterestOn(s.loans[id].total, c);
      var r := s.records;
      var grown := r.(
                     borrowed := r.borrowed[u := Get(r.borrowed, u) + interest],
                     tla := r.tla[u := Get(r.tla, u) + interest]);
      assert Get(grown.tla, u) == Get(r.tla, u) + interest && Get(grown.borrowed, u) == Get(r.borrowed, u) + interest;
      hide InterestOn, CollateralRatio;
    }
  }

  // ---------- Once under liquidation ----------

  /** The call may put loan id back in progress: a top-up, or the foundation setting its status. */
  predicate MayRevive(call: Call, id: nat) {
    (call.op.OTopUp? && call.op.id == id) || (call.op.OSetStatus? && call.op.id == id)
  }

  ghost predicate Over(s: State, id: nat) {
    id < |s.loans| && (s.loans[id].status.Liquidated? || s.loans[id].status.Cleared?)
  }

  lemma StepOver(s: System, call: Call, id: nat)
    requires Over(s.state, id) && !MayRevive(call, id)
    ensures Over(Step(s, call).state, id)
  {
    hide InterestOn, UnitToRelease, CollateralRatio, Classified, LoanAmount, Rating, ClosedRecords;
    hide RepaidRecords, Available, Minted, Burnt, Transfer, BurnFrom;
  }

  /**
   Until a top-up or the foundation revives it, a loan that is closed or cleared stays so over any
   run, and no interest period puts it up for auction again.
   */
  lemma {:induction false} OverUntilRevived(s: System, calls: seq<Call>, id: nat, wait: nat, c: Context)
    requires Over(s.state, id) && forall j :: 0 <= j < |calls| ==> !MayRevive(calls[j], id)
    ensures Over(Run(s, calls).state, id)
    ensures Accrue(Run(s, calls).state, Run(s, calls).now + wait, c, id).None?
  {
    hide Step;
    if calls != [] {
      OverUntilRevived(s, calls[..|calls| - 1], id, wait, c);
      StepOver(Run(s, calls[..|calls| - 1]), calls[|calls| - 1], id);
    }
  }
}
