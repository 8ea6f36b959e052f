/** Every lot stands for its own closed loan, and every loan closed with a debt for its own lot. */
module UstnLots {
  import opened Prelude
  import opened UstnModel
  import opened UstnInvariants
  import opened UstnLoans
  import opened UstnAuctions

  /** A loan by its borrower and its number. */
  type Id = (Address, nat)

  // ---------- The loans that one liquidation closes ----------

  ghost predicate Closing(loan: Loan, c: Context)
    requires !loan.status.Closed? ==> loan.debt > 0 && c.ustnPrice > 0
  {
    !loan.status.Closed? && ClassifyLoan(loan, c).Closed?
  }

  /** The loans of one borrower that close, in order. */
  ghost function ClosingLoans(u: Address, loans: seq<Loan>, c: Context): seq<Id>
    requires Priced(loans, c)
  {
    if loans == [] then []
    else
      var last := |loans| - 1;
      ClosingLoans(u, loans[..last], c) + if Closing(loans[last], c) then [(u, last)] else []
  }

  /** The loans of all listed borrowers that close, in the order in which they are visited. */
  ghost function ClosingAccounts(users: seq<Address>, accounts: map<Address, seq<Loan>>, c: Context): seq<Id>
    requires AllPriced(accounts, c)
  {
    if users == [] then []
    else
      var last := |users| - 1;
      ClosingAccounts(users[..last], accounts, c) + ClosingLoans(users[last], LoansOf(accounts, users[last]), c)
  }

  /** The lots are those of the loans, one by one. */
  ghost predicate LotsOfLoans(lots: seq<Lot>, ids: seq<Id>, accounts: map<Address, seq<Loan>>, now: nat) {
    && |lots| == |ids|
    && forall n :: 0 <= n < |ids| ==>
         ids[n].1 < |LoansOf(accounts, ids[n].0)| && lots[n] == LotOf(LoansOf(accounts, ids[n].0)[ids[n].1], now)
  }

  lemma {:induction false} ClosingLoansIs(u: Address, loans: seq<Loan>, now: nat, c: Context)
    requires Priced(loans, c)
    ensures var ids, lots := ClosingLoans(u, loans, c), LoansLots(loans, now, c);
      && |ids| == |lots| && NoDuplicates(ids)
      && (forall n :: 0 <= n < |ids| ==>
            && ids[n].0 == u && ids[n].1 < |loans|
            && Closing(loans[ids[n].1], c) && lots[n] == LotOf(loans[ids[n].1], now))
      && (forall i :: 0 <= i < |loans| && Closing(loans[i], c) ==> (u, i) in ids)
  {
    hide ClassifyLoan;
    if loans != [] {
      var last := |loans| - 1;
      var before := loans[..last];
      ClosingLoansIs(u, before, now, c);
      var ids := ClosingLoans(u, loans, c);
      forall i | 0 <= i < |loans| && Closing(loans[i], c) ensures (u, i) in ids {
        if i < last {
          assert before[i] == loans[i];
        } else {
          assert ids[|ids| - 1] == (u, last);
        }
      }
    }
  }

  lemma {:induction false} ClosingAccountsIs(users: seq<Address>, accounts: map<Address, seq<Loan>>, now: nat,
      c: Context)
    requires AllPriced(accounts, c) && NoDuplicates(users)
    ensures var ids := ClosingAccounts(users, accounts, c);
      && LotsOfLoans(AccountsLots(users, accounts, now, c), ids, accounts, now) && NoDuplicates(ids)
      && (forall n :: 0 <= n < |ids| ==> ids[n].0 in users)
      && (forall n :: 0 <= n < |ids| ==> Closing(LoansOf(accounts, ids[n].0)[ids[n].1], c))
      && (forall u, i :: u in users && 0 <= i < |LoansOf(accounts, u)| && Closing(LoansOf(accounts, u)[i], c) ==>
            (u, i) in ids)
  {
    hide Closing, LotOf;
    if users != [] {
      var last := |users| - 1;
      var u := users[last];
      ClosingAccountsIs(users[..last], accounts, now, c);
      ClosingLoansIs(u, LoansOf(accounts, u), now, c);
      assert u !in users[..last];
      assert forall v :: v in users ==> v in users[..last] || v == u;
      hide ClosingLoans, LoansLots;
    }
  }

  /** The loans a call auctions. */
  ghost function Auctioned(s: System, call: Call): seq<Id> {
    if !call.op.OLiquidate? || Outcome(s, call).None? then []
    else
      var c := call.context;
      var accrued := AccrueAccounts(s.ledger.bank.loanAccount, s.now + call.wait, c.config.loanInterestRate);
      ClosingAccounts(s.ledger.bank.loanUsers, accrued, c)
  }

  // ---------- Lots and closed loans ----------

  /** The lot offers the loan's collateral for the loan's debt, of which it notes the interest. */
  ghost predicate StandsFor(lot: Lot, loan: Loan) {
    && loan.status.Closed? && loan.debt > 0
    && lot.sales == loan.mortgage && lot.startValue == loan.debt && lot.debt == loan.interest
  }

  /** One lot for each of the loans, which are all different and are all those closed with a debt. */
  ghost predicate Matched(l: Ledger, ids: seq<Id>) {
    && |ids| == |l.lots| && NoDuplicates(ids)
    && (forall n :: 0 <= n < |ids| ==>
          HasLoan(l, ids[n].0, ids[n].1) && StandsFor(l.lots[n], LoanAt(l, ids[n].0, ids[n].1)))
    && (forall u: Address, i: nat | HasLoan(l, u, i) && LoanAt(l, u, i).status.Closed? && LoanAt(l, u, i).debt > 0 ::
          (u, i) in ids)
  }

  /** A loan that was not there before starts out live; one that a repayment closes has no debt left. */
  lemma ClosedWithoutLot(s: System, call: Call, u: Address, i: nat)
    requires !call.op.OLiquidate? && HasLoan(Step(s, call).ledger, u, i)
    requires LoanAt(Step(s, call).ledger, u, i).status.Closed? && LoanAt(Step(s, call).ledger, u, i).debt > 0
    ensures HasLoan(s.ledger, u, i)
    ensures LoanAt(s.ledger, u, i).status.Closed? && LoanAt(s.ledger, u, i).debt > 0
  {
    if HasLoan(s.ledger, u, i) {
      StepLoan(s, call, u, i);
      hide Step, Outcome, Pledge, BackUnit;
    } else {
      NewLoanLive(s, call, u, i);
    }
  }

  lemma NewLoanLive(s: System, call: Call, u: Address, i: nat)
    requires !call.op.OLiquidate? && HasLoan(Step(s, call).ledger, u, i) && !HasLoan(s.ledger, u, i)
    ensures !LoanAt(Step(s, call).ledger, u, i).status.Closed?
  {
    hide LoansRate, FirstInterest, PointsWith, TimesWith, BalancesWith, PointTotal;
    hide Reserve, Pledge, RepaidLoan, BackUnit;
    if call.op.OBorrow? {
      hide Deposit, Withdraw, Distribute, TopUp, Repay, Liquidate, Bid, WithdrawBid, Settle, Relist;
    } else {
      hide Borrow, Liquidate;
    }
  }

  /** Apart from liquidation, lots are neither added nor change what they stand for. */
  lemma OtherMatched(s: System, call: Call, ids: seq<Id>)
    requires Inv(s.ledger, s.now) && Matched(s.ledger, ids) && !call.op.OLiquidate?
    ensures Matched(Step(s, call).ledger, ids)
  {
    hide Step, Inv, LotEvolves;
    var l, l' := s.ledger, Step(s, call).ledger;
    StepEvolves(s, call);
    SameLots(s, call);
    forall n | 0 <= n < |ids|
      ensures HasLoan(l', ids[n].0, ids[n].1) && StandsFor(l'.lots[n], LoanAt(l', ids[n].0, ids[n].1))
    {
      StepClosed(s, call, ids[n].0, ids[n].1);
      assert LotEvolves(l.lots[n], l'.lots[n]);
      EvolvedStandsFor(l.lots[n], l'.lots[n], LoanAt(l, ids[n].0, ids[n].1), LoanAt(l', ids[n].0, ids[n].1));
    }
    forall u: Address, i: nat | HasLoan(l', u, i) && LoanAt(l', u, i).status.Closed? && LoanAt(l', u, i).debt > 0
      ensures (u, i) in ids
    {
      ClosedWithoutLot(s, call, u, i);
    }
  }

  lemma EvolvedStandsFor(lot: Lot, lot': Lot, loan: Loan, loan': Loan)
    requires StandsFor(lot, loan) && LotEvolves(lot, lot') && loan' == loan.(timestamp := loan'.timestamp)
    ensures StandsFor(lot', loan')
  {}

  lemma SameLots(s: System, call: Call)
    requires !call.op.OLiquidate?
    ensures |Step(s, call).ledger.lots| == |s.ledger.lots|
  {
    hide LoansRate, FirstInterest, PointsWith, TimesWith, BalancesWith, PointTotal;
    hide Reserve, Pledge, RepaidLoan, BackUnit;
  }

  /** Loan i of u after liquidation: accrued and classified. */
  ghost predicate AfterLiquidation(l: Ledger, l': Ledger, accrued: map<Address, seq<Loan>>, u: Address, i: nat,
      c: Context)
    requires AllPriced(accrued, c) && HasLoan(l, u, i) && HasLoan(l', u, i)
  {
    && i < |LoansOf(accrued, u)|
    && var a, b, d := LoanAt(l, u, i), LoansOf(accrued, u)[i], LoanAt(l', u, i);
      && (a.status.Closed? <==> b.status.Closed?)
      && (a.status.Closed? ==> d == a.(timestamp := d.timestamp))
      && (!a.status.Closed? ==> b.debt > 0 && c.ustnPrice > 0)
      && d.mortgage == b.mortgage && d.debt == b.debt && d.interest == b.interest
      && (d.status.Closed? <==> b.status.Closed? || Closing(b, c))
  }

  /** No loan appears or disappears, and each is accrued and classified. */
  lemma LiquidatedLoans(s: System, call: Call)
    requires call.op.OLiquidate? && Outcome(s, call).Some?
    ensures var c, l, l' := call.context, s.ledger, Step(s, call).ledger;
      var accrued := AccrueAccounts(l.bank.loanAccount, s.now + call.wait, c.config.loanInterestRate);
      && AllPriced(accrued, c)
      && (forall u: Address, i: nat | HasLoan(l, u, i) ::
            HasLoan(l', u, i) && AfterLiquidation(l, l', accrued, u, i, c))
      && (forall u: Address, i: nat | HasLoan(l', u, i) :: HasLoan(l, u, i))
  {
    var c, l, l' := call.context, s.ledger, Step(s, call).ledger;
    var accrued := AccrueAccounts(l.bank.loanAccount, s.now + call.wait, c.config.loanInterestRate);
    forall u: Address, i: nat | HasLoan(l, u, i)
      ensures HasLoan(l', u, i) && AfterLiquidation(l, l', accrued, u, i, c)
    {
      StepLoan(s, call, u, i);
    }
  }

  /** Liquidation adds a lot for each loan it closes, after those that were there. */
  lemma LiquidationMatched(s: System, call: Call, ids: seq<Id>)
    requires Inv(s.ledger, s.now) && Matched(s.ledger, ids) && call.op.OLiquidate? && Outcome(s, call).Some?
    ensures Matched(Step(s, call).ledger, ids + Auctioned(s, call))
  {
    hide LoansOk, LotsOk, LiquidatedLoan, Matched, AccrueAccounts, ClassifyAccounts, AfterLiquidation, Closing;
    hide ClosingAccounts, AccountsLots, AccountsGain;
    LiquidatedLoans(s, call);
    var l, l', now, c := s.ledger, Step(s, call).ledger, s.now + call.wait, call.context;
    var users, accrued := l.bank.loanUsers, AccrueAccounts(l.bank.loanAccount, now, c.config.loanInterestRate);
    var added := Auctioned(s, call);
    ClosingAccountsIs(users, accrued, now, c);
    assert forall u: Address, i: nat | HasLoan(l, u, i) :: u in users;
    assert l'.lots == l.lots + AccountsLots(users, accrued, now, c);
    SameBorrowers(l, now, c);
    hide Step, Outcome, Auctioned, Inv;
    AfterHasLoan(l, l', accrued, c);
    MatchedAfter(l, l', ids, added, accrued, now, c);
  }

  lemma SameBorrowers(l: Ledger, now: nat, c: Context)
    ensures forall u: Address ::
      |LoansOf(AccrueAccounts(l.bank.loanAccount, now, c.config.loanInterestRate), u)|
      == |LoansOf(l.bank.loanAccount, u)|
  {}

  lemma AfterHasLoan(l: Ledger, l': Ledger, accrued: map<Address, seq<Loan>>, c: Context)
    requires AllPriced(accrued, c)
    requires forall u: Address, i: nat | HasLoan(l, u, i) ::
      HasLoan(l', u, i) && AfterLiquidation(l, l', accrued, u, i, c)
    ensures forall u: Address, i: nat | HasLoan(l, u, i) :: i < |LoansOf(accrued, u)|
  {}

  lemma MatchedAfter(l: Ledger, l': Ledger, ids: seq<Id>, added: seq<Id>, accrued: map<Address, seq<Loan>>, now: nat,
      c: Context)
    requires AllPriced(accrued, c) && Matched(l, ids)
    requires forall u: Address, i: nat | HasLoan(l, u, i) ::
      HasLoan(l', u, i) && AfterLiquidation(l, l', accrued, u, i, c)
    requires forall u: Address, i: nat | HasLoan(l', u, i) :: HasLoan(l, u, i)
    requires |l'.lots| == |l.lots| + |added| && l'.lots[..|l.lots|] == l.lots
    requires LotsOfLoans(l'.lots[|l.lots|..], added, accrued, now) && NoDuplicates(added)
    requires forall n :: 0 <= n < |added| ==>
      HasLoan(l, added[n].0, added[n].1) && Closing(LoansOf(accrued, added[n].0)[added[n].1], c)
    requires forall u: Address, i: nat | HasLoan(l, u, i) ::
      i < |LoansOf(accrued, u)| && (Closing(LoansOf(accrued, u)[i], c) ==> (u, i) in added)
    ensures Matched(l', ids + added)
  {
    var all := ids + added;
    forall n | 0 <= n < |all|
      ensures HasLoan(l', all[n].0, all[n].1) && StandsFor(l'.lots[n], LoanAt(l', all[n].0, all[n].1))
    {
      var u, i := all[n].0, all[n].1;
      if n < |ids| {
        assert l'.lots[n] == l'.lots[..|l.lots|][n];
      } else {
        assert all[n] == added[n - |ids|];
        assert l'.lots[n] == l'.lots[|l.lots|..][n - |ids|] == LotOf(LoansOf(accrued, u)[i], now);
      }
      assert AfterLiquidation(l, l', accrued, u, i, c);
    }
    forall u: Address, i: nat | HasLoan(l', u, i) && LoanAt(l', u, i).status.Closed? && LoanAt(l', u, i).debt > 0
      ensures (u, i) in all
    {
      assert HasLoan(l, u, i) && AfterLiquidation(l, l', accrued, u, i, c);
    }
    forall m, n | 0 <= m < n < |all| ensures all[m] != all[n] {
      if m < |ids| <= n {
        assert all[n] == added[n - |ids|];
        assert LoanAt(l, all[m].0, all[m].1).status.Closed?;
        assert AfterLiquidation(l, l', accrued, all[n].0, all[n].1, c);
      }
    }
  }

  // ---------- Whole runs ----------

  /** The loans auctioned over a run, in the order of their lots. */
  ghost function AuctionedOver(s: System, calls: seq<Call>): seq<Id> {
    if calls == [] then []
    else AuctionedOver(s, calls[..|calls| - 1]) + Auctioned(Run(s, calls[..|calls| - 1]), calls[|calls| - 1])
  }

  /**
   After every run from deployment, lots and loans closed with a debt correspond one to one: the
   loans auctioned are all different, lot n offers exactly the collateral of the n-th of them for
   exactly its debt, and every loan that is closed with a debt is among them.
   */
  lemma {:induction false} LotsStandForLoans(s: System, calls: seq<Call>)
    requires Initial(s)
    ensures Matched(Run(s, calls).ledger, AuctionedOver(s, calls))
  {
    hide Step, Outcome, Matched, Auctioned, Inv;
    InitialInv(s);
    if calls == [] {
      InitialMatched(s);
    } else {
      var before, call := calls[..|calls| - 1], calls[|calls| - 1];
      var mid, ids := Run(s, before), AuctionedOver(s, before);
      LotsStandForLoans(s, before);
      RunKeeps(s, before);
      hide Run, Initial;
      StepMatched(mid, call, ids);
    }
  }

  lemma InitialMatched(s: System)
    requires Initial(s)
    ensures Matched(s.ledger, [])
  {}

  lemma StepMatched(s: System, call: Call, ids: seq<Id>)
    requires Inv(s.ledger, s.now) && Matched(s.ledger, ids)
    ensures Matched(Step(s, call).ledger, ids + Auctioned(s, call))
  {
    hide Matched, Inv, Apply;
    assert ids + [] == ids;
    if call.op.OLiquidate? {
      if Outcome(s, call).Some? {
        LiquidationMatched(s, call, ids);
      }
    } else {
      OtherMatched(s, call, ids);
    }
  }
}
