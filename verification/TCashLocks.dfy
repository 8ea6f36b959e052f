/**
 Locked TCash against balances. A bid is checked against the whole balance and a burn against no
 lock at all, so more can be locked than is held: here is exactly when.
 */
module TCashLocks {
  import opened Prelude
  import opened TCashModel
  import opened TCashInvariants

  /** Nobody has more locked than it holds. */
  ghost predicate Backed(k: Coin) {
    forall u: Address :: Get(k.locked, u) <= Get(k.balance, u)
  }

  /** What an account holds beyond what is locked. */
  function Free(k: Coin, u: Address): int { Get(k.balance, u) - Get(k.locked, u) }

  /** Whoever is not backed cannot transfer anything, not even nothing. */
  lemma {:induction false} TransfersExactlyWhen(k: Coin, sender: Account, receiver: Account, amount: nat)
    ensures Transfer(k, sender, receiver, amount).Some? <==> amount <= Free(k, sender)
  {}

  /** What a caller can check beforehand: a bid or a burn takes no more than is free. */
  predicate Covered(s: State, c: Context, op: Op) {
    match op
    case OBid(_, amount) => amount <= Free(s.coin, c.sender)
    case ORepay(_, amount) => amount <= Free(s.coin, c.sender)
    case OBurn(holder, amount) => amount <= Free(s.coin, holder)
    case OSettle(n) => n < |s.house.lots| && s.house.lots[n].startValue <= Free(s.coin, c.auctionManager)
    case _ => true
  }

  lemma BurntBacked(k: Coin, u: Address, amount: nat)
    requires Backed(k) && Burnt(k, u, amount).Some?
    ensures Backed(Burnt(k, u, amount).value) <==> amount <= Free(k, u)
  {
    var k' := Burnt(k, u, amount).value;
    if amount <= Free(k, u) {
      forall v: Address ensures Get(k'.locked, v) <= Get(k'.balance, v) {
        assert Get(k.locked, v) <= Get(k.balance, v);
      }
    } else {
      assert Get(k'.balance, u) < Get(k'.locked, u);
    }
  }

  lemma LockedBacked(k: Coin, u: Address, amount: nat)
    requires Backed(k) && BidCost(k, u, amount).Some?
    ensures Backed(BidCost(k, u, amount).value) <==> amount <= Free(k, u)
  {
    var k' := BidCost(k, u, amount).value;
    if amount <= Free(k, u) {
      forall v: Address ensures Get(k'.locked, v) <= Get(k'.balance, v) {
        assert Get(k.locked, v) <= Get(k.balance, v);
      }
    } else {
      assert Get(k'.balance, u) < Get(k'.locked, u);
    }
  }

  lemma OthersBacked(k: Coin, account: Account, receiver: Account, amount: nat)
    requires Backed(k)
    ensures Backed(Minted(k, account, amount))
    ensures BidBack(k, account, amount).Some? ==> Backed(BidBack(k, account, amount).value)
    ensures Transfer(k, account, receiver, amount).Some? ==> Backed(Transfer(k, account, receiver, amount).value)
  {
    assert forall v: Address :: Get(k.locked, v) <= Get(k.balance, v);
  }

  /** The token after a transaction, where it is one that concerns the token. */
  lemma TokenAfter(s: State, now: nat, c: Context, op: Op)
    requires Apply(s, now, c, op).Some?
    ensures var k := Apply(s, now, c, op).value.coin;
      match op
      case OCreate(_) => exists amount :: k == Minted(s.coin, c.sender, amount)
      case ORepay(_, amount) => Burnt(s.coin, c.sender, amount) == Some(k)
      case OBid(_, amount) => BidCost(s.coin, c.sender, amount) == Some(k)
      case OWithdrawBid(n) =>
        n < |s.house.lots| && BidBack(s.coin, c.sender, Get(s.house.lots[n].bids, c.sender)) == Some(k)
      case OSettle(n) => n < |s.house.lots| && Burnt(s.coin, c.auctionManager, s.house.lots[n].startValue) == Some(k)
      case OMint(receiver, amount) => k == Minted(s.coin, receiver, amount)
      case OBurn(holder, amount) => Burnt(s.coin, holder, amount) == Some(k)
      case OTransfer(holder, receiver, amount) => Transfer(s.coin, holder, receiver, amount) == Some(k)
      case _ => k == s.coin
  {
    hide InterestOn, UnitToRelease, CollateralRatio, Classified, Rating, Available, LoanAmount;
    hide RepaidLoan, RepaidRecords, ClosedRecords, AccruedLoan, Minted, Burnt, Transfer, BidCost, BidBack;
  }

  /** A transaction keeps everyone backed exactly when it is covered or reverts. */
  lemma StepBackedIff(s: System, call: Call)
    requires Backed(s.state.coin)
    ensures Backed(Step(s, call).state.coin) <==> Outcome(s, call).None? || Covered(s.state, call.context, call.op)
  {
    if Outcome(s, call).Some? {
      var k, c := s.state.coin, call.context;
      TokenAfter(s.state, s.now + call.wait, c, call.op);
      hide Apply, Backed, Minted, Burnt, Transfer, BidCost, BidBack, Free;
      match call.op
      case OBid(_, amount) => LockedBacked(k, c.sender, amount);
      case ORepay(_, amount) => BurntBacked(k, c.sender, amount);
      case OBurn(holder, amount) => BurntBacked(k, holder, amount);
      case OSettle(n) => BurntBacked(k, c.auctionManager, s.state.house.lots[n].startValue);
      case OCreate(_) =>
        var amount :| Outcome(s, call).value.coin == Minted(k, c.sender, amount);
        OthersBacked(k, c.sender, c.sender, amount);
      case OMint(receiver, amount) => OthersBacked(k, receiver, receiver, amount);
      case OTransfer(holder, receiver, amount) => OthersBacked(k, holder, receiver, amount);
      case OWithdrawBid(n) => OthersBacked(k, c.sender, c.sender, Get(s.state.house.lots[n].bids, c.sender));
      case _ =>
    }
  }

  ghost predicate AlwaysBacked(s: System, calls: seq<Call>) {
    Backed(Run(s, calls).state.coin) && (calls == [] || AlwaysBacked(s, calls[..|calls| - 1]))
  }

  ghost predicate CoveredRun(s: System, calls: seq<Call>) {
    calls == []
    || (CoveredRun(s, calls[..|calls| - 1])
        && var mid, call := Run(s, calls[..|calls| - 1]), calls[|calls| - 1];
           Outcome(mid, call).None? || Covered(mid.state, call.context, call.op))
  }

  /**
   From deployment on, everyone's locked TCash is backed by its balance throughout a run exactly when
   every bid, repayment, settlement and burn of the run takes no more than is free, or reverts.
   */
  lemma {:induction false} BackedExactlyWhen(s: System, calls: seq<Call>)
    requires Initial(s)
    ensures AlwaysBacked(s, calls) <==> CoveredRun(s, calls)
  {
    hide Step, Covered, Outcome, Backed;
    if calls == [] {
      InitialBacked(s);
    } else {
      BackedExactlyWhen(s, calls[..|calls| - 1]);
      if AlwaysBacked(s, calls[..|calls| - 1]) {
        StepBackedIff(Run(s, calls[..|calls| - 1]), calls[|calls| - 1]);
      }
    }
  }

  lemma InitialBacked(s: System)
    requires Initial(s)
    ensures Backed(s.state.coin)
  {}
}
