/** Concrete runs of the bank on which a plausible equality fails. */
module UstnExamples {
  import opened Prelude
  import opened UstnModel
  import opened UstnInvariants
  import opened UstnConservation

  const DEPOSITOR: Account := 1
  const AMOUNT: nat := 1_000_000_000
  const CONFIG: Config := Parameters(1000, 5, 15000, 9000)
  const CONTEXT := Context(DEPOSITOR, false, false, CONFIG, 1, 2)

  /** A fresh bank and one account that holds a billion units of USTN. */
  const START := System(0, Ledger(
    Bank(0, [], {}, map[], map[], map[], 0, 0, [], {}, map[], 0), [],
    Token(AMOUNT, map[DEPOSITOR := AMOUNT], 9)))

  const DEPOSIT := Call(0, CONTEXT, ODeposit(AMOUNT))
  const BORROW := Call(0, CONTEXT, OBorrow(AMOUNT))
  const REPAY := Call(0, CONTEXT, ORepay(0, 375_000, 0))

  /** It deposits all of it, borrows against as much UNIT, and pays just the first interest. */
  const CALLS := [DEPOSIT, BORROW, REPAY]

  lemma Prefixes()
    ensures Run(START, CALLS[..2]) == Step(Step(START, DEPOSIT), BORROW)
    ensures CALLS[..2] + [REPAY] == CALLS
  {
    hide Step;
    assert CALLS[..2][..1] == [DEPOSIT];
    assert Run(START, [DEPOSIT]) == Step(Run(START, [DEPOSIT][..0]), DEPOSIT);
  }

  lemma Lent()
    ensures LoansRate(AMOUNT, CONTEXT) == 750_000_000 && FirstInterest(750_000_000, CONFIG) == 375_000
    ensures Reserve(AMOUNT, CONFIG) == 900_000_000
  {}

  lemma Borrowed()
    ensures var l := Step(Step(START, DEPOSIT), BORROW).ledger;
      && l.bank.interestMint == 375_000 && l.bank.unitBalance == AMOUNT
      && Get(l.token.balance, DEPOSITOR) == 750_000_000
      && LoansOf(l.bank.loanAccount, DEPOSITOR) == [Loan(0, 750_000_000, AMOUNT, 750_375_000, 375_000, Normal)]
  {
    Lent();
    hide LoansRate, FirstInterest, Reserve;
    var l := Step(START, DEPOSIT).ledger;
    assert l.bank.bankLoanLimit == 900_000_000 && l.bank.loanAccount == map[] && l.bank.interestMint == 0;
  }

  /**
   interestMint can really exceed the interest it answers for: after a deposit, a loan, and the
   payment of the loan's first interest, no interest is outstanding but interestMint still holds it.
   */
  lemma InterestMintExceeds()
    ensures Initial(START)
    ensures 0 < InterestGap(Run(START, CALLS).ledger)
  {
    Prefixes();
    Borrowed();
    var before := Run(START, CALLS[..2]);
    hide Step;
    InitialInv(START);
    RunKeeps(START, CALLS[..2]);
    InterestMintExact(START, CALLS[..2]);
    Repaid(before);
    hide Run, Stake, Inv, Initial;
    GapWidensExactlyWhen(before, REPAY);
    assert CALLS[..|CALLS| - 1] == CALLS[..2];
    LastStep();
  }

  lemma LastStep()
    ensures Run(START, CALLS) == Step(Run(START, CALLS[..2]), REPAY)
  {
    assert CALLS[..|CALLS| - 1] == CALLS[..2] && CALLS[|CALLS| - 1] == REPAY;
  }

  lemma Repaid(s: System)
    requires LoansOf(s.ledger.bank.loanAccount, DEPOSITOR)
          == [Loan(0, 750_000_000, AMOUNT, 750_375_000, 375_000, Normal)]
    requires 375_000 <= Get(s.ledger.token.balance, DEPOSITOR) && s.ledger.bank.unitBalance == AMOUNT
    ensures Outcome(s, REPAY).Some?
  {
    hide BackPercent;
  }

  /** Anyone may call the bank's helper that lowers the supply. */
  const REDUCE := Call(0, CONTEXT, OElsewhere(map[], 0))

  /** The supply can really fall short of the outstanding debt, once it is taken down from elsewhere. */
  lemma SupplyFallsShort()
    ensures Initial(START)
    ensures SupplySlack(Step(Run(START, CALLS[..2]), REDUCE).ledger) < 0
  {
    Prefixes();
    Borrowed();
    var before := Run(START, CALLS[..2]);
    var after := Step(before, REDUCE);
    assert after.ledger == before.ledger.(token := before.ledger.token.(balance := map[], totalSupply := 0));
    hide Step;
    InitialInv(START);
    RunKeeps(START, CALLS[..2]);
    hide Run;
    LoanWithinStake(Interest, before.ledger, before.now, DEPOSITOR, 0);
    StakeNonNegative(Principal, before);
    SameStake(before.ledger, after.ledger);
    hide Stake;
  }

  lemma SameStake(l: Ledger, l': Ledger)
    requires l'.bank == l.bank && l'.lots == l.lots
    ensures forall k :: Stake(k, l') == Stake(k, l)
  {}
}
