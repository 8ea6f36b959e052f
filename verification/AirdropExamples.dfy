/** Concrete airdrops, as deployed, on which a plausible rule fails. */
module AirdropExamples {
  import opened Prelude
  import opened AirdropModel
  import opened AirdropSafety
  import opened AirdropRuns
  import opened AirdropDues

  // ---------- More due than there is ----------

  const NINE: seq<Address> := [9]

  lemma JustNine(f: Address -> nat)
    ensures SumOf(NINE, f) == f(9)
  {
    assert NINE[..0] == [];
  }

  lemma SingleVip()
    ensures Initialize(0, [9], [CAP], [1, 2], [3, 4, 5]).Some?
    ensures var w := Initialize(0, [9], [CAP], [1, 2], [3, 4, 5]).value;
      Everyone(w, NINE) && SumOf(NINE, Whole(w, 1)) == 100 && w.startAt == 0
  {
    assert Enrolled(NO_ROSTER, 1, [9], [CAP], 0) == Some(NO_ROSTER);
    assert Enrolled(NO_ROSTER, 1, [9], [CAP], 1) == Some(EnrollOne(NO_ROSTER, 9, CAP));
    hide Enrolled, FirstPools;
    var w := Initialize(0, [9], [CAP], [1, 2], [3, 4, 5]).value;
    assert ActualRatio(HistoryOf(w.roster, 9), 1) == CAP;
    JustNine(Whole(w, 1));
  }

  /**
   A single VIP with the full ratio is never paid anything, as long as nothing is funded and no ratio
   changes: from the first month on it is due more than the whole pool.
   */
  lemma FullRatioNeverPaid(calls: seq<Call>)
    requires PurseOnly(calls)
    ensures Initialize(0, [9], [CAP], [1, 2], [3, 4, 5]).Some?
    ensures var t := Run(Deployed(0, Initialize(0, [9], [CAP], [1, 2], [3, 4, 5]).value), calls);
      && Due(t, 9) + SumMap(t.purse.claimedAmount) == ClaimTo(t.world, t.now) * 500_000_000_000_000_000_000
      && (t.now >= MONTH ==> Due(t, 9) > t.purse.remained)
      && Claim(t.world, t.purse, t.now, 9).None?
  {
    SingleVip();
    var w := Initialize(0, [9], [CAP], [1, 2], [3, 4, 5]).value;
    var s := Deployed(0, w);
    PlainDues(0, [9], [CAP], [1, 2], [3, 4, 5], calls, NINE);
    var t := Run(s, calls);
    hide Initialize, Run, RunFlow, Everyone;
    JustNine(DueTo(t));
    PaysExactlyWhen(t, 9);
    assert t.now >= MONTH ==> ClaimTo(w, t.now) >= 1;
    assert ClaimTo(w, t.now) >= 1 ==> t.now >= MONTH;
  }

  // ---------- Proposals with repeats ----------

  const RATIOS := [30 * SCALE, 40 * SCALE]

  lemma TwoVips()
    ensures Initialize(0, [7, 8], RATIOS, [1, 2], [3, 4, 5]).Some?
    ensures var w := Initialize(0, [7, 8], RATIOS, [1, 2], [3, 4, 5]).value;
      && WorldOk(w, 0) && w.roster.total == 70 * SCALE
      && Get(w.roster.ratios, 7) == 30 * SCALE && Get(w.roster.ratios, 9) == 0
  {
    var one := EnrollOne(NO_ROSTER, 7, 30 * SCALE);
    assert Enrolled(NO_ROSTER, 1, [7, 8], RATIOS, 0) == Some(NO_ROSTER);
    assert Enrolled(NO_ROSTER, 1, [7, 8], RATIOS, 1) == Some(one);
    assert Enrolled(NO_ROSTER, 1, [7, 8], RATIOS, 2) == Some(EnrollOne(one, 8, 40 * SCALE));
    hide Enrolled, FirstPools, WorldOk;
    InitialInv(0, [7, 8], RATIOS, [1, 2], [3, 4, 5]);
  }

  /**
   On one airdrop as deployed, with ratios 30 and 40: the list [9, 9] with [20, 20] is refused though
   it leads to 90 in all, and [7, 7, 9] with [0, 30, 50] is accepted though it leads to 120.
   */
  lemma DeployedRepeatsMislead(sender: Account)
    ensures Initialize(0, [7, 8], RATIOS, [1, 2], [3, 4, 5]).Some?
    ensures var w := Initialize(0, [7, 8], RATIOS, [1, 2], [3, 4, 5]).value;
      && Propose(w, sender, [9, 9], [20 * SCALE, 20 * SCALE]).None?
      && SumMap(NewRatios(w.roster.ratios, [9, 9], [20 * SCALE, 20 * SCALE], 2)) <= CAP
      && Propose(w, sender, [7, 7, 9], [0, 30 * SCALE, 50 * SCALE]).Some?
      && SumMap(NewRatios(w.roster.ratios, [7, 7, 9], [0, 30 * SCALE, 50 * SCALE], 3)) > CAP
  {
    TwoVips();
    var w := Initialize(0, [7, 8], RATIOS, [1, 2], [3, 4, 5]).value;
    hide Initialize, WorldOk, Propose, NewRatios;
    RepeatsMislead(w, 0, sender, 7, 9, 20 * SCALE);
    RepeatsMislead(w, 0, sender, 7, 9, 50 * SCALE);
  }
}
