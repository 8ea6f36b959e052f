/**
 What each airdrop transaction gives, and when, against the clock: months are tied to the seconds
 elapsed, and every rounded amount is a parameter that is pinned by two inequalities.
 */
module AirdropOutcomes {
  import opened Prelude
  import opened AirdropModel
  import opened AirdropSafety
  import opened AirdropRuns
  import opened AirdropDues

  // ---------- Months ----------

  /** m whole months of five minutes have passed since the airdrop started. */
  ghost predicate MonthsPassed(w: World, now: nat, m: nat) {
    w.startAt + m * 300 <= now < w.startAt + (m + 1) * 300
  }

  lemma MonthIs(w: World, now: nat, m: nat)
    requires w.startAt <= now
    ensures MonthsPassed(w, now, m) <==> m == CurrentMonth(w, now)
  {
    FloorIs(m, now - w.startAt, MONTH);
  }

  /** What v earned in the months after a up to and including b: whole ratios times monthly pools. */
  ghost function Earned(w: World, v: Address, a: nat, b: nat): int {
    Promised(w, [v], b) - Promised(w, [v], a)
  }

  lemma JustOne(v: Address, f: Address -> nat)
    ensures SumOf([v], f) == f(v)
  {
    assert [v][..0] == [];
  }

  lemma EarnedIs(w: World, v: Address, a: nat, b: nat)
    requires a <= b
    ensures AmountBetween(w, v, a, b) == Earned(w, v, a, b)
  {
    AmountSplits(w, v, a, b);
    PromisedIs(w, [v], a);
    PromisedIs(w, [v], b);
    JustOne(v, AmountTo(w, a));
    JustOne(v, AmountTo(w, b));
  }

  /**
   A claim pays for the months that are over, at most twelve, and not claimed before: no month is paid
   in advance. It goes through exactly when they earned something, which pool and balance cover.
   */
  lemma {:induction false} ClaimGives(s: System, v: Address, m: nat)
    requires Inv(s) && MonthsPassed(s.world, s.now, m)
    ensures var w, p, last := s.world, s.purse, if m <= PERIODS then m else PERIODS;
      var paid := Earned(w, v, Get(p.claimedMonth, v), last);
      && Get(p.claimedMonth, v) <= last
      && (Claim(w, p, s.now, v).Some? <==> 0 < paid <= p.remained && paid <= p.balance)
      && (Claim(w, p, s.now, v).Some? ==>
            var q := Claim(w, p, s.now, v).value;
            && q.remained == p.remained - paid && q.balance == p.balance - paid
            && (forall u: Address :: Get(q.claimedMonth, u) == if u == v then last else Get(p.claimedMonth, u))
            && (forall u: Address ::
                  Get(q.claimedAmount, u) == Get(p.claimedAmount, u) + if u == v then paid else 0)
            && q.grant1 == p.grant1 && q.grant2 == p.grant2)
  {
    MonthIs(s.world, s.now, m);
    assert Get(s.purse.claimedMonth, v) <= ClaimTo(s.world, s.now);
    EarnedIs(s.world, v, Get(s.purse.claimedMonth, v), ClaimTo(s.world, s.now));
    hide AmountBetween, Promised, WorldOk, ClaimsOk;
  }

  /** In no run is a month ever claimed before it is over. */
  lemma {:induction false} NothingClaimedAhead(s: System, calls: seq<Call>, v: Address)
    requires Inv(s)
    ensures var t := Run(s, calls);
      var m := Get(t.purse.claimedMonth, v);
      m <= PERIODS && t.world.startAt + m * MONTH <= t.now
  {
    RunKeeps(s, calls);
    var t := Run(s, calls);
    hide Run, WorldOk;
    ClaimedBefore(t, v);
  }

  lemma ClaimedBefore(t: System, v: Address)
    requires Inv(t)
    ensures var m := Get(t.purse.claimedMonth, v); m <= PERIODS && t.world.startAt + m * MONTH <= t.now
  {
    var month := CurrentMonth(t.world, t.now);
    assert Get(t.purse.claimedMonth, v) <= ClaimTo(t.world, t.now);
    MonthIs(t.world, t.now, month);
    MultiplyMonotone(Get(t.purse.claimedMonth, v), month, MONTH);
  }

  // ---------- Fundings ----------

  /**
   A funding raises each of the twelve pools whose month is still to come by one and the same even
   share, and no other; after the last month it raises nothing.
   */
  lemma {:induction false} FundingGives(w: World, now: nat, value: nat, m: nat, share: nat, i: nat)
    requires w.startAt <= now && MonthsPassed(w, now, m)
    requires m < PERIODS ==> IsFloor(share, value, PERIODS - m)
    ensures Fund(w, now, value).Some? <==> value > 0
    ensures Fund(w, now, value).Some? ==>
      var w' := Fund(w, now, value).value;
      && Get(w'.pools, i) == Get(w.pools, i) + (if m < i <= PERIODS then share else 0)
      && w'.roster == w.roster && w'.ballot == w.ballot && w'.startAt == w.startAt
      && w'.managers == w.managers && w'.directors == w.directors
  {
    MonthIs(w, now, m);
    if m < PERIODS { FloorIs(share, value, PERIODS - m); }
    hide IsFloor, MonthsPassed, CurrentMonth;
  }

  // ---------- The foundation ----------

  /**
   The foundation, which is the first manager, takes all that is left for VIPs exactly once more than
   twelve months are over and the balance covers it.
   */
  lemma {:induction false} SweepGives(w: World, p: Purse, now: nat, sender: Account)
    requires w.startAt <= now
    ensures Sweep(w, p, now, sender).Some? <==>
      && w.managers != [] && sender == w.managers[0]
      && now >= w.startAt + (PERIODS + 1) * MONTH && 0 < p.remained <= p.balance
    ensures Sweep(w, p, now, sender).Some? ==>
      Sweep(w, p, now, sender).value == p.(remained := 0, balance := p.balance - p.remained)
  {
    MonthIs(w, now, CurrentMonth(w, now));
    if CurrentMonth(w, now) > PERIODS {
      MultiplyMonotone(PERIODS + 1, CurrentMonth(w, now), MONTH);
    } else {
      MultiplyMonotone(CurrentMonth(w, now) + 1, PERIODS + 1, MONTH);
    }
    hide CurrentMonth;
  }

  /** It takes its first grant at any time, and its second one after the first stage only. */
  lemma {:induction false} GrantGives(w: World, p: Purse, now: nat, sender: Account)
    ensures var first, second := p.grant1, if now > w.startAt + 900 then p.grant2 else 0;
      && (Grant(w, p, now, sender).Some? <==>
            && w.managers != [] && sender == w.managers[0]
            && 0 < first + second <= p.balance)
      && (Grant(w, p, now, sender).Some? ==>
            Grant(w, p, now, sender).value
            == p.(grant1 := 0, grant2 := p.grant2 - second, balance := p.balance - first - second))
  {}

  /** Over no run is the second grant touched before the first stage is over. */
  lemma {:induction false} SecondGrantWaits(s: System, calls: seq<Call>)
    ensures Run(s, calls).purse.grant2 != s.purse.grant2 ==> Run(s, calls).now > s.world.startAt + 900
    ensures Run(s, calls).world.startAt == s.world.startAt && s.now <= Run(s, calls).now
  {
    if calls != [] {
      SecondGrantWaits(s, calls[..|calls| - 1]);
      StepGrants(Run(s, calls[..|calls| - 1]), calls[|calls| - 1]);
    }
    hide Step;
  }

  lemma StepGrants(s: System, call: Call)
    ensures Step(s, call).purse.grant2 != s.purse.grant2 ==> Step(s, call).now > s.world.startAt + 900
    ensures Step(s, call).world.startAt == s.world.startAt && s.now <= Step(s, call).now
  {
    hide AmountBetween, Changed, ProposedTotal, Raise, EvenShare, CurrentMonth;
  }

  // ---------- Proposals ----------

  /** A proposal is kept as made, under the next number, and no signature is taken for it. */
  lemma {:induction false} ProposalGives(w: World, sender: Account, vips: seq<Address>, ratios: seq<nat>)
    requires Propose(w, sender, vips, ratios).Some?
    ensures var b, w' := w.ballot, Propose(w, sender, vips, ratios).value;
      && w'.ballot.last == b.last + 1
      && w'.ballot.proposals == b.proposals[b.last + 1 := Proposal(sender, vips, ratios)]
      && w'.ballot.signers == b.signers && w'.ballot.executed == b.executed && w'.ballot.executeTime == b.executeTime
      && w'.roster == w.roster && w'.pools == w.pools
  {
    hide ProposedTotal;
  }

  /** A signature is added for good; the third one, and no other, sets the recorded execution time. */
  lemma {:induction false} SignatureGives(w: World, now: nat, sender: Account, id: nat)
    requires BallotOk(w.ballot, Officers(w)) && Sign(w, now, sender, id).Some?
    ensures var b, w' := w.ballot, Sign(w, now, sender, id).value;
      && (forall k: nat :: SignersOf(w'.ballot, k) == SignersOf(b, k) + (if k == id then {sender} else {}))
      && w'.ballot.executeTime
         == (if |SignersOf(w'.ballot, id)| == 3 then b.executeTime[id := now + 60] else b.executeTime)
      && w'.ballot.proposals == b.proposals && w'.ballot.executed == b.executed
      && w'.roster == w.roster && w'.pools == w.pools
  {
    var b, w' := w.ballot, Sign(w, now, sender, id).value;
    assert Get(b.sigCount, id) == |SignersOf(b, id)|;
    assert SignersOf(w'.ballot, id) == SignersOf(b, id) + {sender};
    forall k: nat ensures SignersOf(w'.ballot, k) == SignersOf(b, k) + (if k == id then {sender} else {}) {
      if k != id { assert SignersOf(b, k) + {} == SignersOf(b, k); }
    }
  }

  // ---------- Deployment ----------

  /**
   What deployment sets up: every VIP has the last ratio listed for it, from the first month on, and
   each of the twelve months gets a twelfth of the pool.
   */
  lemma {:induction false} DeploymentGives(now: nat, vips: seq<Address>, ratios: seq<nat>,
      managers: seq<Address>, directors: seq<Address>, v: Address, i: nat)
    requires Initialize(now, vips, ratios, managers, directors).Some?
    ensures |vips| == |ratios|
    ensures var w := Initialize(now, vips, ratios, managers, directors).value;
      && Get(w.roster.ratios, v) == Get(NewRatios(map[], vips, ratios, |vips|), v)
      && (i > 0 ==> ActualRatio(HistoryOf(w.roster, v), i) == Get(w.roster.ratios, v))
      && Get(w.pools, i) == (if 0 < i <= 12 then 5_000_000_000_000_000_000 else 0)
      && w.startAt == now && w.managers == managers && w.directors == directors
  {
    InitialWorld(now, vips, ratios, managers, directors);
    EnrolledRatios(managers[0], vips, ratios, |vips|);
    FirstPoolsSum(PERIODS, 0);
    if 0 < i <= PERIODS { FirstPoolsAre(PERIODS, i); }
    var w := Initialize(now, vips, ratios, managers, directors).value;
    hide Enrolled, FirstPools, NewRatios;
    if i > 0 { RatioOfComingMonths(w.roster, 0, v, i); }
  }

  lemma {:induction false} EnrolledRatios(foundation: Address, vips: seq<Address>, ratios: seq<nat>, n: nat)
    requires n <= |vips| == |ratios| && Enrolled(NO_ROSTER, foundation, vips, ratios, n).Some?
    ensures Enrolled(NO_ROSTER, foundation, vips, ratios, n).value.ratios == NewRatios(map[], vips, ratios, n)
  {
    if n > 0 { EnrolledRatios(foundation, vips, ratios, n - 1); }
  }

  /** A list of different VIPs, none zero nor the foundation, is enrolled; each is due its own ratio. */
  lemma {:induction false} EnrolsExactlyWhen(now: nat, vips: seq<Address>, ratios: seq<nat>,
      managers: seq<Address>, directors: seq<Address>)
    requires NoDuplicates(vips)
    ensures Initialize(now, vips, ratios, managers, directors).Some? <==>
      && |managers| >= 2 && |directors| >= 3 && 0 !in managers && 0 !in directors
      && 0 < |vips| == |ratios| && 0 !in vips && managers[0] !in vips
      && SumMap(NewRatios(map[], vips, ratios, |vips|)) <= CAP
  {
    if |managers| >= 2 && 0 < |vips| == |ratios| {
      EnrolledWhen(managers[0], vips, ratios, |vips|);
      assert vips[..|vips|] == vips;
    }
  }

  lemma {:induction false} EnrolledWhen(foundation: Address, vips: seq<Address>, ratios: seq<nat>, n: nat)
    requires n <= |vips| == |ratios| && NoDuplicates(vips)
    ensures var r := Enrolled(NO_ROSTER, foundation, vips, ratios, n);
      && (r.Some? <==> 0 !in vips[..n] && foundation !in vips[..n])
      && (r.Some? ==> r.value.ratios == NewRatios(map[], vips, ratios, n) && r.value.total == SumMap(r.value.ratios))
  {
    if n > 0 {
      EnrolledWhen(foundation, vips, ratios, n - 1);
      assert vips[..n] == vips[..n - 1] + [vips[n - 1]];
      UntouchedRatio(map[], vips, ratios, n - 1, vips[n - 1]);
      SumMapUpdate(NewRatios(map[], vips, ratios, n - 1), vips[n - 1], ratios[n - 1]);
    }
  }
}
