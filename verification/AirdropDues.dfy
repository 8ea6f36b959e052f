/**
 What all VIPs together are due, against the pool they are paid from: when it can be paid in full,
 exactly, after any run, and in whatever order they claim.
 */
module AirdropDues {
  import opened Prelude
  import opened AirdropModel
  import opened AirdropSafety
  import opened AirdropRuns

  // ---------- Everyone's amounts together ----------

  function DueTo(s: System): Address -> nat { (v: Address) => Due(s, v) }

  function ClaimedBy(p: Purse): Address -> nat { (v: Address) => Get(p.claimedAmount, v) }

  function AmountTo(w: World, to: nat): Address -> nat { (v: Address) => AmountBetween(w, v, 0, to) }

  function MonthTo(w: World, i: nat): Address -> nat { (v: Address) => MonthAmount(w, v, i) }

  /** How many whole monthly pools a VIP's ratio stands for. */
  function Whole(w: World, i: nat): Address -> nat {
    (v: Address) => ActualRatio(HistoryOf(w.roster, v), i) / SCALE
  }

  /** What the first months promise to the given VIPs together: each pool as often as ratios say. */
  ghost function Promised(w: World, vips: seq<Address>, to: nat): nat {
    if to == 0 then 0 else Promised(w, vips, to - 1) + Get(w.pools, to) * SumOf(vips, Whole(w, to))
  }

  /** The list names everyone who ever had a ratio, once. */
  ghost predicate Everyone(w: World, vips: seq<Address>) {
    NoDuplicates(vips) && forall v :: v in w.roster.history ==> v in vips
  }

  lemma {:induction false} MonthScaled(w: World, vips: seq<Address>, i: nat)
    ensures SumOf(vips, MonthTo(w, i)) == Get(w.pools, i) * SumOf(vips, Whole(w, i))
  {
    hide ActualRatio, HistoryOf, MonthAmount;
    if vips != [] {
      var rest, v := vips[..|vips| - 1], vips[|vips| - 1];
      MonthScaled(w, rest, i);
      MonthWhole(w, v, i);
      Distributes(Get(w.pools, i), SumOf(rest, Whole(w, i)), Whole(w, i)(v));
    }
  }

  lemma MonthWhole(w: World, v: Address, i: nat)
    ensures MonthAmount(w, v, i) == Get(w.pools, i) * Whole(w, i)(v)
  {
    hide ActualRatio, HistoryOf;
  }

  lemma Distributes(a: nat, b: nat, c: nat)
    ensures a * (b + c) == a * b + a * c
  {}

  lemma OneMore(n: nat, a: nat, b: nat)
    requires n > 0
    ensures n * a * b == (n - 1) * a * b + a * b
  {
    assert n * a == (n - 1) * a + a;
  }

  lemma {:induction false} PromisedIs(w: World, vips: seq<Address>, to: nat)
    ensures SumOf(vips, AmountTo(w, to)) == Promised(w, vips, to)
  {
    hide MonthAmount;
    if to == 0 {
      AllZero(vips, AmountTo(w, 0));
    } else {
      PromisedIs(w, vips, to - 1);
      SumSplits(vips, AmountTo(w, to), AmountTo(w, to - 1), MonthTo(w, to));
      MonthScaled(w, vips, to);
    }
  }

  lemma {:induction false} AllZero(vips: seq<Address>, f: Address -> nat)
    requires forall v :: v in vips ==> f(v) == 0
    ensures SumOf(vips, f) == 0
  {
    if vips != [] { AllZero(vips[..|vips| - 1], f); }
  }

  lemma {:induction false} StrangersGetNothing(w: World, v: Address, to: nat)
    requires v !in w.roster.history
    ensures AmountBetween(w, v, 0, to) == 0
  {
    if to > 0 {
      StrangersGetNothing(w, v, to - 1);
      RatioIsLatestChange(map[], to, 0);
    }
  }

  /** A mapping sums up to its values along any list that leaves out zeros only. */
  lemma {:induction false} SumMapListed(m: map<Address, nat>, vips: seq<Address>, f: Address -> nat)
    requires NoDuplicates(vips) && forall a :: a in m && m[a] != 0 ==> a in vips
    requires forall a :: a in vips ==> f(a) == Get(m, a)
    ensures SumMap(m) == SumOf(vips, f)
  {
    if vips == [] {
      SumMapZero(m);
    } else {
      var last := |vips| - 1;
      var v, rest := vips[last], vips[..last];
      var m' := m - {v};
      assert forall a :: a in rest ==> a != v && f(a) == Get(m', a);
      SumMapListed(m', rest, f);
      if v in m { SumMapPick(m, v); } else { assert m' == m; }
    }
  }

  /** What everyone is due, with all that was claimed before, is what the months so far promise. */
  lemma DuesAccounted(s: System, vips: seq<Address>)
    requires ClaimsOk(s.world, s.purse, s.now) && Everyone(s.world, vips)
    ensures SumOf(vips, DueTo(s)) + SumMap(s.purse.claimedAmount)
         == Promised(s.world, vips, ClaimTo(s.world, s.now))
  {
    var w, p, to := s.world, s.purse, ClaimTo(s.world, s.now);
    forall v: Address ensures AmountTo(w, to)(v) == ClaimedBy(p)(v) + DueTo(s)(v) {
      AmountSplits(w, v, Get(p.claimedMonth, v), to);
    }
    forall v | v in p.claimedAmount && p.claimedAmount[v] != 0 ensures v in vips {
      assert p.claimedAmount[v] == Get(p.claimedAmount, v);
      if v !in w.roster.history { StrangersGetNothing(w, v, Get(p.claimedMonth, v)); }
    }
    SumSplits(vips, AmountTo(w, to), ClaimedBy(p), DueTo(s));
    SumMapListed(p.claimedAmount, vips, ClaimedBy(p));
    PromisedIs(w, vips, to);
  }

  // ---------- Claiming in turn ----------

  /** Everyone on the list claims in turn, at one moment, those with nothing due left out. */
  function ClaimAll(s: System, vips: seq<Address>): Option<Purse> {
    if vips == [] then Some(s.purse)
    else
      var before, v := ClaimAll(s, vips[..|vips| - 1]), vips[|vips| - 1];
      if before.None? || Due(s.(purse := before.value), v) == 0 then before
      else Claim(s.world, before.value, s.now, v)
  }

  /**
   In whatever order a list claims, all are paid exactly when their dues together are within both
   the pool and the balance.
   */
  lemma {:induction false} AllPaidExactlyWhen(s: System, vips: seq<Address>)
    requires NoDuplicates(vips)
    ensures ClaimAll(s, vips).Some? <==>
      SumOf(vips, DueTo(s)) <= s.purse.remained && SumOf(vips, DueTo(s)) <= s.purse.balance
    ensures ClaimAll(s, vips).Some? ==>
      var p, sum := ClaimAll(s, vips).value, SumOf(vips, DueTo(s));
      && p.remained == s.purse.remained - sum && p.balance == s.purse.balance - sum
      && forall v | v !in vips :: Get(p.claimedMonth, v) == Get(s.purse.claimedMonth, v)
  {
    if vips != [] {
      var rest, v := vips[..|vips| - 1], vips[|vips| - 1];
      AllPaidExactlyWhen(s, rest);
      if ClaimAll(s, rest).Some? {
        var mid := s.(purse := ClaimAll(s, rest).value);
        assert v !in rest;
        assert Due(mid, v) == Due(s, v);
        hide AmountBetween, ClaimAll;
        PaysExactlyWhen(mid, v);
        assert forall u | u !in vips :: u !in rest && u != v;
        ClaimAllStep(s, vips);
        if Claim(s.world, mid.purse, s.now, v).Some? { ClaimedEntry(mid, v); }
      }
    }
  }

  lemma ClaimAllStep(s: System, vips: seq<Address>)
    requires vips != []
    ensures var before, v := ClaimAll(s, vips[..|vips| - 1]), vips[|vips| - 1];
      ClaimAll(s, vips) == if before.None? || Due(s.(purse := before.value), v) == 0 then before
                           else Claim(s.world, before.value, s.now, v)
  {}

  /** A claim pays just what is due, and moves no one else's month. */
  lemma ClaimedEntry(s: System, v: Address)
    requires Claim(s.world, s.purse, s.now, v).Some?
    ensures var p := Claim(s.world, s.purse, s.now, v).value;
      && p.remained == s.purse.remained - Due(s, v) && p.balance == s.purse.balance - Due(s, v)
      && forall u: Address | u != v :: Get(p.claimedMonth, u) == Get(s.purse.claimedMonth, u)
  {
    hide AmountBetween;
  }

  // ---------- Over runs from deployment ----------

  /**
   After any run from deployment, with everyone in any order: all VIPs can be paid what they are due
   exactly when what the months so far promise, with what the foundation swept, is within the VIP
   pool and all booked funding; and with the grants paid out, within the UNIT received.
   */
  lemma {:induction false} EveryonePaidExactlyWhen(now: nat, vips: seq<Address>, ratios: seq<nat>,
      managers: seq<Address>, directors: seq<Address>, calls: seq<Call>, all: seq<Address>)
    requires Initialize(now, vips, ratios, managers, directors).Some?
    requires Everyone(Run(Deployed(now, Initialize(now, vips, ratios, managers, directors).value), calls).world, all)
    ensures var s := Deployed(now, Initialize(now, vips, ratios, managers, directors).value);
      var t, f := Run(s, calls), RunFlow(s, calls);
      var promised := Promised(t.world, all, ClaimTo(t.world, t.now));
      && (SumOf(all, DueTo(t)) <= t.purse.remained <==> promised + f.swept <= POOL + f.booked)
      && (ClaimAll(t, all).Some? <==>
            promised + f.swept <= POOL + f.booked && promised + f.swept + f.granted <= f.received)
  {
    hide Initialize, Step, Run, RunFlow, WorldOk, Everyone;
    InitialInv(now, vips, ratios, managers, directors);
    var s := Deployed(now, Initialize(now, vips, ratios, managers, directors).value);
    RunKeeps(s, calls);
    LedgersBalance(now, vips, ratios, managers, directors, calls);
    var t := Run(s, calls);
    DuesAccounted(t, all);
    assert NoDuplicates(all) by { EveryoneOnce(t.world, all); }
    AllPaidExactlyWhen(t, all);
  }

  lemma EveryoneOnce(w: World, vips: seq<Address>)
    requires Everyone(w, vips)
    ensures NoDuplicates(vips)
  {}

  lemma {:induction false} PromisedWithin(w: World, vips: seq<Address>, to: nat)
    requires forall i | 0 < i <= to :: SumOf(vips, Whole(w, i)) <= 1
    ensures Promised(w, vips, to) <= PoolSum(w.pools, to)
  {
    if to > 0 {
      PromisedWithin(w, vips, to - 1);
      MultiplyMonotone(SumOf(vips, Whole(w, to)), 1, Get(w.pools, to));
    }
  }

  lemma {:induction false} PoolSumGrows(pools: map<nat, nat>, n: nat, m: nat)
    requires n <= m
    ensures PoolSum(pools, n) <= PoolSum(pools, m)
  {
    if n < m { PoolSumGrows(pools, n, m - 1); }
  }

  /**
   So where in every month reached the ratios stand for one monthly pool at most, whatever was funded
   or changed on the way, everyone's dues are within the pool until the foundation sweeps it.
   */
  lemma {:induction false} WithinOneCovered(now: nat, vips: seq<Address>, ratios: seq<nat>,
      managers: seq<Address>, directors: seq<Address>, calls: seq<Call>, all: seq<Address>)
    requires Initialize(now, vips, ratios, managers, directors).Some?
    requires var s := Deployed(now, Initialize(now, vips, ratios, managers, directors).value);
      && Everyone(Run(s, calls).world, all) && RunFlow(s, calls).swept == 0
      && forall i | 0 < i <= ClaimTo(Run(s, calls).world, Run(s, calls).now) ::
           SumOf(all, Whole(Run(s, calls).world, i)) <= 1
    ensures var t := Run(Deployed(now, Initialize(now, vips, ratios, managers, directors).value), calls);
      SumOf(all, DueTo(t)) <= t.purse.remained
  {
    hide Initialize, Run, RunFlow, Everyone;
    var s := Deployed(now, Initialize(now, vips, ratios, managers, directors).value);
    var t := Run(s, calls);
    EveryonePaidExactlyWhen(now, vips, ratios, managers, directors, calls, all);
    LedgersBalance(now, vips, ratios, managers, directors, calls);
    PromisedWithin(t.world, all, ClaimTo(t.world, t.now));
    PoolSumGrows(t.world.pools, ClaimTo(t.world, t.now), PERIODS);
  }

  // ---------- Without fundings and changes of ratios ----------

  /** A run on which nothing but claims, sweeps, grants and receipts of UNIT happens. */
  ghost predicate PurseOnly(calls: seq<Call>) {
    forall j :: 0 <= j < |calls| ==> calls[j].op.OnPurse?
  }

  lemma {:induction false} WorldStays(s: System, calls: seq<Call>)
    requires PurseOnly(calls)
    ensures Run(s, calls).world == s.world && RunFlow(s, calls).booked == 0
  {
    hide ApplyPurse, ApplyWorld;
    if calls != [] { WorldStays(s, calls[..|calls| - 1]); }
  }

  lemma {:induction false} PromisedPlain(w: World, vips: seq<Address>, to: nat)
    requires RosterOk(w.roster, 0) && w.pools == FirstPools(PERIODS) && to <= PERIODS
    ensures Promised(w, vips, to) == to * (POOL / PERIODS) * SumOf(vips, Whole(w, 1))
  {
    hide RosterOk, FirstPools;
    if to > 0 {
      PromisedPlain(w, vips, to - 1);
      FirstPoolsAre(PERIODS, to);
      forall v: Address ensures Whole(w, to)(v) == Whole(w, 1)(v) {
        RatioOfComingMonths(w.roster, 0, v, to);
        RatioOfComingMonths(w.roster, 0, v, 1);
      }
      SumAgrees(vips, Whole(w, to), Whole(w, 1));
      OneMore(to, POOL / PERIODS, SumOf(vips, Whole(w, 1)));
    }
  }

  lemma InitialWorld(now: nat, vips: seq<Address>, ratios: seq<nat>, managers: seq<Address>, directors: seq<Address>)
    requires Initialize(now, vips, ratios, managers, directors).Some?
    ensures var w := Initialize(now, vips, ratios, managers, directors).value;
      RosterOk(w.roster, 0) && w.pools == FirstPools(PERIODS) && w.startAt == now
  {
    hide Enrolled, FirstPools;
    InitialInv(now, vips, ratios, managers, directors);
  }

  /** What everyone was paid and is due after such a run: every month the same, by the first ratios. */
  lemma {:induction false} PlainDues(now: nat, vips: seq<Address>, ratios: seq<nat>,
      managers: seq<Address>, directors: seq<Address>, calls: seq<Call>, all: seq<Address>)
    requires Initialize(now, vips, ratios, managers, directors).Some? && PurseOnly(calls)
    requires Everyone(Initialize(now, vips, ratios, managers, directors).value, all)
    ensures var w := Initialize(now, vips, ratios, managers, directors).value;
      var t, f := Run(Deployed(now, w), calls), RunFlow(Deployed(now, w), calls);
      && t.world == w
      && SumOf(all, DueTo(t)) + SumMap(t.purse.claimedAmount)
         == ClaimTo(w, t.now) * (POOL / PERIODS) * SumOf(all, Whole(w, 1))
      && t.purse.remained + SumMap(t.purse.claimedAmount) + f.swept == POOL
  {
    hide Step, Run, RunFlow, Everyone, Inv;
    InitialWorld(now, vips, ratios, managers, directors);
    InitialInv(now, vips, ratios, managers, directors);
    var w := Initialize(now, vips, ratios, managers, directors).value;
    hide Initialize;
    WorldStays(Deployed(now, w), calls);
    RunKeeps(Deployed(now, w), calls);
    LedgersBalance(now, vips, ratios, managers, directors, calls);
    var t := Run(Deployed(now, w), calls);
    ClaimsOfInv(t);
    DuesAccounted(t, all);
    PromisedPlain(w, all, ClaimTo(w, t.now));
  }

  lemma ClaimsOfInv(s: System)
    requires Inv(s)
    ensures ClaimsOk(s.world, s.purse, s.now)
  {}

  /**
   An airdrop without fundings and changes of ratios covers everyone's dues exactly until month m with
   m * W <= 12, where W adds up the first ratios in whole monthly pools; from then on it cannot.
   */
  lemma {:induction false} PlainAirdropCoveredUntil(now: nat, vips: seq<Address>, ratios: seq<nat>,
      managers: seq<Address>, directors: seq<Address>, calls: seq<Call>, all: seq<Address>)
    requires Initialize(now, vips, ratios, managers, directors).Some? && PurseOnly(calls)
    requires var w := Initialize(now, vips, ratios, managers, directors).value;
      Everyone(w, all) && RunFlow(Deployed(now, w), calls).swept == 0
    ensures var w := Initialize(now, vips, ratios, managers, directors).value;
      var t := Run(Deployed(now, w), calls);
      SumOf(all, DueTo(t)) <= t.purse.remained <==> ClaimTo(w, t.now) * SumOf(all, Whole(w, 1)) <= PERIODS
  {
    hide Initialize, Run, RunFlow, Everyone;
    PlainDues(now, vips, ratios, managers, directors, calls, all);
    var w := Initialize(now, vips, ratios, managers, directors).value;
    var t := Run(Deployed(now, w), calls);
    hide ClaimTo, SumOf, Whole;
    WithinPool(ClaimTo(w, t.now), SumOf(all, Whole(w, 1)), POOL / PERIODS);
  }

  lemma WithinPool(m: nat, sum: nat, month: nat)
    requires month > 0
    ensures m * month * sum <= PERIODS * month <==> m * sum <= PERIODS
  {
    assert m * month * sum == (m * sum) * month;
    if m * sum <= PERIODS {
      MultiplyMonotone(m * sum, PERIODS, month);
    } else {
      MultiplyMonotone(PERIODS + 1, m * sum, month);
    }
  }
}
