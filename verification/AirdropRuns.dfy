/** The main results about whole runs of the airdrop, from deployment on. */
module AirdropRuns {
  import opened Prelude
  import opened AirdropModel
  import opened AirdropSafety

  // ---------- Deployment ----------

  function Deployed(now: nat, world: World): System { System(now, world, FULL_PURSE) }

  /** Enrolling a VIP with no ratio yet is a change effective from the first month. */
  lemma {:induction false} EnrolledKeeps(r: Roster, foundation: Address, vips: seq<Address>, ratios: seq<nat>, n: nat)
    requires n <= |vips| == |ratios| && RosterOk(r, 0)
    requires Enrolled(r, foundation, vips, ratios, n).Some?
    ensures RosterOk(Enrolled(r, foundation, vips, ratios, n).value, 0)
  {
    if n > 0 {
      EnrolledKeeps(r, foundation, vips, ratios, n - 1);
      var before := Enrolled(r, foundation, vips, ratios, n - 1).value;
      hide RosterOk;
      ChangeOneKeeps(before, vips[n - 1], ratios[n - 1], 0);
      assert EnrollOne(before, vips[n - 1], ratios[n - 1]) == ChangeOne(before, vips[n - 1], ratios[n - 1], 1).value;
    }
  }

  lemma InitialInv(now: nat, vips: seq<Address>, ratios: seq<nat>, managers: seq<Address>, directors: seq<Address>)
    requires Initialize(now, vips, ratios, managers, directors).Some?
    ensures Inv(Deployed(now, Initialize(now, vips, ratios, managers, directors).value))
  {
    assert RosterOk(NO_ROSTER, 0);
    hide RosterOk;
    EnrolledKeeps(NO_ROSTER, managers[0], vips, ratios, |vips|);
    hide Enrolled;
    assert forall id: nat :: SignersOf(NO_BALLOT, id) == {};
  }

  lemma {:induction false} FirstPoolsSum(n: nat, k: nat)
    requires k <= n
    ensures PoolSum(FirstPools(n), k) == k * (POOL / PERIODS)
    ensures forall i :: i in FirstPools(n) <==> 0 < i <= n
    decreases n, k
  {
    if n > 0 {
      FirstPoolsSum(n - 1, if k == n then k - 1 else k);
      if k == n {
        PoolSumAgrees(FirstPools(n), FirstPools(n - 1), n - 1);
      } else {
        PoolSumAgrees(FirstPools(n), FirstPools(n - 1), k);
      }
    }
  }

  // ---------- Claim timing does not matter ----------

  /** The transactions on the world in a run, each with the time it was sent at. */
  function WorldTrace(s: System, calls: seq<Call>): seq<(nat, WorldOp)> {
    if calls == [] then []
    else
      var last := calls[|calls| - 1];
      var before := calls[..|calls| - 1];
      WorldTrace(s, before)
      + if last.op.OnWorld? then [(Run(s, before).now + last.wait, last.op.w)] else []
  }

  function Replay(w: World, trace: seq<(nat, WorldOp)>): World {
    if trace == [] then w
    else
      var before := Replay(w, trace[..|trace| - 1]);
      var r := ApplyWorld(before, trace[|trace| - 1].0, trace[|trace| - 1].1);
      if r.None? then before else r.value
  }

  lemma {:induction false} WorldIsReplay(s: System, calls: seq<Call>)
    ensures Run(s, calls).world == Replay(s.world, WorldTrace(s, calls))
  {
    hide ApplyWorld, ApplyPurse;
    if calls != [] {
      var before, last := calls[..|calls| - 1], calls[|calls| - 1];
      WorldIsReplay(s, before);
      if last.op.OnWorld? {
        var trace := WorldTrace(s, calls);
        assert trace[..|trace| - 1] == WorldTrace(s, before);
      } else {
        assert WorldTrace(s, before) + [] == WorldTrace(s, before);
      }
    }
  }

  /** What a VIP could claim now, had the purse enough left. */
  function Due(s: System, v: Address): nat {
    AmountBetween(s.world, v, Get(s.purse.claimedMonth, v), ClaimTo(s.world, s.now))
  }

  /**
   The schedule of claims does not matter. Two runs that send the same proposals, signatures,
   executions and fundings at the same times, with any claims in between, agree on what each VIP
   has got for the same months, and at the same moment on claimed and due together.
   */
  lemma {:induction false} ScheduleIndependent(s: System, first: seq<Call>, second: seq<Call>, v: Address)
    requires Inv(s) && WorldTrace(s, first) == WorldTrace(s, second)
    ensures var a, b := Run(s, first), Run(s, second);
      && a.world == b.world
      && (Get(a.purse.claimedMonth, v) == Get(b.purse.claimedMonth, v) ==>
            Get(a.purse.claimedAmount, v) == Get(b.purse.claimedAmount, v))
      && (a.now == b.now ==>
            Get(a.purse.claimedAmount, v) + Due(a, v) == Get(b.purse.claimedAmount, v) + Due(b, v))
  {
    WorldIsReplay(s, first);
    WorldIsReplay(s, second);
    ClaimedIsDue(s, first, v);
    ClaimedIsDue(s, second, v);
  }

  /** After any run a VIP has claimed the months' amounts exactly; the rest up to now is due. */
  lemma {:induction false} ClaimedIsDue(s: System, calls: seq<Call>, v: Address)
    requires Inv(s)
    ensures var a := Run(s, calls);
      && Get(a.purse.claimedAmount, v) == AmountBetween(a.world, v, 0, Get(a.purse.claimedMonth, v))
      && Get(a.purse.claimedAmount, v) + Due(a, v) == AmountBetween(a.world, v, 0, ClaimTo(a.world, a.now))
  {
    RunKeeps(s, calls);
    var a := Run(s, calls);
    AmountSplits(a.world, v, Get(a.purse.claimedMonth, v), ClaimTo(a.world, a.now));
  }

  /**
   When a due amount is paid, exactly: something is due, and both the VIP pool and the UNIT that is
   there cover all of it. There is no payment in part.
   */
  lemma {:induction false} PaysExactlyWhen(s: System, v: Address)
    ensures Claim(s.world, s.purse, s.now, v).Some?
      <==> 0 < Due(s, v) <= s.purse.remained && Due(s, v) <= s.purse.balance
  {
    hide AmountBetween;
  }

  lemma {:induction false} FirstPoolsAre(n: nat, i: nat)
    requires 0 < i <= n
    ensures Get(FirstPools(n), i) == POOL / PERIODS
    decreases n
  {
    if i < n { FirstPoolsAre(n - 1, i); }
  }

  /** After any run, for every month still to come the search finds the ratio in force. */
  lemma {:induction false} ComingRatiosStand(s: System, calls: seq<Call>, v: Address, i: nat)
    requires Inv(s) && CurrentMonth(Run(s, calls).world, Run(s, calls).now) < i
    ensures var w := Run(s, calls).world; ActualRatio(HistoryOf(w.roster, v), i) == Get(w.roster.ratios, v)
  {
    RunKeeps(s, calls);
    var t := Run(s, calls);
    hide Run, ClaimsOk, BallotOk;
    RatioOfComingMonths(t.world.roster, CurrentMonth(t.world, t.now), v, i);
  }

  // ---------- Proposals ----------

  lemma {:induction false} ExecutedStays(s: System, calls: seq<Call>)
    ensures s.world.ballot.executed <= Run(s, calls).world.ballot.executed
  {
    hide ApplyWorld, ApplyPurse;
    if calls != [] {
      var before, last := calls[..|calls| - 1], calls[|calls| - 1];
      ExecutedStays(s, before);
      var mid := Run(s, before);
      if last.op.OnWorld? && ApplyWorld(mid.world, mid.now + last.wait, last.op.w).Some? {
        ExecutedForGood(mid.world, mid.now + last.wait, last.op.w);
      }
    }
  }

  /**
   A proposal found executed after any run was signed by exactly three different officers, and is
   never executed again.
   */
  lemma {:induction false} ExecutedOnceWithThreeSigners(s: System, calls: seq<Call>, more: seq<Call>, id: nat,
      wait: nat)
    requires Inv(s) && id in Run(s, calls).world.ballot.executed
    ensures var a := Run(s, calls);
      |SignersOf(a.world.ballot, id)| == THRESHOLD && SignersOf(a.world.ballot, id) <= Officers(a.world)
    ensures var b := Run(Run(s, calls), more); Execute(b.world, b.now + wait, id).None?
  {
    RunKeeps(s, calls);
    ExecutedStays(Run(s, calls), more);
    hide Run, RosterOk, ClaimsOk, Changed, CurrentMonth;
  }

  /** After any run the ratios sum to the stored total, which is within the cap. */
  lemma {:induction false} RatioSum(s: System, calls: seq<Call>)
    requires Inv(s)
    ensures var w := Run(s, calls).world; w.roster.total == SumMap(w.roster.ratios) && w.roster.total <= CAP
  {
    RunKeeps(s, calls);
  }

  // ---------- Ledgers ----------

  /** What a run moved: funding booked for VIPs, sweeps, grants, UNIT received, rounding dust. */
  datatype Flow = Flow(booked: nat, swept: nat, granted: nat, received: nat, dust: nat)

  function Plus(a: Flow, b: Flow): Flow {
    Flow(a.booked + b.booked, a.swept + b.swept, a.granted + b.granted, a.received + b.received, a.dust + b.dust)
  }

  const STILL := Flow(0, 0, 0, 0, 0)

  function StepFlow(s: System, call: Call): Flow {
    var now := s.now + call.wait;
    match call.op
    case OnWorld(op) =>
      if ApplyWorld(s.world, now, op).None? then STILL
      else Flow(Booked(s.world, now, op), 0, 0, Paid(op), Dust(s.world, now, op))
    case OnPurse(op) =>
      if ApplyPurse(s.world, s.purse, now, op).None? then STILL
      else match op
        case PClaim(_) => STILL
        case PSweep(_) => Flow(0, s.purse.remained, 0, 0, 0)
        case PGrant(_) =>
          Flow(0, 0, s.purse.grant1 + if now > s.world.startAt + STAGE then s.purse.grant2 else 0, 0, 0)
        case PReceive(value) => Flow(0, 0, 0, value, 0)
  }

  function RunFlow(s: System, calls: seq<Call>): Flow {
    if calls == [] then STILL
    else
      var before := calls[..|calls| - 1];
      Plus(RunFlow(s, before), StepFlow(Run(s, before), calls[|calls| - 1]))
  }

  /** The four accounts kept: VIP pool, foundation grants, UNIT balance, monthly pools. */
  ghost predicate Balanced(a: System, b: System, f: Flow) {
    var claimedA, claimedB := SumMap(a.purse.claimedAmount), SumMap(b.purse.claimedAmount);
    && b.purse.remained + claimedB + f.swept == a.purse.remained + claimedA + f.booked
    && b.purse.grant1 + b.purse.grant2 + f.granted == a.purse.grant1 + a.purse.grant2
    && b.purse.balance + claimedB + f.swept + f.granted == a.purse.balance + claimedA + f.received
    && PoolSum(b.world.pools, PERIODS) + f.dust == PoolSum(a.world.pools, PERIODS) + f.booked
  }

  lemma StepBalanced(s: System, call: Call)
    ensures Balanced(s, Step(s, call), StepFlow(s, call))
  {
    hide PoolSum, AmountBetween, Dust;
    var now := s.now + call.wait;
    match call.op
    case OnWorld(op) =>
      if ApplyWorld(s.world, now, op).Some? { PoolsBalance(s.world, now, op); }
      hide ApplyWorld;
    case OnPurse(op) =>
      if op.PClaim? && Claim(s.world, s.purse, now, op.vip).Some? {
        var amount := Claimable(s.world, s.purse, now, op.vip);
        SumMapUpdate(s.purse.claimedAmount, op.vip, Get(s.purse.claimedAmount, op.vip) + amount);
      }
  }

  lemma {:induction false} RunBalanced(s: System, calls: seq<Call>)
    ensures Balanced(s, Run(s, calls), RunFlow(s, calls))
  {
    hide Step, StepFlow, PoolSum;
    if calls != [] {
      var before := calls[..|calls| - 1];
      RunBalanced(s, before);
      StepBalanced(Run(s, before), calls[|calls| - 1]);
    }
  }

  /**
   The airdrop's books after any run from deployment: what VIPs may still get, have got, and what
   the foundation swept make up the initial pool plus all booked funding; the monthly pools fall
   short of the same total by the rounding dust alone.
   */
  lemma {:induction false} LedgersBalance(now: nat, vips: seq<Address>, ratios: seq<nat>, managers: seq<Address>,
      directors: seq<Address>, calls: seq<Call>)
    requires Initialize(now, vips, ratios, managers, directors).Some?
    ensures var s := Deployed(now, Initialize(now, vips, ratios, managers, directors).value);
      var t, f := Run(s, calls), RunFlow(s, calls);
      && t.purse.remained + SumMap(t.purse.claimedAmount) + f.swept == POOL + f.booked
      && PoolSum(t.world.pools, PERIODS) + f.dust == POOL + f.booked
      && t.purse.grant1 + t.purse.grant2 + f.granted == 2 * GRANT
      && t.purse.balance + SumMap(t.purse.claimedAmount) + f.swept + f.granted == f.received
  {
    var s := Deployed(now, Initialize(now, vips, ratios, managers, directors).value);
    FirstPoolsSum(PERIODS, PERIODS);
    hide Enrolled, FirstPools, PoolSum;
    RunBalanced(s, calls);
  }
}
