/** What every transaction of the airdrop keeps: frozen months, ratio sums, signatures and claims. */
module AirdropSafety {
  import opened Prelude
  import opened AirdropModel

  // ---------- The backward search ----------

  /** The search returns the latest change at or before the month, and zero when there is none. */
  lemma {:induction false} RatioIsLatestChange(changes: map<nat, nat>, month: nat, j: nat)
    requires j <= month && forall k :: j < k <= month ==> k !in changes
    ensures 0 < j && j in changes ==> ActualRatio(changes, month) == changes[j]
    ensures j == 0 ==> ActualRatio(changes, month) == 0
  {
    if j < month {
      RatioIsLatestChange(changes, month - 1, j);
    }
  }

  lemma {:induction false} RatioAgrees(a: map<nat, nat>, b: map<nat, nat>, month: nat)
    requires forall i :: 0 < i <= month ==> (i in a <==> i in b) && (i in a ==> a[i] == b[i])
    ensures ActualRatio(a, month) == ActualRatio(b, month)
  {
    if month > 0 {
      RatioAgrees(a, b, month - 1);
    }
  }

  lemma {:induction false} NoChangeSince(changes: map<nat, nat>, month: nat, later: nat)
    requires month <= later && forall i :: i in changes ==> i <= month
    ensures ActualRatio(changes, later) == ActualRatio(changes, month)
  {
    if month < later {
      NoChangeSince(changes, month, later - 1);
    }
  }

  // ---------- Past months are frozen ----------

  /** Both rosters record the same changes for the months up to a bound. */
  ghost predicate SamePast(a: Roster, b: Roster, month: nat) {
    forall v: Address, i: nat | 0 < i <= month ::
      && (i in HistoryOf(a, v) <==> i in HistoryOf(b, v))
      && (i in HistoryOf(a, v) ==> HistoryOf(a, v)[i] == HistoryOf(b, v)[i])
  }

  /** Everything that decides the amounts of the months up to a bound is the same in both worlds. */
  ghost predicate Frozen(a: World, b: World, month: nat) {
    && b.startAt == a.startAt
    && (forall i :: 0 < i <= month ==> Get(b.pools, i) == Get(a.pools, i))
    && SamePast(a.roster, b.roster, month)
  }

  lemma {:induction false} FrozenAmounts(a: World, b: World, month: nat, v: Address, start: nat, end: nat)
    requires Frozen(a, b, month) && end <= month
    ensures AmountBetween(b, v, start, end) == AmountBetween(a, v, start, end)
    decreases end
  {
    if start < end {
      FrozenAmounts(a, b, month, v, start, end - 1);
      RatioAgrees(HistoryOf(a.roster, v), HistoryOf(b.roster, v), end);
    }
  }

  lemma {:induction false} ChangesFreeze(r: Roster, vips: seq<Address>, ratios: seq<nat>, n: nat, month: nat)
    requires n <= |vips| && n <= |ratios| && Changed(r, vips, ratios, n, month + 1).Some?
    ensures SamePast(r, Changed(r, vips, ratios, n, month + 1).value, month)
  {
    if n > 0 {
      ChangesFreeze(r, vips, ratios, n - 1, month);
    }
  }

  /** No transaction on the world touches the amounts of the months already reached. */
  lemma WorldFreezesPast(w: World, now: nat, op: WorldOp)
    requires ApplyWorld(w, now, op).Some?
    ensures Frozen(w, ApplyWorld(w, now, op).value, CurrentMonth(w, now))
  {
    if op.WExecute? {
      var p := w.ballot.proposals[op.id];
      ChangesFreeze(w.roster, p.vips, p.ratios, |p.vips|, CurrentMonth(w, now));
      hide Changed;
    }
  }

  // ---------- Ratios ----------

  /**
   The stored total is the sum of all ratios; no change lies beyond the coming month, and the
   ratio the search finds for the coming month is the one stored.
   */
  ghost predicate RosterOk(r: Roster, month: nat) {
    && r.total == SumMap(r.ratios)
    && (forall v: Address, i: nat | i in HistoryOf(r, v) :: 0 < i <= month + 1)
    && forall v: Address :: ActualRatio(HistoryOf(r, v), month + 1) == Get(r.ratios, v)
  }

  lemma RosterLater(r: Roster, month: nat, later: nat)
    requires RosterOk(r, month) && month <= later
    ensures RosterOk(r, later)
  {
    forall v: Address ensures ActualRatio(HistoryOf(r, v), later + 1) == Get(r.ratios, v) {
      NoChangeSince(HistoryOf(r, v), month + 1, later + 1);
    }
  }

  /** A ratio in force now is the ratio of every month still to come. */
  lemma RatioOfComingMonths(r: Roster, month: nat, v: Address, i: nat)
    requires RosterOk(r, month) && month < i
    ensures ActualRatio(HistoryOf(r, v), i) == Get(r.ratios, v)
  {
    NoChangeSince(HistoryOf(r, v), month + 1, i);
  }

  lemma GetWithinSum(m: map<Address, nat>, a: Address)
    ensures Get(m, a) <= SumMap(m)
  {
    if a in m { SumMapPick(m, a); }
  }

  /** One change never underflows the total, and keeps the total and the history in step. */
  lemma ChangeOneKeeps(r: Roster, vip: Address, ratio: nat, month: nat)
    requires RosterOk(r, month)
    ensures ChangeOne(r, vip, ratio, month + 1).Some?
    ensures RosterOk(ChangeOne(r, vip, ratio, month + 1).value, month)
  {
    GetWithinSum(r.ratios, vip);
    SumMapUpdate(r.ratios, vip, ratio);
    var r' := ChangeOne(r, vip, ratio, month + 1).value;
    assert HistoryOf(r', vip) == HistoryOf(r, vip)[month + 1 := ratio];
    assert forall v: Address | v != vip :: HistoryOf(r', v) == HistoryOf(r, v);
  }

  /** The ratios after the first n entries of a proposal: the last entry for an address wins. */
  function NewRatios(before: map<Address, nat>, vips: seq<Address>, ratios: seq<nat>, n: nat): map<Address, nat>
    requires n <= |vips| && n <= |ratios|
  {
    if n == 0 then before else NewRatios(before, vips, ratios, n - 1)[vips[n - 1] := ratios[n - 1]]
  }

  function ProposedRatios(w: World, p: Proposal): map<Address, nat>
    requires |p.vips| == |p.ratios|
  {
    NewRatios(w.roster.ratios, p.vips, p.ratios, |p.vips|)
  }

  lemma {:induction false} ChangesKeep(r: Roster, vips: seq<Address>, ratios: seq<nat>, n: nat, month: nat)
    requires RosterOk(r, month) && n <= |vips| && n <= |ratios|
    ensures var c := Changed(r, vips, ratios, n, month + 1);
      c.Some? && RosterOk(c.value, month) && c.value.ratios == NewRatios(r.ratios, vips, ratios, n)
  {
    hide RosterOk;
    if n > 0 {
      ChangesKeep(r, vips, ratios, n - 1, month);
      ChangeOneKeeps(Changed(r, vips, ratios, n - 1, month + 1).value, vips[n - 1], ratios[n - 1], month);
    }
  }

  /**
   When a proposal can be executed, exactly: it exists, is signed by enough officers, was not
   executed before, and the ratios it leads to sum to at most the cap. Repeated addresses never
   make the running total underflow, and the time lock set at the third signature plays no part.
   */
  lemma ExecutesExactlyWhen(w: World, now: nat, id: nat)
    requires WorldOk(w, now)
    ensures Execute(w, now, id).Some? <==>
      && id in w.ballot.proposals && id !in w.ballot.executed && |SignersOf(w.ballot, id)| == THRESHOLD
      && SumMap(ProposedRatios(w, w.ballot.proposals[id])) <= CAP
    ensures Execute(w, now, id).Some? ==>
      Execute(w, now, id).value.roster.ratios == ProposedRatios(w, w.ballot.proposals[id])
  {
    assert Get(w.ballot.sigCount, id) == |SignersOf(w.ballot, id)|;
    if id in w.ballot.proposals {
      var p := w.ballot.proposals[id];
      ChangesKeep(w.roster, p.vips, p.ratios, |p.vips|, CurrentMonth(w, now));
    }
  }

  /** The total that propose keeps, after n entries: each against the ratio in force, repeats or not. */
  function RunningTotal(r: Roster, vips: seq<Address>, ratios: seq<nat>, n: nat): int
    requires n <= |vips| == |ratios|
  {
    if n == 0 then r.total else RunningTotal(r, vips, ratios, n - 1) - Get(r.ratios, vips[n - 1]) + ratios[n - 1]
  }

  lemma {:induction false} ProposedTotalIs(r: Roster, vips: seq<Address>, ratios: seq<nat>, n: nat)
    requires n <= |vips| == |ratios|
    ensures ProposedTotal(r, vips, ratios, n).Some? <==> forall i | 0 <= i < n ::
      vips[i] != 0 && ratios[i] <= CAP && Get(r.ratios, vips[i]) <= RunningTotal(r, vips, ratios, i)
    ensures ProposedTotal(r, vips, ratios, n).Some? ==>
      ProposedTotal(r, vips, ratios, n).value == RunningTotal(r, vips, ratios, n)
  {
    if n > 0 {
      ProposedTotalIs(r, vips, ratios, n - 1);
    }
  }

  /**
   When a proposal is accepted, exactly: no address is zero, every ratio is within the cap, the
   running total never goes below the ratio to be replaced, and it ends within the cap.
   */
  lemma {:induction false} ProposesExactlyWhen(w: World, sender: Account, vips: seq<Address>, ratios: seq<nat>)
    ensures Propose(w, sender, vips, ratios).Some? <==>
      && |vips| == |ratios|
      && (forall i | 0 <= i < |vips| ::
            && vips[i] != 0 && ratios[i] <= CAP
            && Get(w.roster.ratios, vips[i]) <= RunningTotal(w.roster, vips, ratios, i))
      && RunningTotal(w.roster, vips, ratios, |vips|) <= CAP
  {
    if |vips| == |ratios| {
      ProposedTotalIs(w.roster, vips, ratios, |vips|);
    }
  }

  /**
   By how much the running total is off: an entry for an address that was listed before is set
   against the ratio in force, not against the earlier entry that it overwrites.
   */
  function Misjudged(r: Roster, vips: seq<Address>, ratios: seq<nat>, n: nat): int
    requires n <= |vips| == |ratios|
  {
    if n == 0 then 0
    else
      Misjudged(r, vips, ratios, n - 1)
      + Get(NewRatios(r.ratios, vips, ratios, n - 1), vips[n - 1]) - Get(r.ratios, vips[n - 1])
  }

  /** For every list: the running total is the sum it leads to, off by exactly what repeats misjudge. */
  lemma {:induction false} RunningTotalIs(r: Roster, vips: seq<Address>, ratios: seq<nat>, n: nat)
    requires n <= |vips| == |ratios| && r.total == SumMap(r.ratios)
    ensures RunningTotal(r, vips, ratios, n)
         == SumMap(NewRatios(r.ratios, vips, ratios, n)) + Misjudged(r, vips, ratios, n)
  {
    if n > 0 {
      RunningTotalIs(r, vips, ratios, n - 1);
      SumMapUpdate(NewRatios(r.ratios, vips, ratios, n - 1), vips[n - 1], ratios[n - 1]);
    }
  }

  lemma {:induction false} NoneMisjudged(r: Roster, vips: seq<Address>, ratios: seq<nat>, n: nat)
    requires n <= |vips| == |ratios| && NoDuplicates(vips)
    ensures Misjudged(r, vips, ratios, n) == 0
  {
    if n > 0 {
      NoneMisjudged(r, vips, ratios, n - 1);
      UntouchedRatio(r.ratios, vips, ratios, n - 1, vips[n - 1]);
    }
  }

  lemma {:induction false} UntouchedRatio(m: map<Address, nat>, vips: seq<Address>, ratios: seq<nat>, n: nat,
      v: Address)
    requires n <= |vips| && n <= |ratios| && v !in vips[..n]
    ensures Get(NewRatios(m, vips, ratios, n), v) == Get(m, v)
  {
    if n > 0 {
      assert vips[n - 1] == vips[..n][n - 1];
      assert vips[..n - 1] == vips[..n][..n - 1];
      UntouchedRatio(m, vips, ratios, n - 1, v);
    }
  }

  /**
   Without repeated addresses the running total is the sum that the proposal leads to, so it is
   accepted exactly when, besides the guards on each entry, that sum is within the cap.
   */
  lemma {:induction false} DistinctProposals(w: World, sender: Account, vips: seq<Address>, ratios: seq<nat>)
    requires w.roster.total == SumMap(w.roster.ratios) && NoDuplicates(vips)
    ensures Propose(w, sender, vips, ratios).Some? <==>
      && |vips| == |ratios|
      && (forall i | 0 <= i < |vips| :: vips[i] != 0 && ratios[i] <= CAP)
      && SumMap(NewRatios(w.roster.ratios, vips, ratios, |vips|)) <= CAP
  {
    ProposesExactlyWhen(w, sender, vips, ratios);
    if |vips| == |ratios| {
      RunningTotalIs(w.roster, vips, ratios, |vips|);
      NoneMisjudged(w.roster, vips, ratios, |vips|);
      forall i | 0 <= i < |vips| ensures Get(w.roster.ratios, vips[i]) <= RunningTotal(w.roster, vips, ratios, i) {
        RunningTotalIs(w.roster, vips, ratios, i);
        NoneMisjudged(w.roster, vips, ratios, i);
        UntouchedRatio(w.roster.ratios, vips, ratios, i, vips[i]);
        GetWithinSum(NewRatios(w.roster.ratios, vips, ratios, i), vips[i]);
      }
    }
  }

  /**
   With repeated addresses it can mislead both ways. A newcomer v listed twice is refused, though the
   outcome is within the cap; and a list that clears v, sets it back and adds a newcomer u is accepted,
   though the outcome exceeds the cap (its execution then fails).
   */
  lemma {:induction false} RepeatsMislead(w: World, now: nat, sender: Account, v: Account, u: Account, x: nat)
    requires WorldOk(w, now) && u != v && Get(w.roster.ratios, u) == 0
    ensures w.roster.total + x <= CAP < w.roster.total + 2 * x ==>
      && Propose(w, sender, [u, u], [x, x]).None?
      && SumMap(NewRatios(w.roster.ratios, [u, u], [x, x], 2)) <= CAP
    ensures var r := Get(w.roster.ratios, v);
      2 * r <= w.roster.total && w.roster.total - r + x <= CAP < w.roster.total + x && r <= CAP && x <= CAP ==>
        && Propose(w, sender, [v, v, u], [0, r, x]).Some?
        && SumMap(NewRatios(w.roster.ratios, [v, v, u], [0, r, x], 3)) > CAP
  {
    hide WorldOk, Propose, NewRatios;
    var t, r := w.roster.total, Get(w.roster.ratios, v);
    if t + x <= CAP < t + 2 * x {
      ListedTwice(w, now, sender, u, x);
    }
    if 2 * r <= t && t - r + x <= CAP < t + x && r <= CAP && x <= CAP {
      ClearedAndBack(w, now, sender, v, u, x);
    }
  }

  lemma ListedTwice(w: World, now: nat, sender: Account, u: Account, x: nat)
    requires WorldOk(w, now) && Get(w.roster.ratios, u) == 0
    requires w.roster.total + x <= CAP < w.roster.total + 2 * x
    ensures Propose(w, sender, [u, u], [x, x]).None?
    ensures SumMap(NewRatios(w.roster.ratios, [u, u], [x, x], 2)) <= CAP
  {
    var r, vips, ratios := w.roster, [u, u], [x, x];
    assert RunningTotal(r, vips, ratios, 0) == r.total;
    assert RunningTotal(r, vips, ratios, 1) == r.total + x;
    assert RunningTotal(r, vips, ratios, 2) == r.total + 2 * x;
    assert NewRatios(r.ratios, vips, ratios, 0) == r.ratios;
    assert NewRatios(r.ratios, vips, ratios, 1) == r.ratios[u := x];
    assert NewRatios(r.ratios, vips, ratios, 2) == r.ratios[u := x];
    SumMapUpdate(r.ratios, u, x);
    hide RunningTotal, NewRatios;
    ProposesExactlyWhen(w, sender, vips, ratios);
  }

  lemma ClearedAndBack(w: World, now: nat, sender: Account, v: Account, u: Account, x: nat)
    requires WorldOk(w, now) && u != v && Get(w.roster.ratios, u) == 0
    requires var t, r := w.roster.total, Get(w.roster.ratios, v);
      2 * r <= t && t - r + x <= CAP < t + x && r <= CAP && x <= CAP
    ensures var ratios := [0, Get(w.roster.ratios, v), x];
      && Propose(w, sender, [v, v, u], ratios).Some?
      && SumMap(NewRatios(w.roster.ratios, [v, v, u], ratios, 3)) > CAP
  {
    var m, t, r := w.roster.ratios, w.roster.total, Get(w.roster.ratios, v);
    var vips: seq<Address>, ratios := [v, v, u], [0, r, x];
    var back: map<Address, nat> := m[v := r];
    assert RunningTotal(w.roster, vips, ratios, 0) == t;
    assert RunningTotal(w.roster, vips, ratios, 1) == t - r;
    assert RunningTotal(w.roster, vips, ratios, 2) == t - r;
    assert RunningTotal(w.roster, vips, ratios, 3) == t - r + x;
    assert NewRatios(m, vips, ratios, 0) == m;
    assert NewRatios(m, vips, ratios, 1) == m[v := 0];
    assert NewRatios(m, vips, ratios, 2) == back;
    assert NewRatios(m, vips, ratios, 3) == back[u := x];
    SumMapUpdate(m, v, r);
    SumMapUpdate(back, u, x);
    hide RunningTotal, NewRatios;
    ProposesExactlyWhen(w, sender, vips, ratios);
  }

  // ---------- Proposals and signatures ----------

  function Officers(w: World): set<Address> {
    (set a | a in w.managers) + (set a | a in w.directors)
  }

  ghost predicate BallotOk(b: Ballot, officers: set<Address>) {
    && (forall id :: id in b.proposals ==> 0 < id <= b.last && |b.proposals[id].vips| == |b.proposals[id].ratios|)
    && (forall id: nat :: Get(b.sigCount, id) == |SignersOf(b, id)| <= THRESHOLD)
    && (forall id: nat :: SignersOf(b, id) <= officers)
    && (forall id :: id in b.executed ==> id in b.proposals && |SignersOf(b, id)| == THRESHOLD)
  }

  ghost predicate WorldOk(w: World, now: nat) {
    && w.startAt <= now
    && w.roster.total <= CAP
    && RosterOk(w.roster, CurrentMonth(w, now))
    && BallotOk(w.ballot, Officers(w))
  }

  lemma MonthMonotone(w: World, now: nat, later: nat)
    requires now <= later
    ensures CurrentMonth(w, now) <= CurrentMonth(w, later)
  {}

  lemma WorldLater(w: World, now: nat, later: nat)
    requires WorldOk(w, now) && now <= later
    ensures WorldOk(w, later)
  {
    MonthMonotone(w, now, later);
    RosterLater(w.roster, CurrentMonth(w, now), CurrentMonth(w, later));
  }

  lemma SignKeeps(w: World, now: nat, sender: Account, id: nat)
    requires WorldOk(w, now) && Sign(w, now, sender, id).Some?
    ensures WorldOk(Sign(w, now, sender, id).value, now)
  {
    hide RosterOk;
    var b, b' := w.ballot, Sign(w, now, sender, id).value.ballot;
    assert SignersOf(b', id) == SignersOf(b, id) + {sender};
    forall k: nat ensures Get(b'.sigCount, k) == |SignersOf(b', k)| <= THRESHOLD && SignersOf(b', k) <= Officers(w) {
      if k != id { assert SignersOf(b', k) == SignersOf(b, k); }
    }
    forall k | k in b'.executed ensures |SignersOf(b', k)| == THRESHOLD {
      assert Get(b.sigCount, k) == |SignersOf(b, k)|;
    }
  }

  lemma ExecuteKeeps(w: World, now: nat, id: nat)
    requires WorldOk(w, now) && Execute(w, now, id).Some?
    ensures WorldOk(Execute(w, now, id).value, now)
  {
    hide RosterOk, Changed;
    var b, b' := w.ballot, Execute(w, now, id).value.ballot;
    var p := b.proposals[id];
    ChangesKeep(w.roster, p.vips, p.ratios, |p.vips|, CurrentMonth(w, now));
    assert Get(b.sigCount, id) == |SignersOf(b, id)|;
    assert forall k: nat :: SignersOf(b', k) == SignersOf(b, k);
  }

  lemma ProposeKeeps(w: World, now: nat, sender: Account, vips: seq<Address>, ratios: seq<nat>)
    requires WorldOk(w, now) && Propose(w, sender, vips, ratios).Some?
    ensures WorldOk(Propose(w, sender, vips, ratios).value, now)
  {
    hide RosterOk, ProposedTotal;
    var b, b' := w.ballot, Propose(w, sender, vips, ratios).value.ballot;
    assert forall k: nat :: SignersOf(b', k) == SignersOf(b, k);
  }

  lemma FundKeeps(w: World, now: nat, value: nat)
    requires WorldOk(w, now) && Fund(w, now, value).Some?
    ensures WorldOk(Fund(w, now, value).value, now)
  {
    hide RosterOk, BallotOk, Raise, EvenShare;
    assert Officers(Fund(w, now, value).value) == Officers(w);
  }

  lemma WorldKeeps(w: World, now: nat, op: WorldOp)
    requires WorldOk(w, now) && ApplyWorld(w, now, op).Some?
    ensures WorldOk(ApplyWorld(w, now, op).value, now)
  {
    hide WorldOk, Fund, Propose, Sign, Execute;
    match op
    case WSign(sender, id) => SignKeeps(w, now, sender, id);
    case WExecute(id) => ExecuteKeeps(w, now, id);
    case WPropose(sender, vips, ratios) => ProposeKeeps(w, now, sender, vips, ratios);
    case WFund(value) => FundKeeps(w, now, value);
  }

  /**
   An executed proposal decides every month still to come, the last entry for an address winning,
   and leaves the ratios of all months already reached as they were.
   */
  lemma ExecutionDecidesComingMonths(w: World, now: nat, id: nat, v: Address, i: nat)
    requires WorldOk(w, now) && Execute(w, now, id).Some? && 0 < i
    ensures ActualRatio(HistoryOf(Execute(w, now, id).value.roster, v), i)
         == if i <= CurrentMonth(w, now) then ActualRatio(HistoryOf(w.roster, v), i)
            else Get(ProposedRatios(w, w.ballot.proposals[id]), v)
  {
    var month, w' := CurrentMonth(w, now), Execute(w, now, id).value;
    WorldFreezesPast(w, now, WExecute(id));
    ExecuteKeeps(w, now, id);
    ExecutesExactlyWhen(w, now, id);
    hide NewRatios, BallotOk, Changed;
    if i <= month {
      RatioAgrees(HistoryOf(w.roster, v), HistoryOf(w'.roster, v), i);
    } else {
      RatioOfComingMonths(w'.roster, month, v, i);
    }
  }

  /**
   The time lock is recorded but not enforced: the third signature makes a proposal executable at
   once, at the very time of the signature, though its execution time lies ahead.
   */
  lemma TimeLockNeverDelays(w: World, now: nat, sender: Account, id: nat)
    requires WorldOk(w, now) && Sign(w, now, sender, id).Some?
    requires id in w.ballot.proposals && |SignersOf(w.ballot, id)| == THRESHOLD - 1
    requires SumMap(ProposedRatios(w, w.ballot.proposals[id])) <= CAP
    ensures var w' := Sign(w, now, sender, id).value;
      Get(w'.ballot.executeTime, id) == now + TIME_LOCK && Execute(w', now, id).Some?
  {
    SignKeeps(w, now, sender, id);
    var w' := Sign(w, now, sender, id).value;
    assert Get(w.ballot.sigCount, id) == |SignersOf(w.ballot, id)|;
    assert Get(w'.ballot.sigCount, id) == |SignersOf(w'.ballot, id)|;
    hide RosterOk, NewRatios;
    ExecutesExactlyWhen(w', now, id);
  }

  /** When a signature is taken, exactly: whether its proposal exists plays no part. */
  lemma {:induction false} SignsExactlyWhen(w: World, now: nat, sender: Account, id: nat)
    requires WorldOk(w, now)
    ensures Sign(w, now, sender, id).Some? <==>
      sender in Officers(w) && sender !in SignersOf(w.ballot, id) && |SignersOf(w.ballot, id)| < THRESHOLD
    ensures Sign(w, now, sender, id).Some? ==>
      SignersOf(Sign(w, now, sender, id).value.ballot, id) == SignersOf(w.ballot, id) + {sender}
      && Officers(Sign(w, now, sender, id).value) == Officers(w)
  {
    assert Get(w.ballot.sigCount, id) == |SignersOf(w.ballot, id)|;
  }

  /** Three officers can sign an id that nobody has proposed yet. */
  lemma {:induction false} SignedAhead(w: World, now: nat, a: Account, b: Account, c: Account, id: nat)
    requires WorldOk(w, now) && SignersOf(w.ballot, id) == {}
    requires {a, b, c} <= Officers(w) && a != b && a != c && b != c
    ensures Sign(w, now, a, id).Some?
    ensures var w1 := Sign(w, now, a, id).value; Sign(w1, now, b, id).Some?
    ensures var w2 := Sign(Sign(w, now, a, id).value, now, b, id).value; Sign(w2, now, c, id).Some?
    ensures var w3 := Sign(Sign(Sign(w, now, a, id).value, now, b, id).value, now, c, id).value;
      SignersOf(w3.ballot, id) == {a, b, c} && |{a, b, c}| == THRESHOLD
  {
    SignsExactlyWhen(w, now, a, id);
    SignKeeps(w, now, a, id);
    var w1 := Sign(w, now, a, id).value;
    SignsExactlyWhen(w1, now, b, id);
    SignKeeps(w1, now, b, id);
    var w2 := Sign(w1, now, b, id).value;
    hide WorldOk, Sign;
    SignsExactlyWhen(w2, now, c, id);
  }

  /**
   A proposal whose id was signed ahead can be executed at the moment it is made, by anyone, exactly
   when the ratios it leads to are within the cap: no officer need have seen what it says.
   */
  lemma {:induction false} SignedAheadExecutesAtOnce(w: World, now: nat, sender: Account, vips: seq<Address>,
      ratios: seq<nat>)
    requires WorldOk(w, now) && |SignersOf(w.ballot, w.ballot.last + 1)| == THRESHOLD
    requires Propose(w, sender, vips, ratios).Some?
    ensures Execute(Propose(w, sender, vips, ratios).value, now, w.ballot.last + 1).Some?
      <==> SumMap(NewRatios(w.roster.ratios, vips, ratios, |vips|)) <= CAP
  {
    var w', id := Propose(w, sender, vips, ratios).value, w.ballot.last + 1;
    ProposeKeeps(w, now, sender, vips, ratios);
    assert SignersOf(w'.ballot, id) == SignersOf(w.ballot, id);
    assert id !in w.ballot.executed;
    hide RosterOk, NewRatios, ProposedTotal;
    ExecutesExactlyWhen(w', now, id);
  }

  /** Executed proposals stay executed, and only an execution adds one, that was not there before. */
  lemma ExecutedForGood(w: World, now: nat, op: WorldOp)
    requires ApplyWorld(w, now, op).Some?
    ensures var a, b := w.ballot.executed, ApplyWorld(w, now, op).value.ballot.executed;
      b == if op.WExecute? then a + {op.id} else a
    ensures op.WExecute? ==> op.id !in w.ballot.executed
  {
    hide Changed, ProposedTotal;
  }

  // ---------- Monthly pools ----------

  function PoolSum(pools: map<nat, nat>, n: nat): nat {
    if n == 0 then 0 else PoolSum(pools, n - 1) + Get(pools, n)
  }

  /** What a funding leaves unassigned: it is divided evenly, rounding down. */
  function Dust(w: World, now: nat, op: WorldOp): nat {
    var month := CurrentMonth(w, now);
    if op.WFund? && month < PERIODS then op.value % (PERIODS - month) else 0
  }

  lemma {:induction false} RaiseAdds(pools: map<nat, nat>, month: nat, share: nat, n: nat)
    requires month <= n <= PERIODS
    ensures PoolSum(Raise(pools, month, PERIODS, share), n) == PoolSum(pools, n) + (n - month) * share
  {
    if n > month {
      RaiseAdds(pools, month, share, n - 1);
      assert (n - month) * share == (n - 1 - month) * share + share;
      assert Get(Raise(pools, month, PERIODS, share), n) == Get(pools, n) + share;
      hide Raise;
    } else {
      PoolSumAgrees(Raise(pools, month, PERIODS, share), pools, n);
    }
  }

  lemma {:induction false} PoolSumAgrees(a: map<nat, nat>, b: map<nat, nat>, n: nat)
    requires forall i :: 0 < i <= n ==> Get(a, i) == Get(b, i)
    ensures PoolSum(a, n) == PoolSum(b, n)
  {
    if n > 0 { PoolSumAgrees(a, b, n - 1); }
  }

  lemma ShareAndDust(value: nat, month: nat)
    requires month < PERIODS
    ensures (PERIODS - month) * EvenShare(value, month) + value % (PERIODS - month) == value
  {}

  /**
   Each funding raises the twelve pools together by what is booked, less a dust smaller than the
   number of months it is spread over; nothing else touches the pools.
   */
  lemma PoolsBalance(w: World, now: nat, op: WorldOp)
    requires ApplyWorld(w, now, op).Some?
    ensures PoolSum(ApplyWorld(w, now, op).value.pools, PERIODS) + Dust(w, now, op)
         == PoolSum(w.pools, PERIODS) + Booked(w, now, op)
    ensures CurrentMonth(w, now) < PERIODS ==> Dust(w, now, op) < PERIODS - CurrentMonth(w, now)
  {
    hide Raise, EvenShare, PoolSum, Changed, ProposedTotal;
    var month := CurrentMonth(w, now);
    if op.WFund? && month < PERIODS {
      RaiseAdds(w.pools, month, EvenShare(op.value, month), PERIODS);
      ShareAndDust(op.value, month);
    }
  }

  // ---------- Claims ----------

  /** Every VIP has claimed exactly the amounts of the months up to the last claimed one. */
  ghost predicate ClaimsOk(w: World, p: Purse, now: nat) {
    forall v: Address ::
      && Get(p.claimedMonth, v) <= ClaimTo(w, now)
      && Get(p.claimedAmount, v) == AmountBetween(w, v, 0, Get(p.claimedMonth, v))
  }

  lemma {:induction false} AmountSplits(w: World, v: Address, a: nat, b: nat)
    requires a <= b
    ensures AmountBetween(w, v, 0, b) == AmountBetween(w, v, 0, a) + AmountBetween(w, v, a, b)
  {
    if a < b { AmountSplits(w, v, a, b - 1); }
  }

  lemma ClaimKeeps(w: World, p: Purse, now: nat, v: Address)
    requires ClaimsOk(w, p, now) && Claim(w, p, now, v).Some?
    ensures ClaimsOk(w, Claim(w, p, now, v).value, now)
  {
    var q := Claim(w, p, now, v).value;
    AmountSplits(w, v, Get(p.claimedMonth, v), ClaimTo(w, now));
    forall u: Address ensures Get(q.claimedMonth, u) <= ClaimTo(w, now)
      && Get(q.claimedAmount, u) == AmountBetween(w, u, 0, Get(q.claimedMonth, u))
    {
      if u != v {
        assert Get(q.claimedMonth, u) == Get(p.claimedMonth, u);
      } else {
        assert Get(q.claimedMonth, v) == ClaimTo(w, now);
      }
    }
  }

  lemma ClaimsLater(w: World, p: Purse, now: nat, later: nat)
    requires ClaimsOk(w, p, now) && now <= later
    ensures ClaimsOk(w, p, later)
  {
    MonthMonotone(w, now, later);
  }

  lemma ClaimsElsewhere(w: World, p: Purse, q: Purse, now: nat)
    requires ClaimsOk(w, p, now) && q.claimedMonth == p.claimedMonth && q.claimedAmount == p.claimedAmount
    ensures ClaimsOk(w, q, now)
  {}

  lemma ClaimsSurviveWorld(w: World, p: Purse, now: nat, op: WorldOp)
    requires ClaimsOk(w, p, now) && ApplyWorld(w, now, op).Some?
    ensures ClaimsOk(ApplyWorld(w, now, op).value, p, now)
  {
    WorldFreezesPast(w, now, op);
    var w' := ApplyWorld(w, now, op).value;
    hide ApplyWorld;
    forall v: Address ensures Get(p.claimedAmount, v) == AmountBetween(w', v, 0, Get(p.claimedMonth, v)) {
      FrozenAmounts(w, w', CurrentMonth(w, now), v, 0, Get(p.claimedMonth, v));
    }
  }

  // ---------- Runs ----------

  ghost predicate Inv(s: System) { WorldOk(s.world, s.now) && ClaimsOk(s.world, s.purse, s.now) }

  lemma StepKeeps(s: System, call: Call)
    requires Inv(s)
    ensures Inv(Step(s, call))
  {
    hide WorldOk, ClaimsOk, ApplyWorld;
    var now := s.now + call.wait;
    WorldLater(s.world, s.now, now);
    ClaimsLater(s.world, s.purse, s.now, now);
    match call.op
    case OnWorld(op) =>
      if ApplyWorld(s.world, now, op).Some? {
        WorldKeeps(s.world, now, op);
        ClaimsSurviveWorld(s.world, s.purse, now, op);
        ClaimsElsewhere(ApplyWorld(s.world, now, op).value, s.purse, Step(s, call).purse, now);
      }
    case OnPurse(op) =>
      if ApplyPurse(s.world, s.purse, now, op).Some? {
        if op.PClaim? {
          ClaimKeeps(s.world, s.purse, now, op.vip);
        } else {
          ClaimsElsewhere(s.world, s.purse, Step(s, call).purse, now);
        }
      }
  }

  /** The invariant holds after every run: ratio sums, signatures, frozen and claimed amounts. */
  lemma {:induction false} RunKeeps(s: System, calls: seq<Call>)
    requires Inv(s)
    ensures Inv(Run(s, calls))
  {
    hide Inv, Step;
    if calls != [] {
      RunKeeps(s, calls[..|calls| - 1]);
      StepKeeps(Run(s, calls[..|calls| - 1]), calls[|calls| - 1]);
    }
  }
}
