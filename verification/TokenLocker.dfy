/** The token locker: records released by time and claim method, ten to a call, from the end. */
module TokenLocker {
  import opened Prelude

  const BATCH: nat := 10

  datatype Record = Record(lockedId: nat, planId: nat, amount: nat, claimMethod: nat, time: nat, active: bool)

  datatype Plan = Plan(planAmount: nat, spent: nat, claimMethod: nat, active: bool)

  predicate Matches(r: Record, now: nat, claimMethod: nat) {
    r.active && now >= r.time && r.claimMethod == claimMethod
  }

  /** The matching records of a list, in their order. */
  function Matching(rs: seq<Record>, now: nat, claimMethod: nat): seq<Record> {
    if rs == [] then []
    else MatchingFirst(rs[0], now, claimMethod) + Matching(rs[1..], now, claimMethod)
  }

  /** What one claim takes: the last ten matching records, or all where there are fewer. */
  function Taken(rs: seq<Record>, now: nat, claimMethod: nat): seq<Record> {
    var all := Matching(rs, now, claimMethod);
    if |all| <= BATCH then all else all[|all| - BATCH..]
  }

  function AmountOf(r: Record): nat { r.amount }

  function MatchOf(now: nat, claimMethod: nat): Record -> nat {
    (r: Record) => if Matches(r, now, claimMethod) then 1 else 0
  }

  function DueOf(now: nat, claimMethod: nat): Record -> nat {
    (r: Record) => if Matches(r, now, claimMethod) then r.amount else 0
  }

  // ---------- Filtering ----------

  function MatchingFirst(r: Record, now: nat, claimMethod: nat): seq<Record> {
    if Matches(r, now, claimMethod) then [r] else []
  }

  lemma MatchingPrepend(r: Record, rest: seq<Record>, now: nat, claimMethod: nat)
    ensures Matching([r] + rest, now, claimMethod)
         == MatchingFirst(r, now, claimMethod) + Matching(rest, now, claimMethod)
  {
    assert ([r] + rest)[1..] == rest;
  }

  lemma {:induction false} MatchingConcat(a: seq<Record>, b: seq<Record>, now: nat, claimMethod: nat)
    ensures Matching(a + b, now, claimMethod) == Matching(a, now, claimMethod) + Matching(b, now, claimMethod)
  {
    if a == [] {
      assert a + b == b;
    } else {
      hide Matching, MatchingFirst;
      var r, rest := a[0], a[1..];
      assert a == [r] + rest && a + b == [r] + (rest + b);
      MatchingPrepend(r, rest, now, claimMethod);
      MatchingPrepend(r, rest + b, now, claimMethod);
      MatchingConcat(rest, b, now, claimMethod);
      var first := MatchingFirst(r, now, claimMethod);
      var x, y := Matching(rest, now, claimMethod), Matching(b, now, claimMethod);
      assert first + (x + y) == (first + x) + y;
    }
  }

  lemma {:induction false} MatchingMembers(rs: seq<Record>, now: nat, claimMethod: nat)
    ensures forall r :: r in Matching(rs, now, claimMethod) <==> r in rs && Matches(r, now, claimMethod)
  {
    if rs != [] {
      MatchingMembers(rs[1..], now, claimMethod);
      assert forall r :: r in rs <==> r == rs[0] || r in rs[1..];
      hide Matches;
    }
  }

  lemma {:induction false} MatchingSums(rs: seq<Record>, now: nat, claimMethod: nat)
    ensures |Matching(rs, now, claimMethod)| == SumOf(rs, MatchOf(now, claimMethod))
  {
    if rs != [] {
      var rest := rs[1..];
      assert rs == [rs[0]] + rest;
      MatchingSums(rest, now, claimMethod);
      SumPrepend(rs[0], rest, MatchOf(now, claimMethod));
      hide SumOf;
    }
  }

  // ---------- The backwards loop ----------

  /** Down to i the list has been inspected: what matched is taken, the rest has stayed in some order. */
  ghost predicate Inspected(original: seq<Record>, i: nat, rs: seq<Record>, taken: seq<Record>, now: nat,
      claimMethod: nat) {
    && i <= |rs| && i <= |original| && rs[..i] == original[..i]
    && multiset(rs) + multiset(taken) == multiset(original)
    && taken == Matching(original[i..], now, claimMethod)
  }

  /** Taking one record out of the list keeps list and taken together a permutation of the original. */
  lemma TakenOut(original: seq<Record>, i: nat, rs: seq<Record>, taken: seq<Record>)
    requires i < |rs| && multiset(rs) + multiset(taken) == multiset(original)
    ensures multiset(SwappedOut(rs, i)) + multiset([rs[i]] + taken) == multiset(original)
  {
    SwapAndPop(rs, i);
    hide SwappedOut;
    assert multiset([rs[i]] + taken) == multiset{rs[i]} + multiset(taken);
  }

  lemma MatchingStep(original: seq<Record>, i: nat, now: nat, claimMethod: nat)
    requires i < |original|
    ensures Matching(original[i..], now, claimMethod)
         == MatchingFirst(original[i], now, claimMethod) + Matching(original[i + 1..], now, claimMethod)
  {
    assert original[i..][0] == original[i] && original[i..][1..] == original[i + 1..];
  }

  lemma OneMoreInspected(original: seq<Record>, i: nat, rs: seq<Record>, taken: seq<Record>, now: nat, claimMethod: nat)
    requires Inspected(original, i + 1, rs, taken, now, claimMethod)
    ensures !Matches(rs[i], now, claimMethod) ==> Inspected(original, i, rs, taken, now, claimMethod)
    ensures Matches(rs[i], now, claimMethod) ==>
      Inspected(original, i, SwappedOut(rs, i), [rs[i]] + taken, now, claimMethod)
  {
    assert rs[i] == rs[..i + 1][i] == original[..i + 1][i] == original[i];
    assert rs[..i] == rs[..i + 1][..i] == original[..i + 1][..i] == original[..i];
    MatchingStep(original, i, now, claimMethod);
    assert [] + taken == taken;
    TakenOut(original, i, rs, taken);
    SwapAndPop(rs, i);
    hide SwappedOut, Matching, Matches;
  }

  lemma NothingInspected(original: seq<Record>, now: nat, claimMethod: nat)
    ensures Inspected(original, |original|, original, [], now, claimMethod)
  {}

  lemma InspectedIsStep(original: seq<Record>, i: nat, rs: seq<Record>, taken: seq<Record>, now: nat, claimMethod: nat)
    requires Inspected(original, i, rs, taken, now, claimMethod) && taken == Taken(original, now, claimMethod)
    ensures ClaimStep(original, now, claimMethod, rs)
  {}

  /** Stopping at ten, or at the front, leaves exactly the last ten matching records taken. */
  lemma AllInspected(original: seq<Record>, i: nat, rs: seq<Record>, taken: seq<Record>, now: nat, claimMethod: nat)
    requires Inspected(original, i, rs, taken, now, claimMethod)
    requires |taken| <= BATCH && (i == 0 || |taken| == BATCH)
    ensures taken == Taken(original, now, claimMethod)
  {
    assert original == original[..i] + original[i..];
    MatchingConcat(original[..i], original[i..], now, claimMethod);
    if i == 0 {
      assert original[..i] == [];
    }
  }

  class Locker {
    var managers: set<Address>
    var plans: map<nat, Plan>
    var lockedRecords: map<Address, seq<Record>>
    var unitBalance: nat

    constructor (manager: Account)
      ensures Valid() && managers == {manager} && lockedRecords == map[]
    {
      managers, plans, lockedRecords, unitBalance := {manager}, map[], map[], 0;
    }

    function RecordsOf(account: Address): seq<Record> reads this {
      if account in lockedRecords then lockedRecords[account] else []
    }

    /** Every record carries an amount, and no plan allocates more than it has. */
    ghost predicate Valid() reads this {
      && (forall a :: a in lockedRecords ==> Positive(lockedRecords[a]))
      && (forall p :: p in plans ==> plans[p].spent <= plans[p].planAmount)
    }

    method SetLockedRecord(sender: Account, lockedId: nat, planId: nat, account: Address,
        amount: nat, claimMethod: nat, time: nat) returns (ok: bool)
      requires Valid()
      modifies `plans, `lockedRecords
      ensures Valid()
      ensures ok <==>
        && sender in managers && planId in old(plans) && old(plans)[planId].active && amount > 0
        && claimMethod == old(plans)[planId].claimMethod
        && old(plans)[planId].spent + amount <= old(plans)[planId].planAmount
      ensures ok ==>
        && lockedRecords == old(lockedRecords[account :=
             RecordsOf(account) + [Record(lockedId, planId, amount, claimMethod, time, true)]])
        && plans == old(plans[planId := plans[planId].(spent := plans[planId].spent + amount)])
      ensures !ok ==> plans == old(plans) && lockedRecords == old(lockedRecords)
    {
      if sender !in managers || planId !in plans || !plans[planId].active || amount == 0 { return false; }
      var plan := plans[planId];
      if claimMethod != plan.claimMethod || plan.spent + amount > plan.planAmount { return false; }
      plans := plans[planId := plan.(spent := plan.spent + amount)];
      lockedRecords := lockedRecords[account :=
        RecordsOf(account) + [Record(lockedId, planId, amount, claimMethod, time, true)]];
      return true;
    }

    /**
     Takes exactly the last ten matching records in their order, or all where there are fewer, and
     pays their sum; the other records stay, whatever their new order. A manager claims method 0.
     It fails just when the sender may not claim, nothing matches, or the UNIT is not there.
     */
    method ClaimToken(sender: Account, account: Account, now: nat) returns (ok: bool)
      requires Valid()
      modifies `lockedRecords, `unitBalance
      ensures Valid()
      ensures var claimMethod := if sender in managers then 0 else 1;
        var taken := Taken(old(RecordsOf(account)), now, claimMethod);
        && (ok <==> (sender == account || sender in managers) && taken != []
                    && SumOf(taken, AmountOf) <= old(unitBalance))
        && (ok ==> ClaimStep(old(RecordsOf(account)), now, claimMethod, RecordsOf(account))
                   && unitBalance == old(unitBalance) - SumOf(taken, AmountOf)
                   && lockedRecords == old(lockedRecords)[account := RecordsOf(account)])
        && (!ok ==> lockedRecords == old(lockedRecords) && unitBalance == old(unitBalance))
    {
      if sender != account && sender !in managers { return false; }
      var claimMethod := if sender in managers then 0 else 1;
      var before := lockedRecords;
      var total := TakeBatch(account, now, claimMethod);
      PositiveSum(old(RecordsOf(account)), Taken(old(RecordsOf(account)), now, claimMethod), now, claimMethod);
      if total == 0 || total > unitBalance {
        lockedRecords := before;
        return false;
      }
      StillPositive(old(RecordsOf(account)), now, claimMethod, RecordsOf(account));
      unitBalance := unitBalance - total;
      return true;
    }

    method TakeBatch(account: Account, now: nat, claimMethod: nat) returns (total: nat)
      modifies `lockedRecords
      ensures ClaimStep(old(RecordsOf(account)), now, claimMethod, RecordsOf(account))
      ensures total == SumOf(Taken(old(RecordsOf(account)), now, claimMethod), AmountOf)
      ensures lockedRecords == if Taken(old(RecordsOf(account)), now, claimMethod) == [] then old(lockedRecords)
                               else old(lockedRecords)[account := RecordsOf(account)]
    {
      hide Inspected, Matching;
      ghost var original: seq<Record>, taken: seq<Record> := RecordsOf(account), [];
      NothingInspected(original, now, claimMethod);
      var i: nat, processed: nat := |RecordsOf(account)|, 0;
      total := 0;
      while i > 0 && processed < BATCH
        invariant i <= |RecordsOf(account)| && processed == |taken| <= BATCH
        invariant Inspected(original, i, RecordsOf(account), taken, now, claimMethod)
        invariant total == SumOf(taken, AmountOf)
        invariant lockedRecords == if taken == [] then old(lockedRecords)
                                   else old(lockedRecords)[account := RecordsOf(account)]
      {
        var records := RecordsOf(account);
        i := i - 1;
        OneMoreInspected(original, i, records, taken, now, claimMethod);
        if Matches(records[i], now, claimMethod) {
          SumPrepend(records[i], taken, AmountOf);
          total := total + records[i].amount;
          processed := processed + 1;
          taken := [records[i]] + taken;
          records := records[i := records[|records| - 1]];
          lockedRecords := lockedRecords[account := records[..|records| - 1]];
        }
      }
      AllInspected(original, i, RecordsOf(account), taken, now, claimMethod);
      InspectedIsStep(original, i, RecordsOf(account), taken, now, claimMethod);
    }
  }

  // ---------- One claim ----------

  ghost predicate Positive(rs: seq<Record>) { forall r :: r in rs ==> r.amount > 0 }

  /** What one claim leaves: every record not taken, in some order. */
  ghost predicate ClaimStep(before: seq<Record>, now: nat, claimMethod: nat, after: seq<Record>) {
    multiset(after) + multiset(Taken(before, now, claimMethod)) == multiset(before)
  }

  lemma TakenMatch(rs: seq<Record>, now: nat, claimMethod: nat)
    ensures forall r :: r in Taken(rs, now, claimMethod) ==> r in rs && Matches(r, now, claimMethod)
  {
    MatchingMembers(rs, now, claimMethod);
  }

  lemma PositiveSum(rs: seq<Record>, taken: seq<Record>, now: nat, claimMethod: nat)
    requires Positive(rs) && taken == Taken(rs, now, claimMethod)
    ensures SumOf(taken, AmountOf) == 0 <==> taken == []
  {
    TakenMatch(rs, now, claimMethod);
    if taken != [] {
      assert taken[0] in rs;
      SumCovers(taken, AmountOf, 0);
    }
  }

  lemma StillPositive(before: seq<Record>, now: nat, claimMethod: nat, after: seq<Record>)
    requires Positive(before) && ClaimStep(before, now, claimMethod, after)
    ensures Positive(after)
  {
    forall r | r in after ensures r in before {
      assert r in multiset(after);
      assert r in multiset(before);
    }
  }

  /** An active record whose time has come, for the claim method. */
  predicate IsDue(r: Record, now: nat, claimMethod: nat) { r.active && r.time <= now && r.claimMethod == claimMethod }

  /**
   What a claim takes off a list, exactly: only records that are due, at most ten, and all that are due
   where they are fewer; and it pays what they amount to.
   */
  lemma {:induction false} ClaimGives(before: seq<Record>, now: nat, claimMethod: nat, after: seq<Record>)
    requires ClaimStep(before, now, claimMethod, after)
    ensures |after| <= |before| <= |after| + 10
    ensures forall r :: multiset(after)[r] <= multiset(before)[r]
    ensures forall r :: multiset(after)[r] < multiset(before)[r] ==> IsDue(r, now, claimMethod)
    ensures |before| < |after| + 10 ==> forall r :: r in after ==> !IsDue(r, now, claimMethod)
    ensures SumOf(after, AmountOf) + SumOf(Taken(before, now, claimMethod), AmountOf) == SumOf(before, AmountOf)
  {
    var taken := Taken(before, now, claimMethod);
    TakenMatch(before, now, claimMethod);
    assert |multiset(after) + multiset(taken)| == |after| + |taken|;
    assert |multiset(before)| == |before|;
    forall r | multiset(after)[r] < multiset(before)[r] ensures IsDue(r, now, claimMethod) {
      assert multiset(after)[r] + multiset(taken)[r] == multiset(before)[r];
      assert r in multiset(taken) && r in taken;
      assert Matches(r, now, claimMethod);
    }
    if |taken| < BATCH {
      NoneDueLeft(before, now, claimMethod, after);
    }
    SumConcat(after, taken, AmountOf);
    assert multiset(after + taken) == multiset(before);
    SumPermutation(after + taken, before, AmountOf);
  }

  lemma NoneDueLeft(before: seq<Record>, now: nat, claimMethod: nat, after: seq<Record>)
    requires ClaimStep(before, now, claimMethod, after) && |Taken(before, now, claimMethod)| < BATCH
    ensures forall r :: r in after ==> !IsDue(r, now, claimMethod)
  {
    forall r | r in after ensures !IsDue(r, now, claimMethod) {
      assert multiset(after)[r] > 0 by { assert r in multiset(after); }
      assert multiset(after)[r] + multiset(Taken(before, now, claimMethod))[r] == multiset(before)[r];
      if IsDue(r, now, claimMethod) {
        MatchingCount(before, now, claimMethod, r);
        assert false;
      }
    }
  }

  /** A matching record is filtered as often as it is listed. */
  lemma {:induction false} MatchingCount(rs: seq<Record>, now: nat, claimMethod: nat, r: Record)
    requires IsDue(r, now, claimMethod)
    ensures multiset(Matching(rs, now, claimMethod))[r] == multiset(rs)[r]
  {
    if rs != [] {
      assert rs == [rs[0]] + rs[1..];
      MatchingCount(rs[1..], now, claimMethod, r);
    }
  }

  /** The records taken are all due ones from some place on, which is the front where they are fewer than ten. */
  lemma {:induction false} LastOnesTaken(rs: seq<Record>, i: nat, now: nat, claimMethod: nat) returns (from: nat)
    requires i <= |rs| && |Matching(rs[i..], now, claimMethod)| <= BATCH
    ensures from <= i && Taken(rs, now, claimMethod) == Matching(rs[from..], now, claimMethod)
    ensures from == 0 || |Taken(rs, now, claimMethod)| == BATCH
  {
    if i == 0 || |Matching(rs[i..], now, claimMethod)| == BATCH {
      from := i;
      assert rs == rs[..i] + rs[i..];
      MatchingConcat(rs[..i], rs[i..], now, claimMethod);
      if i == 0 { assert rs[..i] == []; }
    } else {
      MatchingStep(rs, i - 1, now, claimMethod);
      from := LastOnesTaken(rs, i - 1, now, claimMethod);
    }
  }

  // ---------- Repeated claims ----------

  /** A claim, after which some records are booked. */
  ghost predicate Turn(before: seq<Record>, now: nat, claimMethod: nat, booked: seq<Record>, after: seq<Record>) {
    multiset(after) + multiset(Taken(before, now, claimMethod)) == multiset(before) + multiset(booked)
  }

  /** Booking appends to what a claim leaves. */
  lemma ClaimAndBook(before: seq<Record>, now: nat, claimMethod: nat, kept: seq<Record>, booked: seq<Record>)
    requires ClaimStep(before, now, claimMethod, kept)
    ensures Turn(before, now, claimMethod, booked, kept + booked)
  {}

  /** The lists before each of successive claims and at the end, their times, and what is booked after each. */
  datatype History = History(lists: seq<seq<Record>>, times: seq<nat>, booked: seq<seq<Record>>)

  predicate Sized(h: History) { |h.lists| == |h.times| + 1 == |h.booked| + 1 }

  ghost predicate Claims(h: History, claimMethod: nat) {
    && Sized(h)
    && (forall j :: 0 <= j < |h.times| ==> Turn(h.lists[j], h.times[j], claimMethod, h.booked[j], h.lists[j + 1]))
    && (forall i, j :: 0 <= i < j < |h.times| ==> h.times[i] <= h.times[j])
  }

  function Shorter(h: History): History
    requires Sized(h) && h.times != []
  {
    var k := |h.times| - 1;
    History(h.lists[..k + 1], h.times[..k], h.booked[..k])
  }

  lemma ShorterClaims(h: History, claimMethod: nat)
    requires Claims(h, claimMethod) && h.times != []
    ensures Claims(Shorter(h), claimMethod)
  {}

  /** What successive claims paid. */
  ghost function Paid(h: History, claimMethod: nat): nat
    requires Sized(h)
    decreases |h.times|
  {
    if h.times == [] then 0
    else
      var k := |h.times| - 1;
      Paid(Shorter(h), claimMethod) + SumOf(Taken(h.lists[k], h.times[k], claimMethod), AmountOf)
  }

  /** How many records successive claims took. */
  ghost function TakenOver(h: History, claimMethod: nat): nat
    requires Sized(h)
    decreases |h.times|
  {
    if h.times == [] then 0
    else
      var k := |h.times| - 1;
      TakenOver(Shorter(h), claimMethod) + |Taken(h.lists[k], h.times[k], claimMethod)|
  }

  /** A measure of all that was there at first or booked since. */
  ghost function AllOf(h: History, f: Record -> nat): nat
    requires Sized(h)
    decreases |h.times|
  {
    if h.times == [] then SumOf(h.lists[0], f)
    else AllOf(Shorter(h), f) + SumOf(h.booked[|h.times| - 1], f)
  }

  /** One claim and one booking move what they take and bring, and nothing else, in any measure of the list. */
  lemma TurnSum(before: seq<Record>, now: nat, claimMethod: nat, booked: seq<Record>, after: seq<Record>,
      f: Record -> nat)
    requires Turn(before, now, claimMethod, booked, after)
    ensures SumOf(after, f) + SumOf(Taken(before, now, claimMethod), f) == SumOf(before, f) + SumOf(booked, f)
  {
    var taken := Taken(before, now, claimMethod);
    SumConcat(after, taken, f);
    SumConcat(before, booked, f);
    SumPermutation(after + taken, before + booked, f);
  }

  lemma {:induction false} AllMatch(rs: seq<Record>, now: nat, claimMethod: nat)
    requires forall r :: r in rs ==> Matches(r, now, claimMethod)
    ensures SumOf(rs, MatchOf(now, claimMethod)) == |rs|
    ensures SumOf(rs, DueOf(now, claimMethod)) == SumOf(rs, AmountOf)
  {
    if rs != [] {
      assert rs[|rs| - 1] in rs;
      AllMatch(rs[..|rs| - 1], now, claimMethod);
    }
  }

  /** Whatever a claim takes still matches at any later time, and is paid in full. */
  lemma TakenLater(rs: seq<Record>, now: nat, later: nat, claimMethod: nat)
    requires now <= later
    ensures var taken := Taken(rs, now, claimMethod);
      && SumOf(taken, MatchOf(later, claimMethod)) == |taken|
      && SumOf(taken, DueOf(later, claimMethod)) == SumOf(taken, AmountOf)
  {
    TakenMatch(rs, now, claimMethod);
    AllMatch(Taken(rs, now, claimMethod), later, claimMethod);
  }

  /** The last turn of a history on its own. */
  lemma LastTurn(h: History, claimMethod: nat, f: Record -> nat)
    requires Claims(h, claimMethod) && h.times != []
    ensures var k := |h.times| - 1;
      && Claims(Shorter(h), claimMethod)
      && |Shorter(h).times| == k && Shorter(h).lists[k] == h.lists[k]
      && Turn(h.lists[k], h.times[k], claimMethod, h.booked[k], h.lists[k + 1])
      && AllOf(h, f) == AllOf(Shorter(h), f) + SumOf(h.booked[k], f)
      && Paid(h, claimMethod)
         == Paid(Shorter(h), claimMethod) + SumOf(Taken(h.lists[k], h.times[k], claimMethod), AmountOf)
      && TakenOver(h, claimMethod)
         == TakenOver(Shorter(h), claimMethod) + |Taken(h.lists[k], h.times[k], claimMethod)|
  {
    hide SumOf, Taken, Turn;
  }

  /** Nothing due is ever lost or paid twice: paid plus still due is what was due at first or booked since. */
  lemma {:induction false} DueAccounted(h: History, claimMethod: nat, last: nat)
    requires Claims(h, claimMethod) && forall j :: 0 <= j < |h.times| ==> h.times[j] <= last
    ensures Paid(h, claimMethod) + SumOf(h.lists[|h.times|], DueOf(last, claimMethod))
         == AllOf(h, DueOf(last, claimMethod))
    decreases |h.times|
  {
    hide SumOf, Taken, Turn;
    if h.times != [] {
      var k := |h.times| - 1;
      LastTurn(h, claimMethod, DueOf(last, claimMethod));
      DueAccounted(Shorter(h), claimMethod, last);
      hide Claims, Paid, AllOf, Shorter, DueOf;
      TurnSum(h.lists[k], h.times[k], claimMethod, h.booked[k], h.lists[k + 1], DueOf(last, claimMethod));
      TakenLater(h.lists[k], h.times[k], last, claimMethod);
    }
  }

  /** The same for the number of records. */
  lemma {:induction false} TakenAccounted(h: History, claimMethod: nat, last: nat)
    requires Claims(h, claimMethod) && forall j :: 0 <= j < |h.times| ==> h.times[j] <= last
    ensures TakenOver(h, claimMethod) + SumOf(h.lists[|h.times|], MatchOf(last, claimMethod))
         == AllOf(h, MatchOf(last, claimMethod))
    decreases |h.times|
  {
    hide SumOf, Taken, Turn;
    if h.times != [] {
      var k := |h.times| - 1;
      LastTurn(h, claimMethod, MatchOf(last, claimMethod));
      TakenAccounted(Shorter(h), claimMethod, last);
      hide Claims, TakenOver, AllOf, Shorter, MatchOf;
      TurnSum(h.lists[k], h.times[k], claimMethod, h.booked[k], h.lists[k + 1], MatchOf(last, claimMethod));
      TakenLater(h.lists[k], h.times[k], last, claimMethod);
    }
  }

  function LaterThan(last: nat): Record -> nat { (r: Record) => if r.time > last then r.amount else 0 }

  lemma {:induction false} NoneLater(rs: seq<Record>, last: nat)
    requires forall r :: r in rs ==> r.time <= last
    ensures SumOf(rs, LaterThan(last)) == 0
  {
    if rs != [] {
      assert rs[|rs| - 1] in rs;
      NoneLater(rs[..|rs| - 1], last);
    }
  }

  /** Over any claims nothing is paid ahead of its time: all whose time is after the last claim is still there. */
  lemma {:induction false} NothingPaidAhead(h: History, claimMethod: nat, last: nat)
    requires Claims(h, claimMethod) && forall j :: 0 <= j < |h.times| ==> h.times[j] <= last
    ensures SumOf(h.lists[|h.times|], LaterThan(last)) == AllOf(h, LaterThan(last))
    decreases |h.times|
  {
    hide SumOf, Taken, Turn;
    if h.times != [] {
      var k := |h.times| - 1;
      LastTurn(h, claimMethod, LaterThan(last));
      NothingPaidAhead(Shorter(h), claimMethod, last);
      hide Claims, AllOf, Shorter, LaterThan;
      TurnSum(h.lists[k], h.times[k], claimMethod, h.booked[k], h.lists[k + 1], LaterThan(last));
      TakenMatch(h.lists[k], h.times[k], claimMethod);
      NoneLater(Taken(h.lists[k], h.times[k], claimMethod), last);
    }
  }

  /** What matches once matches ever after. */
  lemma MatchingGrows(rs: seq<Record>, first: nat, later: nat, claimMethod: nat)
    requires first <= later
    ensures SumOf(rs, MatchOf(first, claimMethod)) <= SumOf(rs, MatchOf(later, claimMethod))
  {
    SumBelow(rs, MatchOf(first, claimMethod), MatchOf(later, claimMethod));
  }

  /** A claim takes ten records, or all that match. */
  lemma TenOrAll(rs: seq<Record>, now: nat, claimMethod: nat)
    ensures var m, taken := SumOf(rs, MatchOf(now, claimMethod)), |Taken(rs, now, claimMethod)|;
      taken == if m <= BATCH then m else BATCH
  {
    MatchingSums(rs, now, claimMethod);
  }

  /** What one turn does to the n records matching at an earlier time. */
  lemma TurnDrains(before: seq<Record>, now: nat, claimMethod: nat, booked: seq<Record>, after: seq<Record>, first: nat)
    requires Turn(before, now, claimMethod, booked, after) && first <= now
    ensures var f, taken := MatchOf(first, claimMethod), |Taken(before, now, claimMethod)|;
      && taken <= BATCH
      && SumOf(before, f) <= SumOf(after, f) + taken
      && (taken == BATCH || SumOf(after, f) == SumOf(booked, f))
      && (taken == BATCH || SumOf(before, f) <= taken)
  {
    var f, g := MatchOf(first, claimMethod), MatchOf(now, claimMethod);
    TenOrAll(before, now, claimMethod);
    TurnSum(before, now, claimMethod, booked, after, f);
    TakenLater(before, now, now, claimMethod);
    MatchingGrows(Taken(before, now, claimMethod), first, now, claimMethod);
    MatchingGrows(before, first, now, claimMethod);
    if |Taken(before, now, claimMethod)| < BATCH {
      AllTaken(before, now, claimMethod, first);
    }
  }

  /** Where a claim takes fewer than ten, it takes everything that matched before. */
  lemma AllTaken(rs: seq<Record>, now: nat, claimMethod: nat, first: nat)
    requires |Taken(rs, now, claimMethod)| < BATCH && first <= now
    ensures SumOf(Taken(rs, now, claimMethod), MatchOf(first, claimMethod)) == SumOf(rs, MatchOf(first, claimMethod))
  {
    assert Taken(rs, now, claimMethod) == Matching(rs, now, claimMethod);
    MatchingKeeps(rs, now, claimMethod, first);
  }

  lemma {:induction false} MatchingKeeps(rs: seq<Record>, now: nat, claimMethod: nat, first: nat)
    requires first <= now
    ensures SumOf(Matching(rs, now, claimMethod), MatchOf(first, claimMethod)) == SumOf(rs, MatchOf(first, claimMethod))
  {
    if rs != [] {
      var r, rest := rs[0], rs[1..];
      assert rs == [r] + rest;
      MatchingKeeps(rest, now, claimMethod, first);
      SumPrepend(r, rest, MatchOf(first, claimMethod));
      SumPrepend(r, Matching(rest, now, claimMethod), MatchOf(first, claimMethod));
      assert [] + Matching(rest, now, claimMethod) == Matching(rest, now, claimMethod);
      hide SumOf;
    }
  }

  /** What is booked is not due yet at the first claim. */
  ghost predicate NoneBookedDue(h: History, first: nat, claimMethod: nat) {
    forall j :: 0 <= j < |h.booked| ==> SumOf(h.booked[j], MatchOf(first, claimMethod)) == 0
  }

  /**
   Repeated claims drain the list, whatever matures and whatever is booked in between. Of n records
   that matched at the first claim, k claims together take at least n or 10k records, whichever is
   less; and where nothing is booked that would have matched then, none of the n is left unless
   every claim took its full ten.
   */
  lemma {:induction false} ClaimsDrain(h: History, claimMethod: nat, first: nat)
    requires Claims(h, claimMethod) && forall j :: 0 <= j < |h.times| ==> first <= h.times[j]
    ensures var n, k := SumOf(h.lists[0], MatchOf(first, claimMethod)), |h.times|;
      var left, taken := SumOf(h.lists[k], MatchOf(first, claimMethod)), TakenOver(h, claimMethod);
      && n <= left + taken
      && (if n <= BATCH * k then n else BATCH * k) <= taken <= BATCH * k
      && (NoneBookedDue(h, first, claimMethod) ==> (k > 0 && left == 0) || taken == BATCH * k)
    decreases |h.times|
  {
    hide SumOf, Taken;
    if h.times != [] {
      var k := |h.times| - 1;
      var before, now, booked, after := h.lists[k], h.times[k], h.booked[k], h.lists[k + 1];
      ShorterClaims(h, claimMethod);
      ClaimsDrain(Shorter(h), claimMethod, first);
      assert Turn(before, now, claimMethod, booked, after);
      hide Claims, Turn;
      TurnDrains(before, now, claimMethod, booked, after, first);
      if NoneBookedDue(h, first, claimMethod) {
        assert NoneBookedDue(Shorter(h), first, claimMethod);
        TurnSum(before, now, claimMethod, booked, after, MatchOf(first, claimMethod));
      }
    }
  }

  /**
   ceil(m / 10) claims are enough: where m records in all match by the time of the last claim, those
   booked since included, k claims with m <= 10k leave none of those that matched at the first.
   */
  lemma {:induction false} EnoughClaims(h: History, claimMethod: nat, first: nat, last: nat)
    requires Claims(h, claimMethod) && first <= last
    requires forall j :: 0 <= j < |h.times| ==> first <= h.times[j] <= last
    requires NoneBookedDue(h, first, claimMethod)
    requires AllOf(h, MatchOf(last, claimMethod)) <= BATCH * |h.times|
    ensures SumOf(h.lists[|h.times|], MatchOf(first, claimMethod)) == 0
  {
    ClaimsDrain(h, claimMethod, first);
    TakenAccounted(h, claimMethod, last);
    MatchingGrows(h.lists[|h.times|], first, last, claimMethod);
  }

  /** For a fixed set of m matching records, k claims leave exactly max(0, m - 10k) of them. */
  lemma {:induction false} FixedSetDrains(h: History, claimMethod: nat, first: nat, last: nat)
    requires Claims(h, claimMethod) && first <= last
    requires forall j :: 0 <= j < |h.times| ==> first <= h.times[j] <= last
    requires AllOf(h, MatchOf(last, claimMethod)) == SumOf(h.lists[0], MatchOf(first, claimMethod))
    ensures var m, k := SumOf(h.lists[0], MatchOf(first, claimMethod)), |h.times|;
      SumOf(h.lists[k], MatchOf(last, claimMethod)) == if m <= BATCH * k then 0 else m - BATCH * k
  {
    ClaimsDrain(h, claimMethod, first);
    TakenAccounted(h, claimMethod, last);
  }

  // ---------- Claims and bookings on the object ----------

  /** What a manager asks to be booked. */
  datatype Booking = Booking(lockedId: nat, planId: nat, amount: nat, claimMethod: nat, time: nat)

  function Extended(h: History, now: nat, booked: seq<Record>, after: seq<Record>): History {
    History(h.lists + [after], h.times + [now], h.booked + [booked])
  }

  /** One more turn at the end makes a longer history, which pays what the turn takes. */
  lemma ExtendedClaims(h: History, claimMethod: nat, now: nat, booked: seq<Record>, after: seq<Record>)
    requires Claims(h, claimMethod) && forall j :: 0 <= j < |h.times| ==> h.times[j] <= now
    requires Turn(h.lists[|h.times|], now, claimMethod, booked, after)
    ensures Claims(Extended(h, now, booked, after), claimMethod) && Sized(Extended(h, now, booked, after))
    ensures Paid(Extended(h, now, booked, after), claimMethod)
         == Paid(h, claimMethod) + SumOf(Taken(h.lists[|h.times|], now, claimMethod), AmountOf)
  {
    hide Turn, Taken, SumOf;
    var longer := Extended(h, now, booked, after);
    assert Shorter(longer) == h;
  }

  /** Nothing has happened yet. */
  lemma NoTurns(list: seq<Record>, claimMethod: nat)
    ensures Claims(History([list], [], []), claimMethod) && Paid(History([list], [], []), claimMethod) == 0
  {}

  /** Times served so far are no later than the next. */
  lemma NextTime(times: seq<nat>, served: nat)
    requires served < |times| && forall i, j :: 0 <= i < j < |times| ==> times[i] <= times[j]
    ensures forall j :: 0 <= j < |times[..served]| ==> times[..served][j] <= times[served]
    ensures times[..served] + [times[served]] == times[..served + 1]
  {}

  /** Tries to book every entry for one account; those that the locker refuses are left out. */
  method BookAll(locker: Locker, manager: Account, account: Account, bookings: seq<Booking>)
      returns (count: nat, ghost booked: seq<Record>)
    requires locker.Valid()
    modifies locker`plans, locker`lockedRecords
    ensures locker.Valid() && count == |booked| <= |bookings|
    ensures locker.RecordsOf(account) == old(locker.RecordsOf(account)) + booked
  {
    booked, count := [], 0;
    for i := 0 to |bookings|
      invariant locker.Valid() && count == |booked| <= i
      invariant locker.RecordsOf(account) == old(locker.RecordsOf(account)) + booked
    {
      var b := bookings[i];
      var ok := locker.SetLockedRecord(manager, b.lockedId, b.planId, account, b.amount, b.claimMethod, b.time);
      if ok {
        booked := booked + [Record(b.lockedId, b.planId, b.amount, b.claimMethod, b.time, true)];
        count := count + 1;
      }
    }
  }

  /**
   A client that claims at the given times and has records booked after each claim, until a claim
   fails. What happens to the locker is a history, so all that is proved about those applies to it;
   and the UNIT paid out is what the history pays.
   */
  method ClaimInTurns(locker: Locker, sender: Account, manager: Account, account: Account, times: seq<nat>,
      bookings: seq<seq<Booking>>) returns (served: nat, ghost h: History)
    requires locker.Valid() && |bookings| == |times|
    requires forall i, j :: 0 <= i < j < |times| ==> times[i] <= times[j]
    modifies locker`plans, locker`lockedRecords, locker`unitBalance
    ensures locker.Valid() && served <= |times|
    ensures var claimMethod := if sender in locker.managers then 0 else 1;
      && Sized(h) && Claims(h, claimMethod) && h.times == times[..served]
      && h.lists[0] == old(locker.RecordsOf(account)) && h.lists[served] == locker.RecordsOf(account)
      && locker.unitBalance + Paid(h, claimMethod) == old(locker.unitBalance)
      && (served < |times| ==>
            var taken := Taken(locker.RecordsOf(account), times[served], claimMethod);
            (sender != account && sender !in locker.managers) || taken == []
            || SumOf(taken, AmountOf) > locker.unitBalance)
  {
    hide Turn, ClaimStep, Taken, SumOf, Claims, Paid, Positive;
    ghost var claimMethod := if sender in locker.managers then 0 else 1;
    h := History([locker.RecordsOf(account)], [], []);
    NoTurns(locker.RecordsOf(account), claimMethod);
    served := 0;
    while served < |times|
      invariant served <= |times| && locker.Valid()
      invariant Sized(h) && Claims(h, claimMethod) && h.times == times[..served]
      invariant h.lists[0] == old(locker.RecordsOf(account)) && h.lists[served] == locker.RecordsOf(account)
      invariant locker.unitBalance + Paid(h, claimMethod) == old(locker.unitBalance)
    {
      ghost var before := locker.RecordsOf(account);
      var ok := locker.ClaimToken(sender, account, times[served]);
      if !ok { return; }
      ghost var kept := locker.RecordsOf(account);
      var _, booked := BookAll(locker, manager, account, bookings[served]);
      ClaimAndBook(before, times[served], claimMethod, kept, booked);
      NextTime(times, served);
      ExtendedClaims(h, claimMethod, times[served], booked, locker.RecordsOf(account));
      h := Extended(h, times[served], booked, locker.RecordsOf(account));
      served := served + 1;
    }
  }
}
