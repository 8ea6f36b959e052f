/**
 The airdrop contract as an object that updates its fields in place. Every method is proved to
 compute the transaction of the same name in AirdropModel, reverts included.
 */
module AirdropContract {
  import opened Prelude
  import opened AirdropModel
  import M = AirdropModel

  lemma RaiseNone(pools: map<nat, nat>, month: nat, share: nat)
    ensures Raise(pools, month, month, share) == pools
  {}

  lemma RaiseOneMore(pools: map<nat, nat>, month: nat, n: nat, share: nat)
    requires month < n
    ensures Get(Raise(pools, month, n - 1, share), n) == Get(pools, n)
    ensures Raise(pools, month, n, share) == Raise(pools, month, n - 1, share)[n := Get(pools, n) + share]
  {}

  const BLANK := World(0, [], [], map[], NO_ROSTER, NO_BALLOT)
  const NO_PURSE := Purse(0, map[], map[], 0, 0, 0)

  class AirDrop {
    var initialized: bool
    var startAt: nat
    var managers: seq<Address>
    var directors: seq<Address>
    var pools: map<nat, nat>
    var ratios: map<Address, nat>
    var history: map<Address, map<nat, nat>>
    var accounts: seq<Address>
    var totalRatios: nat
    var proposals: map<nat, Proposal>
    var signers: map<nat, set<Address>>
    var sigCount: map<nat, nat>
    var executeTime: map<nat, nat>
    var executed: set<nat>
    var lastProposal: nat
    var remained: nat
    var claimedMonth: map<Address, nat>
    var claimedAmount: map<Address, nat>
    var grant1: nat
    var grant2: nat
    var balance: nat

    function R(): Roster reads this { Roster(ratios, history, accounts, totalRatios) }

    function B(): Ballot reads this { Ballot(proposals, signers, sigCount, executeTime, executed, lastProposal) }

    function W(): World reads this { World(startAt, managers, directors, pools, R(), B()) }

    function P(): Purse reads this { Purse(remained, claimedMonth, claimedAmount, grant1, grant2, balance) }

    /** The contract starts out blank and has its officers from initialization on; proposals are well formed. */
    ghost predicate Valid() reads this {
      && (initialized ==> managers != [])
      && (forall id :: id in proposals ==> |proposals[id].vips| == |proposals[id].ratios|)
      && (!initialized ==> W() == BLANK && P() == NO_PURSE.(balance := balance))
    }

    constructor ()
      ensures Valid() && !initialized && balance == 0
    {
      initialized, startAt, managers, directors, pools := false, 0, [], [], map[];
      ratios, history, accounts, totalRatios := map[], map[], [], 0;
      proposals, signers, sigCount, executeTime, executed, lastProposal := map[], map[], map[], map[], {}, 0;
      remained, claimedMonth, claimedAmount, grant1, grant2, balance := 0, map[], map[], 0, 0, 0;
    }

    // ---------- Deployment ----------

    method Initialize(now: nat, vips: seq<Address>, newRatios: seq<nat>,
        newManagers: seq<Address>, newDirectors: seq<Address>) returns (ok: bool)
      requires Valid()
      modifies this
      ensures Valid()
      ensures ok <==> !old(initialized) && M.Initialize(now, vips, newRatios, newManagers, newDirectors).Some?
      ensures ok ==> initialized && P() == FULL_PURSE.(balance := old(balance))
                     && W() == M.Initialize(now, vips, newRatios, newManagers, newDirectors).value
      ensures !ok ==> W() == old(W()) && P() == old(P()) && initialized == old(initialized)
    {
      hide M.Initialize;
      if initialized { return false; }
      ok := InitializeOnce(now, vips, newRatios, newManagers, newDirectors);
      initialized := ok;
    }

    method InitializeOnce(now: nat, vips: seq<Address>, newRatios: seq<nat>,
        newManagers: seq<Address>, newDirectors: seq<Address>) returns (ok: bool)
      requires W() == BLANK && P() == NO_PURSE.(balance := balance)
      modifies `startAt, `managers, `directors, `pools, `ratios, `history, `accounts, `totalRatios
      modifies `grant1, `grant2, `remained
      ensures ok == M.Initialize(now, vips, newRatios, newManagers, newDirectors).Some?
      ensures W() == if ok then M.Initialize(now, vips, newRatios, newManagers, newDirectors).value else BLANK
      ensures grant1 == grant2 == (if ok then GRANT else 0) && remained == if ok then POOL else 0
      ensures ok ==> managers != []
    {
      hide M.Enrolled, M.FirstPools;
      if |newManagers| < 2 || |newDirectors| < 3 || |vips| == 0 || |vips| != |newRatios| {
        return false;
      }
      ok := Staff(vips, newRatios, newManagers, newDirectors);
      if ok { SetAmounts(now); }
    }

    method Staff(vips: seq<Address>, newRatios: seq<nat>,
        newManagers: seq<Address>, newDirectors: seq<Address>) returns (ok: bool)
      requires R() == NO_ROSTER && managers == [] && directors == []
      requires |vips| == |newRatios| && |newManagers| >= 2
      modifies `managers, `directors, `ratios, `history, `accounts, `totalRatios
      ensures var r := Enrolled(NO_ROSTER, newManagers[0], vips, newRatios, |vips|);
        && (ok <==> 0 !in newManagers && 0 !in newDirectors && r.Some? && r.value.total <= CAP)
        && R() == (if ok then r.value else NO_ROSTER)
        && managers == (if ok then newManagers else [])
        && directors == (if ok then newDirectors else [])
    {
      hide M.Enrolled;
      ok := AppointOfficers(newManagers, newDirectors);
      if !ok { return false; }
      ok := Enroll(vips, newRatios);
      if !ok { managers, directors := [], []; }
    }

    /** The amounts set first in the source; they cannot fail, so a revert never sees the order. */
    method SetAmounts(now: nat)
      requires pools == map[]
      modifies `startAt, `grant1, `grant2, `remained, `pools
      ensures startAt == now && grant1 == GRANT && grant2 == GRANT && remained == POOL && pools == FirstPools(PERIODS)
    {
      grant1, grant2, startAt, remained := GRANT, GRANT, now, POOL;
      FillPools();
    }

    method FillPools()
      requires pools == map[] && remained == POOL
      modifies `pools
      ensures pools == FirstPools(PERIODS)
    {
      for i := 1 to PERIODS + 1
        invariant pools == FirstPools(i - 1)
      {
        pools := pools[i := remained / PERIODS];
      }
    }

    method AppointOfficers(newManagers: seq<Address>, newDirectors: seq<Address>) returns (ok: bool)
      requires managers == [] && directors == []
      modifies `managers, `directors
      ensures ok <==> 0 !in newManagers && 0 !in newDirectors
      ensures ok ==> managers == newManagers && directors == newDirectors
      ensures !ok ==> managers == [] && directors == []
    {
      for i := 0 to |newManagers|
        invariant managers == newManagers[..i] && 0 !in newManagers[..i] && directors == []
      {
        if newManagers[i] == 0 {
          managers := [];
          return false;
        }
        managers := managers + [newManagers[i]];
      }
      assert newManagers[..|newManagers|] == newManagers;
      for i := 0 to |newDirectors|
        invariant managers == newManagers && directors == newDirectors[..i] && 0 !in newDirectors[..i]
      {
        if newDirectors[i] == 0 {
          managers, directors := [], [];
          return false;
        }
        directors := directors + [newDirectors[i]];
      }
      assert newDirectors[..|newDirectors|] == newDirectors;
      return true;
    }

    method Enroll(vips: seq<Address>, newRatios: seq<nat>) returns (ok: bool)
      requires |vips| == |newRatios| && managers != [] && totalRatios == 0
      modifies `ratios, `history, `accounts, `totalRatios
      ensures var r := Enrolled(old(R()), managers[0], vips, newRatios, |vips|);
        && (ok <==> r.Some? && r.value.total <= CAP)
        && R() == if ok then r.value else old(R())
    {
      ghost var r := R();
      var ratiosBefore, historyBefore, accountsBefore := ratios, history, accounts;
      var total: nat := 0;
      for i := 0 to |vips|
        modifies `ratios, `history, `accounts
        invariant Enrolled(r, managers[0], vips, newRatios, i) == Some(Roster(ratios, history, accounts, total))
      {
        if vips[i] == 0 || vips[i] == managers[0] || Get(ratios, vips[i]) != 0 {
          EnrollFails(r, managers[0], vips, newRatios, i + 1, |vips|);
          ratios, history, accounts := ratiosBefore, historyBefore, accountsBefore;
          return false;
        }
        ratios := ratios[vips[i] := newRatios[i]];
        history := history[vips[i] := HistoryOf(R(), vips[i])[1 := newRatios[i]]];
        accounts := accounts + [vips[i]];
        total := total + newRatios[i];
      }
      if total > CAP {
        ratios, history, accounts := ratiosBefore, historyBefore, accountsBefore;
        return false;
      }
      totalRatios := total;
      return true;
    }

    // ---------- Amounts ----------

    method Month(now: nat) returns (month: nat)
      requires startAt <= now
      ensures month == CurrentMonth(W(), now)
    {
      month := (now - startAt) / MONTH;
    }

    method GetActualRatio(vip: Address, month: nat) returns (ratio: nat)
      ensures ratio == ActualRatio(HistoryOf(R(), vip), month)
    {
      var changes := if vip in history then history[vip] else map[];
      var j: nat := month;
      while j > 0
        invariant j <= month && ActualRatio(changes, month) == ActualRatio(changes, j)
      {
        if j in changes {
          return changes[j];
        }
        j := j - 1;
      }
      return 0;
    }

    method VipClaimable(now: nat, vip: Address) returns (amount: nat, since: nat, until: nat)
      requires startAt <= now
      ensures amount == Claimable(W(), P(), now, vip)
      ensures amount > 0 ==> since == Get(claimedMonth, vip) + 1 && until == ClaimTo(W(), now)
    {
      hide ActualRatio;
      if remained == 0 { return 0, 0, 0; }
      var current := Month(now);
      if current > PERIODS { current := PERIODS; }
      var claimed := Get(claimedMonth, vip);
      if claimed == current { return 0, 0, 0; }
      amount := 0;
      var i := claimed + 1;
      while i <= current
        invariant claimed < i && (claimed < current ==> i <= current + 1) && (current < claimed ==> i == claimed + 1)
        invariant amount == AmountBetween(W(), vip, claimed, i - 1)
      {
        var ratio := GetActualRatio(vip, i);
        amount := amount + CalculateAmount(Get(pools, i), ratio);
        i := i + 1;
      }
      return amount, claimed + 1, current;
    }

    // ---------- Claims ----------

    method VipClaim(now: nat, sender: Account) returns (ok: bool)
      requires Valid() && initialized && startAt <= now
      modifies `remained, `claimedMonth, `claimedAmount, `balance
      ensures var r := M.Claim(old(W()), old(P()), now, sender);
        ok == r.Some? && P() == if ok then r.value else old(P())
      ensures Valid()
    {
      hide AmountBetween;
      var amount, since, until := VipClaimable(now, sender);
      if amount == 0 || amount > remained || amount > balance { return false; }
      remained := remained - amount;
      claimedMonth := claimedMonth[sender := until];
      claimedAmount := claimedAmount[sender := Get(claimedAmount, sender) + amount];
      balance := balance - amount;
      return true;
    }

    method FoundationClaimVips(now: nat, sender: Account) returns (ok: bool)
      requires Valid() && initialized && startAt <= now
      modifies `remained, `balance
      ensures var r := M.Sweep(old(W()), old(P()), now, sender);
        ok == r.Some? && P() == if ok then r.value else old(P())
      ensures Valid()
    {
      var month := Month(now);
      if sender != managers[0] || month <= PERIODS || remained == 0 || balance < remained { return false; }
      balance := balance - remained;
      remained := 0;
      return true;
    }

    method FoundationClaim(now: nat, sender: Account) returns (ok: bool)
      requires Valid() && initialized && startAt <= now
      modifies `grant1, `grant2, `balance
      ensures var r := M.Grant(old(W()), old(P()), now, sender);
        ok == r.Some? && P() == if ok then r.value else old(P())
      ensures Valid()
    {
      var second := now > startAt + STAGE;
      var amount: nat := 0;
      if second {
        if grant2 > 0 { amount := amount + grant2; }
        if grant1 > 0 { amount := amount + grant1; }
      } else if grant1 > 0 {
        amount := amount + grant1;
      }
      if sender != managers[0] || amount == 0 || balance < amount { return false; }
      if second { grant2 := 0; } else { grant1 := 0; }
      if second && grant1 > 0 { grant1 := 0; }
      balance := balance - amount;
      return true;
    }

    // ---------- Funding ----------

    method ReceiveIntermediateFund(now: nat, value: nat) returns (ok: bool)
      requires Valid() && initialized && startAt <= now
      modifies `pools, `remained, `balance
      ensures var r := M.Fund(old(W()), now, value);
        && ok == r.Some? && W() == (if ok then r.value else old(W()))
        && P() == if ok then old(P()).(
                    remained := old(remained) + Booked(old(W()), now, WFund(value)),
                    balance := old(balance) + value)
                  else old(P())
      ensures Valid()
    {
      hide Raise, EvenShare;
      if value == 0 { return false; }
      var month := Month(now);
      balance := balance + value;
      if month >= PERIODS { return true; }
      RaisePools(month, EvenShare(value, month));
      remained := remained + value;
      return true;
    }

    method RaisePools(month: nat, share: nat)
      requires month < PERIODS
      modifies `pools
      ensures pools == Raise(old(pools), month, PERIODS, share)
    {
      hide Raise;
      ghost var before: map<nat, nat> := pools;
      RaiseNone(before, month, share);
      var i := month + 1;
      while i <= PERIODS
        invariant month < i <= PERIODS + 1
        invariant pools == Raise(before, month, i - 1, share)
      {
        RaiseOneMore(before, month, i, share);
        pools := pools[i := Get(pools, i) + share];
        i := i + 1;
      }
    }

    // ---------- Proposals ----------

    method Propose(sender: Account, vips: seq<Address>, newRatios: seq<nat>) returns (ok: bool)
      requires Valid() && initialized
      modifies `proposals, `lastProposal
      ensures var r := M.Propose(old(W()), sender, vips, newRatios);
        ok == r.Some? && W() == if ok then r.value else old(W())
      ensures Valid()
    {
      if |vips| != |newRatios| { return false; }
      var total := totalRatios;
      for i := 0 to |vips|
        invariant ProposedTotal(R(), vips, newRatios, i) == Some(total)
      {
        if vips[i] == 0 || newRatios[i] > CAP || total < Get(ratios, vips[i]) {
          ProposalFails(R(), vips, newRatios, i + 1, |vips|);
          return false;
        }
        total := total - Get(ratios, vips[i]) + newRatios[i];
      }
      if total > CAP { return false; }
      hide ProposedTotal;
      lastProposal := lastProposal + 1;
      proposals := proposals[lastProposal := Proposal(sender, vips, newRatios)];
      return true;
    }

    /** 1 for a foundation manager, 2 for a board director, 0 for anyone else. */
    method FmOrBd(account: Account) returns (role: nat)
      ensures role == if account in managers then 1 else if account in directors then 2 else 0
    {
      for i := 0 to |managers|
        invariant account !in managers[..i]
      {
        if managers[i] == account { return 1; }
      }
      for i := 0 to |directors|
        invariant account !in directors[..i]
      {
        if directors[i] == account { return 2; }
      }
      return 0;
    }

    method SignTransaction(now: nat, sender: Account, id: nat) returns (ok: bool)
      requires Valid() && initialized
      modifies `signers, `sigCount, `executeTime
      ensures var r := M.Sign(old(W()), now, sender, id);
        ok == r.Some? && W() == if ok then r.value else old(W())
      ensures Valid()
    {
      var role := FmOrBd(sender);
      if role == 0 { return false; }
      var signed := if id in signers then signers[id] else {};
      if sender in signed || Get(sigCount, id) >= THRESHOLD { return false; }
      signers := signers[id := signed + {sender}];
      sigCount := sigCount[id := Get(sigCount, id) + 1];
      if Get(sigCount, id) == THRESHOLD {
        executeTime := executeTime[id := now + TIME_LOCK];
      }
      return true;
    }

    method ExecuteProposal(now: nat, id: nat) returns (ok: bool)
      requires Valid() && initialized && startAt <= now
      modifies `ratios, `history, `accounts, `totalRatios, `executed
      ensures var r := M.Execute(old(W()), now, id);
        ok == r.Some? && W() == if ok then r.value else old(W())
      ensures Valid()
    {
      hide Changed;
      if id in executed || id !in proposals || Get(sigCount, id) < THRESHOLD { return false; }
      var month := Month(now);
      ok := ApplyChanges(proposals[id], month + 1);
      if ok {
        executed := executed + {id};
      }
    }

    /** One entry of a proposal; the running total is the caller's. */
    method ChangeVip(vip: Address, ratio: nat, month: nat, ghost total: nat)
      requires Get(ratios, vip) <= total
      modifies `ratios, `history, `accounts
      ensures ChangeOne(old(R()).(total := total), vip, ratio, month)
           == Some(Roster(ratios, history, accounts, total - Get(old(ratios), vip) + ratio))
    {
      if Get(ratios, vip) == 0 {
        accounts := accounts + [vip];
      }
      ratios := ratios[vip := ratio];
      history := history[vip := HistoryOf(R(), vip)[month := ratio]];
    }

    method ApplyChanges(p: Proposal, month: nat) returns (ok: bool)
      requires |p.vips| == |p.ratios|
      modifies `ratios, `history, `accounts, `totalRatios
      ensures var r := Changed(old(R()), p.vips, p.ratios, |p.vips|, month);
        && (ok <==> r.Some? && r.value.total <= CAP)
        && R() == if ok then r.value else old(R())
    {
      var ratiosBefore, historyBefore, accountsBefore := ratios, history, accounts;
      ghost var r := R();
      var total: nat := totalRatios;
      for i := 0 to |p.vips|
        modifies `ratios, `history, `accounts
        invariant Changed(r, p.vips, p.ratios, i, month) == Some(Roster(ratios, history, accounts, total))
      {
        var vip, before := p.vips[i], Get(ratios, p.vips[i]);
        if total < before {
          ChangeFails(r, p.vips, p.ratios, i + 1, |p.vips|, month);
          ratios, history, accounts := ratiosBefore, historyBefore, accountsBefore;
          return false;
        }
        ChangeVip(vip, p.ratios[i], month, total);
        total := total - before + p.ratios[i];
      }
      if total > CAP {
        ratios, history, accounts := ratiosBefore, historyBefore, accountsBefore;
        return false;
      }
      totalRatios := total;
      return true;
    }
  }

  // ---------- A failure at one entry fails the whole list ----------

  lemma {:induction false} EnrollFails(r: Roster, foundation: Address, vips: seq<Address>, ratios: seq<nat>, i: nat,
      n: nat)
    requires i <= n <= |vips| == |ratios| && Enrolled(r, foundation, vips, ratios, i).None?
    ensures Enrolled(r, foundation, vips, ratios, n).None?
  {
    if i < n { EnrollFails(r, foundation, vips, ratios, i, n - 1); }
  }

  lemma {:induction false} ProposalFails(r: Roster, vips: seq<Address>, ratios: seq<nat>, i: nat, n: nat)
    requires i <= n <= |vips| == |ratios| && ProposedTotal(r, vips, ratios, i).None?
    ensures ProposedTotal(r, vips, ratios, n).None?
  {
    if i < n { ProposalFails(r, vips, ratios, i, n - 1); }
  }

  lemma {:induction false} ChangeFails(r: Roster, vips: seq<Address>, ratios: seq<nat>, i: nat, n: nat, month: nat)
    requires i <= n && n <= |vips| && n <= |ratios| && Changed(r, vips, ratios, i, month).None?
    ensures Changed(r, vips, ratios, n, month).None?
  {
    if i < n { ChangeFails(r, vips, ratios, i, n - 1, month); }
  }
}
