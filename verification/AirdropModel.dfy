/**
 The airdrop contract. What determines monthly amounts (the world: monthly pools, ratios and their
 history, proposals) is kept apart from what claims move (the purse), as claims never write it.
 */
module AirdropModel {
  import opened Prelude

  const PERIODS: nat := 12
  const MONTH: nat := 300
  const STAGE: nat := 900
  const TIME_LOCK: nat := 60
  const THRESHOLD: nat := 3
  const SCALE: nat := 1_000_000
  const CAP: nat := 100 * SCALE
  const POOL: nat := 60_000_000_000_000_000_000
  const GRANT: nat := 15_000_000_000_000_000_000

  datatype Proposal = Proposal(proposer: Account, vips: seq<Address>, ratios: seq<nat>)

  /** The VIPs' ratios, and for each VIP the months at which the ratio changed, with the new ratio. */
  datatype Roster = Roster(
    ratios: map<Address, nat>,
    history: map<Address, map<nat, nat>>,
    accounts: seq<Address>,
    total: nat)

  /** Proposals to change ratios, and who signed them. */
  datatype Ballot = Ballot(
    proposals: map<nat, Proposal>,
    signers: map<nat, set<Address>>,
    sigCount: map<nat, nat>,
    executeTime: map<nat, nat>,
    executed: set<nat>,
    last: nat)

  datatype World = World(
    startAt: nat,
    managers: seq<Address>,
    directors: seq<Address>,
    pools: map<nat, nat>,
    roster: Roster,
    ballot: Ballot)

  datatype Purse = Purse(
    remained: nat,
    claimedMonth: map<Address, nat>,
    claimedAmount: map<Address, nat>,
    grant1: nat,
    grant2: nat,
    balance: nat)

  // ---------- Months and amounts ----------

  function CurrentMonth(w: World, now: nat): nat {
    if now <= w.startAt then 0 else (now - w.startAt) / MONTH
  }

  function HistoryOf(r: Roster, vip: Address): map<nat, nat> {
    if vip in r.history then r.history[vip] else map[]
  }

  /** The latest recorded change at or before a month, found by searching backwards. */
  function ActualRatio(changes: map<nat, nat>, month: nat): nat {
    if month == 0 then 0
    else if month in changes then changes[month]
    else ActualRatio(changes, month - 1)
  }

  function CalculateAmount(perMonth: nat, ratio: nat): nat {
    if perMonth == 0 || ratio == 0 then 0 else perMonth * (ratio / SCALE)
  }

  function MonthAmount(w: World, vip: Address, month: nat): nat {
    CalculateAmount(Get(w.pools, month), ActualRatio(HistoryOf(w.roster, vip), month))
  }

  /** What a VIP is due for the months after `from` up to and including `to`. */
  function AmountBetween(w: World, vip: Address, from: nat, to: nat): nat
    decreases to
  {
    if to <= from then 0 else AmountBetween(w, vip, from, to - 1) + MonthAmount(w, vip, to)
  }

  // ---------- Transactions on the world ----------

  /** The pools after a funding: each month past the current one up to n is raised by a share. */
  function Raise(pools: map<nat, nat>, month: nat, n: nat, share: nat): map<nat, nat> {
    pools + map i | month < i <= n :: Get(pools, i) + share
  }

  /** What each month not yet reached gets of a funding. */
  function EvenShare(value: nat, month: nat): nat
    requires month < PERIODS
  {
    value / (PERIODS - month)
  }

  function Fund(w: World, now: nat, value: nat): Option<World> {
    var month := CurrentMonth(w, now);
    if value == 0 then None
    else if month >= PERIODS then Some(w)
    else Some(w.(pools := Raise(w.pools, month, PERIODS, EvenShare(value, month))))
  }

  /** The running total that propose checks, over the first n entries; None on underflow. */
  function ProposedTotal(r: Roster, vips: seq<Address>, ratios: seq<nat>, n: nat): Option<nat>
    requires n <= |vips| == |ratios|
  {
    if n == 0 then Some(r.total)
    else
      var t := ProposedTotal(r, vips, ratios, n - 1);
      if t.None? || vips[n - 1] == 0 || ratios[n - 1] > CAP || t.value < Get(r.ratios, vips[n - 1]) then None
      else Some(t.value - Get(r.ratios, vips[n - 1]) + ratios[n - 1])
  }

  function Propose(w: World, sender: Account, vips: seq<Address>, ratios: seq<nat>): Option<World> {
    if |vips| != |ratios| then None
    else
      var t := ProposedTotal(w.roster, vips, ratios, |vips|);
      if t.None? || t.value > CAP then None
      else
        var b := w.ballot;
        Some(w.(ballot := b.(
          last := b.last + 1,
          proposals := b.proposals[b.last + 1 := Proposal(sender, vips, ratios)])))
  }

  function SignersOf(b: Ballot, id: nat): set<Address> {
    if id in b.signers then b.signers[id] else {}
  }

  function Sign(w: World, now: nat, sender: Account, id: nat): Option<World> {
    var b := w.ballot;
    if sender !in w.managers && sender !in w.directors then None
    else if sender in SignersOf(b, id) || Get(b.sigCount, id) >= THRESHOLD then None
    else
      var count := Get(b.sigCount, id) + 1;
      Some(w.(ballot := b.(
        signers := b.signers[id := SignersOf(b, id) + {sender}],
        sigCount := b.sigCount[id := count],
        executeTime := if count == THRESHOLD then b.executeTime[id := now + TIME_LOCK] else b.executeTime)))
  }

  /** The roster after the first n entries of a proposal, effective from the given month. */
  function Changed(r: Roster, vips: seq<Address>, ratios: seq<nat>, n: nat, month: nat): Option<Roster>
    requires n <= |vips| && n <= |ratios|
  {
    if n == 0 then Some(r)
    else
      var before := Changed(r, vips, ratios, n - 1, month);
      if before.None? then None else ChangeOne(before.value, vips[n - 1], ratios[n - 1], month)
  }

  function ChangeOne(r: Roster, vip: Address, ratio: nat, month: nat): Option<Roster> {
    var before := Get(r.ratios, vip);
    if r.total < before then None
    else Some(Roster(
        r.ratios[vip := ratio],
        r.history[vip := HistoryOf(r, vip)[month := ratio]],
        if before == 0 then r.accounts + [vip] else r.accounts,
        r.total - before + ratio))
  }

  function Execute(w: World, now: nat, id: nat): Option<World> {
    var b := w.ballot;
    if id in b.executed || id !in b.proposals || Get(b.sigCount, id) < THRESHOLD then None
    else
      var p := b.proposals[id];
      if |p.vips| != |p.ratios| then None
      else
        var r := Changed(w.roster, p.vips, p.ratios, |p.vips|, CurrentMonth(w, now) + 1);
        if r.None? || r.value.total > CAP then None
        else Some(w.(roster := r.value, ballot := b.(executed := b.executed + {id})))
  }

  // ---------- Transactions on the purse ----------

  function ClaimTo(w: World, now: nat): nat {
    if CurrentMonth(w, now) > PERIODS then PERIODS else CurrentMonth(w, now)
  }

  function Claimable(w: World, p: Purse, now: nat, vip: Address): nat {
    if p.remained == 0 then 0
    else AmountBetween(w, vip, Get(p.claimedMonth, vip), ClaimTo(w, now))
  }

  function Claim(w: World, p: Purse, now: nat, vip: Address): Option<Purse> {
    var amount := Claimable(w, p, now, vip);
    if amount == 0 || amount > p.remained || amount > p.balance then None
    else Some(p.(
        remained := p.remained - amount,
        claimedMonth := p.claimedMonth[vip := ClaimTo(w, now)],
        claimedAmount := p.claimedAmount[vip := Get(p.claimedAmount, vip) + amount],
        balance := p.balance - amount))
  }

  /** After the last month the foundation takes what VIPs have left. */
  function Sweep(w: World, p: Purse, now: nat, sender: Account): Option<Purse> {
    if w.managers == [] || sender != w.managers[0] || CurrentMonth(w, now) <= PERIODS
       || p.remained == 0 || p.balance < p.remained then None
    else Some(p.(remained := 0, balance := p.balance - p.remained))
  }

  /** The foundation's own two grants, the second unlocked with the second stage. */
  function Grant(w: World, p: Purse, now: nat, sender: Account): Option<Purse> {
    var second := now > w.startAt + STAGE;
    var amount := if second then p.grant1 + p.grant2 else p.grant1;
    if w.managers == [] || sender != w.managers[0] || amount == 0 || p.balance < amount then None
    else Some(p.(grant1 := 0, grant2 := if second then 0 else p.grant2, balance := p.balance - amount))
  }

  // ---------- Deployment ----------

  /** The roster after enrolling the first n VIPs, none of whom may be the foundation. */
  function Enrolled(r: Roster, foundation: Address, vips: seq<Address>, ratios: seq<nat>, n: nat): Option<Roster>
    requires n <= |vips| == |ratios|
  {
    if n == 0 then Some(r)
    else
      var before := Enrolled(r, foundation, vips, ratios, n - 1);
      if before.None? || vips[n - 1] == 0 || vips[n - 1] == foundation || Get(before.value.ratios, vips[n - 1]) != 0
      then None
      else Some(EnrollOne(before.value, vips[n - 1], ratios[n - 1]))
  }

  function EnrollOne(r: Roster, vip: Address, ratio: nat): Roster {
    Roster(
      r.ratios[vip := ratio],
      r.history[vip := HistoryOf(r, vip)[1 := ratio]],
      r.accounts + [vip],
      r.total + ratio)
  }

  /** The first n monthly pools of a fresh airdrop, each an equal share of the VIP pool. */
  function FirstPools(n: nat): map<nat, nat> {
    if n == 0 then map[] else FirstPools(n - 1)[n := POOL / PERIODS]
  }

  const NO_ROSTER := Roster(map[], map[], [], 0)
  const NO_BALLOT := Ballot(map[], map[], map[], map[], {}, 0)

  const FULL_PURSE := Purse(POOL, map[], map[], GRANT, GRANT, 0)

  function Initialize(now: nat, vips: seq<Address>, ratios: seq<nat>,
      managers: seq<Address>, directors: seq<Address>): Option<World> {
    if |managers| < 2 || |directors| < 3 || |vips| == 0 || |vips| != |ratios|
       || 0 in managers || 0 in directors then None
    else
      var r := Enrolled(NO_ROSTER, managers[0], vips, ratios, |vips|);
      if r.None? || r.value.total > CAP then None
      else Some(World(now, managers, directors, FirstPools(PERIODS), r.value, NO_BALLOT))
  }

  // ---------- Runs ----------

  datatype WorldOp =
    | WFund(value: nat)
    | WPropose(proposer: Account, vips: seq<Address>, ratios: seq<nat>)
    | WSign(signer: Account, id: nat)
    | WExecute(id: nat)

  datatype PurseOp =
    | PClaim(vip: Address)
    | PSweep(sender: Account)
    | PGrant(sender: Account)
    | PReceive(value: nat)

  datatype Op = OnWorld(w: WorldOp) | OnPurse(p: PurseOp)

  datatype Call = Call(wait: nat, op: Op)

  datatype System = System(now: nat, world: World, purse: Purse)

  function ApplyWorld(w: World, now: nat, op: WorldOp): Option<World> {
    match op
    case WFund(value) => Fund(w, now, value)
    case WPropose(sender, vips, ratios) => Propose(w, sender, vips, ratios)
    case WSign(sender, id) => Sign(w, now, sender, id)
    case WExecute(id) => Execute(w, now, id)
  }

  function ApplyPurse(w: World, p: Purse, now: nat, op: PurseOp): Option<Purse> {
    match op
    case PClaim(vip) => Claim(w, p, now, vip)
    case PSweep(sender) => Sweep(w, p, now, sender)
    case PGrant(sender) => Grant(w, p, now, sender)
    case PReceive(value) => Some(p.(balance := p.balance + value))
  }

  /** A funding is booked into the purse only while months remain; the UNIT arrives either way. */
  function Booked(w: World, now: nat, op: WorldOp): nat {
    if op.WFund? && CurrentMonth(w, now) < PERIODS then op.value else 0
  }

  function Paid(op: WorldOp): nat { if op.WFund? then op.value else 0 }

  function Step(s: System, call: Call): System {
    var now := s.now + call.wait;
    match call.op
    case OnWorld(op) =>
      (match ApplyWorld(s.world, now, op)
       case None => System(now, s.world, s.purse)
       case Some(w) => System(now, w, s.purse.(
         remained := s.purse.remained + Booked(s.world, now, op),
         balance := s.purse.balance + Paid(op))))
    case OnPurse(op) =>
      (match ApplyPurse(s.world, s.purse, now, op)
       case None => System(now, s.world, s.purse)
       case Some(p) => System(now, s.world, p))
  }

  function Run(s: System, calls: seq<Call>): System {
    if calls == [] then s else Step(Run(s, calls[..|calls| - 1]), calls[|calls| - 1])
  }
}
