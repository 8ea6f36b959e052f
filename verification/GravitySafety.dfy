/** Quorum intersection, and what every run of the bridge keeps. */
module GravitySafety {
  import opened Prelude
  import opened GravityModel

  // ---------- Signatures ----------

  lemma {:induction false} SignedPowerMonotone(vs: Valset, sigs: seq<Signature>, m: nat, n: nat)
    requires WellFormed(vs, sigs) && m <= n <= |sigs|
    ensures SignedPower(vs, sigs, m) <= SignedPower(vs, sigs, n)
  {
    if m < n {
      SignedPowerMonotone(vs, sigs, m, n - 1);
    }
  }

  /** The power of the validators whose signature on m is really theirs. */
  function ValidPower(verify: Verifier, vs: Valset, sigs: seq<Signature>, m: Message, n: nat): nat
    requires WellFormed(vs, sigs) && n <= |sigs|
  {
    if n == 0 then 0
    else ValidPower(verify, vs, sigs, m, n - 1)
         + if sigs[n - 1].v != 0 && verify(vs.validators[n - 1], m, sigs[n - 1]) then vs.powers[n - 1] else 0
  }

  /** What validator i adds: all its power, whoever stands before it. */
  function GenuineAt(verify: Verifier, vs: Valset, sigs: seq<Signature>, m: Message): nat -> nat {
    (i: nat) =>
      if i < |sigs| && i < |vs.validators| && i < |vs.powers| && sigs[i].v != 0 && verify(vs.validators[i], m, sigs[i])
      then vs.powers[i] else 0
  }

  lemma {:induction false} TotalPowerSums(powers: seq<nat>)
    ensures TotalPower(powers) == SumOf<nat>(powers, Itself)
  {
    if powers != [] { TotalPowerSums(powers[..|powers| - 1]); }
  }

  function FirstOnes(n: nat): seq<nat> { seq(n, i => i) }

  lemma {:induction false} ValidPowerSums(verify: Verifier, vs: Valset, sigs: seq<Signature>, m: Message, n: nat)
    requires WellFormed(vs, sigs) && n <= |sigs|
    ensures ValidPower(verify, vs, sigs, m, n) == SumOf<nat>(FirstOnes(n), GenuineAt(verify, vs, sigs, m))
  {
    if n > 0 {
      ValidPowerSums(verify, vs, sigs, m, n - 1);
      assert FirstOnes(n)[..n - 1] == FirstOnes(n - 1);
    }
  }

  /** The power of the validators that validly signed both messages. */
  function CommonPower(verify: Verifier, vs: Valset, sigs: seq<Signature>, m: Message,
      sigs': seq<Signature>, m': Message, n: nat): nat
    requires WellFormed(vs, sigs) && WellFormed(vs, sigs') && n <= |sigs|
  {
    if n == 0 then 0
    else
      var i := n - 1;
      CommonPower(verify, vs, sigs, m, sigs', m', i)
      + if sigs[i].v != 0 && verify(vs.validators[i], m, sigs[i])
           && sigs'[i].v != 0 && verify(vs.validators[i], m', sigs'[i]) then vs.powers[i] else 0
  }

  lemma {:induction false} ValidPrefixPower(verify: Verifier, vs: Valset, sigs: seq<Signature>, m: Message, n: nat,
      k: nat)
    requires WellFormed(vs, sigs) && n <= k <= |sigs| && ValidPrefix(verify, vs, sigs, m, n)
    ensures SignedPower(vs, sigs, n) <= ValidPower(verify, vs, sigs, m, k)
  {
    if n < k {
      ValidPrefixPower(verify, vs, sigs, m, n, k - 1);
    } else if n > 0 {
      ValidPrefixPower(verify, vs, sigs, m, n - 1, n - 1);
    }
  }

  /** Acceptance means that genuine signers hold more than the threshold. */
  lemma AcceptedPower(verify: Verifier, vs: Valset, sigs: seq<Signature>, m: Message, threshold: nat)
    requires WellFormed(vs, sigs) && Accepts(verify, vs, sigs, m, threshold)
    ensures ValidPower(verify, vs, sigs, m, |sigs|) > threshold
  {
    var n :| 0 <= n <= |sigs| && SignedPower(vs, sigs, n) > threshold && ValidPrefix(verify, vs, sigs, m, n);
    ValidPrefixPower(verify, vs, sigs, m, n, |sigs|);
  }

  /** Where every signature supplied is valid, what is counted is exactly the power of genuine signers. */
  lemma {:induction false} CountsGenuine(verify: Verifier, vs: Valset, sigs: seq<Signature>, m: Message, n: nat)
    requires WellFormed(vs, sigs) && n <= |sigs| && ValidPrefix(verify, vs, sigs, m, n)
    ensures SignedPower(vs, sigs, n) == ValidPower(verify, vs, sigs, m, n)
  {
    if n > 0 { CountsGenuine(verify, vs, sigs, m, n - 1); }
  }

  /** Genuine signers among the first n hold more than the threshold, and nothing invalid comes before. */
  ghost predicate Quorum(verify: Verifier, vs: Valset, sigs: seq<Signature>, m: Message, threshold: nat)
    requires WellFormed(vs, sigs)
  {
    exists n ::
      0 <= n <= |sigs| && ValidPrefix(verify, vs, sigs, m, n) && ValidPower(verify, vs, sigs, m, n) > threshold
  }

  /**
   A message is accepted exactly when genuine signers in front of the first invalid signature hold
   more than the threshold; whoever did not sign is skipped, wherever it stands.
   */
  lemma {:induction false} AcceptsExactlyWhen(verify: Verifier, vs: Valset, sigs: seq<Signature>, m: Message,
      threshold: nat)
    requires WellFormed(vs, sigs)
    ensures Accepts(verify, vs, sigs, m, threshold) <==> Quorum(verify, vs, sigs, m, threshold)
  {
    forall n | 0 <= n <= |sigs| && ValidPrefix(verify, vs, sigs, m, n)
      ensures SignedPower(vs, sigs, n) == ValidPower(verify, vs, sigs, m, n)
    {
      CountsGenuine(verify, vs, sigs, m, n);
    }
    hide SignedPower, ValidPower, ValidPrefix;
  }

  lemma {:induction false} ValidPowerMonotone(verify: Verifier, vs: Valset, sigs: seq<Signature>, m: Message, n: nat,
      k: nat)
    requires WellFormed(vs, sigs) && n <= k <= |sigs|
    ensures ValidPower(verify, vs, sigs, m, n) <= ValidPower(verify, vs, sigs, m, k)
  {
    if n < k { ValidPowerMonotone(verify, vs, sigs, m, n, k - 1); }
  }

  /** If every signature supplied is valid, acceptance is exactly that the signers hold enough power. */
  lemma {:induction false} AllValidAccepted(verify: Verifier, vs: Valset, sigs: seq<Signature>, m: Message,
      threshold: nat)
    requires WellFormed(vs, sigs) && ValidPrefix(verify, vs, sigs, m, |sigs|)
    ensures Accepts(verify, vs, sigs, m, threshold) <==> ValidPower(verify, vs, sigs, m, |sigs|) > threshold
  {
    AcceptsExactlyWhen(verify, vs, sigs, m, threshold);
    if Quorum(verify, vs, sigs, m, threshold) {
      var n :| 0 <= n <= |sigs| && ValidPrefix(verify, vs, sigs, m, n)
        && ValidPower(verify, vs, sigs, m, n) > threshold;
      ValidPowerMonotone(verify, vs, sigs, m, n, |sigs|);
    }
  }

  lemma {:induction false} PowersOverlap(verify: Verifier, vs: Valset, sigs: seq<Signature>, m: Message,
      sigs': seq<Signature>, m': Message, n: nat)
    requires WellFormed(vs, sigs) && WellFormed(vs, sigs') && n <= |sigs|
    ensures ValidPower(verify, vs, sigs, m, n) + ValidPower(verify, vs, sigs', m', n)
         <= TotalPower(vs.powers[..n]) + CommonPower(verify, vs, sigs, m, sigs', m', n)
  {
    if n > 0 {
      PowersOverlap(verify, vs, sigs, m, sigs', m', n - 1);
      assert vs.powers[..n][..n - 1] == vs.powers[..n - 1];
    }
  }

  /**
   Quorum intersection: under one validator set of total power at most 2^32, any two accepted
   messages share genuine signers who hold more than a third of 2^32.
   */
  lemma QuorumsIntersect(verify: Verifier, vs: Valset, sigs: seq<Signature>, m: Message,
      sigs': seq<Signature>, m': Message)
    requires WellFormed(vs, sigs) && WellFormed(vs, sigs') && TotalPower(vs.powers) <= 0x1_0000_0000
    requires Accepts(verify, vs, sigs, m, POWER_THRESHOLD) && Accepts(verify, vs, sigs', m', POWER_THRESHOLD)
    ensures 3 * CommonPower(verify, vs, sigs, m, sigs', m', |sigs|) > 0x1_0000_0000
  {
    AcceptedPower(verify, vs, sigs, m, POWER_THRESHOLD);
    AcceptedPower(verify, vs, sigs', m', POWER_THRESHOLD);
    PowersOverlap(verify, vs, sigs, m, sigs', m', |sigs|);
    assert vs.powers[..|sigs|] == vs.powers;
  }

  // ---------- The trace ----------

  /** The validator sets announced so far, oldest first. */
  function Valsets(log: seq<Event>): seq<Valset> {
    if log == [] then []
    else
      var last := log[|log| - 1];
      Valsets(log[..|log| - 1]) + if last.ValsetUpdated? then [last.valset] else []
  }

  /** The set can pass a vote. */
  ghost predicate CanVote(vs: Valset) {
    |vs.validators| == |vs.powers| && TotalPower(vs.powers) > POWER_THRESHOLD
  }

  /** b was approved by a quorum of a and moves the nonce forward by at most a million. */
  ghost predicate Approves(verify: Verifier, gravityId: nat, a: Valset, b: Valset) {
    && a.nonce < b.nonce <= a.nonce + MAX_SKIP
    && exists sigs :: WellFormed(a, sigs) && Accepts(verify, a, sigs, Checkpoint(gravityId, b), POWER_THRESHOLD)
  }

  ghost predicate Chain(verify: Verifier, gravityId: nat, sets: seq<Valset>) {
    && (forall k :: 0 <= k < |sets| ==> CanVote(sets[k]))
    && (forall j, k :: 0 <= j < k < |sets| && k == j + 1 ==> Approves(verify, gravityId, sets[j], sets[k]))
  }

  /** Batches of one token were executed in strictly rising nonce order, up to the stored nonce. */
  ghost predicate BatchesInOrder(b: Bridge) {
    && (forall i :: 0 <= i < |b.log| && b.log[i].BatchExecuted? ==>
          b.log[i].batchNonce <= Get(b.batchNonces, b.log[i].token))
    && (forall i, j ::
          (0 <= i < j < |b.log| && b.log[i].BatchExecuted? && b.log[j].BatchExecuted?
           && b.log[i].token == b.log[j].token) ==>
          b.log[i].batchNonce < b.log[j].batchNonce)
  }

  ghost predicate CallsInOrder(b: Bridge) {
    && (forall i :: 0 <= i < |b.log| && b.log[i].CallExecuted? ==>
          b.log[i].invalidationNonce <= Get(b.invalidations, b.log[i].invalidationId))
    && (forall i, j ::
          (0 <= i < j < |b.log| && b.log[i].CallExecuted? && b.log[j].CallExecuted?
           && b.log[i].invalidationId == b.log[j].invalidationId) ==>
          b.log[i].invalidationNonce < b.log[j].invalidationNonce)
  }

  /** Event nonces count 1, 2, 3, ... without a gap. */
  ghost predicate EventsGapFree(b: Bridge) {
    b.lastEventNonce == |b.log| && forall i :: 0 <= i < |b.log| ==> b.log[i].eventNonce == i + 1
  }

  /** The stored checkpoint is that of the last announced set, whose nonce is stored too. */
  ghost predicate CheckpointCurrent(b: Bridge) {
    var sets := Valsets(b.log);
    && sets != []
    && b.checkpoint == Checkpoint(b.gravityId, sets[|sets| - 1])
    && b.lastValsetNonce == sets[|sets| - 1].nonce
  }

  ghost predicate Safe(b: Bridge, verify: Verifier) {
    && CheckpointCurrent(b)
    && Chain(verify, b.gravityId, Valsets(b.log))
    && BatchesInOrder(b)
    && CallsInOrder(b)
    && EventsGapFree(b)
  }

  lemma ValsetsPush(log: seq<Event>, e: Event)
    ensures Valsets(log + [e]) == Valsets(log) + if e.ValsetUpdated? then [e.valset] else []
  {
    assert (log + [e])[..|log|] == log;
  }

  lemma FirstAnnounced(e: Event)
    requires e.ValsetUpdated?
    ensures Valsets([e]) == [e.valset]
  {
    ValsetsPush([], e);
    assert [] + [e] == [e] && [] + [e.valset] == [e.valset];
  }

  lemma DeploySafe(gravityId: nat, validators: seq<Address>, powers: seq<nat>, verify: Verifier)
    requires Deploy(gravityId, validators, powers).Ok?
    ensures Safe(Deploy(gravityId, validators, powers).value, verify)
  {
    hide Valsets, Approves, TotalPower;
    var b := Deploy(gravityId, validators, powers).value;
    FirstAnnounced(b.log[0]);
  }

  lemma UpdateSafe(b: Bridge, verify: Verifier, newSet: Valset, current: Valset, sigs: seq<Signature>, paid: bool)
    requires Safe(b, verify) && MayUpdate(b, verify, newSet, current, sigs, paid)
    ensures Safe(Updated(b, newSet), verify)
  {
    var b' := Updated(b, newSet);
    var sets := Valsets(b.log);
    ValsetsPush(b.log, b'.log[|b.log|]);
    assert Valsets(b'.log) == sets + [newSet];
    assert sets[|sets| - 1] == current;
    assert Approves(verify, b.gravityId, current, newSet);
    forall j, k | 0 <= j < k < |sets + [newSet]| && k == j + 1
      ensures Approves(verify, b.gravityId, (sets + [newSet])[j], (sets + [newSet])[k])
    {
      if k < |sets| {
        assert Approves(verify, b.gravityId, sets[j], sets[k]);
      }
    }
  }

  /** An event that announces no set leaves the chain of sets as it was. */
  lemma ChainStays(b: Bridge, verify: Verifier, b': Bridge, e: Event)
    requires CheckpointCurrent(b) && Chain(verify, b.gravityId, Valsets(b.log)) && EventsGapFree(b)
    requires !e.ValsetUpdated? && e.eventNonce == b.lastEventNonce + 1 && b'.log == b.log + [e]
    requires b'.gravityId == b.gravityId && b'.checkpoint == b.checkpoint
    requires b'.lastValsetNonce == b.lastValsetNonce && b'.lastEventNonce == b.lastEventNonce + 1
    ensures CheckpointCurrent(b') && Chain(verify, b'.gravityId, Valsets(b'.log)) && EventsGapFree(b')
  {
    hide Chain;
    ValsetsPush(b.log, e);
    assert Valsets(b.log) + [] == Valsets(b.log);
  }

  lemma BatchSafe(b: Bridge, verify: Verifier, batch: Batch)
    requires Safe(b, verify) && Get(b.batchNonces, batch.token) < batch.nonce
    ensures Safe(BatchDone(b, batch), verify)
  {
    hide Chain;
    var b' := BatchDone(b, batch);
    ChainStays(b, verify, b', b'.log[|b.log|]);
    hide CheckpointCurrent;
  }

  lemma CallSafe(b: Bridge, verify: Verifier, call: LogicCall)
    requires Safe(b, verify) && Get(b.invalidations, call.invalidationId) < call.invalidationNonce
    ensures Safe(CallDone(b, call), verify)
  {
    hide Chain;
    var b' := CallDone(b, call);
    ChainStays(b, verify, b', b'.log[|b.log|]);
    hide CheckpointCurrent;
  }

  lemma NotedSafe(b: Bridge, verify: Verifier, e: Event)
    requires Safe(b, verify) && (e.SentToCosmos? || e.Erc20Deployed?) && e.eventNonce == b.lastEventNonce + 1
    ensures Safe(b.(lastEventNonce := b.lastEventNonce + 1, log := b.log + [e]), verify)
  {
    hide Chain;
    ChainStays(b, verify, b.(lastEventNonce := b.lastEventNonce + 1, log := b.log + [e]), e);
    hide CheckpointCurrent;
  }

  lemma {:induction false} StepSafe(b: Bridge, verify: Verifier, op: Op)
    requires Safe(b, verify)
    ensures Safe(Step(b, verify, op), verify) && Step(b, verify, op).gravityId == b.gravityId
  {
    hide Safe, Approved;
    if Succeeds(b, verify, op) {
      match op
      case OUpdate(newSet, current, sigs, paid) => UpdateSafe(b, verify, newSet, current, sigs, paid);
      case OBatch(_, _, batch, _, _) => BatchSafe(b, verify, batch);
      case OCall(_, _, call, _, _) => CallSafe(b, verify, call);
      case OSend(token, sender, starting, ending) =>
        NotedSafe(b, verify, SentToCosmos(token, sender, ending - starting, b.lastEventNonce + 1));
      case ODeploy(token) => NotedSafe(b, verify, Erc20Deployed(token, b.lastEventNonce + 1));
    }
  }

  /**
   Trace safety, from deployment on: in every reachable state the checkpoint is that of the last
   announced set, that set can pass a vote, every set was approved by a quorum of its predecessor,
   no batch or call executed twice, and events are numbered without a gap.
   */
  lemma {:induction false} EveryRunSafe(gravityId: nat, validators: seq<Address>, powers: seq<nat>,
      verify: Verifier, ops: seq<Op>)
    requires Deploy(gravityId, validators, powers).Ok?
    ensures Safe(Run(Deploy(gravityId, validators, powers).value, verify, ops), verify)
  {
    var b := Deploy(gravityId, validators, powers).value;
    if ops == [] {
      DeploySafe(gravityId, validators, powers, verify);
    } else {
      EveryRunSafe(gravityId, validators, powers, verify, ops[..|ops| - 1]);
      StepSafe(Run(b, verify, ops[..|ops| - 1]), verify, ops[|ops| - 1]);
    }
  }

  /** The log only grows: what was announced or executed stays on record. */
  lemma {:induction false} LogGrows(b: Bridge, verify: Verifier, ops: seq<Op>)
    ensures b.log <= Run(b, verify, ops).log
  {
    if ops != [] {
      LogGrows(b, verify, ops[..|ops| - 1]);
    }
  }

  /** Once a batch has been executed it can never be executed again, whoever signs. */
  lemma {:induction false} NoBatchTwice(b: Bridge, verify: Verifier, ops: seq<Op>, i: nat,
      current: Valset, sigs: seq<Signature>, batch: Batch, height: nat, paid: bool)
    requires Safe(b, verify) && i < |b.log|
    requires b.log[i].BatchExecuted? && b.log[i].batchNonce == batch.nonce && b.log[i].token == batch.token
    ensures !MayExecuteBatch(Run(b, verify, ops), verify, current, sigs, batch, height, paid)
  {
    RunSafe(b, verify, ops);
    LogGrows(b, verify, ops);
    assert Run(b, verify, ops).log[i] == b.log[i];
  }

  lemma {:induction false} NoCallTwice(b: Bridge, verify: Verifier, ops: seq<Op>, i: nat,
      current: Valset, sigs: seq<Signature>, call: LogicCall, height: nat, done: bool)
    requires Safe(b, verify) && i < |b.log|
    requires b.log[i].CallExecuted? && b.log[i].invalidationNonce == call.invalidationNonce
    requires b.log[i].invalidationId == call.invalidationId
    ensures !MayCall(Run(b, verify, ops), verify, current, sigs, call, height, done)
  {
    RunSafe(b, verify, ops);
    LogGrows(b, verify, ops);
    assert Run(b, verify, ops).log[i] == b.log[i];
  }

  lemma {:induction false} RunSafe(b: Bridge, verify: Verifier, ops: seq<Op>)
    requires Safe(b, verify)
    ensures Safe(Run(b, verify, ops), verify)
  {
    if ops != [] {
      RunSafe(b, verify, ops[..|ops| - 1]);
      StepSafe(Run(b, verify, ops[..|ops| - 1]), verify, ops[|ops| - 1]);
    }
  }

  lemma {:induction false} SignedPowerTotal(vs: Valset, sigs: seq<Signature>, n: nat)
    requires WellFormed(vs, sigs) && n <= |sigs| && forall i :: 0 <= i < |sigs| ==> sigs[i].v != 0
    ensures SignedPower(vs, sigs, n) == TotalPower(vs.powers[..n])
  {
    if n > 0 {
      SignedPowerTotal(vs, sigs, n - 1);
      assert vs.powers[..n][..n - 1] == vs.powers[..n - 1];
    }
  }

  /** The bridge is never stuck: in a safe state, valid signatures of the whole current set pass. */
  lemma NeverStuck(b: Bridge, verify: Verifier, sigs: seq<Signature>, m: Message)
    requires Safe(b, verify)
    requires var current := b.checkpoint.valset;
      |sigs| == |current.validators|
      && forall i :: 0 <= i < |sigs| && i < |current.validators| ==>
           sigs[i].v != 0 && verify(current.validators[i], m, sigs[i])
    ensures Approved(b, verify, b.checkpoint.valset, sigs, m)
  {
    var current, sets := b.checkpoint.valset, Valsets(b.log);
    assert CanVote(sets[|sets| - 1]);
    SignedPowerTotal(current, sigs, |sigs|);
    CountsGenuine(verify, current, sigs, m, |sigs|);
    assert current.powers[..|sigs|] == current.powers;
    AllValidAccepted(verify, current, sigs, m, POWER_THRESHOLD);
  }

  // ---------- When calls go through, and what they leave ----------

  /** A quorum of the set whose checkpoint is stored. */
  ghost predicate CurrentQuorum(b: Bridge, verify: Verifier, current: Valset, sigs: seq<Signature>, m: Message) {
    && |current.validators| == |current.powers| == |sigs|
    && b.checkpoint == Checkpoint(b.gravityId, current)
    && Quorum(verify, current, sigs, m, POWER_THRESHOLD)
  }

  /** When a call goes through, exactly, counting genuine signers: sizes, nonces, timeouts and quorum. */
  lemma {:induction false} SucceedsExactlyWhen(b: Bridge, verify: Verifier, op: Op)
    ensures Succeeds(b, verify, op) <==> match op
      case OUpdate(newSet, current, sigs, paid) =>
        && 0 < newSet.nonce - current.nonce <= 1_000_000
        && 0 < |newSet.validators| == |newSet.powers| && TotalPower(newSet.powers) > 2_863_311_530
        && CurrentQuorum(b, verify, current, sigs, Checkpoint(b.gravityId, newSet))
        && (newSet.rewardToken == 0 || newSet.rewardAmount == 0 || paid)
      case OBatch(current, sigs, batch, height, paid) =>
        && 0 < batch.nonce - Get(b.batchNonces, batch.token) <= 1_000_000 && height < batch.timeout
        && |batch.amounts| == |batch.destinations| && |batch.amounts| == |batch.fees|
        && CurrentQuorum(b, verify, current, sigs, BatchMessage(b.gravityId, batch)) && paid
      case OCall(current, sigs, call, height, done) =>
        && height < call.timeOut && call.invalidationNonce > Get(b.invalidations, call.invalidationId)
        && |call.transferAmounts| == |call.transferTokens| && |call.feeAmounts| == |call.feeTokens|
        && CurrentQuorum(b, verify, current, sigs, CallMessage(b.gravityId, call)) && done
      case OSend(_, _, starting, ending) => ending > starting
      case ODeploy(_) => true
  {
    match op
    case OUpdate(newSet, current, sigs, _) =>
      if WellFormed(current, sigs) {
        AcceptsExactlyWhen(verify, current, sigs, Checkpoint(b.gravityId, newSet), POWER_THRESHOLD);
      }
    case OBatch(current, sigs, batch, _, _) =>
      if WellFormed(current, sigs) {
        AcceptsExactlyWhen(verify, current, sigs, BatchMessage(b.gravityId, batch), POWER_THRESHOLD);
      }
    case OCall(current, sigs, call, _, _) =>
      if WellFormed(current, sigs) {
        AcceptsExactlyWhen(verify, current, sigs, CallMessage(b.gravityId, call), POWER_THRESHOLD);
      }
    case _ =>
  }

  /** The event that a call leaves, but for its number. */
  predicate Reports(op: Op, e: Event) {
    match op
    case OUpdate(newSet, _, _, _) => e.ValsetUpdated? && e.valset == newSet
    case OBatch(_, _, batch, _, _) => e.BatchExecuted? && e.batchNonce == batch.nonce && e.token == batch.token
    case OCall(_, _, call, _, _) =>
      e.CallExecuted? && e.invalidationId == call.invalidationId && e.invalidationNonce == call.invalidationNonce
    case OSend(token, sender, starting, ending) =>
      e.SentToCosmos? && e.token == token && e.sender == sender && starting + e.amount == ending
    case ODeploy(token) => e.Erc20Deployed? && e.token == token
  }

  /** A call that goes through leaves one event, that reports it; an executed nonce is the one now stored. */
  lemma StepReports(b: Bridge, verify: Verifier, op: Op)
    requires Succeeds(b, verify, op)
    ensures var b' := Step(b, verify, op);
      && |b'.log| == |b.log| + 1 && b'.log[..|b.log|] == b.log && Reports(op, b'.log[|b.log|])
      && (op.OBatch? ==> b'.batchNonces == b.batchNonces[op.batch.token := op.batch.nonce])
      && (!op.OBatch? ==> b'.batchNonces == b.batchNonces)
      && (op.OCall? ==> b'.invalidations == b.invalidations[op.call.invalidationId := op.call.invalidationNonce])
      && (!op.OCall? ==> b'.invalidations == b.invalidations)
      && b'.checkpoint == if op.OUpdate? then Checkpoint(b.gravityId, op.newSet) else b.checkpoint
  {
    hide Approved;
  }
}
