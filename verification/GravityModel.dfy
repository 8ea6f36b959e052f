/**
 The Gravity bridge contract: messages approved by a quorum of the validator set whose checkpoint
 is stored. A hash is modelled by the message it is taken of, so hashing is injective; signature
 recovery is a predicate that the bridge is given.
 */
module GravityModel {
  import opened Prelude

  const POWER_THRESHOLD: nat := 2863311530
  const MAX_SKIP: nat := 1000000

  datatype Valset = Valset(
    validators: seq<Address>, powers: seq<nat>, nonce: nat, rewardAmount: nat, rewardToken: Address)

  datatype Batch = Batch(
    amounts: seq<nat>, destinations: seq<Address>, fees: seq<nat>, nonce: nat, token: Address, timeout: nat)

  datatype LogicCall = LogicCall(
    transferAmounts: seq<nat>, transferTokens: seq<Address>, feeAmounts: seq<nat>, feeTokens: seq<Address>,
    logicContract: Address, payload: seq<nat>, timeOut: nat, invalidationId: nat, invalidationNonce: nat)

  /** What validators sign; the constructors keep checkpoints, batches and calls apart. */
  datatype Message =
    | Checkpoint(gravityId: nat, valset: Valset)
    | BatchMessage(gravityId: nat, batch: Batch)
    | CallMessage(gravityId: nat, call: LogicCall)

  datatype Signature = Signature(v: nat, r: nat, s: nat)

  type Verifier = (Address, Message, Signature) -> bool

  datatype Error =
    | InvalidSignature | InsufficientPower | InvalidValsetNonce | InvalidBatchNonce
    | InvalidLogicCallNonce | InvalidLogicCallTransfers | InvalidLogicCallFees | InvalidSendToCosmos
    | IncorrectCheckpoint | MalformedNewValidatorSet | MalformedCurrentValidatorSet | MalformedBatch
    | BatchTimedOut | LogicCallTimedOut | ExternalCallFailed

  datatype Result<+T> = Ok(value: T) | Err(error: Error)

  // ---------- Counting signatures ----------

  predicate WellFormed(vs: Valset, sigs: seq<Signature>) {
    |vs.validators| == |vs.powers| == |sigs|
  }

  /** The power of the first n validators that supplied a signature. */
  function SignedPower(vs: Valset, sigs: seq<Signature>, n: nat): nat
    requires WellFormed(vs, sigs) && n <= |sigs|
  {
    if n == 0 then 0
    else SignedPower(vs, sigs, n - 1) + if sigs[n - 1].v != 0 then vs.powers[n - 1] else 0
  }

  predicate ValidPrefix(verify: Verifier, vs: Valset, sigs: seq<Signature>, m: Message, n: nat)
    requires WellFormed(vs, sigs) && n <= |sigs|
  {
    forall i :: 0 <= i < n && sigs[i].v != 0 ==> verify(vs.validators[i], m, sigs[i])
  }

  /** Some prefix carries more than the threshold, and every signature supplied in it is valid. */
  ghost predicate Accepts(verify: Verifier, vs: Valset, sigs: seq<Signature>, m: Message, threshold: nat)
    requires WellFormed(vs, sigs)
  {
    exists n :: 0 <= n <= |sigs| && SignedPower(vs, sigs, n) > threshold && ValidPrefix(verify, vs, sigs, m, n)
  }

  function TotalPower(powers: seq<nat>): nat {
    if powers == [] then 0 else TotalPower(powers[..|powers| - 1]) + powers[|powers| - 1]
  }

  // ---------- State ----------

  datatype Event =
    | ValsetUpdated(valset: Valset, eventNonce: nat)
    | BatchExecuted(batchNonce: nat, token: Address, eventNonce: nat)
    | CallExecuted(invalidationId: nat, invalidationNonce: nat, eventNonce: nat)
    | SentToCosmos(token: Address, sender: Address, amount: nat, eventNonce: nat)
    | Erc20Deployed(token: Address, eventNonce: nat)

  datatype Bridge = Bridge(
    gravityId: nat,
    checkpoint: Message,
    batchNonces: map<Address, nat>,
    invalidations: map<nat, nat>,
    lastValsetNonce: nat,
    lastEventNonce: nat,
    log: seq<Event>)

  /** The constructor: the first set must be able to pass a vote; its event carries nonce 1. */
  function Deploy(gravityId: nat, validators: seq<Address>, powers: seq<nat>): Result<Bridge> {
    if |validators| != |powers| || |validators| == 0 then Err(MalformedCurrentValidatorSet)
    else if TotalPower(powers) <= POWER_THRESHOLD then Err(InsufficientPower)
    else
      var vs := Valset(validators, powers, 0, 0, 0);
      Ok(Bridge(gravityId, Checkpoint(gravityId, vs), map[], map[], 0, 1, [ValsetUpdated(vs, 1)]))
  }

  /** The checks every approved action shares: well-formed set, matching checkpoint, quorum. */
  ghost predicate Approved(b: Bridge, verify: Verifier, current: Valset, sigs: seq<Signature>, m: Message) {
    && WellFormed(current, sigs)
    && Checkpoint(b.gravityId, current) == b.checkpoint
    && Accepts(verify, current, sigs, m, POWER_THRESHOLD)
  }

  ghost predicate MayUpdate(b: Bridge, verify: Verifier, newSet: Valset, current: Valset, sigs: seq<Signature>,
      paid: bool) {
    && current.nonce < newSet.nonce <= current.nonce + MAX_SKIP
    && |newSet.validators| == |newSet.powers| && newSet.validators != []
    && TotalPower(newSet.powers) > POWER_THRESHOLD
    && Approved(b, verify, current, sigs, Checkpoint(b.gravityId, newSet))
    && (newSet.rewardToken != 0 && newSet.rewardAmount != 0 ==> paid)
  }

  function Updated(b: Bridge, newSet: Valset): Bridge {
    b.(
      checkpoint := Checkpoint(b.gravityId, newSet),
      lastValsetNonce := newSet.nonce,
      lastEventNonce := b.lastEventNonce + 1,
      log := b.log + [ValsetUpdated(newSet, b.lastEventNonce + 1)])
  }

  ghost predicate MayExecuteBatch(b: Bridge, verify: Verifier, current: Valset, sigs: seq<Signature>,
      batch: Batch, height: nat, paid: bool) {
    && Get(b.batchNonces, batch.token) < batch.nonce <= Get(b.batchNonces, batch.token) + MAX_SKIP
    && height < batch.timeout
    && |batch.amounts| == |batch.destinations| == |batch.fees|
    && Approved(b, verify, current, sigs, BatchMessage(b.gravityId, batch))
    && paid
  }

  function BatchDone(b: Bridge, batch: Batch): Bridge {
    b.(
      batchNonces := b.batchNonces[batch.token := batch.nonce],
      lastEventNonce := b.lastEventNonce + 1,
      log := b.log + [BatchExecuted(batch.nonce, batch.token, b.lastEventNonce + 1)])
  }

  ghost predicate MayCall(b: Bridge, verify: Verifier, current: Valset, sigs: seq<Signature>,
      call: LogicCall, height: nat, done: bool) {
    && height < call.timeOut
    && Get(b.invalidations, call.invalidationId) < call.invalidationNonce
    && |call.transferAmounts| == |call.transferTokens|
    && |call.feeAmounts| == |call.feeTokens|
    && Approved(b, verify, current, sigs, CallMessage(b.gravityId, call))
    && done
  }

  function CallDone(b: Bridge, call: LogicCall): Bridge {
    b.(
      invalidations := b.invalidations[call.invalidationId := call.invalidationNonce],
      lastEventNonce := b.lastEventNonce + 1,
      log := b.log + [CallExecuted(call.invalidationId, call.invalidationNonce, b.lastEventNonce + 1)])
  }

  function Sent(b: Bridge, token: Address, sender: Address, amount: nat): Bridge {
    b.(
      lastEventNonce := b.lastEventNonce + 1,
      log := b.log + [SentToCosmos(token, sender, amount, b.lastEventNonce + 1)])
  }

  function Deployed(b: Bridge, token: Address): Bridge {
    b.(
      lastEventNonce := b.lastEventNonce + 1,
      log := b.log + [Erc20Deployed(token, b.lastEventNonce + 1)])
  }

  // ---------- Runs ----------

  /** A call, with what the token contracts and the logic contract did where it depends on them. */
  datatype Op =
    | OUpdate(newSet: Valset, current: Valset, sigs: seq<Signature>, paid: bool)
    | OBatch(current: Valset, sigs: seq<Signature>, batch: Batch, height: nat, paid: bool)
    | OCall(current: Valset, sigs: seq<Signature>, call: LogicCall, height: nat, done: bool)
    | OSend(token: Address, sender: Address, starting: nat, ending: nat)
    | ODeploy(token: Address)

  /** Whether the call goes through. */
  ghost predicate Succeeds(b: Bridge, verify: Verifier, op: Op) {
    match op
    case OUpdate(newSet, current, sigs, paid) => MayUpdate(b, verify, newSet, current, sigs, paid)
    case OBatch(current, sigs, batch, height, paid) => MayExecuteBatch(b, verify, current, sigs, batch, height, paid)
    case OCall(current, sigs, call, height, done) => MayCall(b, verify, current, sigs, call, height, done)
    case OSend(token, sender, starting, ending) => starting < ending
    case ODeploy(token) => true
  }

  ghost function Step(b: Bridge, verify: Verifier, op: Op): Bridge {
    if !Succeeds(b, verify, op) then b
    else match op
      case OUpdate(newSet, _, _, _) => Updated(b, newSet)
      case OBatch(_, _, batch, _, _) => BatchDone(b, batch)
      case OCall(_, _, call, _, _) => CallDone(b, call)
      case OSend(token, sender, starting, ending) => Sent(b, token, sender, ending - starting)
      case ODeploy(token) => Deployed(b, token)
  }

  ghost function Run(b: Bridge, verify: Verifier, ops: seq<Op>): Bridge {
    if ops == [] then b else Step(Run(b, verify, ops[..|ops| - 1]), verify, ops[|ops| - 1])
  }
}
