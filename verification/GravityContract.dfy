/** The bridge contract in place: loops with early exit, checks in their order, named errors. */
module GravityContract {
  import opened Prelude
  import opened GravityModel
  import opened GravitySafety

  // ---------- The first check that fails ----------

  ghost function SignatureError(verify: Verifier, vs: Valset, sigs: seq<Signature>, m: Message,
      threshold: nat): Option<Error>
    requires WellFormed(vs, sigs)
  {
    if Accepts(verify, vs, sigs, m, threshold) then None
    else if !ValidPrefix(verify, vs, sigs, m, |sigs|) then Some(InvalidSignature)
    else Some(InsufficientPower)
  }

  ghost function UpdateError(b: Bridge, verify: Verifier, newSet: Valset, current: Valset, sigs: seq<Signature>,
      paid: bool): Option<Error> {
    if newSet.nonce <= current.nonce || newSet.nonce > current.nonce + MAX_SKIP then Some(InvalidValsetNonce)
    else if |newSet.validators| != |newSet.powers| || |newSet.validators| == 0 then Some(MalformedNewValidatorSet)
    else if !WellFormed(current, sigs) then Some(MalformedCurrentValidatorSet)
    else if TotalPower(newSet.powers) <= POWER_THRESHOLD then Some(InsufficientPower)
    else if Checkpoint(b.gravityId, current) != b.checkpoint then Some(IncorrectCheckpoint)
    else
      var e := SignatureError(verify, current, sigs, Checkpoint(b.gravityId, newSet), POWER_THRESHOLD);
      if e.Some? then e
      else if newSet.rewardToken != 0 && newSet.rewardAmount != 0 && !paid then Some(ExternalCallFailed)
      else None
  }

  ghost function BatchError(b: Bridge, verify: Verifier, current: Valset, sigs: seq<Signature>,
      batch: Batch, height: nat, paid: bool): Option<Error> {
    var last := Get(b.batchNonces, batch.token);
    if batch.nonce <= last || batch.nonce > last + MAX_SKIP then Some(InvalidBatchNonce)
    else if height >= batch.timeout then Some(BatchTimedOut)
    else if !WellFormed(current, sigs) then Some(MalformedCurrentValidatorSet)
    else if Checkpoint(b.gravityId, current) != b.checkpoint then Some(IncorrectCheckpoint)
    else if |batch.amounts| != |batch.destinations| || |batch.amounts| != |batch.fees| then Some(MalformedBatch)
    else
      var e := SignatureError(verify, current, sigs, BatchMessage(b.gravityId, batch), POWER_THRESHOLD);
      if e.Some? then e else if !paid then Some(ExternalCallFailed) else None
  }

  ghost function CallError(b: Bridge, verify: Verifier, current: Valset, sigs: seq<Signature>,
      call: LogicCall, height: nat, done: bool): Option<Error> {
    if height >= call.timeOut then Some(LogicCallTimedOut)
    else if Get(b.invalidations, call.invalidationId) >= call.invalidationNonce then Some(InvalidLogicCallNonce)
    else if !WellFormed(current, sigs) then Some(MalformedCurrentValidatorSet)
    else if Checkpoint(b.gravityId, current) != b.checkpoint then Some(IncorrectCheckpoint)
    else if |call.transferAmounts| != |call.transferTokens| then Some(InvalidLogicCallTransfers)
    else if |call.feeAmounts| != |call.feeTokens| then Some(InvalidLogicCallFees)
    else
      var e := SignatureError(verify, current, sigs, CallMessage(b.gravityId, call), POWER_THRESHOLD);
      if e.Some? then e else if !done then Some(ExternalCallFailed) else None
  }

  /** A call goes through exactly when no check fails. */
  lemma NoErrorIffAllowed(b: Bridge, verify: Verifier, op: Op)
    ensures match op
      case OUpdate(newSet, current, sigs, paid) =>
        UpdateError(b, verify, newSet, current, sigs, paid).None? <==> Succeeds(b, verify, op)
      case OBatch(current, sigs, batch, height, paid) =>
        BatchError(b, verify, current, sigs, batch, height, paid).None? <==> Succeeds(b, verify, op)
      case OCall(current, sigs, call, height, done) =>
        CallError(b, verify, current, sigs, call, height, done).None? <==> Succeeds(b, verify, op)
      case _ => true
  {}

  /** Adds powers until the threshold is passed. */
  method HasPower(powers: seq<nat>) returns (ok: bool)
    ensures ok <==> TotalPower(powers) > POWER_THRESHOLD
  {
    var cumulativePower := 0;
    for i := 0 to |powers|
      invariant cumulativePower == TotalPower(powers[..i])
    {
      assert powers[..i + 1][..i] == powers[..i];
      cumulativePower := cumulativePower + powers[i];
      if cumulativePower > POWER_THRESHOLD {
        TotalPowerMonotone(powers, i + 1);
        return true;
      }
    }
    assert powers[..|powers|] == powers;
    return cumulativePower > POWER_THRESHOLD;
  }

  lemma {:induction false} TotalPowerMonotone(powers: seq<nat>, n: nat)
    requires n <= |powers|
    ensures TotalPower(powers[..n]) <= TotalPower(powers)
    decreases |powers| - n
  {
    if n == |powers| {
      assert powers[..n] == powers;
    } else {
      assert powers[..n + 1][..n] == powers[..n];
      TotalPowerMonotone(powers, n + 1);
    }
  }

  /** Counts signatures with early exit; skipped signatures have v == 0. */
  method CheckValidatorSignatures(verify: Verifier, current: Valset, sigs: seq<Signature>, m: Message, threshold: nat)
    returns (e: Option<Error>)
    requires WellFormed(current, sigs)
    ensures e == SignatureError(verify, current, sigs, m, threshold)
    ensures e.None? <==> Quorum(verify, current, sigs, m, threshold)
  {
    AcceptsExactlyWhen(verify, current, sigs, m, threshold);
    hide Quorum;
    var cumulativePower := 0;
    for i := 0 to |current.validators|
      invariant cumulativePower == SignedPower(current, sigs, i) <= threshold
      invariant ValidPrefix(verify, current, sigs, m, i)
    {
      if sigs[i].v != 0 {
        if !verify(current.validators[i], m, sigs[i]) {
          NotAcceptedBefore(verify, current, sigs, m, threshold, i);
          return Some(InvalidSignature);
        }
        cumulativePower := cumulativePower + current.powers[i];
        if cumulativePower > threshold {
          assert SignedPower(current, sigs, i + 1) > threshold;
          break;
        }
      }
    }
    if cumulativePower <= threshold {
      CountsGenuine(verify, current, sigs, m, |sigs|);
      AllValidAccepted(verify, current, sigs, m, threshold);
      return Some(InsufficientPower);
    }
    return None;
  }

  /** An invalid signature met before the threshold is passed rules acceptance out. */
  lemma NotAcceptedBefore(verify: Verifier, vs: Valset, sigs: seq<Signature>, m: Message, threshold: nat, i: nat)
    requires WellFormed(vs, sigs) && i < |sigs| && SignedPower(vs, sigs, i) <= threshold
    requires sigs[i].v != 0 && !verify(vs.validators[i], m, sigs[i])
    ensures !Accepts(verify, vs, sigs, m, threshold)
  {
    forall n | 0 <= n <= |sigs| && SignedPower(vs, sigs, n) > threshold
      ensures !ValidPrefix(verify, vs, sigs, m, n)
    {
      if n <= i {
        SignedPowerMonotone(vs, sigs, n, i);
      }
    }
  }

  class Gravity {
    const verify: Verifier
    const gravityId: nat
    var checkpoint: Message
    var batchNonces: map<Address, nat>
    var invalidations: map<nat, nat>
    var lastValsetNonce: nat
    var lastEventNonce: nat
    var log: seq<Event>

    ghost function View(): Bridge reads this {
      Bridge(gravityId, checkpoint, batchNonces, invalidations, lastValsetNonce, lastEventNonce, log)
    }

    ghost predicate Valid() reads this { Safe(View(), verify) }

    constructor (signatureCheck: Verifier, id: nat, validators: seq<Address>, powers: seq<nat>)
      requires Deploy(id, validators, powers).Ok?
      ensures Valid() && verify == signatureCheck
      ensures View() == Deploy(id, validators, powers).value
    {
      verify, gravityId := signatureCheck, id;
      var vs := Valset(validators, powers, 0, 0, 0);
      checkpoint, batchNonces, invalidations := Checkpoint(id, vs), map[], map[];
      lastValsetNonce, lastEventNonce, log := 0, 1, [ValsetUpdated(vs, 1)];
      new;
      DeploySafe(id, validators, powers, signatureCheck);
    }

    /** Deploys a bridge, or reports why the first validator set is refused. */
    static method Create(signatureCheck: Verifier, id: nat, validators: seq<Address>, powers: seq<nat>)
      returns (e: Option<Error>, bridge: Gravity?)
      ensures e == match Deploy(id, validators, powers) case Ok(_) => None case Err(error) => Some(error)
      ensures e.None? ==>
        bridge != null && fresh(bridge) && bridge.Valid()
        && bridge.View() == Deploy(id, validators, powers).value
    {
      bridge := null;
      if |validators| != |powers| || |validators| == 0 { return Some(MalformedCurrentValidatorSet), null; }
      var enough := HasPower(powers);
      if !enough { return Some(InsufficientPower), null; }
      bridge := new Gravity(signatureCheck, id, validators, powers);
      return None, bridge;
    }

    method UpdateValset(newSet: Valset, current: Valset, sigs: seq<Signature>, paid: bool) returns (e: Option<Error>)
      requires Valid()
      modifies this
      ensures Valid()
      ensures e == UpdateError(old(View()), verify, newSet, current, sigs, paid)
      ensures View() == Step(old(View()), verify, OUpdate(newSet, current, sigs, paid))
    {
      hide Safe;
      StepSafe(View(), verify, OUpdate(newSet, current, sigs, paid));
      if newSet.nonce <= current.nonce { return Some(InvalidValsetNonce); }
      if newSet.nonce > current.nonce + MAX_SKIP { return Some(InvalidValsetNonce); }
      if |newSet.validators| != |newSet.powers| || |newSet.validators| == 0 {
        return Some(MalformedNewValidatorSet);
      }
      if |current.validators| != |current.powers| || |current.validators| != |sigs| {
        return Some(MalformedCurrentValidatorSet);
      }
      var enough := HasPower(newSet.powers);
      if !enough { return Some(InsufficientPower); }
      if Checkpoint(gravityId, current) != checkpoint { return Some(IncorrectCheckpoint); }
      e := CheckValidatorSignatures(verify, current, sigs, Checkpoint(gravityId, newSet), POWER_THRESHOLD);
      if e.Some? { return; }
      if newSet.rewardToken != 0 && newSet.rewardAmount != 0 && !paid { return Some(ExternalCallFailed); }
      checkpoint := Checkpoint(gravityId, newSet);
      lastValsetNonce := newSet.nonce;
      lastEventNonce := lastEventNonce + 1;
      log := log + [ValsetUpdated(newSet, lastEventNonce)];
    }

    method SubmitBatch(current: Valset, sigs: seq<Signature>, batch: Batch, height: nat,
        paid: bool) returns (e: Option<Error>)
      requires Valid()
      modifies this
      ensures Valid()
      ensures e == BatchError(old(View()), verify, current, sigs, batch, height, paid)
      ensures View() == Step(old(View()), verify, OBatch(current, sigs, batch, height, paid))
    {
      hide Safe;
      StepSafe(View(), verify, OBatch(current, sigs, batch, height, paid));
      if batch.nonce <= Get(batchNonces, batch.token) { return Some(InvalidBatchNonce); }
      if batch.nonce > Get(batchNonces, batch.token) + MAX_SKIP { return Some(InvalidBatchNonce); }
      if height >= batch.timeout { return Some(BatchTimedOut); }
      if |current.validators| != |current.powers| || |current.validators| != |sigs| {
        return Some(MalformedCurrentValidatorSet);
      }
      if Checkpoint(gravityId, current) != checkpoint { return Some(IncorrectCheckpoint); }
      if |batch.amounts| != |batch.destinations| || |batch.amounts| != |batch.fees| {
        return Some(MalformedBatch);
      }
      e := CheckValidatorSignatures(verify, current, sigs, BatchMessage(gravityId, batch), POWER_THRESHOLD);
      if e.Some? { return; }
      if !paid { return Some(ExternalCallFailed); }
      batchNonces := batchNonces[batch.token := batch.nonce];
      lastEventNonce := lastEventNonce + 1;
      log := log + [BatchExecuted(batch.nonce, batch.token, lastEventNonce)];
    }

    method SubmitLogicCall(current: Valset, sigs: seq<Signature>, call: LogicCall, height: nat,
        done: bool) returns (e: Option<Error>)
      requires Valid()
      modifies this
      ensures Valid()
      ensures e == CallError(old(View()), verify, current, sigs, call, height, done)
      ensures View() == Step(old(View()), verify, OCall(current, sigs, call, height, done))
    {
      hide Safe;
      StepSafe(View(), verify, OCall(current, sigs, call, height, done));
      if height >= call.timeOut { return Some(LogicCallTimedOut); }
      if Get(invalidations, call.invalidationId) >= call.invalidationNonce { return Some(InvalidLogicCallNonce); }
      if |current.validators| != |current.powers| || |current.validators| != |sigs| {
        return Some(MalformedCurrentValidatorSet);
      }
      if Checkpoint(gravityId, current) != checkpoint { return Some(IncorrectCheckpoint); }
      if |call.transferAmounts| != |call.transferTokens| { return Some(InvalidLogicCallTransfers); }
      if |call.feeAmounts| != |call.feeTokens| { return Some(InvalidLogicCallFees); }
      e := CheckValidatorSignatures(verify, current, sigs, CallMessage(gravityId, call), POWER_THRESHOLD);
      if e.Some? { return; }
      if !done { return Some(ExternalCallFailed); }
      invalidations := invalidations[call.invalidationId := call.invalidationNonce];
      lastEventNonce := lastEventNonce + 1;
      log := log + [CallExecuted(call.invalidationId, call.invalidationNonce, lastEventNonce)];
    }

    method SendToCosmos(token: Address, sender: Address, starting: nat, ending: nat) returns (e: Option<Error>)
      requires Valid()
      modifies this
      ensures Valid()
      ensures e == if ending <= starting then Some(InvalidSendToCosmos) else None
      ensures View() == Step(old(View()), verify, OSend(token, sender, starting, ending))
    {
      hide Safe;
      StepSafe(View(), verify, OSend(token, sender, starting, ending));
      if ending <= starting { return Some(InvalidSendToCosmos); }
      lastEventNonce := lastEventNonce + 1;
      log := log + [SentToCosmos(token, sender, ending - starting, lastEventNonce)];
      return None;
    }

    method DeployERC20(token: Address)
      requires Valid()
      modifies this
      ensures Valid()
      ensures View() == Step(old(View()), verify, ODeploy(token))
    {
      hide Safe;
      StepSafe(View(), verify, ODeploy(token));
      lastEventNonce := lastEventNonce + 1;
      log := log + [Erc20Deployed(token, lastEventNonce)];
    }
  }
}
