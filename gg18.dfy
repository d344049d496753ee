/** The GG18 threshold-ECDSA adapter (src/protocol/gg18.rs): a six-step key
    generation and a ten-step signing state machine.  Every step first runs its
    fallible calls and only then overwrites the round, so a failing step leaves
    the context as it was. */
module Gg18 {
  import opened Wrappers
  import opened Wire
  import opened Protocol

  const ErrUnpack := "unpack failed"
  const ErrNotFinished := "protocol not finished"
  /** The panic message of `todo!()`, reached by advancing a finished context. */
  const ErrTodo := "not yet implemented"

  /** Stand-in for the library's opaque context structs
      (GG18KeyGenContext1..5, GG18SignContext, GG18SignContext1..9). */
  datatype Ctx = Ctx(state: Bytes)

  /** Which library step a call belongs to: gg18_key_gen_n or gg18_signn. */
  datatype Step = KeyGen(n: nat) | Sign(n: nat)

  /** The serialized output of one step, by shape: what `pack(ser, ProtocolType::Gg18)`
      wraps.  `Broadcast(m, k)` is `serialize_bcast(&out, k)`, one message meant for
      `k` peers; `Unicast` is `serialize_uni(outs)`, one message per peer; `Inflated(m, k)`
      is `inflate(m, k)`. */
  datatype Payload =
    | Broadcast(message: Bytes, peers: int)
    | Unicast(messages: seq<Bytes>)
    | Inflated(message: Bytes, copies: nat)

  datatype Packed = Packed(protocol: ProtocolType, payload: Payload)

  /** The code the adapter calls but that is not part of this model: protobuf
      decoding, pack/unpack, serde, and the mpecdsa library's steps. */
  datatype Env = Env(
    codec: Codec,
    unpack: Bytes -> Option<seq<Bytes>>,
    deserializeVec: (Step, seq<Bytes>) -> Option<seq<Bytes>>,
    toJson: Bytes -> Option<Bytes>,
    keyGen1: (uint16, uint16, uint16) -> Result<(Bytes, Ctx)>,
    sign1: (Ctx, seq<uint16>, nat, Bytes) -> Result<(Bytes, Ctx)>,
    broadcastStep: (Step, seq<Bytes>, Ctx) -> Result<(Bytes, Ctx)>,
    unicastStep: (Step, seq<Bytes>, Ctx) -> Result<(seq<Bytes>, Ctx)>,
    keyGen6: (seq<Bytes>, Ctx) -> Result<Ctx>,
    sign10: (seq<Bytes>, Ctx) -> Result<Bytes>,
    publicKey: Ctx -> Bytes,
    ctxJson: Ctx -> Bytes,
    parseGroup: Bytes -> Option<Ctx>)

  // ---------------------------------------------------------------------------
  // One arm of an update: deserialize the peers' messages, run the library step,
  // serialize its output.

  /** An arm whose step has one output, broadcast to the `n` peers heard from. */
  function BroadcastArm(env: Env, step: Step, msgs: seq<Bytes>, c: Ctx, n: nat): (r: Result<(Ctx, Payload)>)
    ensures r.Ok? <==>
      && env.deserializeVec(step, msgs).Some?
      && env.broadcastStep(step, env.deserializeVec(step, msgs).value, c).Ok?
      && env.toJson(env.broadcastStep(step, env.deserializeVec(step, msgs).value, c).value.0).Some?
    ensures env.deserializeVec(step, msgs).None? ==> r == Err(ErrDeserialize)
    ensures r.Ok? ==>
      var (out, next) := env.broadcastStep(step, env.deserializeVec(step, msgs).value, c).value;
      r.value == (next, Broadcast(env.toJson(out).value, n))
  {
    match env.deserializeVec(step, msgs)
    case None => Err(ErrDeserialize)
    case Some(ins) =>
      match env.broadcastStep(step, ins, c)
      case Err(e) => Err(e)
      case Ok((out, next)) =>
        match env.toJson(out)
        case None => Err(ErrSerialize)
        case Some(ser) => Ok((next, Broadcast(ser, n)))
  }

  /** Every output serialized, in order; one that fails fails them all. */
  function SerializeEach(outs: seq<Bytes>, toJson: Bytes -> Option<Bytes>): (r: Option<seq<Bytes>>)
    ensures r.Some? <==> forall i | 0 <= i < |outs| :: toJson(outs[i]).Some?
    ensures r.Some? ==> |r.value| == |outs| && forall i | 0 <= i < |outs| :: toJson(outs[i]) == Some(r.value[i])
    decreases |outs|
  {
    if outs == [] then Some([])
    else
      match toJson(outs[0])
      case None => None
      case Some(first) =>
        match SerializeEach(outs[1..], toJson)
        case None =>
          assert forall i | 0 <= i < |outs| - 1 :: outs[1..][i] == outs[i + 1];
          None
        case Some(rest) =>
          assert forall i | 1 <= i < |outs| :: outs[i] == outs[1..][i - 1];
          Some([first] + rest)
  }

  /** An arm whose step has one output per peer, each sent as a unicast. */
  function UnicastArm(env: Env, step: Step, msgs: seq<Bytes>, c: Ctx): (r: Result<(Ctx, Payload)>)
    ensures r.Ok? <==>
      && env.deserializeVec(step, msgs).Some?
      && var outs := env.unicastStep(step, env.deserializeVec(step, msgs).value, c);
      && outs.Ok? && forall i | 0 <= i < |outs.value.0| :: env.toJson(outs.value.0[i]).Some?
    ensures env.deserializeVec(step, msgs).None? ==> r == Err(ErrDeserialize)
    ensures r.Ok? ==>
      var (outs, next) := env.unicastStep(step, env.deserializeVec(step, msgs).value, c).value;
      && r.value.0 == next && r.value.1.Unicast? && |r.value.1.messages| == |outs|
      && forall i | 0 <= i < |outs| :: env.toJson(outs[i]) == Some(r.value.1.messages[i])
  {
    match env.deserializeVec(step, msgs)
    case None => Err(ErrDeserialize)
    case Some(ins) =>
      match env.unicastStep(step, ins, c)
      case Err(e) => Err(e)
      case Ok((outs, next)) =>
        match SerializeEach(outs, env.toJson)
        case None => Err(ErrSerialize)
        case Some(sers) => Ok((next, Unicast(sers)))
  }

  // ---------------------------------------------------------------------------
  // Key generation: R0 -> R1 -> R2 -> R3 -> R4 -> R5 -> Done

  /** Every round after R0 holds the library context of the steps done so far. */
  datatype KeygenRound = R0 | R1(ctx: Ctx) | R2(ctx: Ctx) | R3(ctx: Ctx) | R4(ctx: Ctx) | R5(ctx: Ctx) | Done(ctx: Ctx)

  /** How many steps a key generation in `round` has completed. */
  function KeygenStage(round: KeygenRound): (n: nat)
    ensures n <= 6 && (n == 6 <==> round.Done?)
  {
    match round
    case R0 => 0
    case R1(_) => 1
    case R2(_) => 2
    case R3(_) => 3
    case R4(_) => 4
    case R5(_) => 5
    case Done(_) => 6
  }

  /** `init`: decode the group parameters, run gg18_key_gen_1 and broadcast its
      output to the other `parties - 1` parties. */
  function KeygenInit(data: Bytes, env: Env): (r: Result<(KeygenRound, Packed)>)
    ensures r.Ok? <==>
      && env.codec.decodeGroupInit(data).Some?
      && var msg := env.codec.decodeGroupInit(data).value;
      && env.keyGen1(AsU16(msg.parties), AsU16(msg.threshold), AsU16(msg.index)).Ok?
      && env.toJson(env.keyGen1(AsU16(msg.parties), AsU16(msg.threshold), AsU16(msg.index)).value.0).Some?
    ensures env.codec.decodeGroupInit(data).None? ==> r == Err(ErrDecode)
    ensures r.Ok? ==>
      var msg := env.codec.decodeGroupInit(data).value;
      var (out, c1) := env.keyGen1(AsU16(msg.parties), AsU16(msg.threshold), AsU16(msg.index)).value;
      r.value == (KeygenRound.R1(c1), Packed(Gg18, Broadcast(env.toJson(out).value, msg.parties - 1)))
  {
    match env.codec.decodeGroupInit(data)
    case None => Err(ErrDecode)
    case Some(msg) =>
      var (parties, threshold, index) := (AsU16(msg.parties), AsU16(msg.threshold), AsU16(msg.index));
      match env.keyGen1(parties, threshold, index)
      case Err(e) => Err(e)
      case Ok((out, c1)) =>
        match env.toJson(out)
        case None => Err(ErrSerialize)
        case Some(ser) => Ok((KeygenRound.R1(c1), Packed(Gg18, Broadcast(ser, msg.parties as int - 1))))
  }

  /** The `match &self.round` of `update`: the next round and the output, from
      the unpacked peer messages. */
  function KeygenMatch(round: KeygenRound, msgs: seq<Bytes>, env: Env): (r: Result<(KeygenRound, Payload)>)
    requires !round.R0?
    ensures round.Done? ==> r == Err(ErrTodo)
    ensures r.Ok? ==> KeygenStage(r.value.0) == KeygenStage(round) + 1
    ensures r.Ok? ==> (r.value.1.Unicast? <==> round.R2?)
    ensures r.Ok? && !round.R2? && !round.R5? ==> r.value.1 == Broadcast(r.value.1.message, |msgs|)
    // In round Rk the step is gg18_key_gen_{k+1}, run on the context Rk holds;
    // the next round holds the context that step returns.
    ensures round.R1? || round.R3? || round.R4? ==>
      var arm := BroadcastArm(env, KeyGen(KeygenStage(round) + 1), msgs, round.ctx, |msgs|);
      && (r.Ok? <==> arm.Ok?)
      && (r.Ok? ==> r.value.0.ctx == arm.value.0 && r.value.1 == arm.value.1)
      && (r.Err? ==> r.error == arm.error)
    ensures round.R2? ==>
      var arm := UnicastArm(env, KeyGen(3), msgs, round.ctx);
      && (r.Ok? <==> arm.Ok?)
      && (r.Ok? ==> r.value.0.ctx == arm.value.0 && r.value.1 == arm.value.1)
      && (r.Err? ==> r.error == arm.error)
    ensures round.R5? ==>
      && (r.Ok? <==>
          && env.deserializeVec(KeyGen(6), msgs).Some?
          && env.keyGen6(env.deserializeVec(KeyGen(6), msgs).value, round.ctx).Ok?)
      && (r.Ok? ==>
          var c := env.keyGen6(env.deserializeVec(KeyGen(6), msgs).value, round.ctx).value;
          r.value == (KeygenRound.Done(c), Inflated(env.publicKey(c), |msgs|)))
  {
    var n := |msgs|;
    match round
    case R1(c1) =>
      (match BroadcastArm(env, KeyGen(2), msgs, c1, n)
       case Err(e) => Err(e)
       case Ok((c2, ser)) => Ok((KeygenRound.R2(c2), ser)))
    case R2(c2) =>
      (match UnicastArm(env, KeyGen(3), msgs, c2)
       case Err(e) => Err(e)
       case Ok((c3, ser)) => Ok((KeygenRound.R3(c3), ser)))
    case R3(c3) =>
      (match BroadcastArm(env, KeyGen(4), msgs, c3, n)
       case Err(e) => Err(e)
       case Ok((c4, ser)) => Ok((KeygenRound.R4(c4), ser)))
    case R4(c4) =>
      (match BroadcastArm(env, KeyGen(5), msgs, c4, n)
       case Err(e) => Err(e)
       case Ok((c5, ser)) => Ok((KeygenRound.R5(c5), ser)))
    case R5(c5) =>
      (match env.deserializeVec(KeyGen(6), msgs)
       case None => Err(ErrDeserialize)
       case Some(ins) =>
         match env.keyGen6(ins, c5)
         case Err(e) => Err(e)
         case Ok(c) => Ok((KeygenRound.Done(c), Inflated(env.publicKey(c), n))))
    case Done(_) => Err(ErrTodo)
  }

  /** `update`: unpack the relay's message, then step; a finished context
      reaches the `todo!()` arm only once the message has been unpacked. */
  function KeygenUpdate(round: KeygenRound, data: Bytes, env: Env): (r: Result<(KeygenRound, Packed)>)
    requires !round.R0?
    ensures env.unpack(data).None? ==> r == Err(ErrUnpack)
    ensures env.unpack(data).Some? ==>
      var step := KeygenMatch(round, env.unpack(data).value, env);
      && (r.Ok? <==> step.Ok?)
      && (r.Ok? ==> r.value == (step.value.0, Packed(Gg18, step.value.1)))
      && (r.Err? ==> r.error == step.error)
    ensures round.Done? ==> r == Err(if env.unpack(data).None? then ErrUnpack else ErrTodo)
  {
    match env.unpack(data)
    case None => Err(ErrUnpack)
    case Some(msgs) =>
      match KeygenMatch(round, msgs, env)
      case Err(e) => Err(e)
      case Ok((next, ser)) => Ok((next, Packed(Gg18, ser)))
  }

  /** `advance`: `init` in R0, `update` otherwise, so advancing a finished
      context fails with unpack's error or else at the `todo!()` arm. */
  function KeygenAdvance(round: KeygenRound, data: Bytes, env: Env): (r: Result<(KeygenRound, Packed)>)
    ensures round.Done? ==> r == Err(if env.unpack(data).None? then ErrUnpack else ErrTodo)
    ensures r.Ok? ==> KeygenStage(r.value.0) == KeygenStage(round) + 1
  {
    if round.R0? then KeygenInit(data, env) else KeygenUpdate(round, data, env)
  }

  /** `finish`: the serialized final context, once key generation is Done. */
  function KeygenFinish(round: KeygenRound, env: Env): (r: Result<Bytes>)
    ensures r.Ok? <==> round.Done?
    ensures round.Done? ==> r.value == env.ctxJson(round.ctx)
  {
    match round
    case Done(ctx) => Ok(env.ctxJson(ctx))
    case _ => Err(ErrNotFinished)
  }

  /** Advancing through `inputs`, each advance succeeding. */
  function KeygenRun(round: KeygenRound, inputs: seq<Bytes>, env: Env): Result<KeygenRound>
    decreases |inputs|
  {
    if inputs == [] then Ok(round)
    else
      match KeygenAdvance(round, inputs[0], env)
      case Err(e) => Err(e)
      case Ok((next, _)) => KeygenRun(next, inputs[1..], env)
  }

  /** Every successful advance completes exactly one step. */
  lemma {:induction false} KeygenRunStage(round: KeygenRound, inputs: seq<Bytes>, env: Env)
    requires KeygenRun(round, inputs, env).Ok?
    ensures KeygenStage(KeygenRun(round, inputs, env).value) == KeygenStage(round) + |inputs|
    decreases |inputs|
  {
    if inputs != [] {
      var next := KeygenAdvance(round, inputs[0], env).value.0;
      KeygenRunStage(next, inputs[1..], env);
    }
  }

  /** From a fresh context, at most six advances can succeed; key generation
      is Done after six and not before, so `finish` succeeds exactly then. */
  lemma KeygenDoneAfterSix(inputs: seq<Bytes>, env: Env)
    requires KeygenRun(KeygenRound.R0, inputs, env).Ok?
    ensures |inputs| <= 6
    ensures KeygenRun(KeygenRound.R0, inputs, env).value.Done? <==> |inputs| == 6
    ensures KeygenFinish(KeygenRun(KeygenRound.R0, inputs, env).value, env).Ok? <==> |inputs| == 6
  {
    KeygenRunStage(KeygenRound.R0, inputs, env);
  }

  class KeygenContext {
    var round: KeygenRound

    constructor ()
      ensures round == KeygenRound.R0
    {
      round := KeygenRound.R0;
    }

    method Init(data: Bytes, env: Env) returns (r: Result<Packed>)
      modifies this
      ensures KeygenInit(data, env).Ok? ==> round == KeygenInit(data, env).value.0 && r == Ok(KeygenInit(data, env).value.1)
      ensures KeygenInit(data, env).Err? ==> round == old(round) && r == Err(KeygenInit(data, env).error)
    {
      var msg := env.codec.decodeGroupInit(data);
      if msg.None? {
        return Err(ErrDecode);
      }
      var (parties, threshold, index) := (AsU16(msg.value.parties), AsU16(msg.value.threshold), AsU16(msg.value.index));
      var step := env.keyGen1(parties, threshold, index);
      if step.Err? {
        return Err(step.error);
      }
      var (out, c1) := step.value;
      var ser := env.toJson(out);
      if ser.None? {
        return Err(ErrSerialize);
      }
      round := KeygenRound.R1(c1);
      return Ok(Packed(Gg18, Broadcast(ser.value, msg.value.parties as int - 1)));
    }

    method Update(data: Bytes, env: Env) returns (r: Result<Packed>)
      requires !round.R0?
      modifies this
      ensures KeygenUpdate(old(round), data, env).Ok? ==>
        round == KeygenUpdate(old(round), data, env).value.0 && r == Ok(KeygenUpdate(old(round), data, env).value.1)
      ensures KeygenUpdate(old(round), data, env).Err? ==> round == old(round) && r == Err(KeygenUpdate(old(round), data, env).error)
    {
      var msgs := env.unpack(data);
      if msgs.None? {
        return Err(ErrUnpack);
      }
      var step := KeygenMatch(round, msgs.value, env);
      if step.Err? {
        return Err(step.error);
      }
      var (c, ser) := step.value;
      round := c;
      return Ok(Packed(Gg18, ser));
    }

    method Advance(data: Bytes, env: Env) returns (r: Result<Packed>)
      modifies this
      ensures KeygenAdvance(old(round), data, env).Ok? ==>
        round == KeygenAdvance(old(round), data, env).value.0 && r == Ok(KeygenAdvance(old(round), data, env).value.1)
      ensures KeygenAdvance(old(round), data, env).Err? ==> round == old(round) && r == Err(KeygenAdvance(old(round), data, env).error)
    {
      if round.R0? {
        r := Init(data, env);
      } else {
        r := Update(data, env);
      }
    }

    function Finish(env: Env): (r: Result<Bytes>)
      reads this
      ensures r.Ok? <==> round.Done?
      ensures round.Done? ==> r == Ok(env.ctxJson(round.ctx))
    {
      KeygenFinish(round, env)
    }
  }

  // ---------------------------------------------------------------------------
  // Signing: R0 -> R1 -> ... -> R9 -> Done

  datatype SignRound =
    | R0(ctx: Ctx) | R1(ctx: Ctx) | R2(ctx: Ctx) | R3(ctx: Ctx) | R4(ctx: Ctx)
    | R5(ctx: Ctx) | R6(ctx: Ctx) | R7(ctx: Ctx) | R8(ctx: Ctx) | R9(ctx: Ctx)
    | Done(signature: Bytes)

  /** How many steps a signing in `round` has completed. */
  function SignStage(round: SignRound): (n: nat)
    ensures n <= 10 && (n == 10 <==> round.Done?)
  {
    match round
    case R0(_) => 0
    case R1(_) => 1
    case R2(_) => 2
    case R3(_) => 3
    case R4(_) => 4
    case R5(_) => 5
    case R6(_) => 6
    case R7(_) => 7
    case R8(_) => 8
    case R9(_) => 9
    case Done(_) => 10
  }

  /** The round a signing is in after `k` steps, holding the context `c`. */
  function SignRoundAt(k: nat, c: Ctx): (round: SignRound)
    requires 1 <= k <= 9
    ensures SignStage(round) == k && round.ctx == c
  {
    match k
    case 1 => SignRound.R1(c)
    case 2 => SignRound.R2(c)
    case 3 => SignRound.R3(c)
    case 4 => SignRound.R4(c)
    case 5 => SignRound.R5(c)
    case 6 => SignRound.R6(c)
    case 7 => SignRound.R7(c)
    case 8 => SignRound.R8(c)
    case _ => SignRound.R9(c)
  }

  /** `init`: decode the session parameters, run gg18_sign1 on the group context
      held in R0 and broadcast its output to the other `indices.len() - 1` parties. */
  function SignInit(round: SignRound, data: Bytes, env: Env): (r: Result<(SignRound, Packed)>)
    requires round.R0?
    ensures r.Ok? <==>
      && env.codec.decodeInit(data).Some?
      && var msg := env.codec.decodeInit(data).value;
      && env.sign1(round.ctx, AsU16s(msg.indices), msg.index, msg.data).Ok?
      && env.toJson(env.sign1(round.ctx, AsU16s(msg.indices), msg.index, msg.data).value.0).Some?
    ensures env.codec.decodeInit(data).None? ==> r == Err(ErrDecode)
    ensures r.Ok? ==>
      var msg := env.codec.decodeInit(data).value;
      var (out, c1) := env.sign1(round.ctx, AsU16s(msg.indices), msg.index, msg.data).value;
      r.value == (SignRound.R1(c1), Packed(Gg18, Broadcast(env.toJson(out).value, |msg.indices| - 1)))
  {
    match env.codec.decodeInit(data)
    case None => Err(ErrDecode)
    case Some(msg) =>
      var indices := AsU16s(msg.indices);
      var parties := |indices|;
      match env.sign1(round.ctx, indices, msg.index, msg.data)
      case Err(e) => Err(e)
      case Ok((out, c1)) =>
        match env.toJson(out)
        case None => Err(ErrSerialize)
        case Some(ser) => Ok((SignRound.R1(c1), Packed(Gg18, Broadcast(ser, parties - 1))))
  }

  /** The `match &self.round` of `update` for signing. */
  function SignMatch(round: SignRound, msgs: seq<Bytes>, env: Env): (r: Result<(SignRound, Payload)>)
    requires !round.R0?
    ensures round.Done? ==> r == Err(ErrTodo)
    ensures r.Ok? ==> SignStage(r.value.0) == SignStage(round) + 1
    // In round Rk the step is gg18_sign{k+1}, run on the context Rk holds;
    // the next round holds the context that step returns.
    ensures round.R1? ==>
      var arm := UnicastArm(env, Sign(2), msgs, round.ctx);
      && (r.Ok? <==> arm.Ok?)
      && (r.Ok? ==> r.value.0.ctx == arm.value.0 && r.value.1 == arm.value.1)
      && (r.Err? ==> r.error == arm.error)
    ensures !round.R1? && !round.R9? && !round.Done? ==>
      var arm := BroadcastArm(env, Sign(SignStage(round) + 1), msgs, round.ctx, |msgs|);
      && (r.Ok? <==> arm.Ok?)
      && (r.Ok? ==> r.value.0.ctx == arm.value.0 && r.value.1 == arm.value.1)
      && (r.Err? ==> r.error == arm.error)
    ensures round.R9? ==>
      && (r.Ok? <==>
          && env.deserializeVec(Sign(10), msgs).Some?
          && env.sign10(env.deserializeVec(Sign(10), msgs).value, round.ctx).Ok?)
      && (r.Ok? ==>
          var sig := env.sign10(env.deserializeVec(Sign(10), msgs).value, round.ctx).value;
          r.value == (SignRound.Done(sig), Inflated(sig, |msgs|)))
  {
    var n := |msgs|;
    match round
    case R1(c1) =>
      (match UnicastArm(env, Sign(2), msgs, c1)
       case Err(e) => Err(e)
       case Ok((c2, ser)) => Ok((SignRound.R2(c2), ser)))
    case R9(c9) =>
      (match env.deserializeVec(Sign(10), msgs)
       case None => Err(ErrDeserialize)
       case Some(ins) =>
         match env.sign10(ins, c9)
         case Err(e) => Err(e)
         case Ok(sig) => Ok((SignRound.Done(sig), Inflated(sig, n))))
    case Done(_) => Err(ErrTodo)
    case R2(_) | R3(_) | R4(_) | R5(_) | R6(_) | R7(_) | R8(_) =>
      // gg18_sign3 .. gg18_sign9, each broadcast to the peers.
      var k := SignStage(round) + 1;
      match BroadcastArm(env, Sign(k), msgs, round.ctx, n)
      case Err(e) => Err(e)
      case Ok((next, ser)) => Ok((SignRoundAt(k, next), ser))
  }

  /** `update` for signing: unpack the relay's message, then step; a finished
      context reaches the `todo!()` arm only once the message has been unpacked. */
  function SignUpdate(round: SignRound, data: Bytes, env: Env): (r: Result<(SignRound, Packed)>)
    requires !round.R0?
    ensures env.unpack(data).None? ==> r == Err(ErrUnpack)
    ensures env.unpack(data).Some? ==>
      var step := SignMatch(round, env.unpack(data).value, env);
      && (r.Ok? <==> step.Ok?)
      && (r.Ok? ==> r.value == (step.value.0, Packed(Gg18, step.value.1)))
      && (r.Err? ==> r.error == step.error)
    ensures round.Done? ==> r == Err(if env.unpack(data).None? then ErrUnpack else ErrTodo)
  {
    match env.unpack(data)
    case None => Err(ErrUnpack)
    case Some(msgs) =>
      match SignMatch(round, msgs, env)
      case Err(e) => Err(e)
      case Ok((next, ser)) => Ok((next, Packed(Gg18, ser)))
  }

  /** `advance` of a signing context: `init` in R0, `update` otherwise, so
      advancing a finished context fails with unpack's error or else at the
      `todo!()` arm. */
  function SignAdvance(round: SignRound, data: Bytes, env: Env): (r: Result<(SignRound, Packed)>)
    ensures round.Done? ==> r == Err(if env.unpack(data).None? then ErrUnpack else ErrTodo)
    ensures r.Ok? ==> SignStage(r.value.0) == SignStage(round) + 1
  {
    if round.R0? then SignInit(round, data, env) else SignUpdate(round, data, env)
  }

  /** `finish`: exactly the signature bytes, once signing is Done. */
  function SignFinish(round: SignRound): (r: Result<Bytes>)
    ensures r.Ok? <==> round.Done?
    ensures round.Done? ==> r.value == round.signature
  {
    match round
    case Done(sig) => Ok(sig)
    case _ => Err(ErrNotFinished)
  }

  /** Advancing through `inputs`, each advance succeeding. */
  function SignRun(round: SignRound, inputs: seq<Bytes>, env: Env): Result<SignRound>
    decreases |inputs|
  {
    if inputs == [] then Ok(round)
    else
      match SignAdvance(round, inputs[0], env)
      case Err(e) => Err(e)
      case Ok((next, _)) => SignRun(next, inputs[1..], env)
  }

  /** Every successful advance completes exactly one step. */
  lemma {:induction false} SignRunStage(round: SignRound, inputs: seq<Bytes>, env: Env)
    requires SignRun(round, inputs, env).Ok?
    ensures SignStage(SignRun(round, inputs, env).value) == SignStage(round) + |inputs|
    decreases |inputs|
  {
    if inputs != [] {
      var next := SignAdvance(round, inputs[0], env).value.0;
      SignRunStage(next, inputs[1..], env);
    }
  }

  /** From a fresh signing context, at most ten advances can succeed; signing
      is Done after ten and not before, so `finish` succeeds exactly then. */
  lemma SignDoneAfterTen(c0: Ctx, inputs: seq<Bytes>, env: Env)
    requires SignRun(SignRound.R0(c0), inputs, env).Ok?
    ensures |inputs| <= 10
    ensures SignRun(SignRound.R0(c0), inputs, env).value.Done? <==> |inputs| == 10
    ensures SignFinish(SignRun(SignRound.R0(c0), inputs, env).value).Ok? <==> |inputs| == 10
  {
    SignRunStage(SignRound.R0(c0), inputs, env);
  }

  class SignContext {
    var round: SignRound

    /** `new(group)`: the group context parsed from `group` (parsing it is an
        `unwrap`, so it must succeed). */
    constructor (group: Bytes, env: Env)
      requires env.parseGroup(group).Some?
      ensures round == SignRound.R0(env.parseGroup(group).value)
    {
      round := SignRound.R0(env.parseGroup(group).value);
    }

    method Init(data: Bytes, env: Env) returns (r: Result<Packed>)
      requires round.R0?
      modifies this
      ensures SignInit(old(round), data, env).Ok? ==>
        round == SignInit(old(round), data, env).value.0 && r == Ok(SignInit(old(round), data, env).value.1)
      ensures SignInit(old(round), data, env).Err? ==> round == old(round) && r == Err(SignInit(old(round), data, env).error)
    {
      var msg := env.codec.decodeInit(data);
      if msg.None? {
        return Err(ErrDecode);
      }
      var indices := AsU16s(msg.value.indices);
      var parties := |indices|;
      var c0 := round.ctx;
      var step := env.sign1(c0, indices, msg.value.index, msg.value.data);
      if step.Err? {
        return Err(step.error);
      }
      var (out, c1) := step.value;
      var ser := env.toJson(out);
      if ser.None? {
        return Err(ErrSerialize);
      }
      round := SignRound.R1(c1);
      return Ok(Packed(Gg18, Broadcast(ser.value, parties - 1)));
    }

    method Update(data: Bytes, env: Env) returns (r: Result<Packed>)
      requires !round.R0?
      modifies this
      ensures SignUpdate(old(round), data, env).Ok? ==>
        round == SignUpdate(old(round), data, env).value.0 && r == Ok(SignUpdate(old(round), data, env).value.1)
      ensures SignUpdate(old(round), data, env).Err? ==> round == old(round) && r == Err(SignUpdate(old(round), data, env).error)
    {
      var msgs := env.unpack(data);
      if msgs.None? {
        return Err(ErrUnpack);
      }
      var step := SignMatch(round, msgs.value, env);
      if step.Err? {
        return Err(step.error);
      }
      var (c, ser) := step.value;
      round := c;
      return Ok(Packed(Gg18, ser));
    }

    method Advance(data: Bytes, env: Env) returns (r: Result<Packed>)
      modifies this
      ensures SignAdvance(old(round), data, env).Ok? ==>
        round == SignAdvance(old(round), data, env).value.0 && r == Ok(SignAdvance(old(round), data, env).value.1)
      ensures SignAdvance(old(round), data, env).Err? ==> round == old(round) && r == Err(SignAdvance(old(round), data, env).error)
    {
      if round.R0? {
        r := Init(data, env);
      } else {
        r := Update(data, env);
      }
    }

    function Finish(): (r: Result<Bytes>)
      reads this
      ensures r.Ok? <==> round.Done?
      ensures round.Done? ==> r == Ok(round.signature)
    {
      SignFinish(round)
    }
  }
}
