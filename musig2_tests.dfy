/** The musig2 instances of the test harness (the `tests` module of
    src/protocol/musig2.rs): key generation is driven for two rounds and
    signing for three, with parties numbered from one. */
module Musig2Tests {
  import opened Wrappers
  import opened Wire
  import opened Protocol
  import opened Musig2
  import opened ProtocolTests

  const KEYGEN_ROUNDS: nat := 2
  const SIGN_ROUNDS: nat := 3
  const INDEX_OFFSET: uint32 := 1

  /** The harness keeps only the bytes of an advance (`.unwrap().0`); a failed
      advance panics, so the context it leaves behind is never used again. */
  function Unwrapped<S>(t: Transition<S>): Result<(S, Bytes)>
  {
    match t.out
    case Ok((bytes, _)) => Ok((t.next, bytes))
    case Err(e) => Err(e)
  }

  /** `ctx.advance(data)` of a key-generation context.  `newSigner` stands for
      the signer `Signer::new()` draws when the context is initialised. */
  function KeygenStep(env: Env, newSigner: Signer): (KeygenRound, Bytes) -> Result<(KeygenRound, Bytes)>
  {
    (round: KeygenRound, data: Bytes) => Unwrapped(KeygenAdvance(round, data, newSigner, env))
  }

  /** `ctx.advance(data)` of a signing context. */
  function SignStep(env: Env): (SignState, Bytes) -> Result<(SignState, Bytes)>
  {
    (s: SignState, data: Bytes) => Unwrapped(SignAdvance(s, data, env))
  }

  // ---------------------------------------------------------------------------
  // Key generation

  /** Every advance a key-generation context survives moves it one round on. */
  lemma {:induction false} KeygenReplayStage(env: Env, newSigner: Signer, start: KeygenRound, inputs: seq<Bytes>)
    requires Replay(KeygenStep(env, newSigner), start, inputs).Ok?
    ensures KeygenStage(Replay(KeygenStep(env, newSigner), start, inputs).value.0) == KeygenStage(start) + |inputs|
    decreases |inputs|
  {
    if inputs != [] {
      KeygenReplayStage(env, newSigner, start, inputs[..|inputs| - 1]);
    }
  }

  /** From a new context, at most `KEYGEN_ROUNDS` advances can succeed, and the
      context is finished exactly after that many. */
  lemma KeygenRoundsSuffice(env: Env, newSigner: Signer, inputs: seq<Bytes>)
    requires Replay(KeygenStep(env, newSigner), KeygenRound.R0, inputs).Ok?
    ensures |inputs| <= KEYGEN_ROUNDS
    ensures Replay(KeygenStep(env, newSigner), KeygenRound.R0, inputs).value.0.Done? <==> |inputs| == KEYGEN_ROUNDS
  {
    KeygenReplayStage(env, newSigner, KeygenRound.R0, inputs);
  }

  /** A party that went through the harness's `KEYGEN_ROUNDS` rounds from a new
      context is finished, so its `finish` can succeed. */
  lemma KeygenHarnessDone(pt: ProtocolType, codec: Codec, env: Env, newSigner: Signer,
                          starts: map<uint32, KeygenRound>, finals: map<uint32, KeygenRound>,
                          last: map<uint32, ClientMessage>, inputs: map<uint32, seq<Bytes>>,
                          history: seq<map<uint32, ClientMessage>>, i: uint32)
    requires Harnessed(pt, codec, KeygenStep(env, newSigner), starts, finals, last, inputs, history)
    requires |history| == KEYGEN_ROUNDS && i in finals && i in starts && i in inputs && starts[i].R0?
    ensures finals[i].Done?
  {
    assert Tracked(pt, codec, KeygenStep(env, newSigner), starts[i], inputs[i], finals[i], history, i);
    KeygenRoundsSuffice(env, newSigner, inputs[i]);
  }

  // ---------------------------------------------------------------------------
  // Signing

  /** Every advance a signing context survives moves it one round on, and the
      message and indices are set from the first one. */
  lemma {:induction false} SignReplayStage(env: Env, start: SignState, inputs: seq<Bytes>)
    requires SignInvariant(start)
    requires Replay(SignStep(env), start, inputs).Ok?
    ensures SignStage(Replay(SignStep(env), start, inputs).value.0.round) == SignStage(start.round) + |inputs|
    ensures SignInvariant(Replay(SignStep(env), start, inputs).value.0)
    ensures Replay(SignStep(env), start, inputs).value.0.setup == start.setup
    decreases |inputs|
  {
    if inputs != [] {
      SignReplayStage(env, start, inputs[..|inputs| - 1]);
    }
  }

  /** From a new context, at most `SIGN_ROUNDS` advances can succeed, and the
      context holds its signature exactly after that many. */
  lemma SignRoundsSuffice(env: Env, group: Bytes, inputs: seq<Bytes>)
    requires env.parseGroup(group).Some?
    requires Replay(SignStep(env), SignNew(group, env), inputs).Ok?
    ensures |inputs| <= SIGN_ROUNDS
    ensures Replay(SignStep(env), SignNew(group, env), inputs).value.0.round.Done? <==> |inputs| == SIGN_ROUNDS
  {
    SignReplayStage(env, SignNew(group, env), inputs);
  }

  /** A party that went through the harness's `SIGN_ROUNDS` rounds from a new
      context holds its signature, so its `finish` can succeed. */
  lemma SignHarnessDone(pt: ProtocolType, codec: Codec, env: Env,
                        starts: map<uint32, SignState>, finals: map<uint32, SignState>,
                        last: map<uint32, ClientMessage>, inputs: map<uint32, seq<Bytes>>,
                        history: seq<map<uint32, ClientMessage>>, i: uint32)
    requires Harnessed(pt, codec, SignStep(env), starts, finals, last, inputs, history)
    requires |history| == SIGN_ROUNDS && i in finals && i in starts && i in inputs
    requires starts[i].round.R0?
    ensures finals[i].round.Done?
  {
    assert Tracked(pt, codec, SignStep(env), starts[i], inputs[i], finals[i], history, i);
    SignReplayStage(env, starts[i], inputs[i]);
  }

  // ---------------------------------------------------------------------------
  // The `keygen` and `sign` tests

  const ErrGroup := "could not deserialize group context"

  /** `SignContext::new(group)`, which panics on a group it cannot read. */
  function NewSign(env: Env): (create: Bytes -> Result<SignState>)
    ensures forall group ::
      && (create(group).Ok? <==> env.parseGroup(group).Some?)
      && (create(group).Ok? ==> create(group).value == SignNew(group, env))
      && (create(group).Err? ==> create(group).error == ErrGroup)
  {
    (group: Bytes) => if env.parseGroup(group).Some? then Ok(SignNew(group, env)) else Err(ErrGroup)
  }

  /** `ctx.finish()` of a key-generation context. */
  function FinishKeygen(env: Env): KeygenRound -> Result<Bytes>
  {
    (round: KeygenRound) => KeygenFinish(round, env)
  }

  /** `<KeygenContext as KeygenProtocolTest>::run(parties, parties)`: the run
      completes exactly when the harness's run does, and then every party,
      numbered from one, has finished key generation and its result is its
      serialized group context. */
  method RunMusig2Keygen(env: Env, newSigner: Signer, parties: uint32)
    returns (r: Result<(map<uint32, Bytes>, map<uint32, Bytes>)>, ghost finals: map<uint32, KeygenRound>)
    ensures r.Ok? ==> finals.Keys == PartyRange(INDEX_OFFSET, parties) && r.value.1.Keys == finals.Keys
    ensures r.Ok? ==> forall i | i in finals ::
      && finals[i].Done?
      && Some(r.value.1[i]) == env.groupJson(Group(finals[i].setup, finals[i].signer))
    ensures r.Ok? <==> KeygenCompletes(Musig2, KEYGEN_ROUNDS, INDEX_OFFSET, env.codec, KeygenRound.R0,
                                       KeygenStep(env, newSigner), FinishKeygen(env), parties, parties)
  {
    ghost var inputs, history;
    r, finals, inputs, history := RunKeygen(Musig2, KEYGEN_ROUNDS, INDEX_OFFSET, env.codec, KeygenRound.R0,
                                            KeygenStep(env, newSigner), FinishKeygen(env), parties, parties);
    if r.Ok? {
      ghost var starts := Uniform(PartyRange(INDEX_OFFSET, parties), KeygenRound.R0);
      forall i | i in finals ensures finals[i].Done? {
        KeygenHarnessDone(Musig2, env.codec, env, newSigner, starts, finals, history[KEYGEN_ROUNDS - 1], inputs, history, i);
      }
    }
  }

  /** `ctx.finish()` of a signing context. */
  function FinishSign(env: Env): SignState -> Result<Bytes>
  {
    (s: SignState) => SignFinish(s.round, env)
  }

  /** What the harness collected from `finish` are the serialized signatures
      (it only unfolds `SignFinish` for its callers). */
  lemma SignResults(env: Env, indices: seq<uint32>, finals: map<uint32, SignState>, out: seq<Bytes>)
    requires |out| <= |indices|
    requires forall j | 0 <= j < |out| :: indices[j] in finals && FinishSign(env)(finals[indices[j]]) == Ok(out[j])
    ensures forall j | 0 <= j < |out| ::
      && indices[j] in finals && finals[indices[j]].round.Done?
      && Some(out[j]) == env.signatureJson(finals[indices[j]].round.signature)
  {
  }

  /** `<SignContext as ThresholdProtocolTest>::run(groups, msg)`: the run
      completes exactly when the harness's run does, and then every party
      holds a signature and the results are their serialized signatures, in
      ascending party order. */
  method RunMusig2Sign(env: Env, groups: map<uint32, Bytes>, msg: Bytes)
    returns (r: Result<seq<Bytes>>, ghost finals: map<uint32, SignState>)
    ensures r.Ok? ==> finals.Keys == groups.Keys && |r.value| == |groups|
    ensures r.Ok? ==> forall i | i in finals :: finals[i].round.Done?
    ensures r.Ok? ==> forall j | 0 <= j < |r.value| ::
      && Ascending(groups.Keys)[j] in finals
      && Some(r.value[j]) == env.signatureJson(finals[Ascending(groups.Keys)[j]].round.signature)
    ensures r.Ok? <==> ThresholdCompletes(Musig2, SIGN_ROUNDS, env.codec, NewSign(env), SignStep(env),
                                          FinishSign(env), groups, msg)
  {
    ghost var starts, inputs, history;
    r, starts, finals, inputs, history := RunThreshold(Musig2, SIGN_ROUNDS, env.codec, NewSign(env), SignStep(env),
                                                      FinishSign(env), groups, msg);
    if r.Ok? {
      SignPartiesDone(Musig2, env.codec, env, groups, starts, finals, history[SIGN_ROUNDS - 1], inputs, history);
      SignResults(env, Ascending(groups.Keys), finals, r.value);
    }
  }

  /** A context `SignContext::new` produced comes from a group it could read
      and has not yet been advanced (it only unfolds `NewSign` for its
      callers). */
  lemma SignStarted(env: Env, group: Bytes, start: SignState)
    requires NewSign(env)(group) == Ok(start)
    ensures env.parseGroup(group).Some? && start == SignNew(group, env)
    ensures start.round.R0?
  {
  }

  /** Every party of a signing run that went through the harness's
      `SIGN_ROUNDS` rounds from `SignContext::new` holds its signature. */
  lemma SignPartiesDone(pt: ProtocolType, codec: Codec, env: Env, groups: map<uint32, Bytes>,
                        starts: map<uint32, SignState>, finals: map<uint32, SignState>,
                        last: map<uint32, ClientMessage>, inputs: map<uint32, seq<Bytes>>,
                        history: seq<map<uint32, ClientMessage>>)
    requires Harnessed(pt, codec, SignStep(env), starts, finals, last, inputs, history)
    requires |history| == SIGN_ROUNDS && starts.Keys == groups.Keys
    requires forall i | i in groups :: NewSign(env)(groups[i]) == Ok(starts[i])
    ensures forall i | i in finals :: finals[i].round.Done?
  {
    HarnessedFacts(pt, codec, SignStep(env), starts, finals, last, inputs, history);
    forall i | i in finals ensures finals[i].round.Done? {
      SignStarted(env, groups[i], starts[i]);
      SignHarnessDone(pt, codec, env, starts, finals, last, inputs, history, i);
    }
  }
}
