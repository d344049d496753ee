# Protocol round engine of meesign-crypto, in Dafny

This project models the part of meesign-crypto that moves every party of a
multi-party signing protocol through one lifecycle. A relay server sends each
party an opaque byte blob. The party's context `advance`s one round and
answers with a protobuf `ClientMessage` for the relay. Once the protocol has
terminated, `finish` turns the context into its result.

The model has one module per file.

- `wire.dfy` (module `Wire`): the protobuf messages `ProtocolGroupInit`,
  `ProtocolInit`, `ClientMessage` and `ServerMessage` as datatypes.
  - A `Codec` value holds the fallible decoders and the encoders.
  - `Codec.RoundTrips()` states that decoding inverts encoding. Lemmas that
    need it take it as a hypothesis.
  - The truncating casts `as u16` and `as u8` are written out (`AsU16`, `AsU8`).
- `protocol.dfy` (module `Protocol`): the helpers of `src/protocol/mod.rs`.
  - The outbound-message builders `encode_raw_bcast`, `serialize_bcast`,
    `encode_raw_uni` and `serialize_uni`.
  - The value-wise map decoding `deserialize_map`.
  - The relay fan-out rule: a receiver gets every other sender's broadcast
    and the unicasts addressed to it. It is a method with a loop, proved
    against the functions `Broadcasts` and `Unicasts`.
- `protocol_tests.dfy` (module `ProtocolTests`): the in-process harness of
  `src/protocol/mod.rs` (`KeygenProtocolTest::run`,
  `ThresholdProtocolTest::run`).
  - It plays the relay for a whole group, round by round, then finishes
    every party.
  - Its loop keeps the invariant `Harnessed`: every party has been fed its
    init message and then, round after round, the relay of the previous
    round's messages, and each output decoded to that party's message of the
    round.
  - The ghost functions `StepAll`, `RelayRounds` and `PlayRun` say what a
    run computes. Each harness method succeeds exactly when its function
    completes. So a run fails only when some party's step on its relayed
    input, a decode, a missing broadcast or a `finish` fails, as a panic
    does in the source.
- `musig2.dfy` (module `Musig2`): the MuSig2 adapter.
  - The n-out-of-n key generation R0 → R1 → Done and the signing
    R0 → R1 → R2 → Done.
  - Each is a pure transition function (`KeygenAdvance`, `SignAdvance`)
    returning the next state and the call's output. A class with the
    source's fields (`KeygenContext`, `SignContext`) has methods proved to
    perform that transition in place.
  - `deserialize_musig` is a loop method proved against its specification,
    with its success condition and the round trip of index-tagged payloads.
- `musig2_tests.dfy` (module `Musig2Tests`): the MuSig2 instances of the
  harness (2 key-generation rounds, 3 signing rounds, parties numbered from
  1), with proofs that every party of a completed run has finished.
- `gg18.dfy` (module `Gg18`): the GG18 adapter. It has a six-step key
  generation and a ten-step signing.
  - Every step runs its fallible calls before it overwrites the round, so a
    failing step leaves the context as it was.
  - Only keygen R2 → R3 and sign R1 → R2 emit unicasts.

## Abstractions

- **Opaque code as parameters.** Cryptography, serde JSON and protobuf
  byte-level coding are function-typed fields of environment values
  (`Musig2.Env`, `Gg18.Env`, `Wire.Codec`).
  - Each may fail where the source's call may fail (`Option`/`Result`).
  - Library contexts and signers are opaque datatypes.
- **Panics as errors.** A panic of the source is an `Err` result carrying
  the panic's message:
  - an `unwrap` or `expect` on an error;
  - a failed `assert!`;
  - the `todo!()` arm that `update` reaches in a finished GG18 context,
    once the relay's message has been unpacked.
- **HashMap order.** A HashMap is iterated in ascending key order; Rust
  leaves the order unspecified.
- **Fresh signer as a parameter.** `Signer::new()` (a fresh random key
  share) is the parameter `newSigner` of MuSig2 key generation.

## Model

| member | source | states |
|---|---|---|
| Wire.AsU16 | src/protocol/gg18.rs:34-35 | `as u16` keeps a value that fits in 16 bits unchanged |
| Wire.AsU8 | src/protocol/musig2.rs:190 | `as u8` keeps a value that fits in 8 bits unchanged |
| Wire.AsU16s | src/protocol/gg18.rs:131 | mapping `as u16` over the indices keeps their number, truncates each one, and changes none when all fit |
| Protocol.Ascending | src/protocol/mod.rs:211-212 | `indices.sort()` of the key set: every key exactly once, strictly increasing |
| Protocol.ValuesOf | src/protocol/musig2.rs:78 | `values().cloned().collect()`: one value per key, the value stored under the key visited at that position |
| Protocol.DeserializeMap | src/protocol/mod.rs:44-50 | succeeds iff every value parses; the result has the input's keys and each parsed value under its key; the error is the deserialization error |
| Protocol.DeserializeMapInverts | src/protocol/mod.rs:44-50 | parsing what every sender serialized gives back the senders' map exactly, when parsing inverts serialization |
| Protocol.EncodeRawBcast | src/protocol/mod.rs:53-60 | the encoded message decodes to the given protocol type, no unicasts, and exactly the payload as broadcast |
| Protocol.SerializeBcast | src/protocol/mod.rs:63-69 | fails iff serializing the value fails; otherwise it is the broadcast of the serialized value |
| Protocol.EncodeRawUni | src/protocol/mod.rs:74-81 | the encoded message decodes to the given protocol type, no broadcast, and exactly the given index-to-bytes map as unicasts |
| Protocol.CollectSerialized | src/protocol/mod.rs:91-94 | the collection succeeds iff every value serializes, and its keys are exactly the input pairs' keys |
| Protocol.CollectSerializedLastWins | src/protocol/mod.rs:91-94 | of several pairs with one key, the collected map keeps the last pair's serialized value |
| Protocol.SerializeUni | src/protocol/mod.rs:86-96 | fails iff one value fails to serialize; otherwise it is a unicast-only message whose keys are the input's and whose values are the serialized last values per key |
| Protocol.FanOut | src/protocol/mod.rs:150-163 | the loop over senders hands the receiver exactly `Broadcasts` (every other sender's broadcast) and `Unicasts` (what every other sender addressed to it) |
| Protocol.FanOutSkipsSender | src/protocol/mod.rs:153-156 | the receiver never gets its own broadcast or unicast |
| Protocol.BroadcastReachesEveryPeer | src/protocol/mod.rs:157-159 | a `serialize_bcast` output reaches every other party as the sender's broadcast entry, and as no unicast |
| Protocol.UnicastReachesItsRecipient | src/protocol/mod.rs:160-162 | an `encode_raw_uni` output reaches receiver r as a unicast iff it was addressed to r, with exactly that payload, and never as a broadcast |
| ProtocolTests.AdvanceAll | src/protocol/mod.rs:238-272 | every party advances on its own input: succeeds iff every advance succeeds and its output decodes (`StepAll` completes); the new contexts and messages are those advances' results, under the same keys, and equal `StepAll`'s |
| ProtocolTests.RelayInputs | src/protocol/mod.rs:240-263 | every party's next input is the `ServerMessage` of its fan-out of the previous round's messages |
| ProtocolTests.FirstRound | src/protocol/mod.rs:123-143 | the init advance of every party establishes the harness invariant with a one-round history |
| ProtocolTests.PartyNextRound | src/protocol/mod.rs:147-181 | one more relayed advance extends one party's tracked history by that round |
| ProtocolTests.NextRound | src/protocol/mod.rs:146-182 | one relayed round of every party keeps the harness invariant, with each party's inputs extended by its relay |
| ProtocolTests.Round | src/protocol/mod.rs:147-181 | succeeds iff every party's advance on its relayed `ServerMessage` succeeds and its output decodes; the result is `RelayStep`'s; one relayed round keeps the invariant, keeps the set of parties, appends the round's messages to the history and one input per party |
| ProtocolTests.Rounds | src/protocol/mod.rs:146-182 | succeeds iff `RelayRounds` completes, i.e. iff no round has a party whose relayed step fails, and then returns its contexts and messages; `count` relayed rounds keep the invariant and add `count` rounds to the history and `count` inputs per party, keeping the first input |
| ProtocolTests.Play | src/protocol/mod.rs:123-182 | succeeds iff `PlayRun` completes (every party's init step, then every relayed round), with its result; each party was fed exactly `rounds` inputs, the first being its init message, and the invariant holds |
| ProtocolTests.PlayRelayed | src/protocol/mod.rs:146-182 | after every party's first step: succeeds iff `RelayRounds` completes, with its result; each party was fed `rounds` inputs, the first being its init message, and the invariant holds |
| ProtocolTests.PartyIndices | src/protocol/mod.rs:119-121 | the parties are numbered `offset, offset + 1, ..., offset + parties - 1` |
| ProtocolTests.LastBroadcasts | src/protocol/mod.rs:184-187 | succeeds iff every last message carries a broadcast; the result is each party's broadcast |
| ProtocolTests.FinishAll | src/protocol/mod.rs:189-192 | succeeds iff every party's `finish` succeeds; the result is each party's `finish` output |
| ProtocolTests.RunKeygen | src/protocol/mod.rs:115-195 | `threshold > parties` fails the assertion; otherwise succeeds iff `KeygenCompletes`: the rounds complete, every last message has a broadcast and every party finishes; a completed run covers exactly the numbered parties, each fed its group init then the relayed rounds, ends in `PlayRun`'s contexts and returns each party's last broadcast and `finish` output |
| ProtocolTests.NewAll | src/protocol/mod.rs:206-209 | every group context goes through `new`: succeeds iff each does, with each party's new context |
| ProtocolTests.RunThreshold | src/protocol/mod.rs:204-278 | succeeds iff `ThresholdCompletes`: every group context yields a party through `new`, the rounds complete and every party finishes; a completed run feeds each party the init over the sorted indices, plays the rounds under the invariant and returns each party's `finish` output |
| ProtocolTests.RunParties | src/protocol/mod.rs:214-277 | succeeds iff `PartiesComplete`: the rounds complete and every party in `indices` finishes; then init over `indices`, the rounds ending in `PlayRun`'s contexts, and `finish` in the order of `indices` |
| ProtocolTests.FinishInOrder | src/protocol/mod.rs:275-277 | succeeds iff every party's `finish` succeeds; the outputs come in the given order |
| Gg18.BroadcastArm | src/protocol/gg18.rs:60-64 | a broadcast arm succeeds iff the peers' messages deserialize, the library step succeeds and its output serializes; then the next context is the one the step returns and the output is the JSON of the step's output, broadcast for `n` peers |
| Gg18.SerializeEach | src/protocol/gg18.rs:57 | the step's outputs all serialize or the call fails; on success one serialized message per output, in order |
| Gg18.UnicastArm | src/protocol/gg18.rs:55-59 | succeeds iff the messages deserialize, the library step succeeds and every one of its outputs serializes; then the next context is the step's and the output holds one unicast per step output, each its serialization |
| Gg18.KeygenInit | src/protocol/gg18.rs:31-42 | succeeds iff the group init decodes, key_gen_1 on the truncated parameters succeeds and its output serializes; then the round is R1 holding key_gen_1's context and the output is the JSON of key_gen_1's output, broadcast for `parties - 1` peers |
| Gg18.KeygenMatch | src/protocol/gg18.rs:48-76 | round Rk runs step k+1 on the context it holds, and succeeds exactly when that step's arm does; the next round holds the context the step returns and the output is the arm's; R5 reaches Done with key_gen_6's context and emits the inflated public key; Done fails at `todo!()` |
| Gg18.KeygenUpdate | src/protocol/gg18.rs:44-79 | a message that does not unpack fails with unpack's error, in every round including Done; otherwise the result is the round's step, packed as GG18, with the step's error on failure |
| Gg18.KeygenAdvance | src/protocol/gg18.rs:84-90 | a successful advance moves exactly one round on; advancing a finished context fails with unpack's error, or at `todo!()` when the message unpacks |
| Gg18.KeygenFinish | src/protocol/gg18.rs:92-97 | succeeds iff Done, with the serialized final context |
| Gg18.KeygenRunStage | src/protocol/gg18.rs:84-90 | every successful advance of a run completes exactly one step |
| Gg18.KeygenDoneAfterSix | src/protocol/gg18.rs:40-78 | from R0 at most six advances succeed; Done, and so a successful `finish`, exactly after six |
| Gg18.KeygenContext.constructor | src/protocol/gg18.rs:25-29 | a new context is in R0 |
| Gg18.KeygenContext.Init | src/protocol/gg18.rs:31-42 | performs `KeygenInit` in place; on failure the round is unchanged and the error is `KeygenInit`'s |
| Gg18.KeygenContext.Update | src/protocol/gg18.rs:44-79 | performs `KeygenUpdate` in place; on failure the round is unchanged and the error is `KeygenUpdate`'s (unpack's error, `todo!()` in Done, or the step's) |
| Gg18.KeygenContext.Advance | src/protocol/gg18.rs:84-90 | performs `KeygenAdvance` in place (`init` in R0, `update` in every other round, Done included); on failure the round is unchanged and the error is `KeygenAdvance`'s |
| Gg18.KeygenContext.Finish | src/protocol/gg18.rs:92-97 | succeeds iff Done, with the serialized final context |
| Gg18.SignInit | src/protocol/gg18.rs:127-143 | succeeds iff the init decodes, sign1 on the group context and the truncated indices succeeds and its output serializes; then R1 holding sign1's context, and the output is the JSON of sign1's output, broadcast for `indices.len() - 1` peers |
| Gg18.SignMatch | src/protocol/gg18.rs:149-197 | round Rk runs step k+1 on the context it holds (a unicast arm in R1, broadcast arms in R2 to R8), and succeeds exactly when that arm does; the next round holds the context the step returns and the output is the arm's; R9 reaches Done with sign10's signature and emits it inflated; Done fails at `todo!()` |
| Gg18.SignUpdate | src/protocol/gg18.rs:145-201 | a message that does not unpack fails with unpack's error, in every round including Done; otherwise the result is the round's step, packed as GG18, with the step's error on failure |
| Gg18.SignAdvance | src/protocol/gg18.rs:206-212 | a successful advance moves exactly one round on; advancing a finished context fails with unpack's error, or at `todo!()` when the message unpacks |
| Gg18.SignFinish | src/protocol/gg18.rs:214-219 | succeeds iff Done, with exactly the stored signature bytes |
| Gg18.SignRunStage | src/protocol/gg18.rs:206-212 | every successful advance of a run completes exactly one step |
| Gg18.SignDoneAfterTen | src/protocol/gg18.rs:141-194 | from R0 at most ten advances succeed; Done, and so a successful `finish`, exactly after ten |
| Gg18.SignContext.constructor | src/protocol/gg18.rs:121-125 | a new context is in R0 holding the parsed group context |
| Gg18.SignContext.Init | src/protocol/gg18.rs:127-143 | performs `SignInit` in place; on failure the round is unchanged and the error is `SignInit`'s |
| Gg18.SignContext.Update | src/protocol/gg18.rs:145-201 | performs `SignUpdate` in place; on failure the round is unchanged and the error is `SignUpdate`'s (unpack's error, `todo!()` in Done, or the step's) |
| Gg18.SignContext.Advance | src/protocol/gg18.rs:206-212 | performs `SignAdvance` in place (`init` in R0, `update` in every other round, Done included); on failure the round is unchanged and the error is `SignAdvance`'s |
| Gg18.SignContext.Finish | src/protocol/gg18.rs:214-219 | succeeds iff Done, with the signature bytes |
| Musig2.Chunks | src/protocol/musig2.rs:137 | `chunks_exact(c)` yields pieces of exactly `c` bytes |
| Musig2.InsertChunks | src/protocol/musig2.rs:136-147 | the collecting loop can only fail with "Duplicate key found" |
| Musig2.DeserializeMusig | src/protocol/musig2.rs:130-150 | the loop computes `DeserializeMusigSpec`: a bad length fails, then the chunks are collected under their index byte |
| Musig2.InsertChunksOk | src/protocol/musig2.rs:137-147 | collecting succeeds iff no two chunks share their last byte |
| Musig2.InsertChunksEntries | src/protocol/musig2.rs:137-146 | every chunk's first `c - 1` bytes are in the map under its last byte |
| Musig2.InsertChunksKeys | src/protocol/musig2.rs:136-149 | the map has one entry per chunk and no key that is not some chunk's last byte |
| Musig2.ChunksOfConcat | src/protocol/musig2.rs:131-137 | pieces of exactly `c` bytes come back unchanged from chunking their concatenation |
| Musig2.ChunksCover | src/protocol/musig2.rs:132-137 | when the length is a multiple of `c`, `chunks_exact` drops no byte |
| Musig2.DeserializeMusigCharacterized | src/protocol/musig2.rs:130-150 | succeeds iff the length is a multiple of `c` and the index bytes are distinct; then it has length / c entries, each key a chunk's last byte and each value that chunk's first `c - 1` bytes |
| Musig2.TaggedMessagesRecovered | src/protocol/musig2.rs:130-150 | `c`-byte messages with distinct last bytes are recovered exactly, index to payload |
| Musig2.Tagged | src/protocol/musig2.rs:189-192 | `out_buffer.push(index as u8)`: the payload followed by the truncated index |
| Musig2.PeerMessagesRecovered | src/protocol/musig2.rs:207-212 | peers' payloads of `c - 1` bytes tagged with distinct indices are recovered by `deserialize_musig` under each sender's index, and no other index appears |
| Musig2.RelayedPayloadsRecovered | src/protocol/musig2.rs:207-212 | decoding the relay's message, parsing its broadcasts and splitting them gives back each peer's payload under its signer index and nothing else, when all coding on the way inverts |
| Musig2.KeygenInit | src/protocol/musig2.rs:40-65 | succeeds iff the init decodes, has the MuSig2 type, parties == threshold after truncation and the key share serializes; then R1 with the truncated setup, a broadcast of the key share; on failure the round is unchanged |
| Musig2.KeygenUpdate | src/protocol/musig2.rs:67-97 | fails in R0 ("not initialized") and Done ("already finished") with no change; in R1 a message that does not decode or parse fails with no change, otherwise the signer has aggregated the parsed key shares, even if the aggregate key then fails to serialize; it keeps the setup, reaches Done iff it succeeds, and the output broadcasts the aggregate key |
| Musig2.KeygenAggregatesPeerShares | src/protocol/musig2.rs:74-81 | the signer aggregates exactly the key shares the peers broadcast, when parsing inverts serialization |
| Musig2.KeygenAdvance | src/protocol/musig2.rs:102-107 | a successful advance moves one stage on and goes to the server; a failed one keeps the stage; the setup is kept after init |
| Musig2.KeygenFinish | src/protocol/musig2.rs:109-116 | succeeds iff Done and the (setup, signer) pair serializes, with that serialization |
| Musig2.KeygenContext.constructor | src/protocol/musig2.rs:120-125 | `new`: R0, without a card |
| Musig2.KeygenContext.WithCard | src/protocol/musig2.rs:33-38 | `with_card`: R0, with a card |
| Musig2.KeygenContext.Init | src/protocol/musig2.rs:40-65 | performs `KeygenInit` in place and returns its output |
| Musig2.KeygenContext.Update | src/protocol/musig2.rs:67-97 | performs `KeygenUpdate` in place and returns its output |
| Musig2.KeygenContext.Advance | src/protocol/musig2.rs:102-107 | performs `KeygenAdvance` in place and returns its output |
| Musig2.KeygenContext.Finish | src/protocol/musig2.rs:109-116 | succeeds iff Done and the pair serializes, with that serialization |
| Musig2.SignNew | src/protocol/musig2.rs:293-303 | a new session holds the parsed (setup, signer), is in R0 and keeps the session invariant |
| Musig2.KeygenFinishFeedsSign | src/protocol/musig2.rs:293-303 | `new` applied to what keygen `finish` returned starts from keygen's setup and signer |
| Musig2.SignInit | src/protocol/musig2.rs:178-201 | an init that does not decode, or has the wrong protocol type, fails with that error and changes nothing; otherwise it succeeds iff the init decodes with the MuSig2 type and the tagged nonce serializes; records message and truncated indices and runs the first round even if serialization then fails; on success R1 and a broadcast of the nonce tagged with the signer's index |
| Musig2.SignRound1 | src/protocol/musig2.rs:206-242 | on failure nothing changes; a relay message that does not decode, parse or split fails with that error, a missing message fails; otherwise it succeeds iff the partial signature serializes, and then R2 holds `second_round` of the signer on the recorded message and the split nonces, and the output is the tagged partial signature |
| Musig2.SignRound2 | src/protocol/musig2.rs:243-269 | on failure nothing changes; a relay message that does not decode, parse or split fails with that error; otherwise it succeeds iff aggregating the signer with the split partial signatures yields a signature that serializes, and then Done holds that signature and the output is its serialization |
| Musig2.SignRound1UsesPeerNonces | src/protocol/musig2.rs:206-236 | round 1 runs `second_round` on the recorded message over exactly the nonces the peers sent, each under its signer index |
| Musig2.SignRound2UsesPeerPartials | src/protocol/musig2.rs:243-264 | round 2 aggregates exactly the partial signatures the peers sent, each under its signer index, into the signature Done holds |
| Musig2.SignUpdate | src/protocol/musig2.rs:203-272 | fails in R0 ("not initialized") and Done ("already finished"); any failure leaves the session unchanged; R1 without a message fails |
| Musig2.SignAdvance | src/protocol/musig2.rs:277-282 | a successful advance moves one stage on and goes to the server, a failed one does not; the setup never changes; the invariant is kept |
| Musig2.MessageAlwaysSet | src/protocol/musig2.rs:225-241 | in a session that went through `init`, round 1 never fails for want of a message |
| Musig2.SignFinish | src/protocol/musig2.rs:284-289 | succeeds iff Done and the signature serializes, with that serialization |
| Musig2.SignContext.constructor | src/protocol/musig2.rs:293-303 | `new`: the state is `SignNew(group)` |
| Musig2.SignContext.Init | src/protocol/musig2.rs:178-201 | performs `SignInit` on the fields in place and returns its output |
| Musig2.SignContext.Update | src/protocol/musig2.rs:203-272 | performs `SignUpdate` on the fields in place and returns its output |
| Musig2.SignContext.Advance | src/protocol/musig2.rs:277-282 | performs `SignAdvance` on the fields in place and returns its output |
| Musig2.SignContext.Finish | src/protocol/musig2.rs:284-289 | succeeds iff Done and the signature serializes, with that serialization |
| Musig2Tests.KeygenReplayStage | src/protocol/musig2.rs:102-107 | each advance of a successful run moves key generation one stage on |
| Musig2Tests.KeygenRoundsSuffice | src/protocol/musig2.rs:313-317 | from a new context at most two advances succeed, and the context is Done exactly after two (`ROUNDS = 2`) |
| Musig2Tests.KeygenHarnessDone | src/protocol/musig2.rs:313-317 | a party that went through the harness's two rounds is Done |
| Musig2Tests.SignReplayStage | src/protocol/musig2.rs:277-282 | each advance of a successful run moves signing one stage on, keeping the setup and the invariant |
| Musig2Tests.SignRoundsSuffice | src/protocol/musig2.rs:319-323 | from a new session at most three advances succeed, and it holds its signature exactly after three (`ROUNDS = 3`) |
| Musig2Tests.SignHarnessDone | src/protocol/musig2.rs:319-323 | a party that went through the harness's three rounds holds its signature |
| Musig2Tests.SignPartiesDone | src/protocol/musig2.rs:354-355 | every party of a completed signing run, created by `new`, holds its signature |
| Musig2Tests.NewSign | src/protocol/musig2.rs:293-303 | `new` succeeds iff the group parses, and then starts from `SignNew`; otherwise it fails with the `expect` message |
| Musig2Tests.RunMusig2Keygen | src/protocol/musig2.rs:326-329 | succeeds iff the harness's keygen run completes (`KeygenCompletes`); a completed keygen run covers the parties numbered from 1; every party is Done and its result is its serialized (setup, signer) |
| Musig2Tests.RunMusig2Sign | src/protocol/musig2.rs:354-355 | succeeds iff the harness's threshold run completes (`ThresholdCompletes`); a completed signing run returns one result per party, each the serialized signature of a party that is Done |

## Left out

- `src/protocol/c_api.rs`: the C export layer (raw pointers, C strings, authentication, encryption) is not part of this model.
- Cryptography: the GG18 library steps, the MuSig2 `Signer` operations and key aggregation are uninterpreted environment functions. The keygen test's check that all public keys are equal and the sign test's `verify_single` are therefore not modelled.
- Byte-level protobuf and serde JSON: decoding and serialization are environment functions. The numeric values of the protocol-type tags come from the protobuf schema, which is not part of this model; `Wire.Tag` only keeps them distinct.
- GG18 `pack`, `unpack`, `inflate`, `deserialize_vec` and the two-argument `serialize_bcast(&out, n)` are not part of this model. A step's output is the `Payload` value these calls would build (broadcast for `n` peers, unicasts, inflated copies), not its bytes.
- The GG18 `advance` returns `Result<Vec<u8>>`, while the `Protocol` trait expects a pair with a `Recipient`. The model keeps the GG18 round logic and does not check trait conformance.
- The MuSig2 `R0AwaitKeyFromCard` arm is left out. It produces no transition. The `with_card` flag is kept but no transition reads it, as in the source.
- The smart-card module `jc` of `musig2.rs`, and `typetag` trait-object registration.
- Musig2Tests.RunMusig2Keygen: every party starts from the same `newSigner`. The source draws a fresh `Signer::new()` per party. The property proved (every party finishes) holds for any signers.
- Musig2Tests.RunMusig2Sign: does not state that every party records the message `msg`. It states only that each party holds its signature.
- ProtocolTests.RunThreshold: returns the results in ascending party order. The source collects them in HashMap iteration order, which Rust leaves unspecified.
- ProtocolTests.RunKeygen: requires `offset + parties` to fit in 32 bits. In the source, `i as u32 + INDEX_OFFSET` would overflow.
- ProtocolTests.RunKeygen: requires `rounds >= 1`. The source's `ROUNDS - 1` would underflow for `ROUNDS = 0`; every instance has at least 2 rounds.
- Gg18.KeygenInit: the broadcast for `parties - 1` peers is an integer, so `parties = 0` gives -1. In the source, `msg.parties as usize - 1` underflows.
- Gg18.SignInit: an empty `indices` gives -1 peers. In the source, `parties - 1` underflows.
- Gg18.KeygenUpdate: requires a round other than R0. `advance` never calls `update` in R0 (`unreachable!()`).
- Gg18.SignUpdate: requires a round other than R0. `advance` never calls `update` in R0 (`unreachable!()`).
- Gg18.KeygenFinish: `serde_json::to_vec(&ctx).unwrap()` is a total function `ctxJson`, since the library context always serializes.
- Gg18.SignContext.constructor: requires that the group context parses (`unwrap`). The harness models the panic as an error instead (`Musig2Tests.NewSign` for MuSig2).
- Musig2.SignContext.constructor: requires that the group context parses (`expect`). `Musig2Tests.NewSign` models the panic as the error "could not deserialize group context".
- Update in place of the harness's context map (`iter_mut`) is modelled by returning a new map, the same value afterwards.
