/** The MuSig2 adapter (src/protocol/musig2.rs): an n-out-of-n key generation
    in two steps and a signing in three.  Peers' nonces and partial signatures
    travel as `payload ++ [signer index]` and are split again by
    `deserialize_musig`. */
module Musig2 {
  import opened Wrappers
  import opened Wire
  import opened Protocol

  const ErrWrongType := "wrong protocol type"
  const ErrNotEqual := "number of parties must be equal to the treshold"
  const ErrNotInitialized := "protocol not initialized"
  const ErrFinished := "protocol already finished"
  const ErrNotFinished := "protocol not finished"
  const ErrNoMessage := "message to sign not initialized"
  const ErrChunkLen := "Input data length must be a multiple of the input size"
  const ErrDuplicate := "Duplicate key found"

  /** A public nonce (two 33-byte points) followed by the signer's index. */
  const PUBNONCE_CHUNK_LEN: nat := 67
  /** A 32-byte scalar followed by the signer's index. */
  const SCALAR_CHUNK_LEN: nat := 33

  // ---------------------------------------------------------------------------
  // Integer facts for `%` with a variable divisor

  lemma MulMonotone(d: int, c: int)
    requires d >= 1 && c > 0
    ensures d * c >= c
  {
    if d > 1 {
      MulMonotone(d - 1, c);
      assert d * c == (d - 1) * c + c;
    }
  }

  lemma ModUnique(x: int, q: int, r: int, c: int)
    requires c > 0 && 0 <= r < c && x == q * c + r
    ensures x % c == r && x / c == q
  {
    var q', r' := x / c, x % c;
    assert (q - q') * c == r' - r && (q' - q) * c == r - r' by {
      assert x == q' * c + r';
      assert (q - q') * c == q * c - q' * c;
      assert (q' - q) * c == q' * c - q * c;
    }
    if q > q' {
      MulMonotone(q - q', c);
      assert false;
    } else if q < q' {
      MulMonotone(q' - q, c);
      assert false;
    }
  }

  // ---------------------------------------------------------------------------
  // deserialize_musig

  /** `data.concat()`. */
  function Concat(data: seq<Bytes>): Bytes
    decreases |data|
  {
    if data == [] then [] else data[0] + Concat(data[1..])
  }

  /** Every piece is exactly `c` bytes long. */
  predicate Sized(cs: seq<Bytes>, c: nat)
  {
    forall i | 0 <= i < |cs| :: |cs[i]| == c
  }

  /** `chunks_exact(c)`: the consecutive `c`-byte pieces of `s`; a shorter tail
      is dropped. */
  function Chunks(s: Bytes, c: nat): (cs: seq<Bytes>)
    requires c > 0
    ensures Sized(cs, c)
    decreases |s|
  {
    if |s| < c then [] else [s[..c]] + Chunks(s[c..], c)
  }

  /** No two chunks carry the same index byte (their last byte). */
  predicate DistinctKeys(cs: seq<Bytes>, c: nat)
    requires c > 0 && Sized(cs, c)
  {
    forall i, j | 0 <= i < j < |cs| :: cs[i][c - 1] != cs[j][c - 1]
  }

  /** The loop of `deserialize_musig` over the chunks: each chunk is split into
      its index byte and the rest, and an index seen before fails the call. */
  function InsertChunks(cs: seq<Bytes>, c: nat): (r: Result<map<uint8, Bytes>>)
    requires c > 0 && Sized(cs, c)
    ensures r.Err? ==> r.error == ErrDuplicate
    decreases |cs|
  {
    if cs == [] then Ok(map[])
    else
      var chunk := cs[|cs| - 1];
      match InsertChunks(cs[..|cs| - 1], c)
      case Err(e) => Err(e)
      case Ok(m) =>
        var key := chunk[c - 1];
        if key in m then Err(ErrDuplicate) else Ok(m[key := chunk[..c - 1]])
  }

  /** What `deserialize_musig(data, c)` returns. */
  function DeserializeMusigSpec(data: seq<Bytes>, c: nat): Result<map<uint8, Bytes>>
    requires c > 0
  {
    var s := Concat(data);
    if |s| % c != 0 then Err(ErrChunkLen) else InsertChunks(Chunks(s, c), c)
  }

  lemma {:induction false} InsertChunksFailureSticks(cs: seq<Bytes>, c: nat, k: nat)
    requires c > 0 && Sized(cs, c) && k <= |cs|
    requires InsertChunks(cs[..k], c).Err?
    ensures InsertChunks(cs, c) == InsertChunks(cs[..k], c)
    decreases |cs| - k
  {
    if k < |cs| {
      var prefix := cs[..k + 1];
      assert prefix[..|prefix| - 1] == cs[..k];
      assert InsertChunks(prefix, c) == InsertChunks(cs[..k], c);
      InsertChunksFailureSticks(cs, c, k + 1);
    } else {
      assert cs[..k] == cs;
    }
  }

  /** `deserialize_musig`: concatenate, reject a length that is not a multiple
      of `chunkLen`, then collect the chunks under their index byte. */
  method DeserializeMusig(data: seq<Bytes>, chunkLen: nat) returns (r: Result<map<uint8, Bytes>>)
    requires chunkLen > 0
    ensures r == DeserializeMusigSpec(data, chunkLen)
  {
    var bytes := Concat(data);
    if |bytes| % chunkLen != 0 {
      return Err(ErrChunkLen);
    }
    var chunks := Chunks(bytes, chunkLen);
    var hashmap: map<uint8, Bytes> := map[];
    for i := 0 to |chunks|
      invariant InsertChunks(chunks[..i], chunkLen) == Ok(hashmap)
    {
      var chunk := chunks[i];
      var key := chunk[chunkLen - 1];
      var value := chunk[..chunkLen - 1];
      assert chunks[..i + 1][..i] == chunks[..i];
      if key in hashmap {
        InsertChunksFailureSticks(chunks, chunkLen, i + 1);
        return Err(ErrDuplicate);
      }
      hashmap := hashmap[key := value];
    }
    assert chunks[..|chunks|] == chunks;
    return Ok(hashmap);
  }

  /** Keys stay distinct when one chunk is appended exactly when its key is new. */
  lemma DistinctKeysSnoc(cs: seq<Bytes>, c: nat)
    requires c > 0 && Sized(cs, c) && cs != []
    ensures DistinctKeys(cs, c) <==>
      && DistinctKeys(cs[..|cs| - 1], c)
      && forall i | 0 <= i < |cs| - 1 :: cs[i][c - 1] != cs[|cs| - 1][c - 1]
  {
    var init := cs[..|cs| - 1];
    assert forall i | 0 <= i < |init| :: init[i] == cs[i];
    if DistinctKeys(init, c) && forall i | 0 <= i < |cs| - 1 :: cs[i][c - 1] != cs[|cs| - 1][c - 1] {
      forall i, j | 0 <= i < j < |cs| ensures cs[i][c - 1] != cs[j][c - 1] {
        if j < |cs| - 1 {
          assert init[i] == cs[i] && init[j] == cs[j];
        }
      }
    }
  }

  /** Collecting succeeds exactly when no index byte repeats. */
  lemma {:induction false} InsertChunksOk(cs: seq<Bytes>, c: nat)
    requires c > 0 && Sized(cs, c)
    ensures InsertChunks(cs, c).Ok? <==> DistinctKeys(cs, c)
    decreases |cs|
  {
    if cs != [] {
      var init := cs[..|cs| - 1];
      var key := cs[|cs| - 1][c - 1];
      assert forall i | 0 <= i < |init| :: init[i] == cs[i];
      InsertChunksOk(init, c);
      DistinctKeysSnoc(cs, c);
      if InsertChunks(init, c).Ok? {
        var m := InsertChunks(init, c).value;
        InsertChunksEntries(init, c);
        InsertChunksKeys(init, c);
        if key in m {
          var i :| 0 <= i < |init| && init[i][c - 1] == key;
          assert cs[i][c - 1] == key;
        } else {
          forall i | 0 <= i < |cs| - 1 ensures cs[i][c - 1] != key {
            assert init[i][c - 1] in m;
          }
        }
      }
    }
  }

  /** Every chunk is in the collected map, under its index byte. */
  lemma {:induction false} InsertChunksEntries(cs: seq<Bytes>, c: nat)
    requires c > 0 && Sized(cs, c)
    ensures InsertChunks(cs, c).Ok? ==>
      forall i | 0 <= i < |cs| :: cs[i][c - 1] in InsertChunks(cs, c).value
        && InsertChunks(cs, c).value[cs[i][c - 1]] == cs[i][..c - 1]
    decreases |cs|
  {
    if cs != [] && InsertChunks(cs, c).Ok? {
      var init := cs[..|cs| - 1];
      assert forall i | 0 <= i < |init| :: init[i] == cs[i];
      InsertChunksEntries(init, c);
    }
  }

  /** The collected map holds nothing but the chunks, one entry for each. */
  lemma {:induction false} InsertChunksKeys(cs: seq<Bytes>, c: nat)
    requires c > 0 && Sized(cs, c)
    ensures InsertChunks(cs, c).Ok? ==>
      && |InsertChunks(cs, c).value| == |cs|
      && forall k | k in InsertChunks(cs, c).value :: exists i | 0 <= i < |cs| :: cs[i][c - 1] == k
    decreases |cs|
  {
    if cs != [] && InsertChunks(cs, c).Ok? {
      var init := cs[..|cs| - 1];
      var last := cs[|cs| - 1];
      assert forall i | 0 <= i < |init| :: init[i] == cs[i];
      InsertChunksKeys(init, c);
      var m := InsertChunks(init, c).value;
      assert InsertChunks(cs, c).value.Keys == m.Keys + {last[c - 1]};
      forall k | k in InsertChunks(cs, c).value ensures exists i | 0 <= i < |cs| :: cs[i][c - 1] == k {
        if k != last[c - 1] {
          var i :| 0 <= i < |init| && init[i][c - 1] == k;
          assert cs[i][c - 1] == k;
        } else {
          assert cs[|cs| - 1][c - 1] == k;
        }
      }
    }
  }

  lemma {:induction false} ConcatLength(bs: seq<Bytes>, c: nat)
    requires Sized(bs, c)
    ensures |Concat(bs)| == |bs| * c
    decreases |bs|
  {
    if bs != [] {
      ConcatLength(bs[1..], c);
      assert |bs| * c == (|bs| - 1) * c + c;
    }
  }

  /** Pieces of exactly `c` bytes come back out of their concatenation unchanged. */
  lemma {:induction false} ChunksOfConcat(bs: seq<Bytes>, c: nat)
    requires c > 0 && Sized(bs, c)
    ensures Chunks(Concat(bs), c) == bs
    decreases |bs|
  {
    if bs != [] {
      var s := Concat(bs);
      assert s == bs[0] + Concat(bs[1..]);
      assert s[..c] == bs[0];
      assert s[c..] == Concat(bs[1..]);
      ChunksOfConcat(bs[1..], c);
      assert bs == [bs[0]] + bs[1..];
    }
  }

  /** When the length is a multiple of `c`, `chunks_exact` drops nothing. */
  lemma {:induction false} ChunksCover(s: Bytes, c: nat)
    requires c > 0 && |s| % c == 0
    ensures Concat(Chunks(s, c)) == s
    decreases |s|
  {
    if |s| < c {
      ModUnique(|s|, 0, |s|, c);
    } else {
      var q := |s| / c;
      assert |s| == q * c;
      assert |s| - c == (q - 1) * c;
      ModUnique(|s| - c, q - 1, 0, c);
      ChunksCover(s[c..], c);
      var cs := Chunks(s, c);
      assert cs == [s[..c]] + Chunks(s[c..], c);
      assert cs[1..] == Chunks(s[c..], c);
      assert s == s[..c] + s[c..];
    }
  }

  /** `deserialize_musig` succeeds exactly when the input splits evenly into
      chunks whose index bytes are distinct; every input byte then lands in
      the map, one entry per chunk. */
  lemma DeserializeMusigCharacterized(data: seq<Bytes>, c: nat)
    requires c > 0
    ensures DeserializeMusigSpec(data, c).Ok? <==>
      |Concat(data)| % c == 0 && DistinctKeys(Chunks(Concat(data), c), c)
    ensures DeserializeMusigSpec(data, c).Ok? ==>
      var cs := Chunks(Concat(data), c);
      var m := DeserializeMusigSpec(data, c).value;
      && Concat(cs) == Concat(data)
      && |m| * c == |Concat(data)|
      && (forall k | k in m :: exists i | 0 <= i < |cs| :: cs[i][c - 1] == k)
      && (forall i | 0 <= i < |cs| :: cs[i][c - 1] in m && m[cs[i][c - 1]] == cs[i][..c - 1])
  {
    var s := Concat(data);
    var cs := Chunks(s, c);
    InsertChunksOk(cs, c);
    InsertChunksEntries(cs, c);
    InsertChunksKeys(cs, c);
    if |s| % c == 0 {
      ChunksCover(s, c);
      ConcatLength(cs, c);
    }
  }

  /** Messages of `c` bytes, each ending in a distinct signer index, are
      recovered under their indices: `deserialize_musig` inverts what the
      peers sent. */
  lemma TaggedMessagesRecovered(bufs: seq<Bytes>, c: nat)
    requires c > 0 && Sized(bufs, c) && DistinctKeys(bufs, c)
    ensures DeserializeMusigSpec(bufs, c).Ok?
    ensures var m := DeserializeMusigSpec(bufs, c).value;
      && |m| == |bufs|
      && forall i | 0 <= i < |bufs| :: bufs[i][c - 1] in m && m[bufs[i][c - 1]] == bufs[i][..c - 1]
  {
    ChunksOfConcat(bufs, c);
    ConcatLength(bufs, c);
    ModUnique(|bufs| * c, |bufs|, 0, c);
    InsertChunksOk(bufs, c);
    InsertChunksEntries(bufs, c);
    InsertChunksKeys(bufs, c);
  }

  /** `out_buffer.push(internal_index)`: the index byte appended to a payload. */
  function Tagged(payload: Bytes, index: nat): (r: Bytes)
    ensures |r| == |payload| + 1
    ensures r[|payload|] == AsU8(index) && r[..|payload|] == payload
  {
    payload + [AsU8(index)]
  }

  /** The peers' tagged messages, keyed by party. */
  function TaggedByParty(peers: map<uint32, (Bytes, nat)>): map<uint32, Bytes>
  {
    map p | p in peers :: Tagged(peers[p].0, peers[p].1)
  }

  lemma TaggedValuesDistinct(peers: map<uint32, (Bytes, nat)>, c: nat)
    requires c > 0
    requires forall p | p in peers :: |peers[p].0| == c - 1
    requires forall p, q | p in peers && q in peers && p != q :: AsU8(peers[p].1) != AsU8(peers[q].1)
    ensures Sized(ValuesOf(TaggedByParty(peers)), c)
    ensures DistinctKeys(ValuesOf(TaggedByParty(peers)), c)
  {
    var bufs := TaggedByParty(peers);
    var vs := ValuesOf(bufs);
    var ks := Ascending(bufs.Keys);
    assert Sized(vs, c);
    forall i, j | 0 <= i < j < |vs| ensures vs[i][c - 1] != vs[j][c - 1] {
      assert ks[i] != ks[j];
    }
  }

  /** What a signer receives from its peers (keyed by party, each a payload of
      `c - 1` bytes tagged with the sender's index): when the indices are
      distinct, `deserialize_musig` hands on each payload under its sender's
      index. */
  lemma PeerMessagesRecovered(peers: map<uint32, (Bytes, nat)>, c: nat)
    requires c > 0
    requires forall p | p in peers :: |peers[p].0| == c - 1
    requires forall p, q | p in peers && q in peers && p != q :: AsU8(peers[p].1) != AsU8(peers[q].1)
    ensures DeserializeMusigSpec(ValuesOf(TaggedByParty(peers)), c).Ok?
    ensures forall p | p in peers ::
      && AsU8(peers[p].1) in DeserializeMusigSpec(ValuesOf(TaggedByParty(peers)), c).value
      && DeserializeMusigSpec(ValuesOf(TaggedByParty(peers)), c).value[AsU8(peers[p].1)] == peers[p].0
    ensures forall k | k in DeserializeMusigSpec(ValuesOf(TaggedByParty(peers)), c).value ::
      exists p | p in peers :: AsU8(peers[p].1) == k
  {
    var bufs := TaggedByParty(peers);
    var vs := ValuesOf(bufs);
    var ks := Ascending(bufs.Keys);
    TaggedValuesDistinct(peers, c);
    TaggedMessagesRecovered(vs, c);
    var m := DeserializeMusigSpec(vs, c).value;
    forall p | p in peers ensures AsU8(peers[p].1) in m && m[AsU8(peers[p].1)] == peers[p].0 {
      assert p in bufs.Keys && p in ks;
      var i :| 0 <= i < |ks| && ks[i] == p;
      assert vs[i] == bufs[p];
      assert vs[i][c - 1] == AsU8(peers[p].1);
      assert vs[i][..c - 1] == peers[p].0;
    }
    PeerIndicesOnly(peers, c);
  }

  lemma PeerIndicesOnly(peers: map<uint32, (Bytes, nat)>, c: nat)
    requires c > 0
    requires forall p | p in peers :: |peers[p].0| == c - 1
    requires forall p, q | p in peers && q in peers && p != q :: AsU8(peers[p].1) != AsU8(peers[q].1)
    ensures DeserializeMusigSpec(ValuesOf(TaggedByParty(peers)), c).Ok? ==>
      forall k | k in DeserializeMusigSpec(ValuesOf(TaggedByParty(peers)), c).value ::
        exists p | p in peers :: AsU8(peers[p].1) == k
  {
    var bufs := TaggedByParty(peers);
    var vs := ValuesOf(bufs);
    var ks := Ascending(bufs.Keys);
    TaggedValuesDistinct(peers, c);
    ChunksOfConcat(vs, c);
    InsertChunksKeys(vs, c);
    if DeserializeMusigSpec(vs, c).Ok? {
      var m := DeserializeMusigSpec(vs, c).value;
      forall k | k in m ensures exists p | p in peers :: AsU8(peers[p].1) == k {
        var i :| 0 <= i < |vs| && vs[i][c - 1] == k;
        assert vs[i] == bufs[ks[i]];
        assert ks[i] in peers;
      }
    }
  }

  // ---------------------------------------------------------------------------
  // The signer library and serde, as parameters

  datatype Setup = Setup(threshold: uint16, parties: uint16, index: uint16)

  /** Stand-in for the musig2 library's signer: key share, key-aggregation
      context, nonces and collected partial signatures. */
  datatype Signer = Signer(state: Bytes)
  datatype PublicKey = PublicKey(point: Bytes)
  datatype Signature = Signature(compact: Bytes)

  /** What key generation hands to signing: the `(setup, signer)` pair. */
  datatype Group = Group(setup: Setup, signer: Signer)

  datatype Env = Env(
    codec: Codec,
    bytesJson: Bytes -> Option<Bytes>,
    parseBytes: Bytes -> Option<Bytes>,
    pubkeyJson: PublicKey -> Option<Bytes>,
    signatureJson: Signature -> Option<Bytes>,
    groupJson: Group -> Option<Bytes>,
    parseGroup: Bytes -> Option<Group>,
    pubkeySerialized: Signer -> Bytes,
    keyAgg: (Signer, seq<Bytes>) -> Signer,
    aggPubkey: Signer -> PublicKey,
    firstRound: Signer -> Signer,
    pubnonce: Signer -> Bytes,
    signerIndex: Signer -> nat,
    secondRound: (Signer, Bytes, map<uint8, Bytes>) -> Signer,
    partialSignature: Signer -> Bytes,
    receivePartials: (Signer, map<uint8, Bytes>) -> Signer,
    aggSignature: Signer -> Result<Signature>,
    signatureBytes: Signature -> Bytes)

  /** The state after one call and what the call returned: MuSig2 can change
      its state and still fail. */
  datatype Transition<S> = Transition(next: S, out: Result<(Bytes, Recipient)>)

  // ---------------------------------------------------------------------------
  // What every `update` round reads from the relay

  /** `deserialize_map(&ServerMessage::decode(data)?.broadcasts)`: the peers'
      broadcasts, each parsed from JSON, keyed by sender. */
  function RelayedBroadcasts(data: Bytes, env: Env): (r: Result<map<uint32, Bytes>>)
    ensures env.codec.decodeServer(data).None? ==> r == Err(ErrDecode)
    ensures env.codec.decodeServer(data).Some? ==>
      r == DeserializeMap(env.codec.decodeServer(data).value.broadcasts, env.parseBytes)
  {
    match env.codec.decodeServer(data)
    case None => Err(ErrDecode)
    case Some(sm) => DeserializeMap(sm.broadcasts, env.parseBytes)
  }

  /** The signing rounds go on to split the parsed broadcasts with
      `deserialize_musig(values, c)`: each payload under its signer index. */
  function RelayedPayloads(data: Bytes, c: nat, env: Env): (r: Result<map<uint8, Bytes>>)
    requires c > 0
    ensures RelayedBroadcasts(data, env).Err? ==> r == Err(RelayedBroadcasts(data, env).error)
    ensures RelayedBroadcasts(data, env).Ok? ==>
      r == DeserializeMusigSpec(ValuesOf(RelayedBroadcasts(data, env).value), c)
  {
    match RelayedBroadcasts(data, env)
    case Err(e) => Err(e)
    case Ok(bcasts) => DeserializeMusigSpec(ValuesOf(bcasts), c)
  }

  /** Every tagged payload serializes to JSON and parses back. */
  predicate JsonRoundTrips(bufs: map<uint32, Bytes>, env: Env)
  {
    forall k | k in bufs :: env.bytesJson(bufs[k]).Some? && env.parseBytes(env.bytesJson(bufs[k]).value) == Some(bufs[k])
  }

  /** The relay's message for a signing round: every peer's tagged payload,
      serialized to JSON, as a broadcast under the peer's party index. */
  function RelayOfTagged(peers: map<uint32, (Bytes, nat)>, env: Env): Bytes
    requires JsonRoundTrips(TaggedByParty(peers), env)
  {
    env.codec.encodeServer(ServerMessage(Tag(Musig2), map[], SerializedValues(TaggedByParty(peers), env.bytesJson)))
  }

  /** A signing round reads back exactly what the peers sent: each peer's
      payload under its signer index, and no other entry, whenever decoding
      and parsing invert encoding and serialization. */
  lemma RelayedPayloadsRecovered(peers: map<uint32, (Bytes, nat)>, c: nat, env: Env)
    requires c > 0
    requires env.codec.RoundTrips() && JsonRoundTrips(TaggedByParty(peers), env)
    requires forall p | p in peers :: |peers[p].0| == c - 1
    requires forall p, q | p in peers && q in peers && p != q :: AsU8(peers[p].1) != AsU8(peers[q].1)
    ensures RelayedPayloads(RelayOfTagged(peers, env), c, env) == DeserializeMusigSpec(ValuesOf(TaggedByParty(peers)), c)
    ensures RelayedPayloads(RelayOfTagged(peers, env), c, env).Ok?
    ensures var m := RelayedPayloads(RelayOfTagged(peers, env), c, env).value;
      && (forall p | p in peers :: AsU8(peers[p].1) in m && m[AsU8(peers[p].1)] == peers[p].0)
      && (forall k | k in m :: exists p | p in peers :: AsU8(peers[p].1) == k)
  {
    var bufs := TaggedByParty(peers);
    var relayed := ServerMessage(Tag(Musig2), map[], SerializedValues(bufs, env.bytesJson));
    assert env.codec.decodeServer(env.codec.encodeServer(relayed)) == Some(relayed);
    DeserializeMapInverts(bufs, env.bytesJson, env.parseBytes);
    assert RelayedBroadcasts(RelayOfTagged(peers, env), env) == Ok(bufs);
    PeerMessagesRecovered(peers, c);
  }

  // ---------------------------------------------------------------------------
  // Key generation: R0 -> R1 -> Done

  datatype KeygenRound = R0 | R1(setup: Setup, signer: Signer) | Done(setup: Setup, signer: Signer)

  /** How many steps a key generation in `round` has completed. */
  function KeygenStage(round: KeygenRound): (n: nat)
    ensures n <= 2 && (n == 2 <==> round.Done?)
  {
    match round
    case R0 => 0
    case R1(_, _) => 1
    case Done(_, _) => 2
  }

  /** `init`: check the protocol type and n == k (compared after truncation to
      16 bits), take the new signer and broadcast its public key share. */
  function KeygenInit(round: KeygenRound, data: Bytes, newSigner: Signer, env: Env): (t: Transition<KeygenRound>)
    ensures t.out.Ok? <==>
      && env.codec.decodeGroupInit(data).Some?
      && var msg := env.codec.decodeGroupInit(data).value;
      && msg.protocolType == Tag(Musig2)
      && AsU16(msg.parties) == AsU16(msg.threshold)
      && env.bytesJson(env.pubkeySerialized(newSigner)).Some?
    ensures t.out.Ok? ==>
      var msg := env.codec.decodeGroupInit(data).value;
      && t.next == KeygenRound.R1(Setup(AsU16(msg.threshold), AsU16(msg.parties), AsU16(msg.index)), newSigner)
      && t.out.value.1 == Server
    ensures t.out.Ok? && env.codec.RoundTrips() ==>
      env.codec.decodeClient(t.out.value.0)
        == Some(ClientMessage(Tag(Musig2), map[], env.bytesJson(env.pubkeySerialized(newSigner))))
    ensures t.out.Err? ==> t.next == round
  {
    match env.codec.decodeGroupInit(data)
    case None => Transition(round, Err(ErrDecode))
    case Some(msg) =>
      if msg.protocolType != Tag(Musig2) then Transition(round, Err(ErrWrongType))
      else if AsU16(msg.parties) != AsU16(msg.threshold) then Transition(round, Err(ErrNotEqual))
      else
        var setup := Setup(AsU16(msg.threshold), AsU16(msg.parties), AsU16(msg.index));
        match SerializeBcast(env.pubkeySerialized(newSigner), env.bytesJson, Musig2, env.codec)
        case Err(e) => Transition(round, Err(e))
        case Ok(out) => Transition(KeygenRound.R1(setup, newSigner), Ok((out, Server)))
  }

  /** `update`: in R1, aggregate the peers' key shares into the signer (in
      place, before serialization can fail) and broadcast the aggregate key. */
  function KeygenUpdate(round: KeygenRound, data: Bytes, env: Env): (t: Transition<KeygenRound>)
    ensures round.R0? ==> t == Transition(round, Err(ErrNotInitialized))
    ensures round.Done? ==> t == Transition(round, Err(ErrFinished))
    ensures round.R1? ==> !t.next.R0? && t.next.setup == round.setup && (t.next.Done? <==> t.out.Ok?)
    // A message that does not decode or parse leaves the round untouched ...
    ensures round.R1? && RelayedBroadcasts(data, env).Err? ==>
      t == Transition(round, Err(RelayedBroadcasts(data, env).error))
    // ... otherwise the signer has aggregated the key shares, even when the
    // aggregate key then fails to serialize.
    ensures round.R1? && RelayedBroadcasts(data, env).Ok? ==>
      && t.next.signer == env.keyAgg(round.signer, ValuesOf(RelayedBroadcasts(data, env).value))
      && (t.out.Ok? <==> env.pubkeyJson(env.aggPubkey(t.next.signer)).Some?)
    ensures t.out.Ok? && env.codec.RoundTrips() ==>
      env.codec.decodeClient(t.out.value.0)
        == Some(ClientMessage(Tag(Musig2), map[], env.pubkeyJson(env.aggPubkey(t.next.signer))))
  {
    match round
    case R0 => Transition(round, Err(ErrNotInitialized))
    case R1(setup, signer) =>
      (match RelayedBroadcasts(data, env)
       case Err(e) => Transition(round, Err(e))
       case Ok(keys) =>
         var aggregated := env.keyAgg(signer, ValuesOf(keys));
         match SerializeBcast(env.aggPubkey(aggregated), env.pubkeyJson, Musig2, env.codec)
         case Err(e) => Transition(KeygenRound.R1(setup, aggregated), Err(e))
         case Ok(out) => Transition(KeygenRound.Done(setup, aggregated), Ok((out, Server))))
    case Done(_, _) => Transition(round, Err(ErrFinished))
  }

  /** The public key shares the signer aggregates are exactly the ones the
      peers broadcast, whenever parsing inverts serialization. */
  lemma KeygenAggregatesPeerShares(setup: Setup, signer: Signer, shares: map<uint32, Bytes>, env: Env)
    requires env.codec.RoundTrips()
    requires forall k | k in shares :: env.bytesJson(shares[k]).Some? && env.parseBytes(env.bytesJson(shares[k]).value) == Some(shares[k])
    ensures var relayed := ServerMessage(Tag(Musig2), map[], SerializedValues(shares, env.bytesJson));
      var t := KeygenUpdate(KeygenRound.R1(setup, signer), env.codec.encodeServer(relayed), env);
      t.next.signer == env.keyAgg(signer, ValuesOf(shares))
  {
    var relayed := ServerMessage(Tag(Musig2), map[], SerializedValues(shares, env.bytesJson));
    assert env.codec.decodeServer(env.codec.encodeServer(relayed)) == Some(relayed);
    DeserializeMapInverts(shares, env.bytesJson, env.parseBytes);
  }

  /** `advance`: `init` in R0, `update` otherwise.  A successful call moves one
      stage on; a failed one leaves the stage where it was. */
  function KeygenAdvance(round: KeygenRound, data: Bytes, newSigner: Signer, env: Env): (t: Transition<KeygenRound>)
    ensures t.out.Ok? ==> KeygenStage(t.next) == KeygenStage(round) + 1 && t.out.value.1 == Server
    ensures t.out.Err? ==> KeygenStage(t.next) == KeygenStage(round)
    ensures !round.R0? ==> !t.next.R0? && t.next.setup == round.setup
  {
    if round.R0? then KeygenInit(round, data, newSigner, env) else KeygenUpdate(round, data, env)
  }

  /** `finish`: the serialized (setup, signer) pair, once Done. */
  function KeygenFinish(round: KeygenRound, env: Env): (r: Result<Bytes>)
    ensures r.Ok? <==> round.Done? && env.groupJson(Group(round.setup, round.signer)).Some?
    ensures r.Ok? ==> Some(r.value) == env.groupJson(Group(round.setup, round.signer))
  {
    match round
    case Done(setup, signer) =>
      (match env.groupJson(Group(setup, signer))
       case None => Err(ErrSerialize)
       case Some(group) => Ok(group))
    case _ => Err(ErrNotFinished)
  }

  class KeygenContext {
    var round: KeygenRound
    var withCard: bool

    /** `KeygenProtocol::new`. */
    constructor ()
      ensures round == KeygenRound.R0 && !withCard
    {
      round := KeygenRound.R0;
      withCard := false;
    }

    /** `with_card`. */
    constructor WithCard()
      ensures round == KeygenRound.R0 && withCard
    {
      round := KeygenRound.R0;
      withCard := true;
    }

    method Init(data: Bytes, newSigner: Signer, env: Env) returns (r: Result<(Bytes, Recipient)>)
      modifies this
      ensures round == KeygenInit(old(round), data, newSigner, env).next
      ensures r == KeygenInit(old(round), data, newSigner, env).out
      ensures withCard == old(withCard)
    {
      var msg := env.codec.decodeGroupInit(data);
      if msg.None? {
        return Err(ErrDecode);
      }
      if msg.value.protocolType != Tag(Musig2) {
        return Err(ErrWrongType);
      }
      if AsU16(msg.value.parties) != AsU16(msg.value.threshold) {
        return Err(ErrNotEqual);
      }
      var setup := Setup(AsU16(msg.value.threshold), AsU16(msg.value.parties), AsU16(msg.value.index));
      var signer := newSigner;
      var publicKeyShare := env.pubkeySerialized(signer);
      var out := SerializeBcast(publicKeyShare, env.bytesJson, Musig2, env.codec);
      if out.Err? {
        return Err(out.error);
      }
      round := KeygenRound.R1(setup, signer);
      return Ok((out.value, Server));
    }

    method Update(data: Bytes, env: Env) returns (r: Result<(Bytes, Recipient)>)
      modifies this
      ensures round == KeygenUpdate(old(round), data, env).next
      ensures r == KeygenUpdate(old(round), data, env).out
      ensures withCard == old(withCard)
    {
      match round
      case R0 =>
        return Err(ErrNotInitialized);
      case R1(setup, signer) =>
        var sm := env.codec.decodeServer(data);
        if sm.None? {
          return Err(ErrDecode);
        }
        var keys := DeserializeMap(sm.value.broadcasts, env.parseBytes);
        if keys.Err? {
          return Err(keys.error);
        }
        var shares := ValuesOf(keys.value);
        var aggregated := env.keyAgg(signer, shares);
        round := KeygenRound.R1(setup, aggregated);
        var out := SerializeBcast(env.aggPubkey(aggregated), env.pubkeyJson, Musig2, env.codec);
        if out.Err? {
          return Err(out.error);
        }
        round := KeygenRound.Done(setup, aggregated);
        return Ok((out.value, Server));
      case Done(_, _) =>
        return Err(ErrFinished);
    }

    method Advance(data: Bytes, newSigner: Signer, env: Env) returns (r: Result<(Bytes, Recipient)>)
      modifies this
      ensures round == KeygenAdvance(old(round), data, newSigner, env).next
      ensures r == KeygenAdvance(old(round), data, newSigner, env).out
      ensures withCard == old(withCard)
    {
      if round.R0? {
        r := Init(data, newSigner, env);
      } else {
        r := Update(data, env);
      }
    }

    function Finish(env: Env): (r: Result<Bytes>)
      reads this
      ensures r.Ok? <==> round.Done? && env.groupJson(Group(round.setup, round.signer)).Some?
      ensures r.Ok? ==> Some(r.value) == env.groupJson(Group(round.setup, round.signer))
    {
      KeygenFinish(round, env)
    }
  }

  // ---------------------------------------------------------------------------
  // Signing: R0 -> R1 -> R2 -> Done

  datatype SignRound = R0 | R1(signer: Signer) | R2(signer: Signer) | Done(signature: Signature)

  datatype SignState = SignState(
    setup: Setup,
    initialSigner: Signer,
    message: Option<Bytes>,
    indices: Option<seq<uint16>>,
    round: SignRound)

  /** How many steps a signing in `round` has completed. */
  function SignStage(round: SignRound): (n: nat)
    ensures n <= 3 && (n == 3 <==> round.Done?)
  {
    match round
    case R0 => 0
    case R1(_) => 1
    case R2(_) => 2
    case Done(_) => 3
  }

  /** Once initialised, a signing session knows its message and its signers. */
  predicate SignInvariant(s: SignState)
  {
    !s.round.R0? ==> s.message.Some? && s.indices.Some?
  }

  /** `new(group)`: the (setup, signer) pair that key generation finished with. */
  function SignNew(group: Bytes, env: Env): (s: SignState)
    requires env.parseGroup(group).Some?
    ensures s.round == SignRound.R0 && SignInvariant(s)
    ensures Group(s.setup, s.initialSigner) == env.parseGroup(group).value
  {
    var g := env.parseGroup(group).value;
    SignState(g.setup, g.signer, None, None, SignRound.R0)
  }

  /** The hand-off from key generation to signing: what `finish` serialized is
      what `new` starts from, whenever parsing inverts serialization. */
  lemma KeygenFinishFeedsSign(round: KeygenRound, env: Env)
    requires forall g :: env.groupJson(g).Some? ==> env.parseGroup(env.groupJson(g).value) == Some(g)
    requires KeygenFinish(round, env).Ok?
    ensures env.parseGroup(KeygenFinish(round, env).value).Some?
    ensures var s := SignNew(KeygenFinish(round, env).value, env);
      s.setup == round.setup && s.initialSigner == round.signer && s.round == SignRound.R0
  {
  }

  /** `init`: record the signers and the message, run the first signing round
      on the initial signer (all of which stays even if serialization then
      fails) and broadcast the public nonce tagged with the signer's index. */
  function SignInit(s: SignState, data: Bytes, env: Env): (t: Transition<SignState>)
    ensures t.out.Ok? <==>
      && env.codec.decodeInit(data).Some?
      && env.codec.decodeInit(data).value.protocolType == Tag(Musig2)
      && var signer := env.firstRound(s.initialSigner);
      && env.bytesJson(Tagged(env.pubnonce(signer), env.signerIndex(signer))).Some?
    ensures env.codec.decodeInit(data).None? ==> t == Transition(s, Err(ErrDecode))
    ensures env.codec.decodeInit(data).Some? && env.codec.decodeInit(data).value.protocolType != Tag(Musig2) ==>
      t == Transition(s, Err(ErrWrongType))
    ensures env.codec.decodeInit(data).Some? && env.codec.decodeInit(data).value.protocolType == Tag(Musig2) ==>
      var msg := env.codec.decodeInit(data).value;
      && t.next.message == Some(msg.data)
      && t.next.indices == Some(AsU16s(msg.indices))
      && t.next.initialSigner == env.firstRound(s.initialSigner)
    ensures t.next.setup == s.setup
    ensures t.out.Ok? ==> t.next.round == SignRound.R1(t.next.initialSigner) && t.out.value.1 == Server
    ensures t.out.Err? ==> t.next.round == s.round
    ensures t.out.Ok? && env.codec.RoundTrips() ==>
      var signer := t.next.initialSigner;
      env.codec.decodeClient(t.out.value.0)
        == Some(ClientMessage(Tag(Musig2), map[], env.bytesJson(Tagged(env.pubnonce(signer), env.signerIndex(signer)))))
  {
    match env.codec.decodeInit(data)
    case None => Transition(s, Err(ErrDecode))
    case Some(msg) =>
      if msg.protocolType != Tag(Musig2) then Transition(s, Err(ErrWrongType))
      else
        var signer := env.firstRound(s.initialSigner);
        var s' := s.(indices := Some(AsU16s(msg.indices)), message := Some(msg.data), initialSigner := signer);
        match SerializeBcast(Tagged(env.pubnonce(signer), env.signerIndex(signer)), env.bytesJson, Musig2, env.codec)
        case Err(e) => Transition(s', Err(e))
        case Ok(out) => Transition(s'.(round := SignRound.R1(signer)), Ok((out, Server)))
  }

  /** Round 1 of `update`: collect the peers' tagged nonces, run the second
      signing round on a copy of the signer and broadcast the partial
      signature tagged with the signer's index. */
  function SignRound1(s: SignState, signer: Signer, data: Bytes, env: Env): (t: Transition<SignState>)
    ensures t.out.Err? ==> t.next == s
    ensures RelayedPayloads(data, PUBNONCE_CHUNK_LEN, env).Err? ==>
      t.out == Err(RelayedPayloads(data, PUBNONCE_CHUNK_LEN, env).error)
    ensures RelayedPayloads(data, PUBNONCE_CHUNK_LEN, env).Ok? && s.message.None? ==> t.out == Err(ErrNoMessage)
    // The second round signs the recorded message over the peers' nonces.
    ensures RelayedPayloads(data, PUBNONCE_CHUNK_LEN, env).Ok? && s.message.Some? ==>
      var next := env.secondRound(signer, s.message.value, RelayedPayloads(data, PUBNONCE_CHUNK_LEN, env).value);
      && (t.out.Ok? <==> env.bytesJson(Tagged(env.partialSignature(next), env.signerIndex(next))).Some?)
      && (t.out.Ok? ==> t.next == s.(round := SignRound.R2(next)))
    ensures t.out.Ok? && env.codec.RoundTrips() ==>
      var next := t.next.round.signer;
      env.codec.decodeClient(t.out.value.0)
        == Some(ClientMessage(Tag(Musig2), map[], env.bytesJson(Tagged(env.partialSignature(next), env.signerIndex(next)))))
  {
    match RelayedPayloads(data, PUBNONCE_CHUNK_LEN, env)
    case Err(e) => Transition(s, Err(e))
    case Ok(pubnonces) =>
      match s.message
      case None => Transition(s, Err(ErrNoMessage))
      case Some(message) =>
        var next := env.secondRound(signer, message, pubnonces);
        match SerializeBcast(Tagged(env.partialSignature(next), env.signerIndex(next)), env.bytesJson, Musig2, env.codec)
        case Err(e) => Transition(s, Err(e))
        case Ok(out) => Transition(s.(round := SignRound.R2(next)), Ok((out, Server)))
  }

  /** Round 2 of `update`: collect the peers' tagged partial signatures,
      aggregate, and broadcast the signature that `finish` will return. */
  function SignRound2(s: SignState, signer: Signer, data: Bytes, env: Env): (t: Transition<SignState>)
    ensures t.out.Err? ==> t.next == s
    ensures RelayedPayloads(data, SCALAR_CHUNK_LEN, env).Err? ==>
      t.out == Err(RelayedPayloads(data, SCALAR_CHUNK_LEN, env).error)
    // The signature aggregates the peers' partial signatures.
    ensures RelayedPayloads(data, SCALAR_CHUNK_LEN, env).Ok? ==>
      var agg := env.aggSignature(env.receivePartials(signer, RelayedPayloads(data, SCALAR_CHUNK_LEN, env).value));
      && (agg.Err? ==> t.out == Err(agg.error))
      && (t.out.Ok? <==> agg.Ok? && env.bytesJson(env.signatureBytes(agg.value)).Some?)
      && (t.out.Ok? ==> t.next == s.(round := SignRound.Done(agg.value)))
    ensures t.out.Ok? && env.codec.RoundTrips() ==>
      env.codec.decodeClient(t.out.value.0)
        == Some(ClientMessage(Tag(Musig2), map[], env.bytesJson(env.signatureBytes(t.next.round.signature))))
  {
    match RelayedPayloads(data, SCALAR_CHUNK_LEN, env)
    case Err(e) => Transition(s, Err(e))
    case Ok(partials) =>
      var next := env.receivePartials(signer, partials);
      match env.aggSignature(next)
      case Err(e) => Transition(s, Err(e))
      case Ok(signature) =>
        match SerializeBcast(env.signatureBytes(signature), env.bytesJson, Musig2, env.codec)
        case Err(e) => Transition(s, Err(e))
        case Ok(out) => Transition(s.(round := SignRound.Done(signature)), Ok((out, Server)))
  }

  /** Round 1 signs the recorded message over exactly the nonces the peers
      sent, each under its signer index, when every piece of coding on the way
      inverts. */
  lemma SignRound1UsesPeerNonces(s: SignState, signer: Signer, peers: map<uint32, (Bytes, nat)>, env: Env)
    requires env.codec.RoundTrips() && s.message.Some?
    requires JsonRoundTrips(TaggedByParty(peers), env)
    requires forall p | p in peers :: |peers[p].0| == PUBNONCE_CHUNK_LEN - 1
    requires forall p, q | p in peers && q in peers && p != q :: AsU8(peers[p].1) != AsU8(peers[q].1)
    ensures var t := SignRound1(s, signer, RelayOfTagged(peers, env), env);
      exists nonces: map<uint8, Bytes> ::
        && (forall p | p in peers :: AsU8(peers[p].1) in nonces && nonces[AsU8(peers[p].1)] == peers[p].0)
        && (forall k | k in nonces :: exists p | p in peers :: AsU8(peers[p].1) == k)
        && (t.out.Ok? ==> t.next.round == SignRound.R2(env.secondRound(signer, s.message.value, nonces)))
  {
    var data := RelayOfTagged(peers, env);
    RelayedPayloadsRecovered(peers, PUBNONCE_CHUNK_LEN, env);
    var nonces := RelayedPayloads(data, PUBNONCE_CHUNK_LEN, env).value;
    var t := SignRound1(s, signer, data, env);
    assert RelayedPayloads(data, PUBNONCE_CHUNK_LEN, env) == Ok(nonces);
    assert t.out.Ok? ==> t.next.round == SignRound.R2(env.secondRound(signer, s.message.value, nonces));
  }

  /** Round 2 aggregates exactly the partial signatures the peers sent, each
      under its signer index, when every piece of coding on the way inverts. */
  lemma SignRound2UsesPeerPartials(s: SignState, signer: Signer, peers: map<uint32, (Bytes, nat)>, env: Env)
    requires env.codec.RoundTrips()
    requires JsonRoundTrips(TaggedByParty(peers), env)
    requires forall p | p in peers :: |peers[p].0| == SCALAR_CHUNK_LEN - 1
    requires forall p, q | p in peers && q in peers && p != q :: AsU8(peers[p].1) != AsU8(peers[q].1)
    ensures var t := SignRound2(s, signer, RelayOfTagged(peers, env), env);
      exists partials: map<uint8, Bytes> ::
        && (forall p | p in peers :: AsU8(peers[p].1) in partials && partials[AsU8(peers[p].1)] == peers[p].0)
        && (forall k | k in partials :: exists p | p in peers :: AsU8(peers[p].1) == k)
        && (t.out.Ok? ==>
            t.next.round.Done? && env.aggSignature(env.receivePartials(signer, partials)) == Ok(t.next.round.signature))
  {
    var data := RelayOfTagged(peers, env);
    RelayedPayloadsRecovered(peers, SCALAR_CHUNK_LEN, env);
    SignRound2Aggregates(s, signer, data, RelayedPayloads(data, SCALAR_CHUNK_LEN, env).value, env);
  }

  lemma SignRound2Aggregates(s: SignState, signer: Signer, data: Bytes, partials: map<uint8, Bytes>, env: Env)
    requires RelayedPayloads(data, SCALAR_CHUNK_LEN, env) == Ok(partials)
    ensures var t := SignRound2(s, signer, data, env);
      t.out.Ok? ==> t.next.round.Done? && env.aggSignature(env.receivePartials(signer, partials)) == Ok(t.next.round.signature)
  {
  }

  /** `update`: a failed call leaves the whole session unchanged. */
  function SignUpdate(s: SignState, data: Bytes, env: Env): (t: Transition<SignState>)
    ensures s.round.R0? ==> t == Transition(s, Err(ErrNotInitialized))
    ensures s.round.Done? ==> t == Transition(s, Err(ErrFinished))
    ensures t.out.Err? ==> t.next == s
    ensures s.round.R1? && s.message.None? ==> t.out.Err?
  {
    match s.round
    case R0 => Transition(s, Err(ErrNotInitialized))
    case R1(signer) => SignRound1(s, signer, data, env)
    case R2(signer) => SignRound2(s, signer, data, env)
    case Done(_) => Transition(s, Err(ErrFinished))
  }

  /** `advance`: a successful call moves one stage on, a failed one does not;
      the setup never changes and the invariant is kept. */
  function SignAdvance(s: SignState, data: Bytes, env: Env): (t: Transition<SignState>)
    ensures t.out.Ok? ==> SignStage(t.next.round) == SignStage(s.round) + 1 && t.out.value.1 == Server
    ensures t.out.Err? ==> SignStage(t.next.round) == SignStage(s.round)
    ensures t.next.setup == s.setup
    ensures SignInvariant(s) ==> SignInvariant(t.next)
  {
    if s.round.R0? then SignInit(s, data, env) else SignUpdate(s, data, env)
  }

  /** In a session that keeps the invariant, round 1 never fails for want of
      a message. */
  lemma MessageAlwaysSet(s: SignState, data: Bytes, env: Env)
    requires SignInvariant(s) && s.round.R1?
    ensures SignAdvance(s, data, env).out != Err(ErrNoMessage)
  {
  }

  /** `finish`: the serialized signature, once Done. */
  function SignFinish(round: SignRound, env: Env): (r: Result<Bytes>)
    ensures r.Ok? <==> round.Done? && env.signatureJson(round.signature).Some?
    ensures r.Ok? ==> Some(r.value) == env.signatureJson(round.signature)
  {
    match round
    case Done(signature) =>
      (match env.signatureJson(signature)
       case None => Err(ErrSerialize)
       case Some(bytes) => Ok(bytes))
    case _ => Err(ErrNotFinished)
  }

  class SignContext {
    var setup: Setup
    var initialSigner: Signer
    var message: Option<Bytes>
    var indices: Option<seq<uint16>>
    var round: SignRound

    function State(): SignState
      reads this
    {
      SignState(setup, initialSigner, message, indices, round)
    }

    /** `new(group)`: parsing the group is an `expect`, so it must succeed. */
    constructor (group: Bytes, env: Env)
      requires env.parseGroup(group).Some?
      ensures State() == SignNew(group, env)
    {
      var g := env.parseGroup(group).value;
      setup := g.setup;
      initialSigner := g.signer;
      message := None;
      indices := None;
      round := SignRound.R0;
    }

    method Init(data: Bytes, env: Env) returns (r: Result<(Bytes, Recipient)>)
      modifies this
      ensures State() == SignInit(old(State()), data, env).next
      ensures r == SignInit(old(State()), data, env).out
    {
      var msg := env.codec.decodeInit(data);
      if msg.None? {
        return Err(ErrDecode);
      }
      if msg.value.protocolType != Tag(Musig2) {
        return Err(ErrWrongType);
      }
      indices := Some(AsU16s(msg.value.indices));
      message := Some(msg.value.data);
      initialSigner := env.firstRound(initialSigner);
      var outBuffer := env.pubnonce(initialSigner);
      var internalIndex := env.signerIndex(initialSigner);
      outBuffer := Tagged(outBuffer, internalIndex);
      var out := SerializeBcast(outBuffer, env.bytesJson, Musig2, env.codec);
      if out.Err? {
        return Err(out.error);
      }
      round := SignRound.R1(initialSigner);
      return Ok((out.value, Server));
    }

    method Update(data: Bytes, env: Env) returns (r: Result<(Bytes, Recipient)>)
      modifies this
      ensures State() == SignUpdate(old(State()), data, env).next
      ensures r == SignUpdate(old(State()), data, env).out
    {
      match round
      case R0 =>
        return Err(ErrNotInitialized);
      case R1(signer) =>
        var sm := env.codec.decodeServer(data);
        if sm.None? {
          return Err(ErrDecode);
        }
        var nonces := DeserializeMap(sm.value.broadcasts, env.parseBytes);
        if nonces.Err? {
          return Err(nonces.error);
        }
        var pubnonces := DeserializeMusig(ValuesOf(nonces.value), PUBNONCE_CHUNK_LEN);
        if pubnonces.Err? {
          return Err(pubnonces.error);
        }
        if message.None? {
          return Err(ErrNoMessage);
        }
        var next := env.secondRound(signer, message.value, pubnonces.value);
        var outBuffer := Tagged(env.partialSignature(next), env.signerIndex(next));
        var out := SerializeBcast(outBuffer, env.bytesJson, Musig2, env.codec);
        if out.Err? {
          return Err(out.error);
        }
        round := SignRound.R2(next);
        return Ok((out.value, Server));
      case R2(signer) =>
        var sm := env.codec.decodeServer(data);
        if sm.None? {
          return Err(ErrDecode);
        }
        var shares := DeserializeMap(sm.value.broadcasts, env.parseBytes);
        if shares.Err? {
          return Err(shares.error);
        }
        var partials := DeserializeMusig(ValuesOf(shares.value), SCALAR_CHUNK_LEN);
        if partials.Err? {
          return Err(partials.error);
        }
        var next := env.receivePartials(signer, partials.value);
        var signature := env.aggSignature(next);
        if signature.Err? {
          return Err(signature.error);
        }
        var out := SerializeBcast(env.signatureBytes(signature.value), env.bytesJson, Musig2, env.codec);
        if out.Err? {
          return Err(out.error);
        }
        round := SignRound.Done(signature.value);
        return Ok((out.value, Server));
      case Done(_) =>
        return Err(ErrFinished);
    }

    method Advance(data: Bytes, env: Env) returns (r: Result<(Bytes, Recipient)>)
      modifies this
      ensures State() == SignAdvance(old(State()), data, env).next
      ensures r == SignAdvance(old(State()), data, env).out
    {
      if round.R0? {
        r := Init(data, env);
      } else {
        r := Update(data, env);
      }
    }

    function Finish(env: Env): (r: Result<Bytes>)
      reads this
      ensures r.Ok? <==> round.Done? && env.signatureJson(round.signature).Some?
      ensures r.Ok? ==> Some(r.value) == env.signatureJson(round.signature)
    {
      SignFinish(round, env)
    }
  }
}
