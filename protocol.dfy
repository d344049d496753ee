/** The protocol contract shared by every adapter (src/protocol/mod.rs): the
    helpers that build a party's outbound `ClientMessage`, the value-wise map
    decoding, and the relay fan-out rule. */
module Protocol {
  import opened Wrappers
  import opened Wire

  /** Where `advance` wants its output delivered. */
  datatype Recipient = Card | Server

  const ErrSerialize := "serde_json: serialization failed"
  const ErrDeserialize := "serde_json: deserialization failed"

  // ---------------------------------------------------------------------------
  // Iterating a HashMap.  Rust visits the keys in an unspecified order; the
  // model visits them in ascending order.

  predicate IsMin(s: set<uint32>, k: uint32)
  {
    k in s && forall j | j in s :: k <= j
  }

  lemma {:induction false} MinimumExists(s: set<uint32>)
    requires s != {}
    ensures exists k :: IsMin(s, k)
    decreases |s|
  {
    var x :| x in s;
    if s == {x} {
      assert IsMin(s, x);
    } else {
      var rest := s - {x};
      MinimumExists(rest);
      var m :| IsMin(rest, m);
      assert forall j | j in s :: j == x || j in rest;
      if x < m {
        assert IsMin(s, x);
      } else {
        assert IsMin(s, m);
      }
    }
  }

  /** The key a HashMap iteration is taken to visit first. */
  function MinKey(s: set<uint32>): (k: uint32)
    requires s != {}
    ensures k in s && forall j | j in s :: k <= j
  {
    MinimumExists(s);
    var k :| IsMin(s, k); k
  }

  /** The keys of `s` in ascending order: the order in which the model visits
      a HashMap, and what `indices.sort()` produces. */
  function Ascending(s: set<uint32>): (ks: seq<uint32>)
    ensures |ks| == |s|
    ensures forall j | 0 <= j < |ks| :: ks[j] in s
    ensures forall k {:trigger k in ks} | k in s :: k in ks
    ensures forall i, j | 0 <= i < j < |ks| :: ks[i] < ks[j]
    decreases |s|
  {
    if s == {} then []
    else
      var k := MinKey(s);
      var rest := Ascending(s - {k});
      assert forall j | j in rest :: k < j;
      [k] + rest
  }

  /** `map.values().cloned().collect()`: every value of the map, once per key,
      in the order the keys are visited. */
  function ValuesOf(m: map<uint32, Bytes>): (vs: seq<Bytes>)
    ensures |vs| == |m|
    ensures forall i | 0 <= i < |vs| :: Ascending(m.Keys)[i] in m && vs[i] == m[Ascending(m.Keys)[i]]
  {
    var ks := Ascending(m.Keys);
    seq(|ks|, i requires 0 <= i < |ks| => m[ks[i]])
  }

  // ---------------------------------------------------------------------------
  // deserialize_map

  /** Parses every value of `m` with `parse` (`serde_json::from_slice`), keeping
      the keys; the first value that does not parse fails the whole call. */
  function DeserializeMap<T>(m: map<uint32, Bytes>, parse: Bytes -> Option<T>): (r: Result<map<uint32, T>>)
    ensures r.Ok? <==> forall k | k in m :: parse(m[k]).Some?
    ensures r.Err? ==> r.error == ErrDeserialize
    ensures r.Ok? ==> r.value.Keys == m.Keys
    ensures r.Ok? ==> forall k | k in m :: parse(m[k]) == Some(r.value[k])
    decreases |m|
  {
    if m == map[] then Ok(map[])
    else
      var k := MinKey(m.Keys);
      match parse(m[k])
      case None => Err(ErrDeserialize)
      case Some(v) =>
        var others := m - {k};
        assert forall j | j in others :: others[j] == m[j];
        assert m.Keys == others.Keys + {k};
        match DeserializeMap(others, parse)
        case Err(e) => Err(e)
        case Ok(rest) => Ok(rest[k := v])
  }

  /** Every value serialized (`serde_json::to_vec`), keeping the keys. */
  function SerializedValues<T>(raw: map<uint32, T>, toJson: T -> Option<Bytes>): (m: map<uint32, Bytes>)
    requires forall k | k in raw :: toJson(raw[k]).Some?
    ensures m.Keys == raw.Keys
    ensures forall k | k in raw :: Some(m[k]) == toJson(raw[k])
  {
    map k | k in raw :: toJson(raw[k]).value
  }

  /** Parsing what every sender serialized gives back exactly the senders'
      values, whenever parsing inverts serialization. */
  lemma DeserializeMapInverts<T>(raw: map<uint32, T>, toJson: T -> Option<Bytes>, parse: Bytes -> Option<T>)
    requires forall k | k in raw :: toJson(raw[k]).Some? && parse(toJson(raw[k]).value) == Some(raw[k])
    ensures DeserializeMap(SerializedValues(raw, toJson), parse) == Ok(raw)
  {
    var wire := SerializedValues(raw, toJson);
    var r := DeserializeMap(wire, parse);
    assert r.Ok?;
    assert r.value.Keys == raw.Keys;
    assert forall k | k in raw :: r.value[k] == raw[k] by {
      forall k | k in raw ensures r.value[k] == raw[k] {
        assert parse(wire[k]) == Some(r.value[k]);
      }
    }
    assert r.value == raw;
  }

  // ---------------------------------------------------------------------------
  // Outbound messages

  /** encode_raw_bcast: a message for every other party, no unicasts. */
  function EncodeRawBcast(message: Bytes, pt: ProtocolType, codec: Codec): (r: Bytes)
    ensures codec.RoundTrips() ==> codec.decodeClient(r) == Some(ClientMessage(Tag(pt), map[], Some(message)))
  {
    codec.encodeClient(ClientMessage(Tag(pt), map[], Some(message)))
  }

  /** serialize_bcast: serializes `value` (`serde_json::to_vec`, which may fail)
      and broadcasts it. */
  function SerializeBcast<T>(value: T, toJson: T -> Option<Bytes>, pt: ProtocolType, codec: Codec): (r: Result<Bytes>)
    ensures r.Ok? <==> toJson(value).Some?
    ensures r.Ok? && codec.RoundTrips() ==>
      codec.decodeClient(r.value) == Some(ClientMessage(Tag(pt), map[], Some(toJson(value).value)))
  {
    match toJson(value)
    case None => Err(ErrSerialize)
    case Some(message) => Ok(EncodeRawBcast(message, pt, codec))
  }

  /** encode_raw_uni: one message per recipient index, no broadcast. */
  function EncodeRawUni(messages: map<uint32, Bytes>, pt: ProtocolType, codec: Codec): (r: Bytes)
    ensures codec.RoundTrips() ==> codec.decodeClient(r) == Some(ClientMessage(Tag(pt), messages, None))
  {
    codec.encodeClient(ClientMessage(Tag(pt), messages, None))
  }

  /** No later pair in `kvs` has the same key as pair `i`. */
  predicate LastOccurrence<T>(kvs: seq<(uint32, T)>, i: int)
    requires 0 <= i < |kvs|
  {
    forall j | i < j < |kvs| :: kvs[j].0 != kvs[i].0
  }

  /** The keys of `kvs`, in a set. */
  function KeysOf<T>(kvs: seq<(uint32, T)>): set<uint32>
  {
    set i | 0 <= i < |kvs| :: kvs[i].0
  }

  /** `kvs.into_iter().map(|(k, v)| Ok((k, to_vec(&v)?))).collect()`: serializes
      the values in order into a HashMap, where a later pair overwrites an
      earlier one with the same key; one value that fails to serialize fails the
      whole collection. */
  function CollectSerialized<T>(kvs: seq<(uint32, T)>, toJson: T -> Option<Bytes>): (r: Result<map<uint32, Bytes>>)
    ensures r.Ok? <==> forall i | 0 <= i < |kvs| :: toJson(kvs[i].1).Some?
    ensures r.Ok? ==> r.value.Keys == KeysOf(kvs)
    decreases |kvs|
  {
    if kvs == [] then Ok(map[])
    else
      var front := kvs[..|kvs| - 1];
      var (k, v) := kvs[|kvs| - 1];
      match CollectSerialized(front, toJson)
      case Err(e) => Err(e)
      case Ok(m) =>
        match toJson(v)
        case None => Err(ErrSerialize)
        case Some(bytes) =>
          assert KeysOf(kvs) == KeysOf(front) + {k} by {
            forall x | x in KeysOf(kvs) ensures x in KeysOf(front) + {k} {
              var i :| 0 <= i < |kvs| && kvs[i].0 == x;
              if i < |front| { assert front[i] == kvs[i]; }
            }
          }
          Ok(m[k := bytes])
  }

  /** Of several pairs with the same key, the last one's value is the one kept. */
  lemma {:induction false} CollectSerializedLastWins<T>(kvs: seq<(uint32, T)>, toJson: T -> Option<Bytes>, i: int)
    requires CollectSerialized(kvs, toJson).Ok?
    requires 0 <= i < |kvs| && LastOccurrence(kvs, i)
    ensures toJson(kvs[i].1) == Some(CollectSerialized(kvs, toJson).value[kvs[i].0])
    decreases |kvs|
  {
    var front := kvs[..|kvs| - 1];
    if i < |front| {
      assert front[i] == kvs[i];
      assert LastOccurrence(front, i) by {
        forall j | i < j < |front| ensures front[j].0 != front[i].0 {
          assert front[j] == kvs[j];
        }
      }
      CollectSerializedLastWins(front, toJson, i);
    }
  }

  /** serialize_uni: serializes each value and sends it to the index it is
      paired with; fails as soon as one value fails to serialize. */
  function SerializeUni<T>(kvs: seq<(uint32, T)>, toJson: T -> Option<Bytes>, pt: ProtocolType, codec: Codec): (r: Result<Bytes>)
    ensures r.Ok? <==> forall i | 0 <= i < |kvs| :: toJson(kvs[i].1).Some?
    ensures r.Ok? && codec.RoundTrips() ==>
      && codec.decodeClient(r.value).Some?
      && var msg := codec.decodeClient(r.value).value;
      && msg.protocolType == Tag(pt)
      && msg.broadcast == None
      && msg.unicasts.Keys == KeysOf(kvs)
      && forall i | 0 <= i < |kvs| && LastOccurrence(kvs, i) :: toJson(kvs[i].1) == Some(msg.unicasts[kvs[i].0])
  {
    match CollectSerialized(kvs, toJson)
    case Err(e) => Err(e)
    case Ok(messages) =>
      assert forall i | 0 <= i < |kvs| && LastOccurrence(kvs, i) :: toJson(kvs[i].1) == Some(messages[kvs[i].0]) by {
        forall i | 0 <= i < |kvs| && LastOccurrence(kvs, i) ensures toJson(kvs[i].1) == Some(messages[kvs[i].0]) {
          CollectSerializedLastWins(kvs, toJson, i);
        }
      }
      Ok(EncodeRawUni(messages, pt, codec))
  }

  // ---------------------------------------------------------------------------
  // Relay fan-out (the inner loop of the test harness's round)

  /** Broadcasts the relay hands `receiver`: every other sender's broadcast. */
  function Broadcasts(messages: map<uint32, ClientMessage>, receiver: uint32): map<uint32, Bytes>
  {
    map s | s in messages && s != receiver && messages[s].broadcast.Some? :: messages[s].broadcast.value
  }

  /** Unicasts the relay hands `receiver`: what every other sender addressed to it. */
  function Unicasts(messages: map<uint32, ClientMessage>, receiver: uint32): map<uint32, Bytes>
  {
    map s | s in messages && s != receiver && receiver in messages[s].unicasts :: messages[s].unicasts[receiver]
  }

  /** Collects, for party `idx`, the broadcasts and the unicasts addressed to it
      from every sender's message, skipping its own. */
  method FanOut(messages: map<uint32, ClientMessage>, idx: uint32)
    returns (unicasts: map<uint32, Bytes>, broadcasts: map<uint32, Bytes>)
    ensures unicasts == Unicasts(messages, idx)
    ensures broadcasts == Broadcasts(messages, idx)
  {
    unicasts, broadcasts := map[], map[];
    var pending := messages.Keys;
    while pending != {}
      invariant pending <= messages.Keys
      invariant unicasts == Unicasts(messages - pending, idx)
      invariant broadcasts == Broadcasts(messages - pending, idx)
      decreases pending
    {
      var sender :| sender in pending;
      var msg := messages[sender];
      ghost var done := messages - pending;
      pending := pending - {sender};
      assert messages - pending == done[sender := msg];
      if sender == idx {
        continue;
      }
      if msg.broadcast.Some? {
        broadcasts := broadcasts[sender := msg.broadcast.value];
      }
      if idx in msg.unicasts {
        unicasts := unicasts[sender := msg.unicasts[idx]];
      }
    }
    assert messages - pending == messages;
  }

  /** Fan-out never hands a party its own message. */
  lemma FanOutSkipsSender(messages: map<uint32, ClientMessage>, receiver: uint32)
    ensures receiver !in Broadcasts(messages, receiver)
    ensures receiver !in Unicasts(messages, receiver)
  {
  }

  /** A party's serialize_bcast output reaches every other party as that
      party's broadcast entry for the sender, and brings it no unicast. */
  lemma BroadcastReachesEveryPeer<T>(messages: map<uint32, ClientMessage>, sender: uint32, value: T,
                                     toJson: T -> Option<Bytes>, pt: ProtocolType, codec: Codec)
    requires codec.RoundTrips()
    requires SerializeBcast(value, toJson, pt, codec).Ok?
    requires sender in messages
    requires Some(messages[sender]) == codec.decodeClient(SerializeBcast(value, toJson, pt, codec).value)
    ensures forall r: uint32 | r != sender ::
      && sender in Broadcasts(messages, r)
      && Broadcasts(messages, r)[sender] == toJson(value).value
      && sender !in Unicasts(messages, r)
  {
  }

  /** A party's encode_raw_uni output reaches receiver `r` as exactly the
      unicast addressed to `r`, and as no broadcast. */
  lemma UnicastReachesItsRecipient(messages: map<uint32, ClientMessage>, sender: uint32,
                                   outs: map<uint32, Bytes>, pt: ProtocolType, codec: Codec)
    requires codec.RoundTrips()
    requires sender in messages
    requires Some(messages[sender]) == codec.decodeClient(EncodeRawUni(outs, pt, codec))
    ensures forall r: uint32 | r != sender ::
      && (sender in Unicasts(messages, r) <==> r in outs)
      && (r in outs ==> Unicasts(messages, r)[sender] == outs[r])
      && sender !in Broadcasts(messages, r)
  {
  }
}
