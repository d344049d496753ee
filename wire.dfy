/** The wire messages exchanged with the relay (the protobuf schema) and the
    fixed-width integers the adapters cast between.  Byte-level protobuf is not
    modelled: a `Codec` holds the (abstract, fallible) decoders and the encoders. */
module Wire {
  import opened Wrappers

  type uint8 = x: int | 0 <= x < 0x100
  type uint16 = x: int | 0 <= x < 0x1_0000
  type uint32 = x: int | 0 <= x < 0x1_0000_0000

  type Bytes = seq<uint8>

  /** Rust's `x as u16`: keeps the low 16 bits. */
  function AsU16(x: int): (r: uint16)
    ensures 0 <= x < 0x1_0000 ==> r == x
  {
    x % 0x1_0000
  }

  /** Rust's `x as u8`: keeps the low 8 bits. */
  function AsU8(x: int): (r: uint8)
    ensures 0 <= x < 0x100 ==> r == x
  {
    x % 0x100
  }

  /** `indices.iter().map(|i| *i as u16)`: each index truncated to 16 bits. */
  function AsU16s(xs: seq<uint32>): (r: seq<uint16>)
    ensures |r| == |xs|
    ensures forall i | 0 <= i < |xs| :: r[i] == AsU16(xs[i])
    ensures (forall i | 0 <= i < |xs| :: xs[i] < 0x1_0000) ==> forall i | 0 <= i < |xs| :: r[i] == xs[i]
  {
    seq(|xs|, i requires 0 <= i < |xs| => AsU16(xs[i]))
  }

  /** The error of every protobuf `decode`. */
  const ErrDecode := "protobuf: decode failed"

  datatype ProtocolType = Gg18 | Elgamal | Frost | Musig2

  /** The `i32` a message carries for a protocol type (`ProtocolType::X as i32`);
      distinct types get distinct tags. */
  function Tag(pt: ProtocolType): int
  {
    match pt
    case Gg18 => 0
    case Elgamal => 1
    case Frost => 2
    case Musig2 => 3
  }

  /** Starts a distributed key generation. */
  datatype ProtocolGroupInit = ProtocolGroupInit(protocolType: int, index: uint32, parties: uint32, threshold: uint32)

  /** Starts a signing session over an existing key. */
  datatype ProtocolInit = ProtocolInit(protocolType: int, indices: seq<uint32>, index: uint32, data: Bytes)

  /** What one party sends the relay in one round. */
  datatype ClientMessage = ClientMessage(protocolType: int, unicasts: map<uint32, Bytes>, broadcast: Option<Bytes>)

  /** What the relay hands one party for the next round. */
  datatype ServerMessage = ServerMessage(protocolType: int, unicasts: map<uint32, Bytes>, broadcasts: map<uint32, Bytes>)

  /** `prost::Message::decode` (which may fail) and `encode_to_vec` for each message type. */
  datatype Codec = Codec(
    decodeGroupInit: Bytes -> Option<ProtocolGroupInit>,
    encodeGroupInit: ProtocolGroupInit -> Bytes,
    decodeInit: Bytes -> Option<ProtocolInit>,
    encodeInit: ProtocolInit -> Bytes,
    decodeClient: Bytes -> Option<ClientMessage>,
    encodeClient: ClientMessage -> Bytes,
    decodeServer: Bytes -> Option<ServerMessage>,
    encodeServer: ServerMessage -> Bytes)
  {
    /** Decoding what was encoded gives the message back. */
    ghost predicate RoundTrips()
    {
      && (forall m :: decodeGroupInit(encodeGroupInit(m)) == Some(m))
      && (forall m :: decodeInit(encodeInit(m)) == Some(m))
      && (forall m :: decodeClient(encodeClient(m)) == Some(m))
      && (forall m :: decodeServer(encodeServer(m)) == Some(m))
    }
  }
}
