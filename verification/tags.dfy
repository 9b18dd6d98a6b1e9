/**
  The three one-byte tags of a message header (src/protocol.rs, the
  `#[repr(u8)]` enums and their `TryFrom<u8>` impls). Each decoder takes a
  byte below 128 (it asserts so; `read_pfix` guarantees it) and names the
  field and the byte in its error.
 */
module Tags {
  import opened Bytes
  import opened Stream

  /** Which process a message is addressed to. */
  datatype Direction = ToWorker | ToBackend

  /** The closed set of message kinds. */
  datatype Packet = Ack | Bind | Failure | Metadata | Parse

  /** Continuation marker; every sender writes `Last`. */
  datatype Flag = More | Last

  /** `direction as u8`. */
  function DirectionByte(d: Direction): (b: byte)
    ensures b < 2
  {
    match d
    case ToWorker => 0
    case ToBackend => 1
  }

  /** `packet as u8`. */
  function PacketByte(p: Packet): (b: byte)
    ensures b < 5
  {
    match p
    case Ack => 0
    case Bind => 1
    case Failure => 2
    case Metadata => 3
    case Parse => 4
  }

  /** `flag as u8`. */
  function FlagByte(f: Flag): (b: byte)
    ensures b < 2
  {
    match f
    case More => 0
    case Last => 1
  }

  /** `Direction::try_from`: exactly the bytes 0 and 1 are directions. */
  function DirectionFrom(v: byte): (r: Result<Direction>)
    requires v < 0x80
    ensures r.Ok? <==> v < 2
    ensures r.Ok? ==> DirectionByte(r.value) == v
    ensures r.Err? ==> r.error == Deserialize("direction", v)
  {
    match v
    case 0 => Ok(ToWorker)
    case 1 => Ok(ToBackend)
    case _ => Err(Deserialize("direction", v))
  }

  /** `Packet::try_from`: exactly the bytes 0 to 4 are packet kinds. */
  function PacketFrom(v: byte): (r: Result<Packet>)
    requires v < 0x80
    ensures r.Ok? <==> v < 5
    ensures r.Ok? ==> PacketByte(r.value) == v
    ensures r.Err? ==> r.error == Deserialize("packet", v)
  {
    match v
    case 0 => Ok(Ack)
    case 1 => Ok(Bind)
    case 2 => Ok(Failure)
    case 3 => Ok(Metadata)
    case 4 => Ok(Parse)
    case _ => Err(Deserialize("packet", v))
  }

  /** `Flag::try_from`: exactly the bytes 0 and 1 are flags. */
  function FlagFrom(v: byte): (r: Result<Flag>)
    requires v < 0x80
    ensures r.Ok? <==> v < 2
    ensures r.Ok? ==> FlagByte(r.value) == v
    ensures r.Err? ==> r.error == Deserialize("flag", v)
  {
    match v
    case 0 => Ok(More)
    case 1 => Ok(Last)
    case _ => Err(Deserialize("flag", v))
  }

  /** Every tag survives the trip through its byte: `try_from(t as u8) == t`. */
  lemma TagsRoundTrip(d: Direction, p: Packet, f: Flag)
    ensures DirectionFrom(DirectionByte(d)) == Ok(d)
    ensures PacketFrom(PacketByte(p)) == Ok(p)
    ensures FlagFrom(FlagByte(f)) == Ok(f)
  {
  }

  /** The byte form of each tag is injective, so a header's tag bytes determine its tags. */
  lemma TagBytesInjective(d1: Direction, d2: Direction, p1: Packet, p2: Packet, f1: Flag, f2: Flag)
    ensures DirectionByte(d1) == DirectionByte(d2) ==> d1 == d2
    ensures PacketByte(p1) == PacketByte(p2) ==> p1 == p2
    ensures FlagByte(f1) == FlagByte(f2) ==> f1 == f2
  {
  }
}
