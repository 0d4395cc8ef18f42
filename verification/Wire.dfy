/**
 The two-layer packet format: `PacketEnvelope` around a serialized
 `AuthenticatedPacket`, both in the proto3 wire encoding.
 */
module Wire {
  import opened Words
  import opened Wrappers

  const INT_MAX: nat := 0x7FFF_FFFF

  datatype Envelope = Envelope(connectionId: nat, authenticatedData: bytes, authenticationTag: bytes)
  datatype Packet = Packet(version: nat, connectionId: nat, sequence: nat, packetType: nat, payload: bytes)

  /** One field of a message, as it stands on the wire. */
  datatype Field =
    | VarintValue(number: nat, value: nat)
    | Fixed64Value(number: nat, value: nat)
    | BytesValue(number: nat, data: bytes)
    | Fixed32Value(number: nat, value: nat)

  // ---------- encoding ----------

  function Varint(n: nat): (s: bytes)
    ensures |s| > 0
  {
    if n < 128 then [n] else [n % 128 + 128] + Varint(n / 128)
  }

  function LittleEndian(n: nat, width: nat): (s: bytes)
    ensures |s| == width
  {
    if width == 0 then [] else [n % 256] + LittleEndian(n / 256, width - 1)
  }

  function WireType(f: Field): nat {
    match f
    case VarintValue(_, _) => 0
    case Fixed64Value(_, _) => 1
    case BytesValue(_, _) => 2
    case Fixed32Value(_, _) => 5
  }

  function EncodeContent(f: Field): bytes {
    match f
    case VarintValue(_, v) => Varint(v)
    case Fixed64Value(_, v) => LittleEndian(v, 8)
    case BytesValue(_, d) => Varint(|d|) + d
    case Fixed32Value(_, v) => LittleEndian(v, 4)
  }

  function EncodeField(f: Field): bytes {
    Varint(8 * f.number + WireType(f)) + EncodeContent(f)
  }

  function EncodeFields(fields: seq<Field>): bytes {
    if fields == [] then [] else EncodeField(fields[0]) + EncodeFields(fields[1..])
  }

  /** proto3 leaves out a field that holds its default value. */
  function Present(f: Field): seq<Field> {
    if f.BytesValue? then (if f.data == [] then [] else [f])
    else if f.value == 0 then [] else [f]
  }

  function PacketFields(p: Packet): seq<Field> {
    Present(VarintValue(1, p.version)) + Present(Fixed64Value(2, p.connectionId)) + Present(Fixed64Value(3, p.sequence))
    + Present(VarintValue(4, p.packetType)) + Present(BytesValue(5, p.payload))
  }

  function EnvelopeFields(e: Envelope): seq<Field> {
    Present(Fixed64Value(1, e.connectionId)) + Present(BytesValue(2, e.authenticatedData))
    + Present(BytesValue(3, e.authenticationTag))
  }

  function EncodePacket(p: Packet): bytes { EncodeFields(PacketFields(p)) }

  function EncodeEnvelope(e: Envelope): bytes { EncodeFields(EnvelopeFields(e)) }

  // ---------- decoding ----------

  /** A base-128 number of at most `limit` bytes, and what follows it. */
  function DecodeVarint(s: bytes, limit: nat): (r: Option<(nat, bytes)>)
    ensures r.Some? ==> |r.value.1| < |s|
    decreases limit
  {
    if limit == 0 || s == [] then None
    else if s[0] < 128 then Some((s[0] as nat, s[1..]))
    else match DecodeVarint(s[1..], limit - 1)
      case None => None
      case Some((high, rest)) => Some((s[0] - 128 + 128 * high, rest))
  }

  function FromLittleEndian(s: bytes): nat {
    if s == [] then 0 else s[0] + 256 * FromLittleEndian(s[1..])
  }

  function DecodeFixed(s: bytes, width: nat): (r: Option<(nat, bytes)>)
    ensures r.Some? ==> |r.value.1| <= |s|
  {
    if |s| < width then None else Some((FromLittleEndian(s[..width]), s[width..]))
  }

  function DecodeBytes(s: bytes): (r: Option<(bytes, bytes)>)
    ensures r.Some? ==> |r.value.1| <= |s|
  {
    match DecodeVarint(s, 5)
    case None => None
    case Some((length, rest)) =>
      if length > INT_MAX || |rest| < length then None else Some((rest[..length], rest[length..]))
  }

  /** The content that belongs to a tag. Group tags, wire types 3 and 4, are refused. */
  function DecodeContent(number: nat, wireType: nat, s: bytes): (r: Option<(Field, bytes)>)
    ensures r.Some? ==> |r.value.1| <= |s|
  {
    if wireType == 0 then
      match DecodeVarint(s, 10)
      case None => None
      case Some((v, rest)) => Some((VarintValue(number, v % UINT64_LIMIT), rest))
    else if wireType == 1 then
      match DecodeFixed(s, 8)
      case None => None
      case Some((v, rest)) => Some((Fixed64Value(number, v), rest))
    else if wireType == 2 then
      match DecodeBytes(s)
      case None => None
      case Some((d, rest)) => Some((BytesValue(number, d), rest))
    else if wireType == 5 then
      match DecodeFixed(s, 4)
      case None => None
      case Some((v, rest)) => Some((Fixed32Value(number, v), rest))
    else None
  }

  function DecodeField(s: bytes): (r: Option<(Field, bytes)>)
    ensures r.Some? ==> |r.value.1| < |s|
  {
    match DecodeVarint(s, 5)
    case None => None
    case Some((tag, rest)) =>
      if tag >= UINT32_LIMIT || tag / 8 == 0 then None else DecodeContent(tag / 8, tag % 8, rest)
  }

  function DecodeFields(s: bytes): Option<seq<Field>>
    decreases |s|
  {
    if s == [] then Some([])
    else match DecodeField(s)
      case None => None
      case Some((f, rest)) =>
        match DecodeFields(rest)
        case None => None
        case Some(more) => Some([f] + more)
  }

  /** The last occurrence of a field wins; unknown numbers and mismatched wire types are skipped. */
  function SetPacketField(p: Packet, f: Field): Packet {
    match f
    case VarintValue(n, v) =>
      if n == 1 then p.(version := v % UINT32_LIMIT) else if n == 4 then p.(packetType := v % UINT32_LIMIT) else p
    case Fixed64Value(n, v) => if n == 2 then p.(connectionId := v) else if n == 3 then p.(sequence := v) else p
    case BytesValue(n, d) => if n == 5 then p.(payload := d) else p
    case Fixed32Value(_, _) => p
  }

  function SetEnvelopeField(e: Envelope, f: Field): Envelope {
    match f
    case Fixed64Value(n, v) => if n == 1 then e.(connectionId := v) else e
    case BytesValue(n, d) =>
      if n == 2 then e.(authenticatedData := d) else if n == 3 then e.(authenticationTag := d) else e
    case VarintValue(_, _) => e
    case Fixed32Value(_, _) => e
  }

  function SetAll<M>(message: M, set1: (M, Field) -> M, fields: seq<Field>): M {
    if fields == [] then message else SetAll(set1(message, fields[0]), set1, fields[1..])
  }

  const EMPTY_PACKET := Packet(0, 0, 0, 0, [])
  const EMPTY_ENVELOPE := Envelope(0, [], [])

  function ParsePacket(s: bytes): Option<Packet> {
    match DecodeFields(s)
    case None => None
    case Some(fields) => Some(SetAll(EMPTY_PACKET, SetPacketField, fields))
  }

  function ParseEnvelope(s: bytes): Option<Envelope> {
    match DecodeFields(s)
    case None => None
    case Some(fields) => Some(SetAll(EMPTY_ENVELOPE, SetEnvelopeField, fields))
  }

  // ---------- decoding undoes encoding ----------

  function Power(base: nat, k: nat): nat { if k == 0 then 1 else base * Power(base, k - 1) }

  lemma {:induction false} VarintRoundTrip(n: nat, limit: nat, rest: bytes)
    requires limit > 0 && n < Power(128, limit)
    ensures DecodeVarint(Varint(n) + rest, limit) == Some((n, rest))
    decreases limit
  {
    var s := Varint(n) + rest;
    if n < 128 {
      assert s[1..] == rest;
    } else {
      assert s[1..] == Varint(n / 128) + rest;
      VarintRoundTrip(n / 128, limit - 1, rest);
    }
  }

  lemma {:induction false} LittleEndianRoundTrip(n: nat, width: nat)
    requires n < Power(256, width)
    ensures FromLittleEndian(LittleEndian(n, width)) == n
    decreases width
  {
    if width > 0 {
      LittleEndianRoundTrip(n / 256, width - 1);
      assert LittleEndian(n, width)[1..] == LittleEndian(n / 256, width - 1);
    }
  }

  lemma FixedRoundTrip(n: nat, width: nat, rest: bytes)
    requires n < Power(256, width)
    ensures DecodeFixed(LittleEndian(n, width) + rest, width) == Some((n, rest))
  {
    var s := LittleEndian(n, width) + rest;
    LittleEndianRoundTrip(n, width);
    assert s[..width] == LittleEndian(n, width) && s[width..] == rest;
  }

  lemma BytesRoundTrip(d: bytes, rest: bytes)
    requires |d| <= INT_MAX
    ensures DecodeBytes(Varint(|d|) + d + rest) == Some((d, rest))
  {
    PowersOf128();
    VarintRoundTrip(|d|, 5, d + rest);
    assert Varint(|d|) + d + rest == Varint(|d|) + (d + rest);
    assert (d + rest)[..|d|] == d && (d + rest)[|d|..] == rest;
  }

  lemma PowersOf128()
    ensures Power(128, 5) == 34359738368 && Power(128, 10) == 1180591620717411303424
  {
    assert Power(128, 2) == 16384 && Power(128, 4) == 268435456 && Power(128, 6) == 4398046511104;
    assert Power(128, 8) == 72057594037927936;
  }

  lemma PowersOf256()
    ensures Power(256, 4) == UINT32_LIMIT && Power(256, 8) == UINT64_LIMIT
  {
    assert Power(256, 2) == 65536 && Power(256, 6) == 281474976710656;
  }

  ghost predicate ContentFits(f: Field) {
    match f
    case VarintValue(_, v) => v < UINT64_LIMIT
    case Fixed64Value(_, v) => v < UINT64_LIMIT
    case BytesValue(_, d) => |d| <= INT_MAX
    case Fixed32Value(_, v) => v < UINT32_LIMIT
  }

  /** The field fits the wire format: a 29-bit number and content of the declared width. */
  ghost predicate WellFormed(f: Field) {
    0 < f.number < 0x2000_0000 && ContentFits(f)
  }

  ghost predicate AllWellFormed(fields: seq<Field>) {
    forall i :: 0 <= i < |fields| ==> WellFormed(fields[i])
  }

  lemma ContentRoundTrip(f: Field, rest: bytes)
    requires WellFormed(f)
    ensures DecodeContent(f.number, WireType(f), EncodeContent(f) + rest) == Some((f, rest))
  {
    match f
    case VarintValue(_, v) => PowersOf128(); VarintRoundTrip(v, 10, rest);
    case Fixed64Value(_, v) => PowersOf256(); FixedRoundTrip(v, 8, rest);
    case BytesValue(_, d) => BytesRoundTrip(d, rest);
    case Fixed32Value(_, v) => PowersOf256(); FixedRoundTrip(v, 4, rest);
  }

  lemma TagRoundTrip(f: Field, rest: bytes)
    requires WellFormed(f)
    ensures var tag := 8 * f.number + WireType(f);
            DecodeVarint(Varint(tag) + rest, 5) == Some((tag, rest))
            && tag < UINT32_LIMIT && tag / 8 == f.number && tag % 8 == WireType(f)
  {
    PowersOf128();
    VarintRoundTrip(8 * f.number + WireType(f), 5, rest);
  }

  lemma FieldRoundTrip(f: Field, rest: bytes)
    requires WellFormed(f)
    ensures DecodeField(EncodeField(f) + rest) == Some((f, rest))
  {
    var content := EncodeContent(f) + rest;
    assert EncodeField(f) + rest == Varint(8 * f.number + WireType(f)) + content;
    TagRoundTrip(f, content);
    ContentRoundTrip(f, rest);
  }

  lemma DecodeOneMore(s: bytes, f: Field, rest: bytes, more: seq<Field>)
    requires s != [] && DecodeField(s) == Some((f, rest)) && DecodeFields(rest) == Some(more)
    ensures DecodeFields(s) == Some([f] + more)
  {}

  /** Any list of well-formed fields, in any order and with repeats, decodes to itself. */
  lemma {:induction false} FieldsRoundTrip(fields: seq<Field>)
    requires AllWellFormed(fields)
    ensures DecodeFields(EncodeFields(fields)) == Some(fields)
  {
    if fields != [] {
      var rest := EncodeFields(fields[1..]);
      FieldRoundTrip(fields[0], rest);
      FieldsRoundTrip(fields[1..]);
      assert EncodeFields(fields) == EncodeField(fields[0]) + rest;
      DecodeOneMore(EncodeField(fields[0]) + rest, fields[0], rest, fields[1..]);
      assert fields == [fields[0]] + fields[1..];
    }
  }

  lemma {:induction false} SetAllConcat<M>(message: M, set1: (M, Field) -> M, a: seq<Field>, b: seq<Field>)
    ensures SetAll(message, set1, a + b) == SetAll(SetAll(message, set1, a), set1, b)
    decreases |a|
  {
    if a == [] {
      assert a + b == b;
    } else {
      assert (a + b)[1..] == a[1..] + b;
      SetAllConcat(set1(message, a[0]), set1, a[1..], b);
    }
  }

  lemma SetPresent<M>(message: M, set1: (M, Field) -> M, f: Field)
    ensures SetAll(message, set1, Present(f)) == if Present(f) == [] then message else set1(message, f)
  {}

  /** Field values that fit the declared proto types. */
  ghost predicate PacketFits(p: Packet) {
    p.version < UINT32_LIMIT && p.connectionId < UINT64_LIMIT && p.sequence < UINT64_LIMIT
    && p.packetType < UINT32_LIMIT && |p.payload| <= INT_MAX
  }

  ghost predicate EnvelopeFits(e: Envelope) {
    e.connectionId < UINT64_LIMIT && |e.authenticatedData| <= INT_MAX && |e.authenticationTag| <= INT_MAX
  }

  /** One more field after some others: it is set if it is on the wire. */
  lemma SetOneMore<M>(message: M, set1: (M, Field) -> M, front: seq<Field>, f: Field)
    ensures SetAll(message, set1, front + Present(f))
         == if Present(f) == [] then SetAll(message, set1, front) else set1(SetAll(message, set1, front), f)
  {
    SetAllConcat(message, set1, front, Present(f));
    SetPresent(SetAll(message, set1, front), set1, f);
  }

  /** The first three fields of the inner message, as they are set one after the other. */
  lemma HeadFromFields(p: Packet)
    requires PacketFits(p)
    ensures SetAll(EMPTY_PACKET, SetPacketField,
                   Present(VarintValue(1, p.version)) + Present(Fixed64Value(2, p.connectionId))
                   + Present(Fixed64Value(3, p.sequence)))
         == p.(packetType := 0, payload := [])
  {
    var f1, f2 := VarintValue(1, p.version), Fixed64Value(2, p.connectionId);
    SetPresent(EMPTY_PACKET, SetPacketField, f1);
    SetOneMore(EMPTY_PACKET, SetPacketField, Present(f1), f2);
    SetOneMore(EMPTY_PACKET, SetPacketField, Present(f1) + Present(f2), Fixed64Value(3, p.sequence));
  }

  lemma PacketFromFields(p: Packet)
    requires PacketFits(p)
    ensures SetAll(EMPTY_PACKET, SetPacketField, PacketFields(p)) == p
  {
    var head := Present(VarintValue(1, p.version)) + Present(Fixed64Value(2, p.connectionId))
                + Present(Fixed64Value(3, p.sequence));
    var f4 := VarintValue(4, p.packetType);
    HeadFromFields(p);
    SetOneMore(EMPTY_PACKET, SetPacketField, head, f4);
    SetOneMore(EMPTY_PACKET, SetPacketField, head + Present(f4), BytesValue(5, p.payload));
  }

  lemma EnvelopeFromFields(e: Envelope)
    requires EnvelopeFits(e)
    ensures SetAll(EMPTY_ENVELOPE, SetEnvelopeField, EnvelopeFields(e)) == e
  {
    var f1, f2 := Fixed64Value(1, e.connectionId), BytesValue(2, e.authenticatedData);
    SetPresent(EMPTY_ENVELOPE, SetEnvelopeField, f1);
    SetOneMore(EMPTY_ENVELOPE, SetEnvelopeField, Present(f1), f2);
    SetOneMore(EMPTY_ENVELOPE, SetEnvelopeField, Present(f1) + Present(f2), BytesValue(3, e.authenticationTag));
  }

  lemma JoinWellFormed(front: seq<Field>, f: Field)
    requires AllWellFormed(front) && WellFormed(f)
    ensures AllWellFormed(front + Present(f))
  {}

  lemma PacketFieldsWellFormed(p: Packet)
    requires PacketFits(p)
    ensures AllWellFormed(PacketFields(p))
  {
    var f1, f2, f3 := VarintValue(1, p.version), Fixed64Value(2, p.connectionId), Fixed64Value(3, p.sequence);
    var f4, f5 := VarintValue(4, p.packetType), BytesValue(5, p.payload);
    JoinWellFormed(Present(f1), f2);
    JoinWellFormed(Present(f1) + Present(f2), f3);
    JoinWellFormed(Present(f1) + Present(f2) + Present(f3), f4);
    JoinWellFormed(Present(f1) + Present(f2) + Present(f3) + Present(f4), f5);
  }

  /** Each layer decodes to the message that was encoded, for every message, defaults included. */
  lemma PacketRoundTrip(p: Packet)
    requires PacketFits(p)
    ensures ParsePacket(EncodePacket(p)) == Some(p)
  {
    PacketFieldsWellFormed(p);
    FieldsRoundTrip(PacketFields(p));
    PacketFromFields(p);
  }

  lemma EnvelopeFieldsWellFormed(e: Envelope)
    requires EnvelopeFits(e)
    ensures AllWellFormed(EnvelopeFields(e))
  {
    var f1, f2 := Fixed64Value(1, e.connectionId), BytesValue(2, e.authenticatedData);
    JoinWellFormed(Present(f1), f2);
    JoinWellFormed(Present(f1) + Present(f2), BytesValue(3, e.authenticationTag));
  }

  lemma EnvelopeRoundTrip(e: Envelope)
    requires EnvelopeFits(e)
    ensures ParseEnvelope(EncodeEnvelope(e)) == Some(e)
  {
    EnvelopeFieldsWellFormed(e);
    FieldsRoundTrip(EnvelopeFields(e));
    EnvelopeFromFields(e);
  }

  // ---------- what decoding can yield ----------

  lemma {:induction false} FromLittleEndianFits(s: bytes)
    ensures FromLittleEndian(s) < Power(256, |s|)
  {
    if s != [] { FromLittleEndianFits(s[1..]); }
  }

  lemma DecodedContentFits(number: nat, wireType: nat, s: bytes)
    ensures DecodeContent(number, wireType, s).Some? ==> ContentFits(DecodeContent(number, wireType, s).value.0)
  {
    PowersOf256();
    if |s| >= 8 { FromLittleEndianFits(s[..8]); }
    if |s| >= 4 { FromLittleEndianFits(s[..4]); }
  }

  lemma {:induction false} DecodedFieldsFit(s: bytes)
    ensures DecodeFields(s).Some? ==> forall f :: f in DecodeFields(s).value ==> ContentFits(f)
    decreases |s|
  {
    if s != [] && DecodeField(s).Some? {
      var (tag, rest) := DecodeVarint(s, 5).value;
      DecodedContentFits(tag / 8, tag % 8, rest);
      DecodedFieldsFit(DecodeField(s).value.1);
    }
  }

  lemma {:induction false} SetAllFitsPacket(p: Packet, fields: seq<Field>)
    requires PacketFits(p) && forall f :: f in fields ==> ContentFits(f)
    ensures PacketFits(SetAll(p, SetPacketField, fields))
    decreases |fields|
  {
    if fields != [] {
      assert fields[0] in fields;
      SetAllFitsPacket(SetPacketField(p, fields[0]), fields[1..]);
    }
  }

  lemma {:induction false} SetAllFitsEnvelope(e: Envelope, fields: seq<Field>)
    requires EnvelopeFits(e) && forall f :: f in fields ==> ContentFits(f)
    ensures EnvelopeFits(SetAll(e, SetEnvelopeField, fields))
    decreases |fields|
  {
    if fields != [] {
      assert fields[0] in fields;
      SetAllFitsEnvelope(SetEnvelopeField(e, fields[0]), fields[1..]);
    }
  }

  /** Whatever bytes arrive, a parsed message has field values of the declared types. */
  lemma ParsedPacketFits(s: bytes)
    ensures ParsePacket(s).Some? ==> PacketFits(ParsePacket(s).value)
  {
    DecodedFieldsFit(s);
    if DecodeFields(s).Some? { SetAllFitsPacket(EMPTY_PACKET, DecodeFields(s).value); }
  }

  lemma ParsedEnvelopeFits(s: bytes)
    ensures ParseEnvelope(s).Some? ==> EnvelopeFits(ParseEnvelope(s).value)
  {
    DecodedFieldsFit(s);
    if DecodeFields(s).Some? { SetAllFitsEnvelope(EMPTY_ENVELOPE, DecodeFields(s).value); }
  }

  // ---------- sizes ----------

  function VarintLength(n: nat): (k: nat)
    ensures k == |Varint(n)|
  {
    if n < 128 then 1 else 1 + VarintLength(n / 128)
  }

  lemma {:induction false} SizeConcat(a: seq<Field>, b: seq<Field>)
    ensures |EncodeFields(a + b)| == |EncodeFields(a)| + |EncodeFields(b)|
  {
    if a == [] {
      assert a + b == b;
    } else {
      assert (a + b)[1..] == a[1..] + b;
      SizeConcat(a[1..], b);
    }
  }

  function FieldSize(f: Field): nat {
    if Present(f) == [] then 0
    else VarintLength(8 * f.number + WireType(f))
         + match f
           case VarintValue(_, v) => VarintLength(v)
           case Fixed64Value(_, _) => 8
           case BytesValue(_, d) => VarintLength(|d|) + |d|
           case Fixed32Value(_, _) => 4
  }

  lemma PresentSize(f: Field)
    ensures |EncodeFields(Present(f))| == FieldSize(f)
  {
    if Present(f) == [f] {
      assert EncodeFields([f]) == EncodeField(f) + EncodeFields([f][1..]);
    }
  }

  lemma PacketSize(p: Packet)
    ensures |EncodePacket(p)| == FieldSize(VarintValue(1, p.version)) + FieldSize(Fixed64Value(2, p.connectionId))
         + FieldSize(Fixed64Value(3, p.sequence)) + FieldSize(VarintValue(4, p.packetType))
         + FieldSize(BytesValue(5, p.payload))
  {
    var f1, f2, f3 := VarintValue(1, p.version), Fixed64Value(2, p.connectionId), Fixed64Value(3, p.sequence);
    var f4, f5 := VarintValue(4, p.packetType), BytesValue(5, p.payload);
    var a1 := Present(f1);
    var a2 := a1 + Present(f2);
    var a3 := a2 + Present(f3);
    PresentSize(f1);
    PresentSize(f2);
    PresentSize(f3);
    PresentSize(f4);
    PresentSize(f5);
    SizeConcat(a1, Present(f2));
    SizeConcat(a2, Present(f3));
    SizeConcat(a3, Present(f4));
    SizeConcat(a3 + Present(f4), Present(f5));
  }

  lemma EnvelopeSize(e: Envelope)
    ensures |EncodeEnvelope(e)| == FieldSize(Fixed64Value(1, e.connectionId))
         + FieldSize(BytesValue(2, e.authenticatedData)) + FieldSize(BytesValue(3, e.authenticationTag))
  {
    var f1, f2 := Fixed64Value(1, e.connectionId), BytesValue(2, e.authenticatedData);
    var f3 := BytesValue(3, e.authenticationTag);
    PresentSize(f1);
    PresentSize(f2);
    PresentSize(f3);
    SizeConcat(Present(f1), Present(f2));
    SizeConcat(Present(f1) + Present(f2), Present(f3));
  }
}
