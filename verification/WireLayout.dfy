/**
 The bytes of the two messages, tag by tag, and what arbitrary bytes mean to a reader.
 */
module WireLayout {
  import opened Wire
  import opened Words
  import opened Wrappers

  // ---------- numbers as bytes ----------

  lemma {:induction false} PowerIsPositive(base: nat, k: nat)
    requires base > 0
    ensures Power(base, k) > 0
  {
    if k > 0 { PowerIsPositive(base, k - 1); }
  }

  lemma {:induction false} RestFits(a: nat, b: nat, r1: nat, r2: nat)
    requires r1 < a && r2 < b
    ensures a * r2 + r1 < a * b
    decreases b
  {
    if r2 + 1 < b {
      RestFits(a, b - 1, r1, r2);
      assert a * b == a * (b - 1) + a;
    } else {
      assert a * b == a * r2 + a;
    }
  }

  lemma Parts(n: nat, d: nat)
    requires d > 0
    ensures n == d * (n / d) + n % d && n % d < d
  {}

  lemma SameQuotient(n: nat, a: nat, b: nat, h: nat, q: nat, r1: nat, r2: nat, k: nat, r: nat)
    requires n == a * h + r1 && r1 < a && h == b * q + r2 && r2 < b && n == (a * b) * k + r && r < a * b
    ensures q == k
  {
    assert a * h == a * (b * q) + a * r2;
    assert a * (b * q) == (a * b) * q;
    RestFits(a, b, r1, r2);
    Division(a * b, q, a * r2 + r1, k, r);
  }

  /** Dividing twice is dividing by the product. */
  lemma DivideTwice(n: nat, a: nat, b: nat)
    requires a > 0 && b > 0
    ensures a * b > 0 && n / a / b == n / (a * b)
  {
    assert a * b > 0;
    var h, d := n / a, a * b;
    Parts(n, a);
    Parts(h, b);
    Parts(n, d);
    SameQuotient(n, a, b, h, h / b, n % a, h % b, n / d, n % d);
  }

  /** Fixed-width numbers have their low byte first: byte i is the i-th digit to base 256. */
  lemma {:induction false} LittleEndianAt(n: nat, width: nat, i: nat)
    requires i < width
    ensures Power(256, i) > 0 && LittleEndian(n, width)[i] == n / Power(256, i) % 256
  {
    PowerIsPositive(256, i);
    if i > 0 {
      LittleEndianAt(n / 256, width - 1, i - 1);
      PowerIsPositive(256, i - 1);
      DivideTwice(n, 256, Power(256, i - 1));
      assert LittleEndian(n, width)[i] == LittleEndian(n / 256, width - 1)[i - 1];
    }
  }

  /** Base-128 numbers have their low digit first, 128 added to every byte but the last, and no needless byte. */
  lemma {:induction false} VarintAt(n: nat, i: nat)
    requires i < |Varint(n)|
    ensures Power(128, i) > 0
    ensures Varint(n)[i] == n / Power(128, i) % 128 + if i + 1 < |Varint(n)| then 128 else 0
    ensures i + 1 == |Varint(n)| ==> n / Power(128, i) < 128 && (i > 0 ==> n / Power(128, i) > 0)
  {
    PowerIsPositive(128, i);
    if i > 0 {
      VarintAt(n / 128, i - 1);
      PowerIsPositive(128, i - 1);
      DivideTwice(n, 128, Power(128, i - 1));
      assert Varint(n)[i] == Varint(n / 128)[i - 1];
    }
  }

  // ---------- the messages as bytes ----------

  lemma {:induction false} EncodeConcat(a: seq<Field>, b: seq<Field>)
    ensures EncodeFields(a + b) == EncodeFields(a) + EncodeFields(b)
  {
    if a == [] {
      assert a + b == b;
    } else {
      assert (a + b)[1..] == a[1..] + b;
      EncodeConcat(a[1..], b);
    }
  }

  /** One field under a one-byte tag, left out when it has its default value. */
  lemma PresentBytes(f: Field)
    requires 8 * f.number + 7 < 128
    ensures EncodeFields(Present(f)) ==
      match f
      case VarintValue(n, v) => if v == 0 then [] else [8 * n] + Varint(v)
      case Fixed64Value(n, v) => if v == 0 then [] else [8 * n + 1] + LittleEndian(v, 8)
      case BytesValue(n, d) => if d == [] then [] else [8 * n + 2] + Varint(|d|) + d
      case Fixed32Value(n, v) => if v == 0 then [] else [8 * n + 5] + LittleEndian(v, 4)
  {
    if Present(f) == [f] {
      assert EncodeFields([f]) == EncodeField(f) + EncodeFields([f][1..]);
      assert EncodeFields([f]) == EncodeField(f);
    }
  }

  /** The inner message: version, connection, sequence, type and payload under the tags 8, 17, 25, 32 and 42. */
  lemma PacketLayout(p: Packet)
    ensures EncodePacket(p) ==
      (if p.version == 0 then [] else [8] + Varint(p.version))
      + (if p.connectionId == 0 then [] else [17] + LittleEndian(p.connectionId, 8))
      + (if p.sequence == 0 then [] else [25] + LittleEndian(p.sequence, 8))
      + (if p.packetType == 0 then [] else [32] + Varint(p.packetType))
      + (if p.payload == [] then [] else [42] + Varint(|p.payload|) + p.payload)
  {
    var f1, f2, f3 := VarintValue(1, p.version), Fixed64Value(2, p.connectionId), Fixed64Value(3, p.sequence);
    var f4, f5 := VarintValue(4, p.packetType), BytesValue(5, p.payload);
    PresentBytes(f1);
    PresentBytes(f2);
    PresentBytes(f3);
    PresentBytes(f4);
    PresentBytes(f5);
    EncodeConcat(Present(f1), Present(f2));
    EncodeConcat(Present(f1) + Present(f2), Present(f3));
    EncodeConcat(Present(f1) + Present(f2) + Present(f3), Present(f4));
    EncodeConcat(Present(f1) + Present(f2) + Present(f3) + Present(f4), Present(f5));
  }

  /** The envelope: connection, authenticated data and tag under the tags 9, 18 and 26. */
  lemma EnvelopeLayout(e: Envelope)
    ensures EncodeEnvelope(e) ==
      (if e.connectionId == 0 then [] else [9] + LittleEndian(e.connectionId, 8))
      + (if e.authenticatedData == [] then [] else [18] + Varint(|e.authenticatedData|) + e.authenticatedData)
      + (if e.authenticationTag == [] then [] else [26] + Varint(|e.authenticationTag|) + e.authenticationTag)
  {
    var f1, f2 := Fixed64Value(1, e.connectionId), BytesValue(2, e.authenticatedData);
    var f3 := BytesValue(3, e.authenticationTag);
    PresentBytes(f1);
    PresentBytes(f2);
    PresentBytes(f3);
    EncodeConcat(Present(f1), Present(f2));
    EncodeConcat(Present(f1) + Present(f2), Present(f3));
  }

  // ---------- what arbitrary bytes mean ----------

  /** The base-128 digits of some bytes, the first one lowest. */
  function Digits(s: bytes): nat {
    if s == [] then 0 else s[0] % 128 + 128 * Digits(s[1..])
  }

  /** A base-128 number is read up to the first byte below 128, if that comes in time; needless bytes are allowed. */
  lemma {:induction false} VarintIsRead(s: bytes, limit: nat, k: nat)
    requires k < |s| && s[k] < 128 && forall i :: 0 <= i < k ==> s[i] >= 128
    ensures DecodeVarint(s, limit) == if k < limit then Some((Digits(s[..k + 1]), s[k + 1..])) else None
    decreases limit
  {
    if limit > 0 && k > 0 {
      VarintIsRead(s[1..], limit - 1, k - 1);
      assert s[..k + 1][1..] == s[1..][..k];
    } else if limit > 0 {
      assert s[..1][1..] == [];
    }
  }

  /** The value of a number field: at most ten bytes, of which 64 bits count. */
  lemma NumberIsRead(number: nat, s: bytes, k: nat)
    requires k < |s| && s[k] < 128 && forall i :: 0 <= i < k ==> s[i] >= 128
    ensures DecodeContent(number, 0, s) ==
      if k < 10 then Some((VarintValue(number, Digits(s[..k + 1]) % 0x1_0000_0000_0000_0000), s[k + 1..])) else None
  {
    VarintIsRead(s, 10, k);
  }

  /** The value of a bytes field: a length of at most five bytes and 31 bits, and so many bytes, all there. */
  lemma BytesAreRead(number: nat, s: bytes, k: nat)
    requires k < |s| && s[k] < 128 && forall i :: 0 <= i < k ==> s[i] >= 128
    ensures
      var rest, length := s[k + 1..], Digits(s[..k + 1]);
      DecodeContent(number, 2, s) ==
        if k < 5 && length <= 0x7FFF_FFFF && length <= |rest|
        then Some((BytesValue(number, rest[..length]), rest[length..])) else None
  {
    VarintIsRead(s, 5, k);
  }

  lemma HighAndLow(low: byte, high: nat)
    ensures (low + 256 * high) % 256 == low && (low + 256 * high) / 256 == high
  {}

  lemma {:induction false} FixedIsInverse(s: bytes)
    ensures LittleEndian(FromLittleEndian(s), |s|) == s
  {
    if s != [] {
      var high := FromLittleEndian(s[1..]);
      FixedIsInverse(s[1..]);
      HighAndLow(s[0], high);
      assert LittleEndian(s[0] + 256 * high, |s|) == [s[0]] + LittleEndian(high, |s| - 1);
      assert s == [s[0]] + s[1..];
    }
  }

  /** The value of a fixed field is the one whose bytes these are. */
  lemma FixedIsRead(number: nat, s: bytes)
    ensures DecodeContent(number, 1, s).Some? <==> |s| >= 8
    ensures |s| >= 8 ==>
      var (f, rest) := DecodeContent(number, 1, s).value;
      f.Fixed64Value? && f.number == number && LittleEndian(f.value, 8) == s[..8] && rest == s[8..]
  {
    if |s| >= 8 { FixedIsInverse(s[..8]); }
  }

  lemma {:induction false} VarintNeverEnds(s: bytes, limit: nat)
    requires forall i :: 0 <= i < |s| ==> s[i] >= 128
    ensures DecodeVarint(s, limit) == None
    decreases limit
  {
    if limit > 0 && s != [] { VarintNeverEnds(s[1..], limit - 1); }
  }

  /** A field is read only under a tag of 32 bits with a nonzero number and wire type 0, 1, 2 or 5. */
  lemma TagsAreChecked(s: bytes)
    ensures DecodeField(s).Some? ==>
      DecodeVarint(s, 5).Some?
      && var tag := DecodeVarint(s, 5).value.0;
         8 <= tag < 0x1_0000_0000 && (tag % 8 == 0 || tag % 8 == 1 || tag % 8 == 2 || tag % 8 == 5)
  {}

  /** The last field of this kind and number, counted from the end, or the default if there is none. */
  function LastVarint(fields: seq<Field>, number: nat): nat {
    if fields == [] then 0
    else
      var last := fields[|fields| - 1];
      if last.VarintValue? && last.number == number then last.value
      else LastVarint(fields[..|fields| - 1], number)
  }

  function LastFixed64(fields: seq<Field>, number: nat): nat {
    if fields == [] then 0
    else
      var last := fields[|fields| - 1];
      if last.Fixed64Value? && last.number == number then last.value
      else LastFixed64(fields[..|fields| - 1], number)
  }

  function LastBytes(fields: seq<Field>, number: nat): bytes {
    if fields == [] then []
    else
      var last := fields[|fields| - 1];
      if last.BytesValue? && last.number == number then last.data
      else LastBytes(fields[..|fields| - 1], number)
  }

  lemma SetLast<M>(message: M, set1: (M, Field) -> M, fields: seq<Field>)
    requires fields != []
    ensures SetAll(message, set1, fields)
         == set1(SetAll(message, set1, fields[..|fields| - 1]), fields[|fields| - 1])
  {
    var front, last := fields[..|fields| - 1], fields[|fields| - 1];
    SetAllConcat(message, set1, front, [last]);
    assert fields == front + [last];
    var m := SetAll(message, set1, front);
    assert [last][1..] == [];
    assert SetAll(m, set1, [last]) == SetAll(set1(m, last), set1, []);
  }

  lemma {:induction false} PacketFromTheEnd(fields: seq<Field>)
    ensures SetAll(EMPTY_PACKET, SetPacketField, fields)
         == Packet(LastVarint(fields, 1) % 0x1_0000_0000, LastFixed64(fields, 2), LastFixed64(fields, 3),
                   LastVarint(fields, 4) % 0x1_0000_0000, LastBytes(fields, 5))
  {
    if fields != [] {
      SetLast(EMPTY_PACKET, SetPacketField, fields);
      PacketFromTheEnd(fields[..|fields| - 1]);
    }
  }

  lemma {:induction false} EnvelopeFromTheEnd(fields: seq<Field>)
    ensures SetAll(EMPTY_ENVELOPE, SetEnvelopeField, fields)
         == Envelope(LastFixed64(fields, 1), LastBytes(fields, 2), LastBytes(fields, 3))
  {
    if fields != [] {
      SetLast(EMPTY_ENVELOPE, SetEnvelopeField, fields);
      EnvelopeFromTheEnd(fields[..|fields| - 1]);
    }
  }

  /**
   Any bytes that are a list of fields are a message: of each field the last occurrence with the declared
   wire type counts, 32-bit numbers lose their high part, and everything else is ignored.
   */
  lemma PacketMeaning(s: bytes)
    ensures
      ParsePacket(s) ==
        match DecodeFields(s)
        case None => None
        case Some(fields) =>
          Some(Packet(LastVarint(fields, 1) % 0x1_0000_0000, LastFixed64(fields, 2), LastFixed64(fields, 3),
                      LastVarint(fields, 4) % 0x1_0000_0000, LastBytes(fields, 5)))
  {
    if DecodeFields(s).Some? { PacketFromTheEnd(DecodeFields(s).value); }
  }

  lemma EnvelopeMeaning(s: bytes)
    ensures
      ParseEnvelope(s) ==
        match DecodeFields(s)
        case None => None
        case Some(fields) => Some(Envelope(LastFixed64(fields, 1), LastBytes(fields, 2), LastBytes(fields, 3)))
  {
    if DecodeFields(s).Some? { EnvelopeFromTheEnd(DecodeFields(s).value); }
  }
}
