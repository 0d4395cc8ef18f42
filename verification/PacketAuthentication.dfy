/**
 Building an authenticated packet and checking one: keys, tags, and the checks the
 receive path makes before it looks at the sequence number.

 The message authentication code is a parameter: a function from key and data to a
 tag, or to nothing when the provider fails.
 */
module PacketAuthentication {
  import opened Words
  import opened Wire
  import opened Wrappers

  const CURRENT_PROTOCOL_VERSION: nat := 1
  const MAX_PACKET_SIZE: nat := 4096
  const AUTHENTICATION_KEY_SIZE: nat := 32
  const AUTHENTICATION_TAG_SIZE: nat := 32
  const HEARTBEAT_PACKET_TYPE: nat := 1
  const DISCONNECT_PACKET_TYPE: nat := 2
  const INVALID_PACKET_TYPE: nat := 0

  /** HMAC-SHA256 as the code sees it: it may fail, and a tag it returns has 32 bytes. */
  type Tag = t: bytes | |t| == AUTHENTICATION_TAG_SIZE witness seq(AUTHENTICATION_TAG_SIZE, i => 0)
  type Key = k: bytes | |k| == AUTHENTICATION_KEY_SIZE witness seq(AUTHENTICATION_KEY_SIZE, i => 0)
  type Mac = (Key, bytes) -> Option<Tag>

  // ---------- keys and tags ----------

  /** A key of zero bytes only stands for no key. */
  ghost predicate ValidKey(key: Key): (valid: bool)
    ensures valid <==> key != seq(32, i => 0)
  {
    assert (forall i :: 0 <= i < |key| ==> key[i] == 0) ==> key == seq(32, i => 0);
    exists i :: 0 <= i < |key| && key[i] != 0
  }

  /** The key check accumulates every byte: it holds exactly when some byte is not zero. */
  method IsValidAuthenticationKey(key: Key) returns (valid: bool)
    ensures valid <==> ValidKey(key)
  {
    var combinedValue: nat := 0;
    for i := 0 to |key|
      invariant combinedValue == 0 <==> forall j :: 0 <= j < i ==> key[j] == 0
    {
      OrIsZero(combinedValue, key[i]);
      combinedValue := Or(combinedValue, key[i]);
    }
    valid := combinedValue != 0;
  }

  ghost function ComputedTag(mac: Mac, key: Key, data: bytes): Option<Tag> {
    if ValidKey(key) then mac(key, data) else None
  }

  /**
   The comparison never stops early, but decides equality: a tag passes exactly when the key is
   valid, the provider succeeds and the tag is the computed one.
   */
  method VerifyAuthenticationTag(mac: Mac, key: Key, data: bytes, tag: bytes) returns (ok: bool)
    ensures ok <==> |tag| == 32 && key != seq(32, i => 0) && mac(key, data) == Some(tag)
    ensures ok <==> |tag| == AUTHENTICATION_TAG_SIZE && ComputedTag(mac, key, data) == Some(tag)
  {
    if |tag| != AUTHENTICATION_TAG_SIZE {
      return false;
    }
    var validKey := IsValidAuthenticationKey(key);
    if !validKey {
      return false;
    }
    var computed := mac(key, data);
    if computed.None? {
      return false;
    }
    var expectedTag := computed.value;
    var difference: nat := 0;
    for i := 0 to |expectedTag|
      invariant difference == 0 <==> forall j :: 0 <= j < i ==> expectedTag[j] == tag[j]
    {
      XorIsZero(expectedTag[i], tag[i]);
      OrIsZero(difference, Xor(expectedTag[i], tag[i]));
      difference := Or(difference, Xor(expectedTag[i], tag[i]));
    }
    ok := difference == 0;
    assert ok ==> expectedTag == tag;
  }

  // ---------- building a packet ----------

  ghost predicate ValidInputs(connectionId: nat, sequence: nat, packetType: nat, payload: bytes, key: Key) {
    connectionId != 0 && sequence != 0 && packetType != 0 && |payload| <= INT_MAX && ValidKey(key)
  }

  /** The authenticated message says what was asked for, under version 1. */
  function InnerPacket(connectionId: nat, sequence: nat, packetType: nat, payload: bytes): (p: Packet)
    ensures p.version == 1 && p.connectionId == connectionId && p.sequence == sequence
    ensures p.packetType == packetType && p.payload == payload
  {
    Packet(CURRENT_PROTOCOL_VERSION, connectionId, sequence, packetType, payload)
  }

  /** The largest payload that fits, which depends only on how the packet type is encoded. */
  function PayloadLimit(packetType: nat): (limit: int)
    ensures limit + |Varint(packetType)| == 4026
  {
    4026 - VarintLength(packetType)
  }

  lemma InnerSize(connectionId: nat, sequence: nat, packetType: nat, payload: bytes)
    requires connectionId != 0 && sequence != 0 && packetType != 0
    ensures |EncodePacket(InnerPacket(connectionId, sequence, packetType, payload))|
         == 21 + VarintLength(packetType) + (if payload == [] then 0 else 1 + VarintLength(|payload|) + |payload|)
  {
    PacketSize(InnerPacket(connectionId, sequence, packetType, payload));
  }

  lemma OuterSize(connectionId: nat, data: bytes, tag: Tag)
    requires connectionId != 0 && data != []
    ensures |EncodeEnvelope(Envelope(connectionId, data, tag))| == 44 + VarintLength(|data|) + |data|
  {
    EnvelopeSize(Envelope(connectionId, data, tag));
  }

  lemma SmallVarints(n: nat)
    ensures n < 128 ==> VarintLength(n) == 1
    ensures 128 <= n < 16384 ==> VarintLength(n) == 2
    ensures 16384 <= n ==> VarintLength(n) >= 3
  {}

  lemma PacketTypeLength(packetType: nat)
    requires packetType < UINT32_LIMIT
    ensures 1 <= VarintLength(packetType) <= 5
  {
    SmallVarints(packetType / 128 / 128 / 128);
  }

  /** The encoded envelope fits the receive buffer exactly when the payload is within the limit. */
  lemma FitsExactly(connectionId: nat, sequence: nat, packetType: nat, payload: bytes, tag: Tag)
    requires connectionId != 0 && sequence != 0 && 0 < packetType < UINT32_LIMIT
    ensures var data := EncodePacket(InnerPacket(connectionId, sequence, packetType, payload));
            |EncodeEnvelope(Envelope(connectionId, data, tag))| <= 4096 <==> |payload| + |Varint(packetType)| <= 4026
  {
    var data := EncodePacket(InnerPacket(connectionId, sequence, packetType, payload));
    InnerSize(connectionId, sequence, packetType, payload);
    PacketTypeLength(packetType);
    OuterSize(connectionId, data, tag);
    SmallVarints(|payload|);
    SmallVarints(|data|);
  }

  /**
   Builds the datagram. Besides valid inputs and a working provider, success needs exactly that
   the payload is within `PayloadLimit`; on failure the output is empty.
   */
  method SerializeAuthenticatedPacket(mac: Mac, connectionId: nat, sequence: nat, packetType: nat, payload: bytes,
                                      key: Key)
    returns (ok: bool, packetData: bytes)
    requires connectionId < UINT64_LIMIT && sequence < UINT64_LIMIT && packetType < UINT32_LIMIT
    ensures ok <==> (connectionId != 0 && sequence != 0 && packetType != 0 && ValidKey(key)
                     && |payload| + |Varint(packetType)| <= 4026
                     && mac(key, EncodePacket(Packet(1, connectionId, sequence, packetType, payload))).Some?)
    ensures ok ==> 0 < |packetData| <= 4096
    ensures !ok ==> packetData == []
    ensures ok ==> IsDatagram(mac, key, connectionId, sequence, packetType, payload, packetData)
  {
    packetData := [];
    ok := false;
    var validKey := IsValidAuthenticationKey(key);
    if connectionId == 0 || sequence == 0 || packetType == 0 || |payload| > INT_MAX || !validKey {
      return;
    }
    var authenticatedData := EncodePacket(InnerPacket(connectionId, sequence, packetType, payload));
    var computed := mac(key, authenticatedData);
    if computed.None? {
      return;
    }
    var envelope := Envelope(connectionId, authenticatedData, computed.value);
    FitsExactly(connectionId, sequence, packetType, payload, computed.value);
    if |EncodeEnvelope(envelope)| > MAX_PACKET_SIZE {
      return;
    }
    packetData := EncodeEnvelope(envelope);
    ok := true;
    DatagramIsNotEmpty(mac, key, connectionId, sequence, packetType, payload, packetData);
  }

  ghost predicate IsDatagram(mac: Mac, key: Key, connectionId: nat, sequence: nat, packetType: nat, payload: bytes,
                             datagram: bytes) {
    var data := EncodePacket(InnerPacket(connectionId, sequence, packetType, payload));
    ValidInputs(connectionId, sequence, packetType, payload, key)
    && mac(key, data).Some?
    && |datagram| <= MAX_PACKET_SIZE
    && datagram == EncodeEnvelope(Envelope(connectionId, data, mac(key, data).value))
  }

  lemma DatagramIsNotEmpty(mac: Mac, key: Key, connectionId: nat, sequence: nat, packetType: nat, payload: bytes,
                           datagram: bytes)
    requires IsDatagram(mac, key, connectionId, sequence, packetType, payload, datagram)
    ensures datagram != []
  {
    var data := EncodePacket(InnerPacket(connectionId, sequence, packetType, payload));
    InnerSize(connectionId, sequence, packetType, payload);
    OuterSize(connectionId, data, mac(key, data).value);
  }

  // ---------- the receive side ----------

  /** What the Logic processor checks before it hands a datagram on. */
  function ReceiveEnvelope(datagram: bytes): (e: Option<Envelope>)
    ensures e.Some? <==>
      ParseEnvelope(datagram).Some?
      && ParseEnvelope(datagram).value.connectionId != 0
      && ParseEnvelope(datagram).value.authenticatedData != []
      && |ParseEnvelope(datagram).value.authenticationTag| == 32
    ensures e.Some? ==> e == ParseEnvelope(datagram) && 0 < e.value.connectionId < UINT64_LIMIT
  {
    ParsedEnvelopeFits(datagram);
    if datagram == [] then None
    else match ParseEnvelope(datagram)
      case None => None
      case Some(e) =>
        if e.connectionId == 0 || e.authenticatedData == [] || |e.authenticationTag| != AUTHENTICATION_TAG_SIZE
        then None else Some(e)
  }

  /** The content checks made on authenticated data, before the sequence check. */
  function ReceivePacket(connectionId: nat, data: bytes): (p: Option<Packet>)
    ensures p.Some? <==>
      ParsePacket(data).Some?
      && ParsePacket(data).value.connectionId == connectionId
      && ParsePacket(data).value.version == 1
      && ParsePacket(data).value.packetType != 0
    ensures p.Some? ==> p == ParsePacket(data) && p.value.sequence < UINT64_LIMIT && p.value.packetType < UINT32_LIMIT
  {
    ParsedPacketFits(data);
    match ParsePacket(data)
    case None => None
    case Some(p) =>
      if p.connectionId != connectionId || p.version != CURRENT_PROTOCOL_VERSION || p.packetType == INVALID_PACKET_TYPE
      then None else Some(p)
  }

  /**
   Everything the builder accepts passes every receive-side check up to the sequence check, and
   the receiver sees the same connection, sequence, type and payload.
   */
  lemma BuildThenReceive(mac: Mac, key: Key, connectionId: nat, sequence: nat, packetType: nat, payload: bytes,
                         datagram: bytes)
    requires connectionId < UINT64_LIMIT && sequence < UINT64_LIMIT && packetType < UINT32_LIMIT
    requires IsDatagram(mac, key, connectionId, sequence, packetType, payload, datagram)
    ensures var received := ReceiveEnvelope(datagram);
            received.Some?
            && received.value.connectionId == connectionId
            && ComputedTag(mac, key, received.value.authenticatedData) == Some(received.value.authenticationTag)
            && ReceivePacket(connectionId, received.value.authenticatedData)
               == Some(Packet(1, connectionId, sequence, packetType, payload))
  {
    var data := EncodePacket(InnerPacket(connectionId, sequence, packetType, payload));
    InnerSize(connectionId, sequence, packetType, payload);
    OuterSize(connectionId, data, mac(key, data).value);
    EnvelopeRoundTrip(Envelope(connectionId, data, mac(key, data).value));
    PacketRoundTrip(InnerPacket(connectionId, sequence, packetType, payload));
  }
}
