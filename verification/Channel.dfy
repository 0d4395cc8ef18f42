/**
 Two sessions and an arbitrary channel between them: the methods of Session run over whole streams.
 What comes out is stated without the bitmap, the counter or the set of accepted numbers.
 */
module Channels {
  import opened PacketAuthentication
  import opened ProcessorManagers
  import opened ReplayWindow
  import opened Sessions
  import opened Wire
  import opened Words

  /** A new session over any stream of numbers: what it lets through is decided by the stream alone. */
  method AcceptAll(session: Session, arrivals: seq<uint64>) returns (oks: seq<bool>)
    requires session.Valid() && session.accepted == {}
    modifies session
    ensures session.Valid()
    ensures |oks| == |arrivals|
    ensures forall k :: 0 <= k < |arrivals| ==>
      (oks[k] <==> arrivals[k] != 0
                   && forall j :: 0 <= j < k ==>
                        arrivals[j] != arrivals[k] && arrivals[j] < arrivals[k] as nat + 64)
  {
    oks := [];
    assert arrivals[..0] == [];
    for k := 0 to |arrivals|
      invariant session.Valid() && session.accepted == AcceptedFrom(arrivals[..k])
      invariant |oks| == k && forall i :: 0 <= i < k ==> (oks[i] <==> AcceptedAt(arrivals, i))
    {
      AcceptedStep(arrivals, k);
      var ok := session.AcceptSequence(arrivals[k]);
      oks := oks + [ok];
    }
    forall k | 0 <= k < |arrivals|
      ensures AcceptedAt(arrivals, k) <==>
              (arrivals[k] != 0
               && forall j :: 0 <= j < k ==>
                    arrivals[j] != arrivals[k] && arrivals[j] < arrivals[k] as nat + 64)
    {
      AcceptedExactly(arrivals, k);
    }
  }

  datatype Message = Message(packetType: nat, payload: bytes)

  /** The i-th datagram is the i-th message that was built, under the number i + 1. */
  ghost predicate AreBuilt(mac: Mac, key: Key, connectionId: uint64, built: seq<Message>, datagrams: seq<bytes>) {
    && |built| == |datagrams|
    && forall i :: 0 <= i < |datagrams| ==>
         built[i].packetType < UINT32_LIMIT
         && IsDatagram(mac, key, connectionId, i + 1, built[i].packetType, built[i].payload, datagrams[i])
  }

  lemma OneMoreBuilt(mac: Mac, key: Key, connectionId: uint64, built: seq<Message>, datagrams: seq<bytes>,
                     message: Message, datagram: bytes)
    requires AreBuilt(mac, key, connectionId, built, datagrams) && message.packetType < UINT32_LIMIT
    requires IsDatagram(mac, key, connectionId, |datagrams| + 1, message.packetType, message.payload, datagram)
    ensures AreBuilt(mac, key, connectionId, built + [message], datagrams + [datagram])
  {}

  /** What it takes to build a message under a number. */
  ghost predicate CanBuild(mac: Mac, key: Key, connectionId: uint64, number: nat, message: Message) {
    number < 0xFFFF_FFFF_FFFF_FFFF && connectionId != 0 && message.packetType != 0 && ValidKey(key)
    && |message.payload| + |Varint(message.packetType)| <= 4026
    && mac(key, EncodePacket(Packet(1, connectionId, number, message.packetType, message.payload))).Some?
  }

  /** The messages that can be built, each under the number that follows those built before it. */
  ghost function Buildable(mac: Mac, key: Key, connectionId: uint64, messages: seq<Message>): seq<Message> {
    if messages == [] then []
    else
      var before := Buildable(mac, key, connectionId, messages[..|messages| - 1]);
      var last := messages[|messages| - 1];
      if CanBuild(mac, key, connectionId, |before| + 1, last) then before + [last] else before
  }

  lemma OneMoreBuildable(mac: Mac, key: Key, connectionId: uint64, before: seq<Message>, last: Message)
    requires Buildable(mac, key, connectionId, before) == before && CanBuild(mac, key, connectionId, |before| + 1, last)
    ensures Buildable(mac, key, connectionId, before + [last]) == before + [last]
  {
    assert (before + [last])[..|before|] == before;
  }

  ghost predicate Fits(message: Message) {
    message.packetType != 0 && |message.payload| + |Varint(message.packetType)| <= 4026
  }

  ghost predicate Works(mac: Mac, key: Key) {
    ValidKey(key) && forall d :: mac(key, d).Some?
  }

  lemma FittingIsBuilt(mac: Mac, key: Key, connectionId: uint64, before: seq<Message>, last: Message)
    requires Buildable(mac, key, connectionId, before) == before && |before| + 1 < 0xFFFF_FFFF_FFFF_FFFF
    requires connectionId != 0 && Works(mac, key) && Fits(last)
    ensures Buildable(mac, key, connectionId, before + [last]) == before + [last]
  {
    OneMoreBuildable(mac, key, connectionId, before, last);
  }

  lemma {:induction false} FittingAreBuilt(mac: Mac, key: Key, connectionId: uint64, messages: seq<Message>)
    requires |messages| < 0xFFFF_FFFF_FFFF_FFFF && connectionId != 0 && Works(mac, key)
    requires forall i :: 0 <= i < |messages| ==> Fits(messages[i])
    ensures Buildable(mac, key, connectionId, messages) == messages
  {
    if messages != [] {
      var before, last := messages[..|messages| - 1], messages[|messages| - 1];
      FittingAreBuilt(mac, key, connectionId, before);
      FittingIsBuilt(mac, key, connectionId, before, last);
      assert messages == before + [last];
    }
  }

  /** With a working provider, every message of a fitting size is built, and none is passed over. */
  lemma AllAreBuildable(mac: Mac, key: Key, connectionId: uint64, messages: seq<Message>)
    requires connectionId != 0 && ValidKey(key) && |messages| < 0xFFFF_FFFF_FFFF_FFFF && forall d :: mac(key, d).Some?
    requires forall i :: 0 <= i < |messages| ==>
      messages[i].packetType != 0 && |messages[i].payload| + |Varint(messages[i].packetType)| <= 4026
    ensures Buildable(mac, key, connectionId, messages) == messages
  {
    FittingAreBuilt(mac, key, connectionId, messages);
  }

  lemma BuildableStep(mac: Mac, key: Key, connectionId: uint64, messages: seq<Message>, i: nat)
    requires i < |messages|
    ensures var before := Buildable(mac, key, connectionId, messages[..i]);
            Buildable(mac, key, connectionId, messages[..i + 1])
            == if CanBuild(mac, key, connectionId, |before| + 1, messages[i]) then before + [messages[i]] else before
  {
    assert messages[..i + 1][..i] == messages[..i];
  }

  method BuildNext(mac: Mac, session: Session, connectionId: uint64, message: Message)
    returns (ok: bool, packetData: bytes)
    requires session.Valid() && message.packetType < UINT32_LIMIT
    modifies session`nextSendSequence, session`sent
    ensures session.Valid() && |session.sent| == |old(session.sent)| + if ok then 1 else 0
    ensures ok <==> CanBuild(mac, session.authenticationKey, connectionId, |old(session.sent)| + 1, message)
    ensures ok ==> IsDatagram(mac, session.authenticationKey, connectionId, |session.sent|, message.packetType,
                              message.payload, packetData)
  {
    ok, packetData := session.BuildSendPacket(mac, connectionId, message.packetType, message.payload);
  }

  /** A new session sends messages one after the other; those that cannot be built are passed over. */
  method BuildAll(mac: Mac, session: Session, connectionId: uint64, messages: seq<Message>)
    returns (built: seq<Message>, datagrams: seq<bytes>)
    requires session.Valid() && session.sent == []
    requires forall i :: 0 <= i < |messages| ==> messages[i].packetType < UINT32_LIMIT
    modifies session`nextSendSequence, session`sent
    ensures session.Valid() && session.sent == Numbers(|datagrams|)
    ensures AreBuilt(mac, session.authenticationKey, connectionId, built, datagrams)
    ensures built == Buildable(mac, session.authenticationKey, connectionId, messages)
  {
    built, datagrams := [], [];
    assert messages[..0] == [];
    for i := 0 to |messages|
      invariant session.Valid() && |session.sent| == |datagrams|
      invariant AreBuilt(mac, session.authenticationKey, connectionId, built, datagrams)
      invariant built == Buildable(mac, session.authenticationKey, connectionId, messages[..i])
    {
      BuildableStep(mac, session.authenticationKey, connectionId, messages, i);
      var ok, packetData := BuildNext(mac, session, connectionId, messages[i]);
      if ok {
        OneMoreBuilt(mac, session.authenticationKey, connectionId, built, datagrams, messages[i], packetData);
        built := built + [messages[i]];
        datagrams := datagrams + [packetData];
      }
    }
    assert messages[..|messages|] == messages;
  }

  function NumbersOf(origin: seq<nat>): (numbers: seq<nat>)
    ensures |numbers| == |origin| && forall k :: 0 <= k < |origin| ==> numbers[k] == origin[k] + 1
  {
    seq(|origin|, k requires 0 <= k < |origin| => origin[k] + 1)
  }

  /** What message number i leads to when it is accepted. */
  function EffectOfMessage(session: Session, connectionId: uint64, built: seq<Message>, i: nat): (effect: Effect)
    requires i < |built|
    ensures built[i].packetType == 1 ==> effect == Heartbeat
    ensures built[i].packetType == 2 ==> effect == RequestDisconnect(connectionId)
    ensures built[i].packetType != 1 && built[i].packetType != 2 ==>
      effect == Dispatch(session.clientId, built[i].packetType, built[i].payload)
  {
    EffectOf(session, connectionId, InnerPacket(connectionId, i + 1, built[i].packetType, built[i].payload))
  }

  /** A copy of a built datagram, from the session's peer, is refused or has the effect of its own message. */
  method ReceiveCopy(mac: Mac, session: Session, now: int, connectionId: uint64, ghost built: seq<Message>,
                     datagrams: seq<bytes>, i: nat)
    returns (effect: Effect)
    requires session.Valid() && session.lastReceivedTime <= now
    requires AreBuilt(mac, session.authenticationKey, connectionId, built, datagrams) && i < |datagrams| < UINT64_MAX
    modifies session
    ensures session.Valid() && session.lastReceivedTime <= now
    ensures effect != Ignored <==> Fresh(old(session.accepted), i + 1)
    ensures effect != Ignored ==> effect == EffectOfMessage(session, connectionId, built, i)
    ensures session.accepted == Accepting(old(session.accepted), i + 1)
  {
    BuildThenReceive(mac, session.authenticationKey, connectionId, i + 1, built[i].packetType, built[i].payload,
                     datagrams[i]);
    var e := ReceiveEnvelope(datagrams[i]).value;
    effect := DispatchTo(mac, session, now, session.remoteAddress, connectionId, e.authenticatedData,
                         e.authenticationTag);
  }

  /** Arrival k is the first copy of its datagram, and nothing sent 64 or more later has arrived before it. */
  ghost predicate FirstInWindow(origin: seq<nat>, k: nat)
    requires k < |origin|
  {
    forall j :: 0 <= j < k ==> origin[j] != origin[k] && origin[j] < origin[k] + 64
  }

  lemma AcceptedInWindow(count: nat, origin: seq<nat>)
    requires forall k :: 0 <= k < |origin| ==> origin[k] < count
    ensures forall k :: 0 <= k < |origin| ==> (AcceptedAt(NumbersOf(origin), k) <==> FirstInWindow(origin, k))
  {
    forall k | 0 <= k < |origin|
      ensures AcceptedAt(NumbersOf(origin), k) <==> FirstInWindow(origin, k)
    {
      EndToEnd(count, origin, NumbersOf(origin), k);
    }
  }

  /** Arrival k had an effect exactly when the window takes its number, and then its message's. */
  ghost predicate HasEffect(session: Session, connectionId: uint64, built: seq<Message>, origin: seq<nat>, k: nat,
                            effect: Effect)
    requires k < |origin| && origin[k] < |built|
  {
    (effect != Ignored <==> AcceptedAt(NumbersOf(origin), k))
    && (effect != Ignored ==> effect == EffectOfMessage(session, connectionId, built, origin[k]))
  }

  ghost predicate EffectsSoFar(session: Session, connectionId: uint64, built: seq<Message>, origin: seq<nat>,
                               effects: seq<Effect>)
    requires |effects| <= |origin| && forall k :: 0 <= k < |origin| ==> origin[k] < |built|
  {
    forall k :: 0 <= k < |effects| ==> HasEffect(session, connectionId, built, origin, k, effects[k])
  }

  lemma OneMoreEffect(session: Session, connectionId: uint64, built: seq<Message>, origin: seq<nat>,
                      effects: seq<Effect>, effect: Effect)
    requires |effects| < |origin| && forall k :: 0 <= k < |origin| ==> origin[k] < |built|
    requires EffectsSoFar(session, connectionId, built, origin, effects)
    requires HasEffect(session, connectionId, built, origin, |effects|, effect)
    ensures EffectsSoFar(session, connectionId, built, origin, effects + [effect])
  {}

  /** The next arrival, whose number is judged by the set accepted so far. */
  method ReceiveNext(mac: Mac, session: Session, now: int, connectionId: uint64, ghost built: seq<Message>,
                     datagrams: seq<bytes>,
                     origin: seq<nat>, k: nat)
    returns (effect: Effect)
    requires session.Valid() && session.lastReceivedTime <= now && k < |origin| && origin[k] < |datagrams| < UINT64_MAX
    requires AreBuilt(mac, session.authenticationKey, connectionId, built, datagrams)
    requires session.accepted == AcceptedFrom(NumbersOf(origin)[..k])
    modifies session
    ensures session.Valid() && session.lastReceivedTime <= now
    ensures session.accepted == AcceptedFrom(NumbersOf(origin)[..k + 1])
    ensures HasEffect(session, connectionId, built, origin, k, effect)
  {
    AcceptedStep(NumbersOf(origin), k);
    effect := ReceiveCopy(mac, session, now, connectionId, built, datagrams, origin[k]);
  }

  /** Arrival k is a copy of datagram origin[k]. */
  method ReceiveAll(mac: Mac, session: Session, now: int, connectionId: uint64, ghost built: seq<Message>,
                    datagrams: seq<bytes>, origin: seq<nat>)
    returns (effects: seq<Effect>)
    requires session.Valid() && session.accepted == {} && session.lastReceivedTime <= now
    requires AreBuilt(mac, session.authenticationKey, connectionId, built, datagrams) && |datagrams| < UINT64_MAX
    requires forall k :: 0 <= k < |origin| ==> origin[k] < |datagrams|
    modifies session
    ensures session.Valid() && |effects| == |origin|
    ensures forall k :: 0 <= k < |origin| ==> (effects[k] != Ignored <==> FirstInWindow(origin, k))
    ensures forall k :: 0 <= k < |origin| && effects[k] != Ignored ==>
      effects[k] == EffectOfMessage(session, connectionId, built, origin[k])
  {
    effects := [];
    for k := 0 to |origin|
      invariant session.Valid() && session.lastReceivedTime <= now
      invariant session.accepted == AcceptedFrom(NumbersOf(origin)[..k])
      invariant |effects| == k && EffectsSoFar(session, connectionId, built, origin, effects)
    {
      var effect := ReceiveNext(mac, session, now, connectionId, built, datagrams, origin, k);
      OneMoreEffect(session, connectionId, built, origin, effects, effect);
      effects := effects + [effect];
    }
    AcceptedInWindow(|datagrams|, origin);
  }

  /**
   End to end: one session sends, a channel that may lose, repeat and reorder delivers, and a session
   with the same key receives. `channel` says, for so many datagrams, which copies arrive in what order.
   A copy has an effect exactly when it is the first to arrive and nothing sent 64 or more later has
   arrived; then the effect is that of the message that was sent.
   */
  method Exchange(mac: Mac, sender: Session, receiver: Session, now: int, connectionId: uint64, messages: seq<Message>,
                  channel: nat -> seq<nat>)
    returns (built: seq<Message>, origin: seq<nat>, effects: seq<Effect>)
    requires sender != receiver && sender.authenticationKey == receiver.authenticationKey
    requires sender.Valid() && sender.sent == [] && receiver.Valid() && receiver.accepted == {}
    requires receiver.lastReceivedTime <= now
    requires forall i :: 0 <= i < |messages| ==> messages[i].packetType < UINT32_LIMIT
    requires forall n: nat, k: nat :: k < |channel(n)| ==> channel(n)[k] < n
    modifies sender, receiver
    ensures sender.Valid() && receiver.Valid()
    ensures origin == channel(|built|) && |effects| == |origin|
    ensures built == Buildable(mac, sender.authenticationKey, connectionId, messages)
    ensures forall k :: 0 <= k < |origin| ==>
      (effects[k] != Ignored <==> forall j :: 0 <= j < k ==> origin[j] != origin[k] && origin[j] < origin[k] + 64)
    ensures forall k :: 0 <= k < |origin| && effects[k] != Ignored ==>
      var message := built[origin[k]];
      (message.packetType == 1 ==> effects[k] == Heartbeat)
      && (message.packetType == 2 ==> effects[k] == RequestDisconnect(connectionId))
      && (message.packetType != 1 && message.packetType != 2 ==>
            effects[k] == Dispatch(receiver.clientId, message.packetType, message.payload))
  {
    var datagrams;
    built, datagrams := BuildAll(mac, sender, connectionId, messages);
    origin := channel(|built|);
    effects := ReceiveAll(mac, receiver, now, connectionId, built, datagrams, origin);
  }
}
