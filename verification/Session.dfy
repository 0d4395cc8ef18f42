/** One authenticated session: its replay window, its activity clock and its send counter. */
module Sessions {
  import opened PacketAuthentication
  import opened ReplayWindow
  import opened Wire
  import opened Words

  /** The parts of a socket address that identify a peer. */
  datatype Endpoint = Endpoint(family: nat, address: nat, port: nat)

  /** The checks on a packet that need its session's endpoint and key, all but that of its sequence number. */
  ghost predicate PassesChecks(mac: Mac, key: Key, endpoint: Endpoint, sender: Endpoint, connectionId: nat,
                               data: bytes, tag: bytes) {
    && sender == endpoint
    && |tag| == AUTHENTICATION_TAG_SIZE && ComputedTag(mac, key, data) == Wrappers.Some(tag)
    && ReceivePacket(connectionId, data).Some?
  }

  class Session {
    const clientId: nat
    const remoteAddress: Endpoint
    const authenticationKey: Key

    var highestReceivedSequence: uint64
    var receivedSequenceWindow: uint64
    var lastReceivedTime: int
    var nextSendSequence: uint64

    /** The sequence numbers accepted so far, which the bitmap and its highest number stand for. */
    ghost var accepted: set<nat>
    /** The sequence numbers of the packets built so far. */
    ghost var sent: seq<nat>

    ghost predicate Valid()
      reads this
    {
      && Represents(highestReceivedSequence, receivedSequenceWindow, accepted)
      && sent == Numbers(|sent|)
      && nextSendSequence == |sent| + 1
    }

    constructor (clientId: nat, remoteAddress: Endpoint, authenticationKey: Key, now: int)
      ensures Valid() && accepted == {} && sent == [] && lastReceivedTime == now
      ensures this.clientId == clientId && this.remoteAddress == remoteAddress
      ensures this.authenticationKey == authenticationKey
    {
      this.clientId := clientId;
      this.remoteAddress := remoteAddress;
      this.authenticationKey := authenticationKey;
      highestReceivedSequence, receivedSequenceWindow := 0, 0;
      lastReceivedTime := now;
      nextSendSequence := 1;
      accepted := {};
      sent := [];
      new;
      forall d | 0 <= d < REPLAY_WINDOW_SIZE ensures !Bit(0, d) { BitOfZero(d); }
    }

    /** The clock is steady and read under the lock, so `now` is no earlier than the last mark. */
    method MarkReceivedNow(now: int)
      requires Valid() && now >= lastReceivedTime
      modifies this`lastReceivedTime
      ensures Valid() && lastReceivedTime == now >= old(lastReceivedTime)
    {
      lastReceivedTime := now;
    }

    method HasTimedOut(now: int, timeout: int) returns (timedOut: bool)
      ensures timedOut <==> timeout > 0 && lastReceivedTime <= now - timeout
    {
      if timeout <= 0 {
        return false;
      }
      timedOut := now - lastReceivedTime >= timeout;
    }

    /** The bitmap decides exactly as the set of accepted numbers does, and keeps standing for it. */
    method AcceptSequence(sequence: uint64) returns (ok: bool)
      requires Valid()
      modifies this`highestReceivedSequence, this`receivedSequenceWindow, this`accepted
      ensures Valid()
      ensures ok <==>
        sequence != 0 && sequence !in old(accepted) && forall a :: a in old(accepted) ==> a < sequence + 64
      ensures accepted == if ok then old(accepted) + {sequence} else old(accepted)
      ensures accepted == Accepting(old(accepted), sequence)
      ensures !ok ==> unchanged(this`highestReceivedSequence) && unchanged(this`receivedSequenceWindow)
    {
      if sequence == 0 {
        return false;
      }
      if highestReceivedSequence == 0 {
        RestartRepresents(highestReceivedSequence, receivedSequenceWindow, accepted, sequence);
        highestReceivedSequence := sequence;
        receivedSequenceWindow := 1;
        accepted := accepted + {sequence};
        return true;
      }
      if sequence > highestReceivedSequence {
        var advance := sequence - highestReceivedSequence;
        if advance >= REPLAY_WINDOW_SIZE {
          RestartRepresents(highestReceivedSequence, receivedSequenceWindow, accepted, sequence);
          receivedSequenceWindow := 1;
        } else {
          AdvanceRepresents(highestReceivedSequence, receivedSequenceWindow, accepted, sequence);
          receivedSequenceWindow := Or(ShiftLeft(receivedSequenceWindow, advance), 1);
        }
        highestReceivedSequence := sequence;
        accepted := accepted + {sequence};
        return true;
      }
      var distance := highestReceivedSequence - sequence;
      if distance >= REPLAY_WINDOW_SIZE {
        return false;
      }
      var sequenceBit := ShiftLeft(1, distance);
      BitOfMask(receivedSequenceWindow, distance);
      if And(receivedSequenceWindow, sequenceBit) != 0 {
        return false;
      }
      FillRepresents(highestReceivedSequence, receivedSequenceWindow, accepted, sequence);
      receivedSequenceWindow := Or(receivedSequenceWindow, sequenceBit);
      accepted := accepted + {sequence};
      return true;
    }

    /**
     A successful build carries the next number after those already sent; a failed one uses no
     number and leaves no data. The counter refuses at its largest value instead of wrapping.
     */
    method BuildSendPacket(mac: Mac, connectionId: uint64, packetType: nat, payload: bytes)
      returns (ok: bool, packetData: bytes)
      requires Valid() && packetType < UINT32_LIMIT
      modifies this`nextSendSequence, this`sent
      ensures Valid()
      ensures sent == if ok then old(sent) + [|old(sent)| + 1] else old(sent)
      ensures ok ==> IsDatagram(mac, authenticationKey, connectionId, |sent|, packetType, payload, packetData)
      ensures !ok ==> packetData == []
      ensures ok <==> (|old(sent)| + 1 < 0xFFFF_FFFF_FFFF_FFFF
                       && connectionId != 0 && packetType != 0 && ValidKey(authenticationKey)
                       && |payload| + |Varint(packetType)| <= 4026
                       && mac(authenticationKey,
                              EncodePacket(Packet(1, connectionId, |old(sent)| + 1, packetType, payload))).Some?)
    {
      if connectionId == 0 || packetType == INVALID_PACKET_TYPE {
        return false, [];
      }
      var sequence := nextSendSequence;
      if sequence == 0 || sequence == UINT64_MAX {
        return false, [];
      }
      ok, packetData :=
        SerializeAuthenticatedPacket(mac, connectionId, sequence, packetType, payload, authenticationKey);
      if !ok {
        return;
      }
      nextSendSequence := nextSendSequence + 1;
      sent := sent + [sequence];
      assert sent == Numbers(|sent|);
    }

    method VerifyPacketAuthentication(mac: Mac, sender: Endpoint, data: bytes, tag: bytes) returns (ok: bool)
      ensures ok <==> (sender == remoteAddress && |tag| == 32 && ValidKey(authenticationKey)
                       && mac(authenticationKey, data) == Wrappers.Some(tag))
    {
      if sender.family != remoteAddress.family
         || sender.address != remoteAddress.address
         || sender.port != remoteAddress.port {
        return false;
      }
      ok := VerifyAuthenticationTag(mac, authenticationKey, data, tag);
    }
  }
}
