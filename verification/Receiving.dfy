/**
 The receive loop of an IO processor. What each call of recvfrom gives is the input: a datagram or
 an error; a timeout is an error. The stop flag is looked at only after an error, and the socket is
 closed only after the loop has ended.
 */
module Receiving {
  import opened Dispatch
  import opened Sessions
  import opened Words

  datatype Outcome = Datagram(sender: Endpoint, data: bytes) | Error

  /** The stop flag is set, for good, from the iteration `stopFrom` on. */
  predicate Ends(outcomes: seq<Outcome>, stopFrom: nat, i: nat) {
    i < |outcomes| && i >= stopFrom && outcomes[i].Error?
  }

  /** The datagrams among the outcomes, in order, each with the key it is dispatched by. */
  function Received(outcomes: seq<Outcome>): seq<(nat, bytes)>
    requires forall i :: 0 <= i < |outcomes| && outcomes[i].Datagram? ==> IsIPv4(outcomes[i].sender)
  {
    if outcomes == [] then []
    else
      var last := outcomes[|outcomes| - 1];
      Received(outcomes[..|outcomes| - 1]) + if last.Datagram? then [(AffinityKey(last.sender), last.data)] else []
  }

  /** `at` says which outcome each entry comes from: all datagrams, in order, each under its sender's key. */
  ghost predicate ComesFrom(entries: seq<(nat, bytes)>, outcomes: seq<Outcome>, at: seq<nat>) {
    && |at| == |entries| && (forall k, l :: 0 <= k < l < |at| ==> at[k] < at[l])
    && (forall i :: 0 <= i < |outcomes| && outcomes[i].Datagram? ==> i in at)
    && (forall k :: 0 <= k < |at| ==> at[k] < |outcomes| && Entry(entries[k], outcomes[at[k]]))
  }

  ghost predicate Entry(entry: (nat, bytes), outcome: Outcome) {
    outcome.Datagram? && entry == (outcome.sender.address * 65536 + outcome.sender.port, outcome.data)
  }

  lemma OneMoreError(entries: seq<(nat, bytes)>, outcomes: seq<Outcome>, at: seq<nat>)
    requires ComesFrom(entries, outcomes, at)
    ensures ComesFrom(entries, outcomes + [Error], at)
  {}

  lemma OneMoreDatagram(entries: seq<(nat, bytes)>, outcomes: seq<Outcome>, at: seq<nat>, entry: (nat, bytes),
                        outcome: Outcome)
    requires ComesFrom(entries, outcomes, at) && Entry(entry, outcome)
    ensures ComesFrom(entries + [entry], outcomes + [outcome], at + [|outcomes|])
  {
    var at' := at + [|outcomes|];
    assert at'[|at|] == |outcomes|;
    forall i | 0 <= i < |outcomes| && outcomes[i].Datagram? ensures i in at' {
      var k :| 0 <= k < |at| && at[k] == i;
      assert at'[k] == i;
    }
  }

  /** What is passed on is every datagram exactly once, in the order of arrival. */
  lemma {:induction false} ReceivedExactly(outcomes: seq<Outcome>) returns (at: seq<nat>)
    requires forall i :: 0 <= i < |outcomes| && outcomes[i].Datagram? ==> IsIPv4(outcomes[i].sender)
    ensures ComesFrom(Received(outcomes), outcomes, at)
  {
    at := [];
    if outcomes != [] {
      var front, last := outcomes[..|outcomes| - 1], outcomes[|outcomes| - 1];
      assert outcomes == front + [last];
      at := ReceivedExactly(front);
      if last.Datagram? {
        AffinityKeyIsSum(last.sender);
        OneMoreDatagram(Received(front), front, at, (AffinityKey(last.sender), last.data), last);
        at := at + [|front|];
      } else {
        OneMoreError(Received(front), front, at);
      }
    }
  }

  /**
   The loop ends at the first error after the flag is set, and until then passes on every datagram.
   `count` is the number of calls it has made by the end of the given outcomes.
   */
  method RunRecvThread(outcomes: seq<Outcome>, stopFrom: nat)
    returns (ended: bool, count: nat, passedOn: seq<(nat, bytes)>)
    requires forall i :: 0 <= i < |outcomes| && outcomes[i].Datagram? ==> IsIPv4(outcomes[i].sender)
    ensures count <= |outcomes| && passedOn == Received(outcomes[..count])
    ensures ended ==>
      count > stopFrom && outcomes[count - 1].Error?
      && forall i :: stopFrom <= i < count - 1 ==> !outcomes[i].Error?
    ensures !ended ==> count == |outcomes| && forall i :: stopFrom <= i < |outcomes| ==> !outcomes[i].Error?
  {
    ended, count, passedOn := false, 0, [];
    while count < |outcomes|
      invariant count <= |outcomes| && passedOn == Received(outcomes[..count])
      invariant forall i :: stopFrom <= i < count ==> !outcomes[i].Error?
    {
      assert outcomes[..count + 1][..count] == outcomes[..count];
      count := count + 1;
      match outcomes[count - 1]
      case Error =>
        if count - 1 >= stopFrom {
          ended := true;
          return;
        }
      case Datagram(sender, data) =>
        passedOn := passedOn + [(AffinityKey(sender), data)];
    }
    assert outcomes[..count] == outcomes;
  }

  /** The first calls of an endless series of receives. */
  function First(outcomes: nat -> Outcome, n: nat): (first: seq<Outcome>)
    ensures |first| == n && forall i :: 0 <= i < n ==> first[i] == outcomes(i)
  {
    seq(n, (i: nat) => outcomes(i))
  }

  ghost predicate HasEndedBy(outcomes: nat -> Outcome, stopFrom: nat, n: nat) {
    exists i :: 0 <= i < n && Ends(First(outcomes, n), stopFrom, i)
  }

  /**
   Exactly when a receive thread that has been told to stop ends: when some receive fails after that. A
   socket that always has a datagram ready keeps it, and the join that waits for it, going for ever.
   */
  lemma EndsExactlyWhenAReceiveFails(outcomes: nat -> Outcome, stopFrom: nat)
    ensures (exists n: nat :: HasEndedBy(outcomes, stopFrom, n))
       <==> (exists i: nat :: i >= stopFrom && outcomes(i).Error?)
  {
    if n: nat :| HasEndedBy(outcomes, stopFrom, n) {
      var i :| 0 <= i < n && Ends(First(outcomes, n), stopFrom, i);
      assert outcomes(i).Error?;
    }
    if i: nat :| i >= stopFrom && outcomes(i).Error? {
      assert Ends(First(outcomes, i + 1), stopFrom, i);
      assert HasEndedBy(outcomes, stopFrom, i + 1);
    }
  }
}
