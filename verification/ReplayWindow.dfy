/**
 What the replay window means: a set of accepted sequence numbers, the rule that
 decides whether a number is fresh for it, and the outcome of delivering a whole
 stream. The bitmap is tied to that set by `Represents`.
 */
module ReplayWindow {
  import opened Words

  const REPLAY_WINDOW_SIZE: nat := 64

  /** A number is fresh unless it is zero, already accepted, or 64 or more behind an accepted one. */
  predicate Fresh(accepted: set<nat>, s: nat) {
    s != 0 && s !in accepted && forall a :: a in accepted ==> a < s + REPLAY_WINDOW_SIZE
  }

  function Accepting(accepted: set<nat>, s: nat): set<nat> {
    if Fresh(accepted, s) then accepted + {s} else accepted
  }

  // ---------- the bitmap ----------

  /** `highest` is the largest accepted number, and bit d says whether `highest - d` was accepted. */
  ghost predicate Represents(highest: uint64, window: uint64, accepted: set<nat>) {
    && (highest == 0 <==> accepted == {})
    && (highest != 0 ==> highest in accepted)
    && (forall a :: a in accepted ==> 0 < a <= highest)
    && (forall d :: 0 <= d < REPLAY_WINDOW_SIZE ==> (Bit(window, d) <==> highest - d in accepted))
  }

  /** Starting over at s leaves just s in view: what is further back is 64 or more behind it. */
  lemma RestartRepresents(highest: uint64, window: uint64, accepted: set<nat>, s: uint64)
    requires Represents(highest, window, accepted) && s >= highest + (if highest == 0 then 1 else REPLAY_WINDOW_SIZE)
    ensures Represents(s, 1, accepted + {s})
  {
    forall d | 0 <= d < REPLAY_WINDOW_SIZE
      ensures Bit(1, d) <==> s - d in accepted + {s}
    {
      BitOfOne(d);
    }
  }

  /** Moving up by less than a window shifts the bitmap and sets the lowest bit. */
  lemma AdvanceRepresents(highest: uint64, window: uint64, accepted: set<nat>, s: uint64)
    requires Represents(highest, window, accepted) && 0 < highest < s < highest + REPLAY_WINDOW_SIZE
    ensures Or(ShiftLeft(window, s - highest), 1) < UINT64_LIMIT
    ensures Represents(s, Or(ShiftLeft(window, s - highest), 1), accepted + {s})
  {
    var advance := s - highest;
    var shifted := ShiftLeft(window, advance);
    Power64();
    OrBounded(shifted, 1, 64);
    forall d | 0 <= d < REPLAY_WINDOW_SIZE
      ensures Bit(Or(shifted, 1), d) <==> s - d in accepted + {s}
    {
      BitOfOr(shifted, 1, d);
      BitOfOne(d);
      BitOfShift(window, advance, d);
      if d >= advance { assert s - d == highest - (d - advance); }
    }
  }

  /** Filling a hole inside the window sets the bit at its distance. */
  lemma FillRepresents(highest: uint64, window: uint64, accepted: set<nat>, s: uint64)
    requires Represents(highest, window, accepted) && 0 < s <= highest < s + REPLAY_WINDOW_SIZE
    ensures Or(window, ShiftLeft(1, highest - s)) < UINT64_LIMIT
    ensures Represents(highest, Or(window, ShiftLeft(1, highest - s)), accepted + {s})
  {
    var distance := highest - s;
    Power64();
    OrBounded(window, ShiftLeft(1, distance), 64);
    forall d | 0 <= d < REPLAY_WINDOW_SIZE
      ensures Bit(Or(window, ShiftLeft(1, distance)), d) <==> highest - d in accepted + {s}
    {
      BitOfOr(window, ShiftLeft(1, distance), d);
      BitOfShift(1, distance, d);
      if d >= distance { BitOfOne(d - distance); }
    }
  }

  /** The two fields are a function of the set they stand for. */
  lemma RepresentationIsUnique(h1: uint64, w1: uint64, h2: uint64, w2: uint64, accepted: set<nat>)
    requires Represents(h1, w1, accepted) && Represents(h2, w2, accepted)
    ensures h1 == h2 && w1 == w2
  {
    Power64();
    forall d | 0 <= d < 64
      ensures Bit(w1, d) <==> Bit(w2, d)
    {}
    SameBits(w1, w2, 64);
  }

  /** The code treats the first packet apart; the general step would leave the same two fields. */
  lemma FirstPacketNeedsNoBranch(window: uint64, s: uint64)
    requires Represents(0, window, {}) && s != 0
    ensures s < REPLAY_WINDOW_SIZE ==> Or(ShiftLeft(window, s), 1) == 1
  {
    forall d | 0 <= d < 64
      ensures Bit(Or(ShiftLeft(window, s), 1), d) <==> Bit(1, d)
    {
      BitOfOr(ShiftLeft(window, s), 1, d);
      BitOfShift(window, s, d);
    }
    Power64();
    OrBounded(ShiftLeft(window, s), 1, 64);
    SameBits(Or(ShiftLeft(window, s), 1), 1, 64);
  }

  // ---------- a whole stream ----------

  /** The numbers accepted out of a stream of arrivals, in whatever order they came. */
  function AcceptedFrom(arrivals: seq<nat>): set<nat> {
    if arrivals == [] then {}
    else Accepting(AcceptedFrom(arrivals[..|arrivals| - 1]), arrivals[|arrivals| - 1])
  }

  predicate AcceptedAt(arrivals: seq<nat>, k: nat)
    requires k < |arrivals|
  {
    Fresh(AcceptedFrom(arrivals[..k]), arrivals[k])
  }

  lemma AcceptedStep(arrivals: seq<nat>, k: nat)
    requires k < |arrivals|
    ensures AcceptedFrom(arrivals[..k + 1]) == Accepting(AcceptedFrom(arrivals[..k]), arrivals[k])
  {
    assert arrivals[..k + 1][..k] == arrivals[..k];
  }

  lemma {:induction false} AcceptedWereDelivered(arrivals: seq<nat>, k: nat)
    requires k <= |arrivals|
    ensures forall a :: a in AcceptedFrom(arrivals[..k]) ==> a != 0 && a in arrivals[..k]
  {
    if k > 0 {
      AcceptedWereDelivered(arrivals, k - 1);
      AcceptedStep(arrivals, k - 1);
      assert arrivals[..k] == arrivals[..k - 1] + [arrivals[k - 1]];
    }
  }

  /** A delivered number is accepted by then, or a number 64 or more ahead of it is. */
  ghost predicate Settled(accepted: set<nat>, s: nat) {
    s in accepted || exists a :: a in accepted && a >= s + REPLAY_WINDOW_SIZE
  }

  lemma {:induction false} DeliveredAreSettled(arrivals: seq<nat>, k: nat, j: nat)
    requires j < k <= |arrivals| && arrivals[j] != 0
    ensures Settled(AcceptedFrom(arrivals[..k]), arrivals[j])
  {
    AcceptedStep(arrivals, k - 1);
    if j < k - 1 {
      DeliveredAreSettled(arrivals, k - 1, j);
    }
  }

  /**
   The window over any channel, with loss, duplication and reordering: the k-th arrival is accepted
   exactly when it is not zero, did not arrive before, and nothing 64 or more ahead of it arrived
   before. The accepted numbers do not appear in this condition.
   */
  lemma AcceptedExactly(arrivals: seq<nat>, k: nat)
    requires k < |arrivals|
    ensures AcceptedAt(arrivals, k) <==>
            (arrivals[k] != 0
             && forall j :: 0 <= j < k ==> arrivals[j] != arrivals[k] && arrivals[j] < arrivals[k] + 64)
  {
    var s := arrivals[k];
    AcceptedWereDelivered(arrivals, k);
    if AcceptedAt(arrivals, k) {
      forall j | 0 <= j < k
        ensures arrivals[j] != s && arrivals[j] < s + REPLAY_WINDOW_SIZE
      {
        if arrivals[j] != 0 { DeliveredAreSettled(arrivals, k, j); }
      }
    }
  }

  // ---------- sender and receiver together ----------

  /** The first `count` numbers a sender uses: 1, 2, 3 and so on. */
  function Numbers(count: nat): (sent: seq<nat>)
    ensures |sent| == count
    ensures forall i :: 0 <= i < count ==> sent[i] == i + 1
  {
    seq(count, i => i + 1)
  }

  /** A channel may drop, repeat and reorder: arrival k is a copy of the packet built as number origin[k]. */
  ghost predicate Carries(sent: seq<nat>, origin: seq<nat>, arrivals: seq<nat>) {
    && |origin| == |arrivals|
    && forall k :: 0 <= k < |arrivals| ==> origin[k] < |sent| && arrivals[k] == sent[origin[k]]
  }

  /**
   End to end: a copy of a built packet is accepted exactly when it is the first copy to arrive and
   no packet built 64 or more packets later arrived before it; so no packet is accepted twice.
   */
  lemma EndToEnd(count: nat, origin: seq<nat>, arrivals: seq<nat>, k: nat)
    requires Carries(Numbers(count), origin, arrivals) && k < |arrivals|
    ensures AcceptedAt(arrivals, k) <==>
            forall j :: 0 <= j < k ==> origin[j] != origin[k] && origin[j] < origin[k] + 64
    ensures forall j :: 0 <= j < k && AcceptedAt(arrivals, j) && AcceptedAt(arrivals, k) ==> origin[j] != origin[k]
  {
    AcceptedExactly(arrivals, k);
  }
}
