/**
 * The Lamport scalar clock every actor owns (backend/lamport_clock.py and its
 * byte-identical copy lamport_clock.py). Each method body runs under a lock
 * in the source, so each is one atomic step here.
 */
module Lamport {

  /** The timestamp-returning operations of the clock. */
  datatype Call = Tick | SendEvent | ReceiveEvent(received: int)

  /** The causal merge rule: one more than the larger of the two counters. */
  function Merge(local: int, received: int): (r: int)
    ensures r > local && r > received
    ensures r == local + 1 || r == received + 1
  {
    if local >= received then local + 1 else received + 1
  }

  /** The counter after one call on a clock reading `time`; it is also what the call returns. */
  function Apply(time: int, call: Call): (r: int)
    ensures r > time
    ensures call.ReceiveEvent? ==> r > call.received
    ensures !call.ReceiveEvent? ==> r == time + 1
  {
    match call
    case Tick => time + 1
    case SendEvent => time + 1
    case ReceiveEvent(t) => Merge(time, t)
  }

  /** The values returned by successive calls on a clock that starts at `time`. */
  function Returned(time: int, calls: seq<Call>): (r: seq<int>)
    ensures |r| == |calls|
    decreases |calls|
  {
    if calls == [] then [] else
      var t := Apply(time, calls[0]);
      [t] + Returned(t, calls[1..])
  }

  /** Merging the same remote timestamp again still advances the clock, by exactly one. */
  lemma MergeAgain(local: int, received: int)
    ensures Merge(Merge(local, received), received) == Merge(local, received) + 1
  {
  }

  /**
   * Monotonicity over any call sequence: every returned timestamp exceeds the
   * counter before the sequence and every earlier returned timestamp, and a
   * `receive_event(T)` returns more than `T`.
   */
  lemma {:induction false} ReturnedStrictlyIncrease(time: int, calls: seq<Call>)
    ensures forall i :: 0 <= i < |calls| ==> time < Returned(time, calls)[i]
    ensures forall i, j :: 0 <= i < j < |calls| ==> Returned(time, calls)[i] < Returned(time, calls)[j]
    ensures forall i :: 0 <= i < |calls| && calls[i].ReceiveEvent? ==> calls[i].received < Returned(time, calls)[i]
    decreases |calls|
  {
    if calls != [] {
      var t := Apply(time, calls[0]);
      var rest := Returned(t, calls[1..]);
      ReturnedStrictlyIncrease(t, calls[1..]);
      assert Returned(time, calls) == [t] + rest;
      forall i | 0 < i < |calls|
        ensures Returned(time, calls)[i] == rest[i - 1] && calls[i] == calls[1..][i - 1]
      {
      }
    }
  }

  class LamportClock {
    var time: int

    /** A new clock reads 0. */
    constructor ()
      ensures time == 0
    {
      time := 0;
    }

    /** A local event: the counter advances by one and the new value is returned. */
    method Tick() returns (t: int)
      modifies this
      ensures time == old(time) + 1 && t == time
      ensures time == Apply(old(time), Call.Tick)
    {
      time := time + 1;
      t := time;
    }

    /** Before a publish: the counter advances by one and the new value is the message's timestamp. */
    method SendEvent() returns (t: int)
      modifies this
      ensures time == old(time) + 1 && t == time
      ensures time == Apply(old(time), Call.SendEvent)
    {
      time := time + 1;
      t := time;
    }

    /** On receipt of a remote timestamp: the counter becomes max(time, received) + 1. */
    method ReceiveEvent(received: int) returns (t: int)
      modifies this
      ensures time == Merge(old(time), received) && t == time
      ensures time == Apply(old(time), Call.ReceiveEvent(received))
    {
      time := (if time >= received then time else received) + 1;
      t := time;
    }

    /** A read-only snapshot of the counter. */
    method GetTime() returns (t: int)
      ensures t == time
    {
      t := time;
    }
  }

  /** A fresh clock sends (1), receives 5 (6), then sends again (7). */
  method SendReceiveSendExample() returns (first: int, merged: int, last: int)
    ensures first == 1 && merged == 6 && last == 7
  {
    var clock := new LamportClock();
    first := clock.SendEvent();
    merged := clock.ReceiveEvent(5);
    last := clock.SendEvent();
  }
}
