/**
 * The reply side of the serial link, as `response` sees it. The sign is
 * replaced by an oracle: the sequence of strings the sign will have
 * buffered each time the driver reads after a write. A read takes the
 * next one; an empty buffer reads as "". Address 0 is a broadcast that
 * nobody answers: the driver then reads nothing and counts the write as
 * a success.
 */
module Transport {

  /** What the driver expects after a checksummed frame. */
  const Ack: string := "ACK"

  datatype Answer = Answer(ok: bool, rest: seq<string>)

  /** `response()`: address 0 succeeds without reading; otherwise the
      buffered reply must be exactly "ACK" (an empty one gives `None`,
      which the callers treat as a failure). A read succeeds only on the
      broadcast address or on an "ACK", and takes at most one reply: none on
      the broadcast address, the first one whenever one is buffered. */
  function Respond(device: nat, replies: seq<string>): (a: Answer)
    ensures a.ok <==> device == 0 || (replies != [] && replies[0] == Ack)
    ensures a.rest == replies || (device != 0 && replies != [] && [replies[0]] + a.rest == replies)
    ensures device == 0 ==> a.rest == replies
    ensures device != 0 && replies != [] ==> |a.rest| == |replies| - 1
  {
    if device == 0 then Answer(true, replies)
    else if replies == [] then Answer(false, [])
    else Answer(replies[0] == Ack, replies[1..])
  }

  /** The replies left after `n` reads. */
  function Consume(device: nat, replies: seq<string>, n: nat): seq<string>
    decreases n
  {
    if n == 0 then replies else Respond(device, Consume(device, replies, n - 1)).rest
  }

  /** How many of the next `n` reads succeed. */
  function Acks(device: nat, replies: seq<string>, n: nat): nat
    decreases n
  {
    if n == 0 then 0
    else Acks(device, replies, n - 1) + (if Respond(device, Consume(device, replies, n - 1)).ok then 1 else 0)
  }

  /** Reads go one after the other: `m` reads and then `n` more are `m + n` reads. */
  lemma {:induction false} ConsumeAdd(device: nat, replies: seq<string>, m: nat, n: nat)
    ensures Consume(device, Consume(device, replies, m), n) == Consume(device, replies, m + n)
    decreases n
  {
    if n > 0 {
      ConsumeAdd(device, replies, m, n - 1);
    }
  }

  /** No more reads succeed than are made. */
  lemma {:induction false} AcksAtMost(device: nat, replies: seq<string>, n: nat)
    ensures Acks(device, replies, n) <= n
    decreases n
  {
    if n > 0 {
      AcksAtMost(device, replies, n - 1);
    }
  }

  /** On the broadcast address every write succeeds and nothing is read. */
  lemma {:induction false} BroadcastAcks(replies: seq<string>, n: nat)
    ensures Acks(0, replies, n) == n && Consume(0, replies, n) == replies
    decreases n
  {
    if n > 0 {
      BroadcastAcks(replies, n - 1);
    }
  }

  /** A sign that answers "ACK" to each of `n` writes makes them all succeed. */
  lemma {:induction false} AllAcked(device: nat, replies: seq<string>, n: nat)
    requires device != 0 && n <= |replies|
    requires forall i :: 0 <= i < n ==> replies[i] == Ack
    ensures Acks(device, replies, n) == n && Consume(device, replies, n) == replies[n..]
    decreases n
  {
    if n > 0 {
      AllAcked(device, replies, n - 1);
    }
  }

  /** A silent sign (nothing buffered) fails every write. */
  lemma {:induction false} SilentFails(device: nat, n: nat)
    requires device != 0
    ensures Acks(device, [], n) == 0 && Consume(device, [], n) == []
    decreases n
  {
    if n > 0 {
      SilentFails(device, n - 1);
    }
  }
}
