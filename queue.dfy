/**
 * The bounded queue between the audio thread and the shared timer: a push onto a full
 * queue is lost, and the queue never grows past its capacity.
 */
module MeasurementQueue {
  import opened MeterValues

  /// The queue after trying to push `m` onto `q`.
  function BoundedPush(q: seq<Measurement>, m: Measurement): (r: seq<Measurement>)
    ensures r == q + [m] <==> |q| < MeasurementQueueCapacity
    ensures r == q || r == q + [m]
    ensures |q| <= MeasurementQueueCapacity ==> |r| <= MeasurementQueueCapacity
  {
    if |q| < MeasurementQueueCapacity then q + [m] else q
  }

  /// The queue after trying to push every element of `ms`, in order.
  function PushAll(q: seq<Measurement>, ms: seq<Measurement>): seq<Measurement>
    decreases |ms|
  {
    if ms == [] then q else PushAll(BoundedPush(q, ms[0]), ms[1..])
  }

  function Min(a: int, b: int): int { if a <= b then a else b }

  /**
   * Pushing a run of measurements keeps exactly those that fit: the queue gains the longest
   * prefix of `ms` that fits in the free space, and everything after it is lost.
   */
  lemma {:induction false} PushAllKeepsPrefix(q: seq<Measurement>, ms: seq<Measurement>)
    requires |q| <= MeasurementQueueCapacity
    ensures PushAll(q, ms) == q + ms[..Min(|ms|, MeasurementQueueCapacity - |q|)]
    ensures |PushAll(q, ms)| <= MeasurementQueueCapacity
    decreases |ms|
  {
    if ms != [] {
      var q' := BoundedPush(q, ms[0]);
      PushAllKeepsPrefix(q', ms[1..]);
      if |q| < MeasurementQueueCapacity {
        var k := Min(|ms[1..]|, MeasurementQueueCapacity - |q'|);
        assert q' + ms[1..][..k] == q + ms[..k + 1];
      } else {
        assert ms[1..][..0] == ms[..0];
      }
    }
  }

  /// Once the queue is full, every further push is dropped.
  lemma {:induction false} FullQueueDropsEverything(q: seq<Measurement>, ms: seq<Measurement>)
    requires |q| == MeasurementQueueCapacity
    ensures PushAll(q, ms) == q
  {
    PushAllKeepsPrefix(q, ms);
  }
}
