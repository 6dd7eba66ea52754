/**
 * Constants and value types declared by the level meter header: the measurement that
 * travels through the queue, the per-channel data a subscriber keeps, and the handle a
 * subscription list hands out.
 */
module MeterValues {

  /// Rate, in Hz, at which the shared timer ticks every meter.
  const RefreshRateHz: int := 30

  /// Time in milliseconds the peak hold waits before declining (a uint32_t in the header).
  const PeakHoldValueTimeMs: nat := 2000

  /// The level that triggers the overload indication.
  const OverloadTriggerLevel: real := 1.0

  /// The default minus infinity of a scale, in decibels.
  const DefaultMinusInfinityDb: real := -96.0

  /// Number of measurements the queue between the audio thread and the timer can hold.
  const MeasurementQueueCapacity: nat := 100

  /// A peak level measured on one channel of one audio block.
  datatype Measurement = Measurement(channelIndex: int, peakLevel: real)

  /// The value-initialised measurement: channel 0, level 0.
  function DefaultMeasurement(): (m: Measurement)
    ensures m.channelIndex == 0 && m.peakLevel == 0.0
  {
    Measurement(0, 0.0)
  }

  /**
   * The current value of a decaying peak. Its ballistics live in a header that is not part
   * of this model, so only the value that the accessors read is kept.
   */
  datatype LevelPeakValue = LevelPeakValue(level: real)

  /// The silent value a peak is reset to ("zero" in the reset documentation).
  const SilentPeak: LevelPeakValue := LevelPeakValue(0.0)

  /// Measurement data of one channel, owned by one subscriber.
  datatype ChannelData = ChannelData(peakLevel: LevelPeakValue, peakHoldLevel: LevelPeakValue, overloaded: bool)

  /// The value-initialised channel data: silent peaks and no overload.
  function DefaultChannelData(): (c: ChannelData)
    ensures !c.overloaded
    ensures c.peakLevel == SilentPeak && c.peakHoldLevel == SilentPeak
  {
    ChannelData(SilentPeak, SilentPeak, false)
  }

  /// The handle a subscription list returns; `key` names the entry it keeps alive.
  datatype Subscription = Unsubscribed | Subscribed(key: nat)

  /**
   * The list `s` with every entry equal to `x` removed, the others kept in order: what
   * resetting a subscription handle does to the list it was taken from.
   */
  function Without(s: seq<nat>, x: nat): (r: seq<nat>)
    ensures x !in r
    ensures forall y :: y in r <==> y in s && y != x
    ensures x !in s ==> r == s
    ensures |r| <= |s|
    decreases |s|
  {
    if s == [] then []
    else if s[0] == x then Without(s[1..], x)
    else [s[0]] + Without(s[1..], x)
  }
}
