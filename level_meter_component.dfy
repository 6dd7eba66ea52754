/**
 * The level meter component: its options builder, and the decision after each timer tick
 * whether to repaint, which skips the repaint only when the meter was silent both before
 * and after the tick.
 */
module LevelMeterComponentModel {
  import opened MeterValues
  import opened Metering

  /// A proportion at or below this counts as silent.
  const SilenceThreshold: real := 0.001

  /**
   * The component's options. Only `maxChannels` is visible; the remaining members of the
   * options struct are carried, unexamined, as `rest`.
   */
  datatype Options<Rest> = Options(maxChannels: int, rest: Rest)

  /// A copy of `options` with a new channel limit; the original is a value and stays as it was.
  function WithMaxChannels<Rest>(options: Options<Rest>, newMaxChannels: int): (copy: Options<Rest>)
    ensures copy.maxChannels == newMaxChannels
    ensures copy.rest == options.rest
  {
    options.(maxChannels := newMaxChannels)
  }

  /// `std::max` of a channel's peak and peak hold.
  function ChannelLevel(channel: ChannelData): (level: real)
    ensures level >= channel.peakLevel.level && level >= channel.peakHoldLevel.level
    ensures level == channel.peakLevel.level || level == channel.peakHoldLevel.level
  {
    if channel.peakLevel.level < channel.peakHoldLevel.level then channel.peakHoldLevel.level
    else channel.peakLevel.level
  }

  /// A channel is quiet when the larger of its peak and peak hold maps to at most the threshold.
  predicate ChannelQuiet(channel: ChannelData, proportion: real -> real) {
    proportion(ChannelLevel(channel)) <= SilenceThreshold
  }

  predicate AllQuiet(channels: seq<ChannelData>, proportion: real -> real) {
    forall ch :: 0 <= ch < |channels| ==> ChannelQuiet(channels[ch], proportion)
  }

  /**
   * The scan over the subscriber's channels through its accessors, stopping at the first
   * loud one. `proportion` stands for the scale's `calculateProportionForLevel`.
   */
  method ScanForSilence(subscriber: Subscriber, proportion: real -> real) returns (isSilent: bool)
    ensures isSilent <==> AllQuiet(subscriber.channelData, proportion)
    ensures subscriber.GetNumChannels() == 0 ==> isSilent
  {
    isSilent := true;
    var ch := 0;
    while ch < subscriber.GetNumChannels()
      invariant 0 <= ch <= subscriber.GetNumChannels()
      invariant isSilent
      invariant forall k :: 0 <= k < ch ==> ChannelQuiet(subscriber.channelData[k], proportion)
    {
      var peak := subscriber.GetPeakValue(ch);
      var peakHold := subscriber.GetPeakHoldValue(ch);
      if proportion(if peak < peakHold then peakHold else peak) > SilenceThreshold {
        isSilent := false;
        break;
      }
      ch := ch + 1;
    }
  }

  /**
   * Peaks are magnitudes, so never negative. For a scale whose proportion never decreases
   * as a magnitude grows, testing the larger of peak and peak hold is testing both: a loud
   * peak hold alone makes the meter loud.
   */
  lemma QuietMeansBothQuiet(channels: seq<ChannelData>, proportion: real -> real)
    requires forall a: real, b: real :: 0.0 <= a <= b ==> proportion(a) <= proportion(b)
    requires forall ch :: 0 <= ch < |channels| ==>
      channels[ch].peakLevel.level >= 0.0 && channels[ch].peakHoldLevel.level >= 0.0
    ensures AllQuiet(channels, proportion) <==>
      forall ch :: 0 <= ch < |channels| ==>
        proportion(channels[ch].peakLevel.level) <= SilenceThreshold &&
        proportion(channels[ch].peakHoldLevel.level) <= SilenceThreshold
  {
  }

  /// Whether a call repaints, given the silence before (`wasSilent`) and after (`isSilent`) it.
  function ShouldRepaint(wasSilent: bool, isSilent: bool): (repaint: bool)
    ensures !isSilent ==> repaint
    ensures !wasSilent ==> repaint
    ensures isSilent && wasSilent ==> !repaint
  {
    !isSilent || !wasSilent
  }

  /// Repaints caused by a run of calls whose silence outcomes are `outcomes`, in order.
  function RepaintCount(wasSilent: bool, outcomes: seq<bool>): nat
    decreases |outcomes|
  {
    if outcomes == [] then 0
    else (if ShouldRepaint(wasSilent, outcomes[0]) then 1 else 0) + RepaintCount(outcomes[0], outcomes[1..])
  }

  /// The number of calls in a run that found the meter loud.
  function LoudCount(outcomes: seq<bool>): nat
    decreases |outcomes|
  {
    if outcomes == [] then 0 else (if outcomes[0] then 0 else 1) + LoudCount(outcomes[1..])
  }

  /// Staying silent costs nothing: a silent meter whose calls are all silent never repaints.
  lemma {:induction false} SilenceNeverRepaints(outcomes: seq<bool>)
    requires forall i :: 0 <= i < |outcomes| ==> outcomes[i]
    ensures RepaintCount(true, outcomes) == 0
    decreases |outcomes|
  {
    if outcomes != [] {
      SilenceNeverRepaints(outcomes[1..]);
    }
  }

  /// Going quiet is painted once: from loud, a run of silent calls repaints exactly one time.
  lemma {:induction false} LoudThenSilentRepaintsOnce(outcomes: seq<bool>)
    requires outcomes != []
    requires forall i :: 0 <= i < |outcomes| ==> outcomes[i]
    ensures RepaintCount(false, outcomes) == 1
  {
    SilenceNeverRepaints(outcomes[1..]);
  }

  /**
   * Every call that finds the meter loud repaints, and no call repaints more than once.
   */
  lemma {:induction false} RepaintBounds(wasSilent: bool, outcomes: seq<bool>)
    ensures LoudCount(outcomes) <= RepaintCount(wasSilent, outcomes) <= |outcomes|
    decreases |outcomes|
  {
    if outcomes != [] {
      RepaintBounds(outcomes[0], outcomes[1..]);
    }
  }

  /// The component: the subscriber part it inherits, the remembered silence, and its repaints.
  class LevelMeterComponent {
    const subscriber: Subscriber
    var wasSilent: bool
    /// How many times `repaint()` has been called.
    var repaintRequests: nat

    /// Builds the subscriber part and subscribes it to `levelMeter`.
    constructor (levelMeter: LevelMeter, subscriberId: nat)
      modifies levelMeter`subscribers
      ensures fresh(subscriber) && subscriber.id == subscriberId
      ensures subscriber.subscribedMeter == levelMeter
      ensures levelMeter.subscribers == old(levelMeter.subscribers) + [subscriberId]
      ensures repaintRequests == 0
    {
      var base := new Subscriber(subscriberId);
      base.SubscribeToLevelMeter(levelMeter);
      subscriber := base;
      wasSilent := false;
      repaintRequests := 0;
    }

    /// `repaint()`, recorded as one more repaint request.
    method Repaint()
      modifies this`repaintRequests
      ensures repaintRequests == old(repaintRequests) + 1
    {
      repaintRequests := repaintRequests + 1;
    }

    /// After a tick: repaint unless silent before and after, then remember the silence.
    method MeasurementUpdatesFinished(proportion: real -> real)
      modifies this`wasSilent, this`repaintRequests
      ensures wasSilent <==> AllQuiet(subscriber.channelData, proportion)
      ensures repaintRequests == old(repaintRequests) + if ShouldRepaint(old(wasSilent), wasSilent) then 1 else 0
    {
      var isSilent := ScanForSilence(subscriber, proportion);
      if !isSilent || !wasSilent {
        Repaint();
      }
      wasSilent := isSilent;
    }

    /// `reset()` of the subscriber part, which then calls this component's `MeasurementUpdatesFinished`.
    method Reset(proportion: real -> real)
      modifies subscriber`channelData, this`wasSilent, this`repaintRequests
      ensures |subscriber.channelData| == old(|subscriber.channelData|)
      ensures forall ch :: 0 <= ch < |subscriber.channelData| ==> subscriber.channelData[ch] == DefaultChannelData()
      ensures proportion(SilentPeak.level) <= SilenceThreshold ==> wasSilent
      ensures repaintRequests == old(repaintRequests) + if ShouldRepaint(old(wasSilent), wasSilent) then 1 else 0
    {
      subscriber.Reset();
      MeasurementUpdatesFinished(proportion);
    }
  }
}
