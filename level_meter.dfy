/**
 * The objects of the level meter header whose fields change in place: the meter with its
 * measurement queue and subscriber registry, the timer shared by all meters, and the
 * subscriber base class with its single subscription and per-channel data.
 */
module Metering {
  import opened MeterValues
  import opened MeasurementQueue
  import TimerModel

  /// The meter's queue after a block: one measurement per channel, channel by channel.
  function BlockMeasurements(peaks: seq<real>): (ms: seq<Measurement>)
    ensures |ms| == |peaks|
    ensures forall ch :: 0 <= ch < |ms| ==> ms[ch].channelIndex == ch && ms[ch].peakLevel == peaks[ch]
  {
    seq(|peaks|, ch requires 0 <= ch < |peaks| => Measurement(ch, peaks[ch]))
  }

  function Abs(x: real): real { if x < 0.0 then -x else x }

  /// The peak of a run of samples: the largest magnitude among them, zero for no samples.
  function MaxMagnitude(samples: seq<real>): (peak: real)
    ensures peak >= 0.0
    ensures forall i :: 0 <= i < |samples| ==> Abs(samples[i]) <= peak
    ensures samples != [] ==> exists i :: 0 <= i < |samples| && Abs(samples[i]) == peak
    ensures samples == [] ==> peak == 0.0
    decreases |samples|
  {
    if samples == [] then 0.0
    else
      var rest := MaxMagnitude(samples[1..]);
      if Abs(samples[0]) >= rest then Abs(samples[0]) else rest
  }

  class LevelMeter {
    const id: TimerModel.MeterId
    /// Channel count cached by the last `PrepareToPlay`.
    var preparedNumChannels: int
    /// Ids of the subscribers registered with this meter, in subscription order.
    var subscribers: seq<nat>
    /// The measurement queue, oldest first.
    var measurements: seq<Measurement>
    /// The handle that keeps this meter in the shared timer's list.
    var sharedTimerSubscription: Subscription

    ghost predicate Valid()
      reads this
    {
      |measurements| <= MeasurementQueueCapacity
    }

    constructor (id: TimerModel.MeterId)
      ensures Valid() && this.id == id
      ensures preparedNumChannels == 0 && subscribers == [] && measurements == []
      ensures sharedTimerSubscription == Unsubscribed
    {
      this.id := id;
      preparedNumChannels := 0;
      subscribers := [];
      measurements := [];
      sharedTimerSubscription := Unsubscribed;
    }

    /// Records the channel count; the queue is not touched.
    method PrepareToPlay(numChannels: int)
      modifies this`preparedNumChannels
      ensures preparedNumChannels == numChannels
    {
      preparedNumChannels := numChannels;
    }

    /// Tries to enqueue one measurement; on a full queue it is lost.
    method PushMeasurement(measurement: Measurement)
      requires Valid()
      modifies this`measurements
      ensures Valid()
      ensures measurements == BoundedPush(old(measurements), measurement)
    {
      if |measurements| < MeasurementQueueCapacity {
        measurements := measurements + [measurement];
      }
    }

    /**
     * Measures the first `numSamples` samples of the first `numChannels` channels and pushes
     * one measurement per channel, in channel order, each one lost if the queue is full.
     */
    method MeasureBlock(inputChannelData: seq<seq<real>>, numChannels: nat, numSamples: nat)
      requires Valid()
      requires numChannels <= |inputChannelData|
      requires forall ch :: 0 <= ch < numChannels ==> numSamples <= |inputChannelData[ch]|
      modifies this`measurements
      ensures Valid()
      ensures measurements == PushAll(old(measurements), BlockMeasurements(
        seq(numChannels, ch requires 0 <= ch < numChannels => MaxMagnitude(inputChannelData[ch][..numSamples]))))
    {
      ghost var peaks := seq(numChannels, ch requires 0 <= ch < numChannels => MaxMagnitude(inputChannelData[ch][..numSamples]));
      ghost var all := BlockMeasurements(peaks);
      var ch := 0;
      while ch < numChannels
        invariant 0 <= ch <= numChannels
        invariant Valid()
        invariant PushAll(measurements, all[ch..]) == PushAll(old(measurements), all)
      {
        assert all[ch..][1..] == all[ch + 1..];
        PushMeasurement(Measurement(ch, MaxMagnitude(inputChannelData[ch][..numSamples])));
        ch := ch + 1;
      }
    }

    /// The `juce::AudioBuffer` overload: every channel, every sample of the buffer.
    method MeasureBuffer(audioBuffer: seq<seq<real>>, numSamples: nat)
      requires Valid()
      requires forall ch :: 0 <= ch < |audioBuffer| ==> |audioBuffer[ch]| == numSamples
      modifies this`measurements
      ensures Valid()
      ensures measurements == PushAll(old(measurements), BlockMeasurements(
        seq(|audioBuffer|, ch requires 0 <= ch < |audioBuffer| => MaxMagnitude(audioBuffer[ch]))))
    {
      MeasureBlock(audioBuffer, |audioBuffer|, numSamples);
      var n := |audioBuffer|;
      assert forall ch :: 0 <= ch < n ==> audioBuffer[ch][..numSamples] == audioBuffer[ch];
      assert seq(n, ch requires 0 <= ch < n => MaxMagnitude(audioBuffer[ch][..numSamples]))
          == seq(n, ch requires 0 <= ch < n => MaxMagnitude(audioBuffer[ch]));
    }
  }

  /// The timer all meters share; `calls` records every `timerCallback` it makes on a meter.
  class SharedTimer {
    var running: bool
    var rateHz: int
    var subscribers: seq<TimerModel.MeterId>
    var calls: seq<TimerModel.MeterId>

    function State(): TimerModel.TimerState
      reads this
    {
      TimerModel.TimerState(running, rateHz, subscribers)
    }

    ghost predicate Valid()
      reads this
    {
      TimerModel.Consistent(State())
    }

    constructor ()
      ensures Valid() && State() == TimerModel.Initial && calls == []
    {
      running, rateHz, subscribers, calls := false, 0, [], [];
    }

    /// `juce::Timer::startTimerHz`: a positive rate starts the timer at that rate, any other rate stops it.
    method StartTimerHz(hz: int)
      modifies this`running, this`rateHz
      ensures hz > 0 ==> running && rateHz == hz
      ensures hz <= 0 ==> !running && rateHz == old(rateHz)
    {
      if hz > 0 {
        running, rateHz := true, hz;
      } else {
        StopTimer();
      }
    }

    /// `juce::Timer::stopTimer`: the timer no longer runs.
    method StopTimer()
      modifies this`running
      ensures !running
    {
      running := false;
    }

    /**
     * Starts the timer if nobody is subscribed yet, then subscribes the meter. The new handle
     * replaces the meter's previous one, whose entry thereby leaves the list.
     */
    method Subscribe(levelMeter: LevelMeter)
      requires Valid()
      modifies this`running, this`rateHz, this`subscribers, levelMeter`sharedTimerSubscription
      ensures Valid()
      ensures State() == TimerModel.Subscribe(old(State()), levelMeter.id)
      ensures calls == old(calls)
      ensures levelMeter.sharedTimerSubscription == Subscribed(levelMeter.id)
    {
      ghost var before := State();
      if |subscribers| == 0 {
        StartTimerHz(RefreshRateHz);
      }
      subscribers := Without(subscribers, levelMeter.id) + [levelMeter.id];
      levelMeter.sharedTimerSubscription := Subscribed(levelMeter.id);
      assert State() == TimerModel.Subscribe(before, levelMeter.id);
    }

    /// The meter's subscription handle is reset: the meter leaves the list, the timer keeps its state.
    method Release(levelMeter: LevelMeter)
      requires Valid()
      modifies this`subscribers, levelMeter`sharedTimerSubscription
      ensures Valid()
      ensures State() == TimerModel.Release(old(State()), levelMeter.id)
      ensures levelMeter.sharedTimerSubscription == Unsubscribed
    {
      ghost var before := State();
      subscribers := Without(subscribers, levelMeter.id);
      levelMeter.sharedTimerSubscription := Unsubscribed;
      assert State() == TimerModel.Release(before, levelMeter.id);
    }

    /// One tick: stop if nobody is subscribed, then call every subscribed meter once, in order.
    method TimerCallback()
      requires Valid()
      modifies this`running, this`calls
      ensures Valid()
      ensures State() == TimerModel.Tick(old(State())).state
      ensures calls == old(calls) + TimerModel.Tick(old(State())).called
    {
      if |subscribers| == 0 {
        StopTimer();
      }
      var i := 0;
      while i < |subscribers|
        invariant 0 <= i <= |subscribers|
        invariant State() == TimerModel.Tick(old(State())).state
        invariant calls == old(calls) + subscribers[..i]
      {
        calls := calls + [subscribers[i]];
        i := i + 1;
      }
    }

    /// The destructor stops the timer.
    method Destroy()
      modifies this`running
      ensures State() == TimerModel.Destroy(old(State()))
    {
      StopTimer();
    }
  }

  /// The base class of everything that receives a meter's measurements.
  class Subscriber {
    const id: nat
    /// The meter the subscription handle points at, or null when not subscribed.
    var subscribedMeter: LevelMeter?
    var channelData: seq<ChannelData>

    constructor (id: nat)
      ensures this.id == id && subscribedMeter == null && channelData == []
    {
      this.id := id;
      subscribedMeter := null;
      channelData := [];
    }

    function MeterFrame(): set<LevelMeter>
      reads this
    {
      if subscribedMeter == null then {} else {subscribedMeter}
    }

    /// One silent channel entry per channel.
    method PrepareToPlay(numChannels: int)
      requires numChannels >= 0
      modifies this`channelData
      ensures GetNumChannels() == numChannels
      ensures forall ch :: 0 <= ch < numChannels ==> channelData[ch] == DefaultChannelData()
    {
      channelData := seq(numChannels, _ => DefaultChannelData());
    }

    /// The channel count of the last `PrepareToPlay`.
    function GetNumChannels(): (numChannels: int)
      reads this
      ensures numChannels >= 0 && numChannels == |channelData|
    {
      |channelData|
    }

    /// The current peak of a prepared channel; other indices are outside the contract.
    function GetPeakValue(channelIndex: int): (peak: real)
      reads this
      requires 0 <= channelIndex < GetNumChannels()
      ensures peak == channelData[channelIndex].peakLevel.level
    {
      channelData[channelIndex].peakLevel.level
    }

    /// The current peak hold of a prepared channel.
    function GetPeakHoldValue(channelIndex: int): (peakHold: real)
      reads this
      requires 0 <= channelIndex < GetNumChannels()
      ensures peakHold == channelData[channelIndex].peakHoldLevel.level
    {
      channelData[channelIndex].peakHoldLevel.level
    }

    /// Whether a prepared channel has been overloaded since its flag was last cleared.
    function GetOverloaded(channelIndex: int): (overloaded: bool)
      reads this
      requires 0 <= channelIndex < GetNumChannels()
      ensures overloaded == channelData[channelIndex].overloaded
    {
      channelData[channelIndex].overloaded
    }

    /// Every channel back to silence, the channel count kept.
    method Reset()
      modifies this`channelData
      ensures |channelData| == old(|channelData|)
      ensures forall ch :: 0 <= ch < |channelData| ==> channelData[ch] == DefaultChannelData()
    {
      channelData := seq(|channelData|, _ => DefaultChannelData());
    }

    /// Clears the overload flag of every channel and leaves the peaks alone.
    method ResetOverloaded()
      modifies this`channelData
      ensures |channelData| == old(|channelData|)
      ensures forall ch :: 0 <= ch < |channelData| ==>
        channelData[ch] == old(channelData[ch]).(overloaded := false)
    {
      var data := channelData;
      channelData := seq(|data|, ch requires 0 <= ch < |data| => data[ch].(overloaded := false));
    }

    /// Leaves the current meter, if any; when not subscribed nothing changes.
    method UnsubscribeFromLevelMeter()
      modifies this`subscribedMeter, MeterFrame()`subscribers
      ensures subscribedMeter == null
      ensures var previous := old(subscribedMeter);
        previous != null ==> previous.subscribers == Without(old(previous.subscribers), id)
    {
      if subscribedMeter != null {
        subscribedMeter.subscribers := Without(subscribedMeter.subscribers, id);
        subscribedMeter := null;
      }
    }

    /// Subscribes to `levelMeter`, first leaving the meter subscribed to before.
    method SubscribeToLevelMeter(levelMeter: LevelMeter)
      modifies this`subscribedMeter, levelMeter`subscribers, MeterFrame()`subscribers
      ensures subscribedMeter == levelMeter
      ensures var previous := old(subscribedMeter);
        previous != null && previous != levelMeter ==> previous.subscribers == Without(old(previous.subscribers), id)
      ensures levelMeter.subscribers ==
        (if old(subscribedMeter) == levelMeter then Without(old(levelMeter.subscribers), id)
         else old(levelMeter.subscribers)) + [id]
    {
      UnsubscribeFromLevelMeter();
      levelMeter.subscribers := levelMeter.subscribers + [id];
      subscribedMeter := levelMeter;
    }
  }
}
