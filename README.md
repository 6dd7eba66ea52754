# Level meter model

A Dafny model of the metering core of `juce-extensions`: the `LevelMeter` that an audio
thread feeds through a bounded measurement queue, the `SharedTimer` that ticks every meter
at 30 Hz, the `Subscriber` base class with its single subscription and per-channel data,
and the `LevelMeterComponent`'s decision, after every tick, whether to repaint.

- `values.dfy` (module `MeterValues`): the header's constants (`RefreshRateHz` = 30,
  `PeakHoldValueTimeMs` = 2000, `OverloadTriggerLevel` = 1.0, `DefaultMinusInfinityDb` = -96,
  queue capacity 100), `Measurement`, `ChannelData`, the subscription handle and `Without`,
  the effect of resetting a handle on the list it came from.
- `queue.dfy` (module `MeasurementQueue`): the queue as a sequence; a push onto a full queue
  is lost, so the queue never holds more than 100 measurements.
- `timer_model.dfy` (module `TimerModel`): the shared timer as a state machine (running
  flag, rate, subscribed meter ids) with its steps `Subscribe`, `Release`, `Tick` and
  `Destroy`, and lemmas over arbitrary runs of steps.
- `level_meter.dfy` (module `Metering`): the classes `LevelMeter`, `SharedTimer` and
  `Subscriber`, whose methods change their fields in place and are proved against the
  functions above. `SharedTimer.calls` records, in order, every `timerCallback()` the timer
  makes on a meter. The accessors `GetNumChannels`, `GetPeakValue`, `GetPeakHoldValue` and
  `GetOverloaded` read the subscriber's channel data; channel indices outside the prepared
  range are excluded by precondition.
- `level_meter_component.dfy` (module `LevelMeterComponentModel`): `Options` and
  `WithMaxChannels`, the scan for silence with its early exit, the repaint hysteresis, and
  the component class. The scale's `calculateProportionForLevel` is a parameter
  `proportion: real -> real`; `repaint()` increments a counter.

Resetting a meter's timer handle on its own only removes the meter's entry and does not
stop the timer; the timer then stops on the next tick that finds the list empty
(`TimerModel.Tick`), and no other step stops a running timer
(`TimerModel.OnlyAnEmptyTickStops`). When the last meter is destroyed, the shared timer
itself is destroyed with it and its destructor stops it at once; in the model that is the
explicit `SharedTimer.Destroy`.

## Model

| member | source | states |
|---|---|---|
| `MeterValues.DefaultMeasurement` | source/juce-extensions/audio/metering/LevelMeter.h:30-34 | a default measurement is channel 0 with peak level 0.0 |
| `MeterValues.DefaultChannelData` | source/juce-extensions/audio/metering/LevelMeter.h:105-110 | default channel data is not overloaded and both peaks are silent |
| `MeterValues.Without` | source/juce-extensions/audio/metering/LevelMeter.h:149-153 | removing a subscriber's entries leaves exactly the other entries, so the removed id is gone and an absent id changes nothing |
| `MeasurementQueue.BoundedPush` | source/juce-extensions/audio/metering/LevelMeter.h:280-281 | a push appends the measurement exactly when the queue holds fewer than 100, otherwise the queue is unchanged; a queue within capacity stays within capacity |
| `MeasurementQueue.PushAllKeepsPrefix` | source/juce-extensions/audio/metering/LevelMeter.h:210-228 | pushing a run of measurements keeps exactly the longest prefix that fits and never exceeds 100 entries |
| `MeasurementQueue.FullQueueDropsEverything` | source/juce-extensions/audio/metering/LevelMeter.h:220-223 | once the queue is full, every further measurement is lost |
| `TimerModel.Subscribe` | source/juce-extensions/audio/metering/LevelMeter.h:247-254 | the meter ends up in the list exactly once, last, its earlier entry dropped because the new handle replaces the old; the other entries stay; an empty list starts the timer at 30 Hz; a non-empty list leaves running flag and rate untouched; consistency, including no duplicate entries, is kept |
| `TimerModel.Release` | source/juce-extensions/audio/metering/LevelMeter.h:283-287 | resetting a meter's handle removes only that meter from the list and leaves the timer state alone |
| `TimerModel.Tick` | source/juce-extensions/audio/metering/LevelMeter.h:259-268 | an empty list stops the timer and calls no meter; a non-empty list keeps the running state and calls the subscribed meters |
| `TimerModel.Destroy` | source/juce-extensions/audio/metering/LevelMeter.h:238-241 | the destructor leaves the timer stopped |
| `TimerModel.Step` | source/juce-extensions/audio/metering/LevelMeter.h:247-268 | a running timer is stopped only by a tick that sees an empty list; subscribing leaves a consistent timer running |
| `TimerModel.TickCallsEachMeterOnce` | source/juce-extensions/audio/metering/LevelMeter.h:265-267 | in a consistent state, a tick calls each subscribed meter exactly once and no other meter |
| `TimerModel.RunKeepsConsistent` | source/juce-extensions/audio/metering/LevelMeter.h:247-268 | over any run of subscribes, releases and ticks, the timer runs at 30 Hz whenever it runs, runs whenever a meter is subscribed, and lists no meter twice |
| `TimerModel.ReachableTickCallsEachMeterOnce` | source/juce-extensions/audio/metering/LevelMeter.h:247-267 | after any run from a new timer, including re-subscriptions, a tick calls each subscribed meter exactly once and no other meter |
| `TimerModel.OnlyAnEmptyTickStops` | source/juce-extensions/audio/metering/LevelMeter.h:259-263 | if a running timer is stopped after a run, some tick in the run found the list empty |
| `TimerModel.CallsOnlySubscribed` | source/juce-extensions/audio/metering/LevelMeter.h:265-267 | over any run, a meter is called only by a tick at which it is subscribed |
| `Metering.BlockMeasurements` | source/juce-extensions/audio/metering/LevelMeter.h:220-228 | one measurement per channel, in channel order, carrying that channel's index and peak |
| `Metering.MaxMagnitude` | source/juce-extensions/audio/metering/LevelMeter.h:210-218 | a channel's peak is the largest absolute sample of the block, and 0 for an empty block |
| `Metering.LevelMeter.constructor` | source/juce-extensions/audio/metering/LevelMeter.h:271-287 | a new meter has 0 prepared channels, no subscribers, an empty queue and no timer subscription |
| `Metering.LevelMeter.PrepareToPlay` | source/juce-extensions/audio/metering/LevelMeter.h:204-208 | records the channel count and leaves the queue alone |
| `Metering.LevelMeter.PushMeasurement` | source/juce-extensions/audio/metering/LevelMeter.h:289-293 | the queue becomes `BoundedPush` of the old queue and stays within capacity |
| `Metering.LevelMeter.MeasureBlock` | source/juce-extensions/audio/metering/LevelMeter.h:220-228 | the queue becomes the old queue with each channel's measurement pushed in order, each lost when the queue is full |
| `Metering.LevelMeter.MeasureBuffer` | source/juce-extensions/audio/metering/LevelMeter.h:210-218 | the buffer overload measures every channel over all its samples |
| `Metering.SharedTimer.constructor` | source/juce-extensions/audio/metering/LevelMeter.h:237 | a new timer is stopped, has no subscribers and has called nobody |
| `Metering.SharedTimer.StartTimerHz` | source/juce-extensions/audio/metering/LevelMeter.h:251 | a positive rate leaves the timer running at that rate; a rate of zero or less stops it and keeps the old rate |
| `Metering.SharedTimer.StopTimer` | source/juce-extensions/audio/metering/LevelMeter.h:263 | afterwards the timer does not run, and its rate and list are untouched |
| `Metering.SharedTimer.Subscribe` | source/juce-extensions/audio/metering/LevelMeter.h:243-254 | the new state is `TimerModel.Subscribe` of the old one, no meter is called, and the meter's timer subscription holds the new handle |
| `Metering.SharedTimer.Release` | source/juce-extensions/audio/metering/LevelMeter.h:283-287 | the new state is `TimerModel.Release` of the old one and the meter's handle is reset |
| `Metering.SharedTimer.TimerCallback` | source/juce-extensions/audio/metering/LevelMeter.h:259-268 | the new state is `TimerModel.Tick` of the old one and the call log grows by exactly the subscribed meters, in order |
| `Metering.SharedTimer.Destroy` | source/juce-extensions/audio/metering/LevelMeter.h:238-241 | the timer is stopped and nothing else changes |
| `Metering.Subscriber.constructor` | source/juce-extensions/audio/metering/LevelMeter.h:112-116 | a new subscriber is not subscribed and has no channels |
| `Metering.Subscriber.PrepareToPlay` | source/juce-extensions/audio/metering/LevelMeter.h:118-122 | afterwards there are exactly `numChannels` channels, each default channel data |
| `Metering.Subscriber.GetNumChannels` | source/juce-extensions/audio/metering/LevelMeter.h:190-193 | the channel count is never negative and is the number of channel entries, which `PrepareToPlay` sets |
| `Metering.Subscriber.GetPeakValue` | source/juce-extensions/audio/metering/LevelMeter.h:161-165 | for a prepared channel, its current peak |
| `Metering.Subscriber.GetPeakHoldValue` | source/juce-extensions/audio/metering/LevelMeter.h:167-172 | for a prepared channel, its current peak hold |
| `Metering.Subscriber.GetOverloaded` | source/juce-extensions/audio/metering/LevelMeter.h:174-178 | for a prepared channel, its overload flag |
| `Metering.Subscriber.Reset` | source/juce-extensions/audio/metering/LevelMeter.h:136-140 | every channel is back to default data and the channel count is kept |
| `Metering.Subscriber.ResetOverloaded` | source/juce-extensions/audio/metering/LevelMeter.h:180-183 | every overload flag is cleared and nothing else in the channel data changes |
| `Metering.Subscriber.UnsubscribeFromLevelMeter` | source/juce-extensions/audio/metering/LevelMeter.h:149-153 | afterwards the subscriber is not subscribed and its previous meter no longer lists it; when not subscribed nothing else may change |
| `Metering.Subscriber.SubscribeToLevelMeter` | source/juce-extensions/audio/metering/LevelMeter.h:143-147 | afterwards the subscriber is subscribed to exactly the new meter, which lists it last, and a different previous meter no longer lists it |
| `LevelMeterComponentModel.WithMaxChannels` | source/juce-extensions/components/metering/LevelMeterComponent.cpp:8-13 | the copy has the new channel limit and every other field of the original; the original is an unchanged value |
| `LevelMeterComponentModel.ChannelLevel` | source/juce-extensions/components/metering/LevelMeterComponent.cpp:37 | the tested level is the larger of peak and peak hold |
| `LevelMeterComponentModel.ScanForSilence` | source/juce-extensions/components/metering/LevelMeterComponent.cpp:33-42 | the scan, reading each channel through `getNumChannels`, `getPeakValue` and `getPeakHoldValue` and leaving at the first loud channel, answers silent exactly when every channel's proportion is at most 0.001; no channels is silent |
| `LevelMeterComponentModel.QuietMeansBothQuiet` | source/juce-extensions/components/metering/LevelMeterComponent.cpp:37 | for non-negative peaks and a scale that never decreases on magnitudes, silence means both peak and peak hold of every channel are quiet, so a loud peak hold alone makes the meter loud |
| `LevelMeterComponentModel.ShouldRepaint` | source/juce-extensions/components/metering/LevelMeterComponent.cpp:44-45 | a call repaints when it finds the meter loud or the meter was loud before, and only then |
| `LevelMeterComponentModel.SilenceNeverRepaints` | source/juce-extensions/components/metering/LevelMeterComponent.cpp:44-47 | a silent meter whose calls all find silence never repaints |
| `LevelMeterComponentModel.LoudThenSilentRepaintsOnce` | source/juce-extensions/components/metering/LevelMeterComponent.cpp:44-47 | going from loud to a run of silent calls repaints exactly once |
| `LevelMeterComponentModel.RepaintBounds` | source/juce-extensions/components/metering/LevelMeterComponent.cpp:44-45 | every loud call repaints, and each call repaints at most once |
| `LevelMeterComponentModel.LevelMeterComponent.constructor` | source/juce-extensions/components/metering/LevelMeterComponent.cpp:20-27 | the new component's subscriber part is subscribed to the given meter, which lists it last |
| `LevelMeterComponentModel.LevelMeterComponent.Repaint` | source/juce-extensions/components/metering/LevelMeterComponent.cpp:45 | each repaint is recorded as exactly one more repaint request |
| `LevelMeterComponentModel.LevelMeterComponent.MeasurementUpdatesFinished` | source/juce-extensions/components/metering/LevelMeterComponent.cpp:29-48 | repaints exactly when not silent before and after, and remembers whether the meter is now silent |
| `LevelMeterComponentModel.LevelMeterComponent.Reset` | source/juce-extensions/audio/metering/LevelMeter.h:136-140 | channels return to silence, then the component's update decision runs once; a scale that maps silence to at most 0.001 leaves it silent |

## Left out

- `Scale` (constructor, `calculateProportionForLevel[Db]`, `calculateLevelDbForProportion`, `getDivisions`, `getMinusInfinityDb`, `getDefaultScale`): the implementation is not part of this model and is floating-point `log10` arithmetic; the proportion enters as a function parameter, and the subscriber does not store its scale.
- `LevelPeakValue` decay and hold ballistics: not part of this model; a peak is reduced to its current level, and the silent value is taken to be 0.0, the value the reset documentation names. `getPeakValue` and `getPeakHoldValue` are declared non-`const` (`LevelMeter.h:165`, `:171`), so a read may advance the decay; `GetPeakValue` and `GetPeakHoldValue` are pure reads of the stored level.
- `Subscriber::updateWithMeasurement`, the overload flag logic and `LevelMeterComponent::updateWithMeasurement`: their bodies are not part of this model; `OverloadTriggerLevel` and `PeakHoldValueTimeMs` are kept as constants only.
- `LevelMeter::timerCallback` (the drain of the queue and the fan-out to subscribers): not part of this model; the shared timer records each call instead.
- `LevelMeter` constructor and destructor bodies: not part of this model, so when a meter joins or leaves the shared timer is left to explicit `SharedTimer.Subscribe` and `SharedTimer.Release` calls.
- The stop on the last meter's destruction: `juce::SharedResourcePointer` deletes the shared timer once the last meter releases it, and `~SharedTimer` stops the timer; the model leaves that stop to an explicit `SharedTimer.Destroy` call, and does not track how many meters hold the timer.
- `juce::Timer` scheduling and `juce::SharedResourcePointer` reference counting: framework services; the timer is a running flag and a rate, and each tick is an explicit call.
- `moodycamel::ReaderWriterQueue` internals and the single-producer thread safety: a foreign lock-free library; the queue is a sequence with capacity exactly 100, while the library only promises room for at least 100.
- `levelMeterPrepared` and `JUCE_ASSERT_MESSAGE_THREAD`: a hook whose component override only asserts the thread.
- `LevelMeterComponent::paint` and `setOptions`: drawing and layout.
- `Options::getDefault`: it returns value-initialised options whose member defaults are declared in `LevelMeterComponent.h`, which is not part of this model.
- The component constructor taking a scale and options (`LevelMeterComponent.cpp:15-18`) passes a channel limit to a `Subscriber` constructor that the header does not declare; no channel limit is modelled.
- `LevelMeterComponentModel.LevelMeterComponent.constructor`: says nothing about the initial `mWasSilent`, whose initialiser is in `LevelMeterComponent.h`, not part of this model.
- `Metering.MaxMagnitude`: the template body of `measureBlock` is not part of this model; the per-channel peak is taken as the largest absolute sample, and samples are reals whatever the sample type.
- `Metering.SharedTimer.Subscribe`: a meter's `id` stands for its address, and each id is taken to denote one distinct meter; this is not checked, so two meters built with the same id would share one entry in the timer's list and be called once per tick, where the source keeps both and calls both.
- `Metering.Subscriber.GetOverloaded`: no code of the modelled files reads it; `LevelMeterComponent::paint` draws the overload area from the peak hold compared with `OverloadTriggerLevel` (`LevelMeterComponent.cpp:96`, `:117`), and drawing is not part of this model.
- `Metering.Subscriber.SubscribeToLevelMeter`: subscriber ids are not proved unique across subscribers; the contract speaks of this subscriber's id only.
