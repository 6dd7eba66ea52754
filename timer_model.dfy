/**
 * The shared timer of all level meters as a state machine: whether the timer runs, the rate
 * it was started at, and the ids of the subscribed meters in subscription order.
 * `Metering.SharedTimer` is the object that performs these steps in place.
 */
module TimerModel {
  import opened MeterValues

  type MeterId = nat

  datatype TimerState = TimerState(running: bool, rateHz: int, subscribers: seq<MeterId>)

  /// A default-constructed shared timer: stopped, nobody subscribed.
  const Initial: TimerState := TimerState(false, 0, [])

  predicate NoDuplicates(s: seq<MeterId>) {
    forall i, j :: 0 <= i < j < |s| ==> s[i] != s[j]
  }

  /**
   * The timer runs at the refresh rate whenever it runs, it runs while a meter is subscribed,
   * and no meter is in the list twice.
   */
  predicate Consistent(s: TimerState) {
    (s.running ==> s.rateHz == RefreshRateHz) && (s.subscribers != [] ==> s.running) &&
    NoDuplicates(s.subscribers)
  }

  lemma {:induction false} WithoutKeepsDistinct(s: seq<MeterId>, x: MeterId)
    requires NoDuplicates(s)
    ensures NoDuplicates(Without(s, x))
    decreases |s|
  {
    if s != [] {
      assert NoDuplicates(s[1..]) by {
        forall i, j | 0 <= i < j < |s[1..]| ensures s[1..][i] != s[1..][j] {
          assert s[1..][i] == s[i + 1] && s[1..][j] == s[j + 1];
        }
      }
      WithoutKeepsDistinct(s[1..], x);
      if s[0] != x {
        var rest := Without(s[1..], x);
        assert s[0] !in s[1..] by {
          forall k | 0 <= k < |s[1..]| ensures s[1..][k] != s[0] {
            assert s[1..][k] == s[k + 1];
          }
        }
        assert s[0] !in rest;
        assert NoDuplicates([s[0]] + rest) by {
          forall i, j | 0 <= i < j < |[s[0]] + rest| ensures ([s[0]] + rest)[i] != ([s[0]] + rest)[j] {
            if i == 0 {
              assert ([s[0]] + rest)[j] == rest[j - 1];
            } else {
              assert ([s[0]] + rest)[i] == rest[i - 1] && ([s[0]] + rest)[j] == rest[j - 1];
            }
          }
        }
      }
    }
  }

  /**
   * `subscribe`: start the timer if the list is empty, then add the meter. Assigning the new
   * handle over the meter's previous one resets that one, so an earlier entry of the meter
   * leaves the list and the meter is in it exactly once, last.
   */
  function Subscribe(s: TimerState, m: MeterId): (r: TimerState)
    ensures r.subscribers != [] && r.subscribers[|r.subscribers| - 1] == m
    ensures forall x :: x in r.subscribers <==> x in s.subscribers || x == m
    ensures m !in s.subscribers ==> r.subscribers == s.subscribers + [m]
    ensures NoDuplicates(s.subscribers) ==> NoDuplicates(r.subscribers)
    ensures s.subscribers == [] ==> r.running && r.rateHz == RefreshRateHz
    ensures s.subscribers != [] ==> r.running == s.running && r.rateHz == s.rateHz
    ensures Consistent(s) ==> Consistent(r)
  {
    var started := if |s.subscribers| == 0 then s.(running := true, rateHz := RefreshRateHz) else s;
    var others := Without(started.subscribers, m);
    WithoutKeepsDistinctIfDistinct(started.subscribers, m);
    started.(subscribers := others + [m])
  }

  lemma WithoutKeepsDistinctIfDistinct(s: seq<MeterId>, x: MeterId)
    ensures NoDuplicates(s) ==> NoDuplicates(Without(s, x))
  {
    if NoDuplicates(s) {
      WithoutKeepsDistinct(s, x);
    }
  }

  /// Resetting a meter's subscription handle: its entry leaves the list, the timer is not touched.
  function Release(s: TimerState, m: MeterId): (r: TimerState)
    ensures m !in r.subscribers
    ensures forall x :: x in r.subscribers <==> x in s.subscribers && x != m
    ensures r.running == s.running && r.rateHz == s.rateHz
    ensures Consistent(s) ==> Consistent(r)
  {
    WithoutKeepsDistinctIfDistinct(s.subscribers, m);
    s.(subscribers := Without(s.subscribers, m))
  }

  /// What one tick leaves behind: the new state and the meters called, in call order.
  datatype TickResult = TickResult(state: TimerState, called: seq<MeterId>)

  /// A tick: stop the timer if the list is empty, then call every subscribed meter.
  function Tick(s: TimerState): (t: TickResult)
    ensures t.state.subscribers == s.subscribers && t.state.rateHz == s.rateHz
    ensures s.subscribers == [] <==> t.called == []
    ensures s.subscribers == [] ==> !t.state.running
    ensures s.subscribers != [] ==> t.state.running == s.running
    ensures Consistent(s) ==> Consistent(t.state)
  {
    var stopped := if |s.subscribers| == 0 then s.(running := false) else s;
    TickResult(stopped, s.subscribers)
  }

  /// The destructor: stop the timer.
  function Destroy(s: TimerState): (r: TimerState)
    ensures !r.running && r.subscribers == s.subscribers
  {
    s.(running := false)
  }

  /// Number of times `x` occurs in `s`.
  function Count(s: seq<MeterId>, x: MeterId): nat
    decreases |s|
  {
    if s == [] then 0 else (if s[0] == x then 1 else 0) + Count(s[1..], x)
  }

  lemma {:induction false} CountInDistinct(s: seq<MeterId>, x: MeterId)
    requires NoDuplicates(s)
    ensures Count(s, x) == if x in s then 1 else 0
    decreases |s|
  {
    if s != [] {
      assert NoDuplicates(s[1..]) by {
        forall i, j | 0 <= i < j < |s[1..]| ensures s[1..][i] != s[1..][j] {
          assert s[1..][i] == s[i + 1] && s[1..][j] == s[j + 1];
        }
      }
      CountInDistinct(s[1..], x);
      if s[0] == x {
        assert x !in s[1..] by {
          forall k | 0 <= k < |s[1..]| ensures s[1..][k] != x {
            assert s[1..][k] == s[k + 1];
          }
        }
      } else {
        assert x in s <==> x in s[1..] by {
          assert s == [s[0]] + s[1..];
        }
      }
    }
  }

  /**
   * Fan-out: in every consistent state, which covers every state reachable from `Initial`
   * (`RunKeepsConsistent`), a tick calls every subscribed meter exactly once and calls no
   * other meter.
   */
  lemma TickCallsEachMeterOnce(s: TimerState, m: MeterId)
    requires Consistent(s)
    ensures Count(Tick(s).called, m) == if m in s.subscribers then 1 else 0
  {
    CountInDistinct(s.subscribers, m);
  }

  /// What a meter or the timer itself can do to the shared timer.
  datatype Event = SubscribeMeter(meter: MeterId) | ReleaseMeter(meter: MeterId) | TimerTick

  function Step(s: TimerState, e: Event): (r: TimerState)
    ensures s.running && !r.running ==> e == TimerTick && s.subscribers == []
    ensures Consistent(s) && e.SubscribeMeter? ==> r.running
    ensures Consistent(s) ==> Consistent(r)
  {
    match e
    case SubscribeMeter(m) => Subscribe(s, m)
    case ReleaseMeter(m) => Release(s, m)
    case TimerTick => Tick(s).state
  }

  /// The state after a run of events, applied in order.
  function Run(s: TimerState, events: seq<Event>): TimerState
    decreases |events|
  {
    if events == [] then s else Run(Step(s, events[0]), events[1..])
  }

  /// The meters called over a run of events, in call order.
  function Calls(s: TimerState, events: seq<Event>): seq<MeterId>
    decreases |events|
  {
    if events == [] then []
    else
      (if events[0] == TimerTick then Tick(s).called else []) + Calls(Step(s, events[0]), events[1..])
  }

  /// From construction on, any run keeps the timer consistent.
  lemma {:induction false} RunKeepsConsistent(s: TimerState, events: seq<Event>)
    requires Consistent(s)
    ensures Consistent(Run(s, events))
    decreases |events|
  {
    if events != [] {
      RunKeepsConsistent(Step(s, events[0]), events[1..]);
    }
  }

  /**
   * Subscribing and releasing never stop a running timer: if it is stopped after a run, some
   * tick in that run saw an empty list.
   */
  lemma {:induction false} OnlyAnEmptyTickStops(s: TimerState, events: seq<Event>)
    requires s.running && !Run(s, events).running
    ensures exists i :: 0 <= i < |events| && events[i] == TimerTick && Run(s, events[..i]).subscribers == []
    decreases |events|
  {
    var s' := Step(s, events[0]);
    if !s'.running {
      assert events[..0] == [];
    } else {
      OnlyAnEmptyTickStops(s', events[1..]);
      var j :| 0 <= j < |events[1..]| && events[1..][j] == TimerTick && Run(s', events[1..][..j]).subscribers == [];
      assert events[..j + 1][1..] == events[1..][..j];
      assert Run(s, events[..j + 1]) == Run(s', events[1..][..j]);
      assert events[j + 1] == TimerTick;
    }
  }

  /// A tick never calls a meter that is not subscribed at that moment, over any run.
  lemma {:induction false} CallsOnlySubscribed(s: TimerState, events: seq<Event>, m: MeterId)
    requires m in Calls(s, events)
    ensures exists i :: 0 <= i < |events| && events[i] == TimerTick && m in Run(s, events[..i]).subscribers
    decreases |events|
  {
    var s' := Step(s, events[0]);
    var head := if events[0] == TimerTick then Tick(s).called else [];
    assert Calls(s, events) == head + Calls(s', events[1..]);
    if m in head {
      assert events[..0] == [];
    } else {
      CallsOnlySubscribed(s', events[1..], m);
      var j :| 0 <= j < |events[1..]| && events[1..][j] == TimerTick && m in Run(s', events[1..][..j]).subscribers;
      assert events[..j + 1][1..] == events[1..][..j];
      assert Run(s, events[..j + 1]) == Run(s', events[1..][..j]);
      assert events[j + 1] == TimerTick;
    }
  }

  /// From construction on, whatever meters subscribed and left, a tick calls each subscribed meter exactly once.
  lemma ReachableTickCallsEachMeterOnce(events: seq<Event>, m: MeterId)
    ensures var s := Run(Initial, events);
      Count(Tick(s).called, m) == if m in s.subscribers then 1 else 0
  {
    RunKeepsConsistent(Initial, events);
    TickCallsEachMeterOnce(Run(Initial, events), m);
  }
}
