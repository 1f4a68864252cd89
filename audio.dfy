/** The part of the W3C Web Audio API that a voice touches, as plain values:
    oscillator waveforms, biquad filter types, the connections between the
    nodes of one voice, and the automation calls made on an AudioParam
    (section 1.6 of the Web Audio API, The AudioParam Interface). */
module Audio {
  import opened Wrappers

  /** OscillatorNode.type. */
  datatype Waveform = Sine | Square | Sawtooth | Triangle

  /** BiquadFilterNode.type. */
  datatype FilterType = Lowpass | Highpass | Bandpass | Lowshelf | Highshelf | Peaking | Notch | Allpass

  /** The nodes of one voice, and the context's destination. */
  datatype Stage = Oscillator | Filter | Delay | Gain | Destination

  /** `from.connect(to)`. */
  datatype Edge = Edge(from: Stage, to: Stage)

  /** One scheduling call on an AudioParam: `setValueAtTime(value, time)` or
      `linearRampToValueAtTime(value, time)`. */
  datatype Automation = SetValue(value: real, time: real) | LinearRamp(value: real, time: real)

  /** A path of at most `n` connections leads from `a` to `b`. */
  ghost predicate Reaches(edges: set<Edge>, a: Stage, b: Stage, n: nat)
    decreases n
  {
    a == b || (n > 0 && exists e :: e in edges && e.from == a && Reaches(edges, e.to, b, n - 1))
  }

  /** The oscillator's output is routed to the destination. Four
      connections are enough: a path that visits no stage twice has at most
      four. Whether anything is heard also depends on the gain, which this
      leaves open. */
  ghost predicate Routed(edges: set<Edge>) {
    Reaches(edges, Oscillator, Destination, 4)
  }

  /** oscillator -> filter -> delay -> gain -> destination. */
  const Chain: set<Edge> :=
    {Edge(Oscillator, Filter), Edge(Filter, Delay), Edge(Delay, Gain), Edge(Gain, Destination)}

  lemma ChainIsRouted()
    ensures Routed(Chain)
  {
    assert Reaches(Chain, Destination, Destination, 0);
    assert Edge(Gain, Destination) in Chain;
    assert Reaches(Chain, Gain, Destination, 1);
    assert Edge(Delay, Gain) in Chain;
    assert Reaches(Chain, Delay, Destination, 2);
    assert Edge(Filter, Delay) in Chain;
    assert Reaches(Chain, Filter, Destination, 3);
    assert Edge(Oscillator, Filter) in Chain;
  }

  /** `node.disconnect()` with no argument: every outgoing connection of
      `node` is removed, and nothing else. */
  function Disconnect(edges: set<Edge>, node: Stage): (r: set<Edge>)
    ensures r <= edges
    ensures forall e :: e in edges ==> (e in r <==> e.from != node)
  {
    set e | e in edges && e.from != node
  }

  /** Once the oscillator is disconnected, no path leads from it to the
      destination. */
  lemma DisconnectedIsCutOff(edges: set<Edge>, n: nat)
    ensures !Reaches(Disconnect(edges, Oscillator), Oscillator, Destination, n)
  {
  }

  /** Every event in the log is scheduled no earlier than the one before it. */
  ghost predicate TimesNonDecreasing(log: seq<Automation>) {
    forall i, j :: 0 <= i < j < |log| ==> log[i].time <= log[j].time
  }

  /** The value of the last event in `log` scheduled at or before `t`, every
      event read as a set. For a log of setValueAtTime calls added in time
      order this is the value the parameter holds at `t`: an event added at
      the same time as an earlier one is placed after it and so takes effect
      over it (`TimeOrderedLastSetBy`). */
  function LastSetBy(log: seq<Automation>, t: real): Option<real> {
    if log == [] then None
    else if log[|log| - 1].time <= t then Some(log[|log| - 1].value)
    else LastSetBy(log[..|log| - 1], t)
  }

  /** The position of the last event in `log` scheduled at or before `t`,
      or -1 when there is none. */
  function LastSetIndex(log: seq<Automation>, t: real): (i: int)
    ensures -1 <= i < |log|
  {
    if log == [] then -1
    else if log[|log| - 1].time <= t then |log| - 1
    else LastSetIndex(log[..|log| - 1], t)
  }

  /** `LastSetBy` is the value of an event at or before `t` after which every
      event lies after `t`, and finds nothing exactly when every event lies
      after `t`. */
  lemma {:induction false} LastSetByIsLatest(log: seq<Automation>, t: real)
    ensures var i := LastSetIndex(log, t);
      LastSetBy(log, t) == (if i < 0 then None else Some(log[i].value)) &&
      (0 <= i ==> log[i].time <= t) &&
      forall j :: i < j < |log| ==> log[j].time > t
  {
    if log != [] && log[|log| - 1].time > t {
      var init := log[..|log| - 1];
      LastSetByIsLatest(init, t);
      assert forall j :: 0 <= j < |init| ==> init[j] == log[j];
    }
  }

  /** For a log in time order, no other event at or before `t` follows the
      event `LastSetBy` reads in time: it is the value an AudioParam, which
      orders its events by time, holds at `t`. */
  lemma TimeOrderedLastSetBy(log: seq<Automation>, t: real)
    requires TimesNonDecreasing(log)
    ensures var i := LastSetIndex(log, t);
      0 <= i ==> forall j :: 0 <= j < |log| && log[j].time <= t ==> log[j].time <= log[i].time
  {
    LastSetByIsLatest(log, t);
    var i := LastSetIndex(log, t);
    forall j | 0 <= i && 0 <= j < |log| && log[j].time <= t ensures log[j].time <= log[i].time {
      assert j <= i;
    }
  }

  /** The events of `log` are in time order and none lies after `clock`:
      what a log holds when each call was made at the context's current
      time, which never goes back, and `clock` is at least the latest such
      time. The last event is at or before `clock`, and the rest is settled
      by that event's time. */
  ghost predicate SettledBy(log: seq<Automation>, clock: real)
    decreases |log|
  {
    log == [] || (log[|log| - 1].time <= clock && SettledBy(log[..|log| - 1], log[|log| - 1].time))
  }

  /** A log is settled by `clock` exactly when its times never decrease and
      none lies after `clock`. */
  lemma {:induction false} SettledByIsOrdered(log: seq<Automation>, clock: real)
    ensures SettledBy(log, clock) <==>
      TimesNonDecreasing(log) && forall i :: 0 <= i < |log| ==> log[i].time <= clock
  {
    if log != [] {
      var init, last := log[..|log| - 1], log[|log| - 1].time;
      SettledByIsOrdered(init, last);
      assert forall i :: 0 <= i < |init| ==> init[i] == log[i];
    }
  }

  /** Setting a value at the current time keeps a settled log settled. */
  lemma SetKeepsSettled(log: seq<Automation>, value: real, clock: real, now: real)
    requires SettledBy(log, clock) && clock <= now
    ensures SettledBy(log + [SetValue(value, now)], now)
  {
    assert (log + [SetValue(value, now)])[..|log|] == log;
  }
}
