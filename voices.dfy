/** One voice of the keyboard: an oscillator feeding its own lowpass filter,
    delay line and gain stage, and what the keyboard does to it. A voice is a
    value here; the keyboard keeps every voice it ever built in a sequence
    and updates the entries in place. */
module Voices {
  import opened Wrappers
  import opened Audio

  /** The envelope settings: attack, decay and release in seconds, sustain as
      a fraction of the volume. */
  datatype Adsr = Adsr(attack: real, decay: real, sustain: real, release: real)

  /** The synthesizer's settings, as the keyboard receives them. */
  datatype Params = Params(
    waveform: Waveform,
    lowpassFrequency: real,  // Hz
    qValue: real,
    width: real,             // detune of the side oscillators, in cents
    adsr: Adsr,
    delayTime: real,         // seconds
    isPolyMode: bool,
    volume: real)

  /** The values the synthesizer starts with. */
  const DefaultParams: Params :=
    Params(Sawtooth, 1000.0, 1.0, 10.0, Adsr(0.1, 0.1, 0.6, 0.5), 0.0, false, 0.3)

  /** The ranges of the synthesizer's sliders; the keyboard never receives a
      value outside them. */
  predicate InSliderRange(p: Params) {
    0.0 <= p.volume <= 1.0 &&
    0.0 <= p.width <= 50.0 &&
    0.0 <= p.adsr.attack <= 1.0 &&
    0.0 <= p.adsr.decay <= 1.0 &&
    0.0 <= p.adsr.sustain <= 1.0 &&
    0.0 <= p.adsr.release <= 10.0 &&
    100.0 <= p.lowpassFrequency <= 5000.0 &&
    1.0 <= p.qValue <= 30.0 &&
    0.0 <= p.delayTime <= 0.5
  }

  lemma DefaultsInRange()
    ensures InSliderRange(DefaultParams)
  {
  }

  /** The default Q of a BiquadFilterNode; building a voice does not set it. */
  const DefaultQ: real := 1.0

  /** The state of one voice's nodes. */
  datatype Voice = Voice(
    frequency: real,          // oscillator.frequency
    detune: real,             // oscillator.detune, cents
    waveform: Waveform,       // oscillator.type
    started: bool,            // oscillator.start() was called
    stopAt: Option<real>,     // time given to oscillator.stop(), if it was called
    filterType: FilterType,   // lowpassFilter.type
    cutoff: seq<Automation>,  // calls on lowpassFilter.frequency
    q: real,                  // lowpassFilter.Q.value
    delayTime: real,          // delayNode.delayTime
    gain: seq<Automation>,    // calls on gainNode.gain
    edges: set<Edge>)         // connections among the voice's nodes

  /** The amplitude envelope scheduled on a new voice's gain at time `t`:
      silence at `t`, a linear rise to `volume` by the end of the attack, a
      linear fall to the sustain level by the end of the decay, and a linear
      fall to silence over the release that follows. */
  function Envelope(t: real, adsr: Adsr, volume: real): (log: seq<Automation>)
    ensures |log| == 4 && log[0] == SetValue(0.0, t)
    ensures forall i :: 1 <= i < |log| ==> log[i].LinearRamp?
    ensures log[1].value == volume && log[1].time == t + adsr.attack
    ensures log[2].value == adsr.sustain * volume && log[2].time == log[1].time + adsr.decay
    ensures log[3].value == 0.0 && log[3].time == log[2].time + adsr.release
    ensures adsr.attack >= 0.0 && adsr.decay >= 0.0 && adsr.release >= 0.0 ==> TimesNonDecreasing(log)
    ensures volume >= 0.0 && 0.0 <= adsr.sustain <= 1.0 ==>
      forall i :: 0 <= i < |log| ==> 0.0 <= log[i].value <= log[1].value
  {
    var peak := t + adsr.attack;
    var sustained := peak + adsr.decay;
    var level := adsr.sustain * volume;
    SustainBelowPeak(adsr.sustain, volume);
    [ SetValue(0.0, t),
      LinearRamp(volume, peak),
      LinearRamp(level, sustained),
      LinearRamp(0.0, sustained + adsr.release) ]
  }

  /** A sustain fraction in [0, 1] of a non-negative volume lies between
      silence and that volume. */
  lemma SustainBelowPeak(sustain: real, volume: real)
    ensures 0.0 <= sustain <= 1.0 && 0.0 <= volume ==> 0.0 <= sustain * volume <= volume
  {
    if 0.0 < sustain <= 1.0 && 0.0 <= volume {
      assert sustain * volume <= 1.0 * volume;
    }
  }

  /** The voice `createOscillator(freq, detune)` builds at time `now`: an
      oscillator of the chosen waveform at `freq` and `detune`, already
      started, connected through its own lowpass filter (cutoff half the
      filter setting), its own delay and its own gain stage to the
      destination, with the envelope scheduled on the gain. */
  function NewVoice(freq: real, detune: real, p: Params, now: real): (v: Voice)
    ensures v.frequency == freq && v.detune == detune && v.waveform == p.waveform
    ensures v.started && v.stopAt == None
    ensures v.filterType == Lowpass && v.q == DefaultQ
    ensures v.cutoff == [SetValue(p.lowpassFrequency / 2.0, now)]
    ensures v.delayTime == p.delayTime
    ensures v.gain == Envelope(now, p.adsr, p.volume)
    ensures v.edges == Chain
  {
    Voice(freq, detune, p.waveform, true, None, Lowpass,
          [SetValue(p.lowpassFrequency / 2.0, now)], DefaultQ, p.delayTime,
          Envelope(now, p.adsr, p.volume), Chain)
  }

  /** A voice whose oscillator runs and stays routed: started, not yet told
      to stop, and connected through the whole chain to the destination.
      Whether it is audible depends on its gain log, which this leaves
      open. */
  ghost predicate Running(v: Voice) {
    v.started && v.stopAt == None && v.edges == Chain
  }

  /** The three voices a note-on builds for `freq`: the centre voice and the
      two side voices detuned down and up by the width. All three run, are routed and
      share the note's pitch, waveform and envelope. */
  function Unison(freq: real, p: Params, now: real): (vs: seq<Voice>)
    ensures |vs| == 3
    ensures forall k :: 0 <= k < 3 ==>
      Running(vs[k]) && vs[k].frequency == freq && vs[k].waveform == p.waveform &&
      vs[k].gain == Envelope(now, p.adsr, p.volume)
    ensures vs[0].detune == 0.0 && vs[1].detune == -p.width && vs[2].detune == p.width
  {
    [NewVoice(freq, 0.0, p, now), NewVoice(freq, -p.width, p, now), NewVoice(freq, p.width, p, now)]
  }

  /** What releasing a voice does at time `now`, given the value `level` its
      gain has at that moment: the gain is held at `level` and ramps to
      silence over `release` seconds, the oscillator is told to stop when
      the ramp ends, and outside poly mode it is disconnected at once.
      Nothing scheduled before is cancelled. */
  function Release(v: Voice, level: real, now: real, release: real, poly: bool): (r: Voice)
    ensures r.gain == v.gain + [SetValue(level, now), LinearRamp(0.0, now + release)]
    ensures r.stopAt == Some(now + release)
    ensures poly ==> r.edges == v.edges
    ensures !poly ==> r.edges == Disconnect(v.edges, Oscillator)
    ensures r.waveform == v.waveform && r.cutoff == v.cutoff && r.q == v.q
  {
    var edges := if poly then v.edges else Disconnect(v.edges, Oscillator);
    v.(gain := v.gain + [SetValue(level, now), LinearRamp(0.0, now + release)],
       stopAt := Some(now + release),
       edges := edges)
  }

  /** What the live update does to a tracked voice at time `now`: the
      oscillator takes `waveform`, the filter cutoff is set to `cutoff` from
      `now` on, and the filter's Q becomes `q`. The envelope is untouched. */
  function Retune(v: Voice, waveform: Waveform, cutoff: real, q: real, now: real): (r: Voice)
    ensures r.waveform == waveform && r.q == q
    ensures r.cutoff == v.cutoff + [SetValue(cutoff, now)]
    ensures r.gain == v.gain && r.edges == v.edges && r.stopAt == v.stopAt
    ensures Running(v) ==> Running(r)
  {
    v.(waveform := waveform, cutoff := v.cutoff + [SetValue(cutoff, now)], q := q)
  }

  /** A new voice's filter holds nothing before it is built and half the
      cutoff setting from then on. */
  lemma NewVoiceHalvesCutoff(freq: real, detune: real, p: Params, now: real, t: real)
    ensures LastSetBy(NewVoice(freq, detune, p, now).cutoff, t) ==
      if t < now then None else Some(p.lowpassFrequency / 2.0)
  {
    var log := NewVoice(freq, detune, p, now).cutoff;
    assert log[..0] == [];
  }

  /** After the live update at `now`, the filter holds the new cutoff from
      `now` on and, before `now`, whatever it held already. */
  lemma RetuneSetsCutoff(v: Voice, waveform: Waveform, cutoff: real, q: real, now: real, t: real)
    ensures LastSetBy(Retune(v, waveform, cutoff, q, now).cutoff, t) ==
      if t < now then LastSetBy(v.cutoff, t) else Some(cutoff)
  {
    var log := Retune(v, waveform, cutoff, q, now).cutoff;
    assert log[..|log| - 1] == v.cutoff;
  }

  /** A voice built at `now` and then reached by the live update at `later`
      has its filter at half the cutoff setting from `now` and at the full
      setting from `later` on: the update overrides the halving. */
  lemma {:induction false} UpdateOverridesHalvedCutoff(freq: real, detune: real, p: Params, now: real, later: real, t: real)
    requires now <= later
    ensures var v := Retune(NewVoice(freq, detune, p, now), p.waveform, p.lowpassFrequency, p.qValue, later);
      LastSetBy(v.cutoff, t) ==
        if t < now then None
        else if t < later then Some(p.lowpassFrequency / 2.0)
        else Some(p.lowpassFrequency)
  {
    var v := NewVoice(freq, detune, p, now);
    RetuneSetsCutoff(v, p.waveform, p.lowpassFrequency, p.qValue, later, t);
    NewVoiceHalvesCutoff(freq, detune, p, now, t);
  }

  /** A new voice's oscillator reaches the destination (its gain is still 0
      at `now`; the envelope raises it). */
  lemma NewVoiceRouted(freq: real, detune: real, p: Params, now: real)
    ensures Routed(NewVoice(freq, detune, p, now).edges)
  {
    ChainIsRouted();
  }

  /** Releasing a voice outside poly mode cuts its oscillator off from the
      destination at once; in poly mode it stays connected. */
  lemma ReleaseCutsOff(v: Voice, level: real, now: real, release: real, poly: bool)
    requires Running(v)
    ensures Routed(Release(v, level, now, release, poly).edges) <==> poly
  {
    ChainIsRouted();
    DisconnectedIsCutOff(v.edges, 4);
  }

  /** Every entry of `hs` is a handle into a graph of `n` voices. */
  ghost predicate InRange(hs: seq<nat>, n: nat) {
    forall k :: 0 <= k < |hs| ==> hs[k] < n
  }

  /** No handle occurs twice. */
  ghost predicate Distinct(hs: seq<nat>) {
    forall i, j :: 0 <= i < j < |hs| ==> hs[i] != hs[j]
  }

  /** Applies `f` to the voices at the handles `hs`, first handle first; `f`
      sees the handle and the voice's state at that point. This is what a
      `forEach` over a list of voices does to the audio graph. */
  function UpdateEach(vs: seq<Voice>, hs: seq<nat>, f: (nat, Voice) -> Voice): (r: seq<Voice>)
    requires InRange(hs, |vs|)
    ensures |r| == |vs|
    decreases |hs|
  {
    if hs == [] then vs
    else
      var r0 := UpdateEach(vs, hs[..|hs| - 1], f);
      var h := hs[|hs| - 1];
      r0[h := f(h, r0[h])]
  }

  /** With distinct handles, each listed voice is updated exactly once, from
      its original state, and every other voice is left as it was. */
  lemma {:induction false} UpdateEachAt(vs: seq<Voice>, hs: seq<nat>, f: (nat, Voice) -> Voice)
    requires InRange(hs, |vs|) && Distinct(hs)
    ensures forall k :: 0 <= k < |vs| ==>
      UpdateEach(vs, hs, f)[k] == if k in hs then f(k, vs[k]) else vs[k]
  {
    if hs != [] {
      var init := hs[..|hs| - 1];
      var h := hs[|hs| - 1];
      UpdateEachAt(vs, init, f);
      assert forall k :: k in hs <==> k in init || k == h;
      assert h !in init;
    }
  }

  /** The per-voice step of the release loop, reading each voice's current
      gain from `levels`. */
  function Releaser(levels: nat -> real, now: real, release: real, poly: bool): (f: (nat, Voice) -> Voice)
  {
    (h: nat, v: Voice) => Release(v, levels(h), now, release, poly)
  }

  /** The per-voice step of the live update. */
  function Retuner(waveform: Waveform, cutoff: real, q: real, now: real): (f: (nat, Voice) -> Voice)
  {
    (h: nat, v: Voice) => Retune(v, waveform, cutoff, q, now)
  }

  /** The live update at `now` keeps each updated voice running and routed,
      and its cutoff log settled: in time order, the last event at `now`. */
  lemma RetuneEachSettled(vs: seq<Voice>, hs: seq<nat>, waveform: Waveform, cutoff: real, q: real,
                          clock: real, now: real)
    requires InRange(hs, |vs|) && Distinct(hs) && clock <= now
    requires forall k :: 0 <= k < |hs| ==> Running(vs[hs[k]]) && SettledBy(vs[hs[k]].cutoff, clock)
    ensures var r := UpdateEach(vs, hs, Retuner(waveform, cutoff, q, now));
      forall k :: 0 <= k < |hs| ==> Running(r[hs[k]]) && SettledBy(r[hs[k]].cutoff, now)
  {
    var r := UpdateEach(vs, hs, Retuner(waveform, cutoff, q, now));
    UpdateEachAt(vs, hs, Retuner(waveform, cutoff, q, now));
    forall k | 0 <= k < |hs|
      ensures Running(r[hs[k]]) && SettledBy(r[hs[k]].cutoff, now)
    {
      assert hs[k] in hs;
      SetKeepsSettled(vs[hs[k]].cutoff, cutoff, clock, now);
    }
  }
}
