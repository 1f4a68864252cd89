/** The keyboard component: the voices it is tracking, whether a note is on,
    and the settings it was last given. Every voice it builds lives in one
    shared audio context, modelled as the sequence `voices`; the tracked
    voices are handles into it, so a voice that drops out of the tracked
    list is still there, in whatever state it was left. */
module Synth {
  import opened Wrappers
  import opened Audio
  import opened Voices
  import NoteTable

  /** The settings the live-update effect depends on (besides the tracked
      voices and the note flag). */
  function EffectInputs(p: Params): (Waveform, real, real, Adsr) {
    (p.waveform, p.lowpassFrequency, p.qValue, p.adsr)
  }

  /** The release loop: `forEach` over the tracked handles, releasing each
      voice with its own current level. */
  method ReleaseEach(vs: seq<Voice>, hs: seq<nat>, levels: nat -> real, now: real, release: real, poly: bool)
    returns (r: seq<Voice>)
    requires InRange(hs, |vs|)
    ensures r == UpdateEach(vs, hs, Releaser(levels, now, release, poly))
  {
    r := vs;
    var i := 0;
    while i < |hs|
      invariant 0 <= i <= |hs|
      invariant r == UpdateEach(vs, hs[..i], Releaser(levels, now, release, poly))
    {
      var h := hs[i];
      assert hs[..i + 1][..i] == hs[..i];
      r := r[h := Release(r[h], levels(h), now, release, poly)];
      i := i + 1;
    }
    assert hs[..|hs|] == hs;
  }

  /** The live-update loop: `forEach` over the tracked handles, retuning each
      voice. */
  method RetuneEach(vs: seq<Voice>, hs: seq<nat>, waveform: Waveform, cutoff: real, q: real, now: real)
    returns (r: seq<Voice>)
    requires InRange(hs, |vs|)
    ensures r == UpdateEach(vs, hs, Retuner(waveform, cutoff, q, now))
  {
    r := vs;
    var i := 0;
    while i < |hs|
      invariant 0 <= i <= |hs|
      invariant r == UpdateEach(vs, hs[..i], Retuner(waveform, cutoff, q, now))
    {
      var h := hs[i];
      assert hs[..i + 1][..i] == hs[..i];
      r := r[h := Retune(r[h], waveform, cutoff, q, now)];
      i := i + 1;
    }
    assert hs[..|hs|] == hs;
  }

  class Piano {
    var params: Params
    var voices: seq<Voice>  // every voice built so far, by handle
    var active: seq<nat>    // the tracked voices (activeOscillators)
    var isNoteOn: bool
    ghost var clock: real   // the context's current time at the last operation

    /** The tracked voices are distinct voices of the context that are all
        running and routed to the destination, each with its filter's cutoff log in time order up to
        the clock; a note is on exactly when some voice is tracked, and the
        settings are within the sliders' ranges. */
    ghost predicate Valid()
      reads this
    {
      InSliderRange(params) &&
      InRange(active, |voices|) && Distinct(active) &&
      (forall k :: 0 <= k < |active| ==>
        Running(voices[active[k]]) && SettledBy(voices[active[k]].cutoff, clock)) &&
      (isNoteOn <==> active != [])
    }

    constructor (p: Params)
      requires InSliderRange(p)
      ensures Valid() && params == p
      ensures voices == [] && active == [] && !isNoteOn && clock == 0.0
    {
      params := p;
      clock := 0.0;
      voices := [];
      active := [];
      isNoteOn := false;
    }

    /** `createOscillator(freq, detune)`: builds one voice chain in the
        context with the current settings, starts it, and returns its
        handle. */
    method CreateOscillator(freq: real, detune: real, now: real) returns (h: nat)
      requires clock <= now
      modifies this`voices
      ensures h == |old(voices)|
      ensures voices == old(voices) + [NewVoice(freq, detune, params, now)]
    {
      h := |voices|;
      voices := voices + [NewVoice(freq, detune, params, now)];
    }

    /** `noteOn(note)`: builds three voices at the note's frequency, detuned
        by 0, -width and +width cents, and tracks exactly those, in poly mode
        as in mono mode. The voices tracked before are neither stopped nor
        disconnected. An index outside the catalogue fails before anything
        is built. */
    method NoteOn(note: int, now: real) returns (ok: bool)
      requires Valid() && clock <= now
      modifies this`voices, this`active, this`isNoteOn, this`clock
      ensures Valid() && clock == now
      ensures ok <==> 0 <= note < |NoteTable.Notes|
      ensures !ok ==> voices == old(voices) && active == old(active) && isNoteOn == old(isNoteOn)
      ensures ok ==>
        voices == old(voices) + Unison(NoteTable.Notes[note].frequency, params, now) &&
        active == [|old(voices)|, |old(voices)| + 1, |old(voices)| + 2] && isNoteOn
    {
      var found := NoteTable.Lookup(note);
      clock := now;
      if found.None? {
        return false;
      }
      var freq := found.value.frequency;
      var setWidth := params.width;
      var center := CreateOscillator(freq, 0.0, now);
      var below := CreateOscillator(freq, -setWidth, now);
      var above := CreateOscillator(freq, setWidth, now);
      active := [center, below, above];
      isNoteOn := true;
      ok := true;
    }

    /** `noteOff()`: releases every tracked voice, reading the value its gain
        has at `now` from `levels`, then tracks none and clears the note
        flag. The release ramp takes the current release time, and the
        voices are disconnected at once exactly when poly mode is off. */
    method NoteOff(levels: nat -> real, now: real)
      requires Valid() && clock <= now
      modifies this`voices, this`active, this`isNoteOn, this`clock
      ensures Valid() && clock == now
      ensures active == [] && !isNoteOn
      ensures |voices| == |old(voices)|
      ensures forall k :: 0 <= k < |voices| ==>
        voices[k] == (if k in old(active) then Release(old(voices)[k], levels(k), now, params.adsr.release, params.isPolyMode)
                      else old(voices)[k])
    {
      var release, poly := params.adsr.release, params.isPolyMode;
      var vs := ReleaseEach(voices, active, levels, now, release, poly);
      UpdateEachAt(voices, active, Releaser(levels, now, release, poly));
      voices := vs;
      clock := now;
      active := [];
      isNoteOn := false;
    }

    /** The live-update effect at time `now`: while a note is on, every
        tracked voice takes the current waveform, filter cutoff (not halved)
        and Q. Nothing else changes; with no note on, nothing changes. */
    method Propagate(now: real)
      requires Valid() && clock <= now
      modifies this`voices, this`clock
      ensures Valid() && clock == now
      ensures !isNoteOn ==> voices == old(voices)
      ensures |voices| == |old(voices)|
      ensures isNoteOn ==> voices == UpdateEach(old(voices), active, Retuner(params.waveform, params.lowpassFrequency, params.qValue, now))
    {
      if !isNoteOn {
        clock := now;
        return;
      }
      var wave, cutoff, q := params.waveform, params.lowpassFrequency, params.qValue;
      var vs := RetuneEach(voices, active, wave, cutoff, q, now);
      RetuneEachSettled(voices, active, wave, cutoff, q, clock, now);
      voices := vs;
      clock := now;
    }

    /** New settings from the synthesizer, at time `now`. The effect runs
        when the waveform, cutoff, Q or envelope changed; a change of volume,
        width, delay or poly mode alone leaves every voice as it is. */
    method SetParams(p: Params, now: real)
      requires Valid() && InSliderRange(p) && clock <= now
      modifies this`params, this`voices, this`clock
      ensures Valid() && params == p && clock == now
      ensures EffectInputs(old(params)) == EffectInputs(p) || !isNoteOn ==> voices == old(voices)
      ensures |voices| == |old(voices)|
      ensures forall k :: 0 <= k < |voices| ==>
        voices[k] == (if EffectInputs(old(params)) != EffectInputs(p) && isNoteOn && k in active
                      then Retune(old(voices)[k], p.waveform, p.lowpassFrequency, p.qValue, now)
                      else old(voices)[k])
    {
      var changed := EffectInputs(params) != EffectInputs(p);
      params := p;
      if changed {
        Propagate(now);
        UpdateEachAt(old(voices), active, Retuner(p.waveform, p.lowpassFrequency, p.qValue, now));
      } else {
        clock := now;
      }
    }

    /** `noteOn` at `now` followed by the effect it triggers: the tracked
        list and the note flag changed, so after the re-render the effect
        runs at `later`. Each new voice then carries the current waveform and
        Q, and its cutoff is half the setting from `now` and the full setting
        from `later` on. */
    method PressKey(note: int, now: real, later: real) returns (ok: bool)
      requires Valid() && clock <= now <= later
      modifies this`voices, this`active, this`isNoteOn, this`clock
      ensures Valid() && clock == (if ok then later else now)
      ensures ok <==> 0 <= note < |NoteTable.Notes|
      ensures !ok ==> voices == old(voices) && active == old(active) && isNoteOn == old(isNoteOn)
      ensures ok ==>
        isNoteOn && |voices| == |old(voices)| + 3 &&
        active == [|old(voices)|, |old(voices)| + 1, |old(voices)| + 2]
      ensures ok ==> forall k :: 0 <= k < 3 ==>
        voices[|old(voices)| + k] == Retune(Unison(NoteTable.Notes[note].frequency, params, now)[k],
                                            params.waveform, params.lowpassFrequency, params.qValue, later)
      ensures forall k :: 0 <= k < |old(voices)| ==> k < |voices| && voices[k] == old(voices)[k]
    {
      ok := NoteOn(note, now);
      if ok {
        ghost var built := voices;
        Propagate(later);
        RetunedAfterNoteOn(old(voices), Unison(NoteTable.Notes[note].frequency, params, now), built, voices,
                           active, params.waveform, params.lowpassFrequency, params.qValue, later);
      }
    }
  }

  /** When the effect follows a note-on, the three voices the note-on built
      are the ones it retunes, and the voices built before are untouched. */
  lemma RetunedAfterNoteOn(before: seq<Voice>, u: seq<Voice>, built: seq<Voice>, after: seq<Voice>,
                           tracked: seq<nat>, waveform: Waveform, cutoff: real, q: real, t: real)
    requires |u| == 3 && built == before + u
    requires tracked == [|before|, |before| + 1, |before| + 2]
    requires after == UpdateEach(built, tracked, Retuner(waveform, cutoff, q, t))
    ensures forall k :: 0 <= k < 3 ==> after[|before| + k] == Retune(u[k], waveform, cutoff, q, t)
    ensures forall k :: 0 <= k < |before| ==> k < |after| && after[k] == before[k]
  {
    UpdateEachAt(built, tracked, Retuner(waveform, cutoff, q, t));
    forall k | 0 <= k < 3
      ensures after[|before| + k] == Retune(u[k], waveform, cutoff, q, t)
    {
      assert tracked[k] == |before| + k && built[|before| + k] == u[k];
    }
    forall k | 0 <= k < |before|
      ensures after[k] == before[k]
    {
      assert k !in tracked && built[k] == before[k];
    }
  }

  /** The opening scenario with the default settings: `noteOn` for C-3 and
      the effect it triggers at time 0, then `noteOff` at 0.05 s, mid-attack,
      when the gain stands at 0.15. The release events go after the
      envelope's own events in the gain log, and the envelope's ramp to 0.3
      at 0.1 s is still there. */
  method DefaultScenario() {
    var piano := new Piano(DefaultParams);
    var before := piano.voices;
    var ok := piano.PressKey(0, 0.0, 0.0);
    assert ok;
    var v := piano.voices[|before| + 1];
    assert v == Retune(Unison(NoteTable.Notes[0].frequency, DefaultParams, 0.0)[1], Sawtooth, 1000.0, 1.0, 0.0);
    assert NoteTable.Notes[0].frequency == 130.81;
    assert v.frequency == 130.81 && v.detune == -10.0;
    assert v.gain == [SetValue(0.0, 0.0), LinearRamp(0.3, 0.1), LinearRamp(0.18, 0.2), LinearRamp(0.0, 0.7)];
    assert v.cutoff == [SetValue(500.0, 0.0), SetValue(1000.0, 0.0)];
    RetuneSetsCutoff(Unison(130.81, DefaultParams, 0.0)[1], Sawtooth, 1000.0, 1.0, 0.0, 0.0);
    assert LastSetBy(v.cutoff, 0.0) == Some(1000.0);
    var h := 1;
    piano.NoteOff((k: nat) => 0.15, 0.05);
    assert h in [0, 1, 2];
    assert piano.voices[h].stopAt == Some(0.55);
    assert piano.voices[h].gain == [SetValue(0.0, 0.0), LinearRamp(0.3, 0.1), LinearRamp(0.18, 0.2), LinearRamp(0.0, 0.7),
                                    SetValue(0.15, 0.05), LinearRamp(0.0, 0.55)];
    assert !Routed(piano.voices[h].edges);
  }
}
