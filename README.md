# Keyboard voice engine of the retro synthesizer

This project models the `Piano` keyboard of the synthesizer. It covers:

- the catalogue of thirteen notes;
- how `noteOn` (a key's `click`) builds three detuned voices (an oscillator
  per voice, each with its own lowpass filter, delay line and gain stage,
  routed to the destination, with an attack/decay/sustain/release envelope
  scheduled on the gain);
- how `noteOff` (any key's `mouseup`) ramps the tracked voices to silence,
  stops them and, outside poly mode, disconnects them. The `mouseup` fires
  before the `click` of the same gesture, so it releases the voices of the
  previous click;
- how the live-update effect pushes the current waveform, filter cutoff and Q
  into the tracked voices.

The keyboard's state is the tracked voice list (`activeOscillators`) and the
note flag (`isNoteOn`). The audio context, which keeps every voice ever built,
is the class `Synth.Piano`. Its fields are:

- `voices`: every voice built so far, indexed by a handle;
- `active`: the handles of the tracked voices;
- `isNoteOn`;
- `params`: the settings it last received;
- `clock`, a ghost field: the context's time at the last operation.

A voice (`Voices.Voice`) records its oscillator's pitch, detune, waveform and
start/stop, its filter's type, cutoff automation log and Q, its delay time, its
gain automation log and its connections. The Web Audio vocabulary lives in
`Audio`: waveforms, filter types, the stages of a voice, connections, reaching
the destination, and the `setValueAtTime` / `linearRampToValueAtTime` events
of an AudioParam.

The current time of the audio context is a parameter (`now`, `later`) of every
operation. The context's clock never goes back, so each operation requires
`now` to be at least `clock` and sets `clock` to the time it ran at. The class
invariant keeps the filter's cutoff log of every tracked voice in time order,
with no event after `clock` (`Audio.SettledBy`). The value
`gainNode.gain.value` that a release reads is a parameter `levels`, giving the
level per handle.

Modules:
- `Wrappers`: `Option`.
- `NoteTable`: the note catalogue and its lookup.
- `Audio`: the Web Audio values, `Disconnect` and `LastSetBy`.
- `Voices`: settings, a voice, and what creating, releasing and updating do
  to one.
- `Synth`: the two `forEach` loops over the tracked voices (`ReleaseEach`,
  `RetuneEach`), and the `Piano` class with `NoteOn`, `NoteOff`, the effect
  (`Propagate`) and the settings change that triggers it.

`Synth.DefaultScenario` plays the initial settings through. It runs
`noteOn` for C-3 at 0 s, followed by the effect it triggers. This builds a
side voice at 130.81 Hz, detuned by -10 cents, with the envelope
0 -> 0.3 -> 0.18 -> 0. After the effect its filter holds 1000 Hz. It then
runs `noteOff` at 0.05 s, when the gain stands at 0.15. The voice's gain log
is then: set 0 at 0 s, ramp to 0.3 at 0.1 s, ramp to 0.18 at 0.2 s, ramp to 0
at 0.7 s, set 0.15 at 0.05 s, ramp to 0 at 0.55 s. The voice stops at 0.55 s
and is cut off from the destination.

Facts about the code that the model keeps:

- Every `createOscillator` call builds its own filter, delay and gain node;
  no filter is shared between voices.
- A note-on in mono mode does not release the voices it stops tracking. In
  poly mode a note-on replaces the tracked list rather than adding to it.
  In both modes the old voices are neither stopped nor disconnected: they
  play out their envelope to silence, untracked, and their oscillators keep
  running.
- The last envelope ramp, to silence over the release time, is scheduled when
  the voice is built. So no note holds the sustain level: each voice's gain
  reaches 0 at build time + attack + decay + release, whenever `noteOff`
  comes.
- Building a voice leaves the filter's Q at its default of 1. Only the effect
  sets Q.
- The code never checks ranges. The slider bounds are modelled as the class
  invariant (`Voices.InSliderRange`).
- The effect runs after a note-on re-render and sets the full cutoff, which
  overrides the halved cutoff a new voice is built with
  (`Voices.UpdateOverridesHalvedCutoff`, `Synth.Piano.PressKey`).
- A release does not cancel scheduled events. The envelope's own ramps stay
  in the gain log ahead of the release events (`Voices.Release`). So a
  release before the decay ends is not a smooth fade: the gain first follows
  the envelope's remaining ramps, as in the scenario above, where it climbs
  back to 0.3 at 0.1 s.

## Model

| member | source | states |
|---|---|---|
| NoteTable.Lookup | src/components/Synthesizer.jsx:3-17 | a note exists exactly for indices 0..12; it is that catalogue entry; it is a sharp exactly from index 8 on |
| NoteTable.StepsUpRises | src/components/Synthesizer.jsx:4-16 | a list whose neighbours rise in pitch rises in pitch between any two entries |
| NoteTable.NaturalsRise | src/components/Synthesizer.jsx:4-11 | the catalogue has 13 entries; the first 8 are naturals C-3..C-4 in strictly rising pitch |
| NoteTable.SharpsRise | src/components/Synthesizer.jsx:12-16 | entries 8..12 are the sharps, in strictly rising pitch |
| NoteTable.SharpsBetweenNaturals | src/components/Synthesizer.jsx:4-16 | each sharp lies strictly between the two naturals it sits between on the keyboard |
| NoteTable.LabelsDistinct | src/components/Synthesizer.jsx:144-146 | the labels used as element keys are pairwise distinct |
| Audio.ChainIsRouted | src/components/Synthesizer.jsx:95-99 | the chain oscillator -> filter -> delay -> gain -> destination carries the oscillator to the destination |
| Audio.Disconnect | src/components/Synthesizer.jsx:129-131 | `disconnect()` removes exactly the outgoing connections of the node and keeps every other one |
| Audio.DisconnectedIsCutOff | src/components/Synthesizer.jsx:129-131 | after the oscillator is disconnected, no path of any length leads from it to the destination |
| Audio.LastSetByIsLatest | src/components/Synthesizer.jsx:41-44 | the value a log of set events holds at `t` is absent exactly when every event is after `t`; otherwise it is the value of the event at `LastSetIndex`, which is at or before `t`, and every later event in the log is after `t` |
| Audio.TimeOrderedLastSetBy | src/components/Synthesizer.jsx:41-44 | in a log in time order, no event at or before `t` is later in time than the event `LastSetBy` reads, so that is the value an AudioParam holds at `t` |
| Audio.SettledByIsOrdered | src/components/Synthesizer.jsx:41-44 | a log is settled by a clock exactly when its times never decrease and no event lies after the clock |
| Audio.SetKeepsSettled | src/components/Synthesizer.jsx:41-44 | a `setValueAtTime` at the current time, which is not before the clock, keeps a settled log settled by the new time |
| Voices.DefaultsInRange | src/components/Synthesizer.jsx:161-173 | the initial settings lie within the slider ranges of lines 186-329 |
| Voices.Envelope | src/components/Synthesizer.jsx:74-89 | the gain log is: silence at `now`, then ramps to the volume at `now + attack`, to `sustain * volume` after the decay, and to silence after the release; its times never decrease for non-negative durations; each value lies between silence and the peak for volume >= 0 and sustain in [0, 1] |
| Voices.SustainBelowPeak | src/components/Synthesizer.jsx:82-85 | the sustain level lies between silence and the volume |
| Voices.NewVoice | src/components/Synthesizer.jsx:58-103 | a built voice has the requested pitch and detune and the current waveform; it is started and not stopped; it has a lowpass filter with default Q and a cutoff log of one event, half the setting at `now`; it has the current delay and the envelope on its gain; it is wired as the full chain |
| Voices.NewVoiceHalvesCutoff | src/components/Synthesizer.jsx:67-72 | a new voice's filter holds nothing before `now` and half the cutoff setting from `now` on |
| Voices.NewVoiceRouted | src/components/Synthesizer.jsx:95-100 | a new voice reaches the destination |
| Voices.Unison | src/components/Synthesizer.jsx:106-112 | a note-on builds three running, routed voices at the note's frequency, with the current waveform and the same envelope, detuned by 0, -width and +width |
| Voices.Release | src/components/Synthesizer.jsx:119-132 | a release appends a set to the current level at `now` and a ramp to 0 at `now + release` to the gain log, keeping all earlier events; it stops the oscillator at `now + release`; it disconnects the oscillator exactly outside poly mode; it leaves waveform, cutoff and Q alone |
| Voices.ReleaseCutsOff | src/components/Synthesizer.jsx:128-131 | a released running, routed voice still reaches the destination if and only if poly mode is on |
| Voices.Retune | src/components/Synthesizer.jsx:39-46 | the effect gives a voice the current waveform and Q and appends a set of the full cutoff at `now`; envelope, connections and stop time are unchanged |
| Voices.RetuneSetsCutoff | src/components/Synthesizer.jsx:41-44 | after the effect the filter holds the new cutoff from `now` on, and what it held before `now` is unchanged (for a log in time order, which the class invariant keeps for tracked voices) |
| Voices.UpdateOverridesHalvedCutoff | src/components/Synthesizer.jsx:37-72 | a voice built at `now` and reached by the effect at `later` holds no cutoff before `now`, half the setting until `later`, and the full setting from `later` on |
| Voices.UpdateEach | src/components/Synthesizer.jsx:39-46 | applying a per-voice step over a handle list keeps the number of voices |
| Voices.UpdateEachAt | src/components/Synthesizer.jsx:119-132 | for distinct handles, a `forEach` updates each listed voice exactly once from its original state and leaves every other voice as it was |
| Voices.RetuneEachSettled | src/components/Synthesizer.jsx:39-46 | after the effect at `now`, each tracked voice still runs and stays routed to the destination, and its cutoff log is in time order with no event after `now` |
| Synth.ReleaseEach | src/components/Synthesizer.jsx:119-132 | the release `forEach` loop computes `UpdateEach` of the tracked handles with the release step, the handle's own level going to `Release` |
| Synth.RetuneEach | src/components/Synthesizer.jsx:39-46 | the effect's `forEach` loop computes `UpdateEach` of the tracked handles with the `Retune` step |
| Synth.RetunedAfterNoteOn | src/components/Synthesizer.jsx:37-55 | when the effect follows a note-on, the three voices it built are the ones retuned, and the voices built before are untouched |
| Synth.Piano.constructor | src/components/Synthesizer.jsx:33-34 | the keyboard starts with no tracked voices, the note flag off and the invariant established |
| Synth.Piano.CreateOscillator | src/components/Synthesizer.jsx:58-103 | `createOscillator` appends exactly one new voice to the context and returns its handle |
| Synth.Piano.NoteOn | src/components/Synthesizer.jsx:105-116 | an index outside the catalogue changes nothing and reports failure; otherwise three unison voices are appended, exactly those are tracked, the note flag is on, and the old voices stay in the context untouched |
| Synth.Piano.NoteOff | src/components/Synthesizer.jsx:118-135 | every tracked voice is released with its own current level and the current release time and poly mode; every other voice is unchanged; nothing is tracked and the note flag is off |
| Synth.Piano.Propagate | src/components/Synthesizer.jsx:37-47 | while a note is on, the voices become `UpdateEach` of the tracked handles with the `Retune` step to the current waveform, full cutoff and Q (by `Voices.UpdateEachAt`, each tracked voice retuned once and every other voice unchanged); with no note on nothing changes; the clock moves to `now` and the invariant holds |
| Synth.Piano.SetParams | src/components/Synthesizer.jsx:48-55 | a change of waveform, cutoff, Q or envelope runs the effect; a change of anything else leaves every voice unchanged |
| Synth.Piano.PressKey | src/components/Synthesizer.jsx:37-116 | `noteOn` at `now` followed by the effect it triggers at `later`: the three new voices are the unison voices retuned at `later`, the older voices are unchanged, and an out-of-range index changes nothing |

## Left out

- The page markup, styles and sliders are not modelled. The slider bounds
  only appear as the precondition `Voices.InSliderRange`.
- React's batched, asynchronous state updates and re-renders are not modelled.
  The effect is a method (`Synth.Piano.Propagate`) that the caller runs.
  `Synth.Piano.PressKey` fixes the order: note-on, then the effect.
  `Synth.Piano.SetParams` runs the effect when a dependency changes.
- The audio clock and the value `gain.value` reads at run time are
  parameters. The model does not evaluate automation at audio rate.
  `Audio.LastSetBy` reads every event as a set, so ramps are not
  interpolated. It is only applied to cutoff logs, which hold set events
  only.
- The frequency and detune automation on the oscillator are not modelled as
  logs. Each is one value set once, at creation.
- The delay time is modelled as one value. `createDelay()`'s maximum delay of
  1 s is not modelled, because the slider stops at 0.5 s.
- Numbers are mathematical reals, not IEEE doubles. Values that arrive from
  sliders as strings, with JavaScript's coercion, are not modelled.
- Voices are records in a sequence indexed by handle, not heap objects. The
  audio context's node allocation and its failure, and the browser's garbage
  collection of stopped nodes, are not modelled.
- The "Poly On/Off" button (line 338) is not modelled as a separate
  operation. It is a settings change covered by `Synth.Piano.SetParams`.
- The mouse events of lines 147-148 are not modelled as one gesture. On a
  click, the `mouseup` fires before the `click`, so each click runs `noteOff`
  before its `noteOn`. The model treats them as independent operations:
  `Synth.Piano.NoteOff`, then `Synth.Piano.PressKey`.
