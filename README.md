# Virtual piano keyboard: voice registry model

This project models the note-triggering core of a browser piano, which lives in `script.js`. A fixed note table maps thirteen key identifiers (from "a" (C4) to "k" (C5) in declaration order: a, w, s, e, d, f, t, g, y, h, u, j, k) to frequencies. A voice registry records which keys are sounding. `playNote` adds a voice only for a supported key that is not already sounding. `stopNote` removes a voice only when one is present, and schedules its fade-out and stop 0.1 s later. Each operation also toggles the highlight of the matching on-screen key. A thin input adapter sends each event to one of the two operations:

- key-down: note-on for the lower-cased key name, unless the event is an auto-repeat;
- key-up: note-off for the lower-cased key name;
- mouse-down on an on-screen key: note-on for its `data-key`;
- mouse-up and mouse-leave on an on-screen key: note-off for its `data-key`.

Modules (one file each):

- `NoteTable` (`note_table.dfy`): the table as a `map<string, real>`, and its chromatic declaration order.
- `ToneEngine` (`tone_engine.dfy`): the engine's state as a value `EngineState`, made of three parts: the voice map, the highlighted keys, and the log of scheduled stops. Note-on and note-off are pure functions `NoteOn` and `NoteOff` on it, and the lemmas state what those functions promise.
- `InputAdapter` (`input_adapter.dfy`): events, key-name normalisation, one-event handling `Step`, and `Run` over a whole event history. It also holds the inductive lemmas about any history.
- `Piano` (`keyboard.dfy`): class `Keyboard`, which holds the mutable registry, highlight set and stop log as fields. Its methods `PlayNote`, `StopNote` and the event handlers update those fields in place. Each method is proved to leave the state that the matching `ToneEngine` or `InputAdapter` function gives, and to keep the class invariant.

The audio clock's current time and the waveform selector's value are parameters of the operations.

## Model

| member | source | states |
|---|---|---|
| NoteTable.Frequency | script.js:6-20 | a supported key's frequency is positive and lies within the octave from "a" (C4) to "k" (C5) |
| NoteTable.ChromaticCoversTable | script.js:6-20 | the declaration order lists thirteen keys, every one in the table, and every table key appears in it |
| NoteTable.ChromaticAscends | script.js:6-20 | frequencies strictly ascend along the declaration order, so no key is listed twice |
| NoteTable.EqualTempered | script.js:6-20 | neighbouring keys are an equal-tempered semitone apart: each ratio lies strictly between 1.0594 and 1.0595, so within 0.0001 of 2^(1/12) = 1.0594631; "k"/"a" lies strictly between 1.9999 and 2.0001, so within 0.0001 of 2 (an octave); "h" is A4 = 440 Hz |
| ToneEngine.NoteOn | script.js:25-50 | unsupported or already-sounding key: nothing changes; otherwise the key sounds with its table frequency, the given waveform and start time and is highlighted; other keys, other highlights and the stop log are unchanged |
| ToneEngine.NoteOff | script.js:52-71 | silent key: nothing changes; otherwise the key leaves the registry at once and loses its highlight, a stop of exactly its voice is logged at now + 0.1, and other voices are unchanged |
| ToneEngine.NoteOnIdempotent | script.js:26 | a second note-on for the same key, with any waveform and time, leaves the state of the first |
| ToneEngine.NoteOffIdempotent | script.js:53 | a second note-off for the same key changes nothing, so a stray release is harmless |
| ToneEngine.ConsistentPreserved | script.js:25-66 | both operations keep every registered key in the table, with its voice at that key's table frequency |
| ToneEngine.HighlightPreserved | script.js:45-70 | if the highlighted set equals the registry's keys, both operations keep it so |
| ToneEngine.NoteOnOffRestores | script.js:25-71 | when the highlight equals the registry's keys, note-on then note-off of a silent supported key restores the registry and highlight; the stop log gains exactly that voice's stop |
| ToneEngine.NoteOnCommutes | script.js:25-50 | note-ons of two different keys give the same state in either order |
| ToneEngine.NoteOffCommutes | script.js:52-71 | note-offs of two different keys give the same registry and highlight in either order, and the same stops up to order |
| ToneEngine.PressAFromSilence | script.js:25-50 | from page load, pressing "a" leaves exactly one voice, at 261.63 Hz, and highlights only "a" |
| ToneEngine.PressReleaseA | script.js:25-71 | pressing then releasing "a" empties registry and highlight at once, with one stop logged 0.1 s after the release |
| ToneEngine.UnsupportedKeyIgnored | script.js:26 | note-on for "z" leaves any state unchanged |
| InputAdapter.LowerChar | script.js:75 | upper-case ASCII letters map to their lower-case letter, the KELVIN SIGN (U+212A) maps to "k", and every other character is unchanged |
| InputAdapter.ToLower | script.js:75-79 | a normalised key name has the same length, each of its characters is the lowering of the input character at that position, and no upper-case ASCII letter remains |
| InputAdapter.ToLowerIdempotent | script.js:75-79 | normalising a key name twice equals normalising it once |
| InputAdapter.Target | script.js:75-87 | keyboard events name the key by the lower-cased key name (`ToLower`); mouse-down, mouse-up and mouse-leave name it by the element's `data-key`, unchanged |
| InputAdapter.ActionOf | script.js:74-88 | an event asks for nothing exactly when it is an auto-repeated key-down, and asks for a release exactly when it is a key-up, mouse-up or mouse-leave |
| InputAdapter.Step | script.js:74-88 | auto-repeat: no change; press: the target sounds when supported or already sounding, and otherwise stays silent; release: the target is silent; every other key keeps its voice and highlight |
| InputAdapter.ReleaseRoutesToNoteOff | script.js:78-87 | every key-up, mouse-up and mouse-leave is note-off of its target, whatever the waveform |
| InputAdapter.PressRoutesToNoteOn | script.js:74-85 | every mouse-down, and every key-down that is not an auto-repeat, is note-on of its target |
| InputAdapter.RunConsistent | script.js:74-88 | after any event history, only table keys sound, each at its table frequency |
| InputAdapter.RunHighlightTracks | script.js:74-88 | after any event history that starts with the highlight equal to the registry's keys, the two are still equal |
| InputAdapter.RunSounding | script.js:74-88 | after any history, a key sounds if and only if its last press or release was a press and the key is supported (or, with no such event, it sounded at the start); so a key whose last event is a release is silent |
| InputAdapter.RunUntouched | script.js:74-88 | a key that no event in the history targets keeps exactly its voice (or silence) and its highlight |
| InputAdapter.AutoRepeatIgnored | script.js:74-76 | appending an auto-repeated key-down to any history changes nothing |
| InputAdapter.ReleaseAnyCase | script.js:74-80 | a key-down under one name followed by a key-up under any name with the same lower-cased form leaves that key silent |
| InputAdapter.ShiftedReleaseSilences | script.js:74-80 | the instance of the above where key-down "a" is followed by key-up "A" (Shift held): "a" is silent |
| InputAdapter.KelvinSignPlaysC5 | script.js:75 | from any state whose voices are table keys at table frequencies, a non-repeat key-down reporting the KELVIN SIGN lower-cases to "k" and leaves "k" sounding at 523.25 Hz |
| Piano.Keyboard.constructor | script.js:23 | the page starts with no voices, no highlight and no scheduled stops, and satisfies the invariant |
| Piano.Keyboard.PlayNote | script.js:25-50 | updates the fields in place to the state `NoteOn` gives, and keeps the invariant |
| Piano.Keyboard.StopNote | script.js:52-71 | updates the fields in place to the state `NoteOff` gives, and keeps the invariant |
| Piano.Keyboard.OnKeyDown | script.js:74-76 | leaves the state `Step` gives for that key-down: no change on auto-repeat, otherwise note-on of the lower-cased name |
| Piano.Keyboard.OnKeyUp | script.js:78-80 | leaves the state of note-off for the lower-cased key name |
| Piano.Keyboard.OnMouseDown | script.js:85 | leaves the state `Step` gives for a mouse-down, i.e. note-on of the element's `data-key` |
| Piano.Keyboard.OnMouseUp | script.js:86 | leaves the state of note-off for the element's `data-key` |
| Piano.Keyboard.OnMouseLeave | script.js:87 | leaves the state of note-off for the element's `data-key` |

## Left out

- Web Audio graph construction and scheduling (`createOscillator`, `createGain`, `connect`, `start`, `stop`, the gain automation calls at script.js:29-44 and 58-63): these are calls into the browser's audio engine, which runs them on its own thread. A voice records only its frequency, waveform and start time. A release records only the voice and the time its stop is scheduled for (now + 0.1 s).
- Envelope numbers (the 0.3 attack target, the 0.01 s attack ramp, the 0.001 release floor, and the cancelling and pinning of the gain value): these are floating-point amplitude behaviour of the audio engine, not logic the script computes.
- Floating point: frequencies and times are exact `real` values, not IEEE doubles.
- The audio clock (`audioCtx.currentTime`) and the waveform selector (`waveSelect.value`) are parameters. The waveform is one of the four oscillator shapes. What the browser does with a selector value that is not a valid oscillator type is not modelled.
- DOM work (`querySelector`, `classList`, `addEventListener` and the `forEach` binding loop, script.js:2-3, 48, 69, 83-88): highlighting is the abstract `highlighted` set, and every supported key is assumed to have exactly one on-screen element. The page's HTML is not part of this model.
- InputAdapter.ToLower: lowers the ASCII letters A-Z and the KELVIN SIGN (U+212A, which JavaScript lowers to "k"). JavaScript's `toLowerCase` applies the full Unicode case mapping, which the model does not: other non-ASCII letters are left unchanged, and mappings that change a string's length (such as U+0130 becoming two characters) are not modelled. None of those other mappings yields a single ASCII letter, so none of them yields a key of the note table.
- JavaScript property lookup on plain objects: the script's `notes[key]` and `activeOscillators[key]` also answer for names inherited from `Object.prototype`. Both tables are modelled as maps holding only their own entries. No lower-cased keyboard key name is such an inherited name.
- The asynchronous fade and stop themselves: the model logs that a stop was scheduled. It does not model the later moment when the oscillator halts.
