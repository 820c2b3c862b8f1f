/**
 The tone engine: note-on and note-off over the voice registry, as pure
 functions on a snapshot of the engine's state. Each key identifier is
 either silent (absent from the registry) or sounding (present, with exactly
 one voice). The audio graph itself (oscillator, gain node, envelopes) is
 abstracted to the facts the engine fixes when it builds or releases a voice.
 */
module ToneEngine {
  import opened NoteTable

  /** Oscillator shape, as chosen on the waveform selector. */
  datatype Waveform = Sine | Square | Sawtooth | Triangle

  /** What note-on set up for one sounding key: pitch, shape and the audio time it started. */
  datatype Voice = Voice(frequency: real, waveform: Waveform, startTime: real)

  /** A release that note-off handed to the audio clock: fade `voice` out and stop it at `stopTime`. */
  datatype ScheduledStop = ScheduledStop(key: string, voice: Voice, stopTime: real)

  /** Seconds between note-off and the scheduled stop of the oscillator. */
  const ReleaseTime: real := 0.1

  /**
   The engine's state: the voice registry, the set of on-screen keys shown
   as pressed, and the releases scheduled so far (oldest first).
   */
  datatype EngineState = EngineState(active: map<string, Voice>, highlighted: set<string>, scheduled: seq<ScheduledStop>)

  /** The state at page load: nothing sounding, nothing highlighted, nothing scheduled. */
  const Silent: EngineState := EngineState(map[], {}, [])

  /** Only supported keys sound, and each voice plays its key's table frequency. */
  ghost predicate Consistent(s: EngineState) {
    && s.active.Keys <= Notes.Keys
    && forall key :: key in s.active ==> s.active[key].frequency == Notes[key]
  }

  /** The on-screen highlight shows exactly the sounding keys. */
  ghost predicate HighlightTracks(s: EngineState) {
    s.highlighted == s.active.Keys
  }

  /**
   note-on: an unsupported key, or a key that is already sounding, changes
   nothing; otherwise the key gets a fresh voice at its table frequency and
   its on-screen key is highlighted. No other key is affected.
   */
  function NoteOn(s: EngineState, key: string, wave: Waveform, now: real): (r: EngineState)
    ensures key !in Notes || key in s.active ==> r == s
    ensures key in Notes ==> key in r.active
    ensures key in Notes && key !in s.active ==>
      && r.active[key].frequency == Notes[key]
      && r.active[key].waveform == wave
      && r.active[key].startTime == now
      && key in r.highlighted
    ensures r.active - {key} == s.active - {key}
    ensures r.highlighted - {key} == s.highlighted - {key}
    ensures r.scheduled == s.scheduled
  {
    if key !in Notes || key in s.active then s
    else
      var voice := Voice(Frequency(key), wave, now);
      s.(active := s.active[key := voice], highlighted := s.highlighted + {key})
  }

  /**
   note-off: a key that is not sounding changes nothing; otherwise its voice
   leaves the registry at once, its highlight is cleared, and a release of
   exactly that voice is scheduled to stop `ReleaseTime` seconds later.
   No other key is affected.
   */
  function NoteOff(s: EngineState, key: string, now: real): (r: EngineState)
    ensures key !in s.active ==> r == s
    ensures key !in r.active
    ensures r.active.Keys == s.active.Keys - {key}
    ensures forall other :: other in r.active ==> r.active[other] == s.active[other]
    ensures key in s.active ==> r.highlighted == s.highlighted - {key}
    ensures key in s.active ==>
      r.scheduled == s.scheduled + [ScheduledStop(key, s.active[key], now + ReleaseTime)]
  {
    if key !in s.active then s
    else
      var release := ScheduledStop(key, s.active[key], now + ReleaseTime);
      s.(active := s.active - {key}, highlighted := s.highlighted - {key},
         scheduled := s.scheduled + [release])
  }

  /** A second note-on for the same key, whatever its waveform and time, is a no-op. */
  lemma NoteOnIdempotent(s: EngineState, key: string, w1: Waveform, t1: real, w2: Waveform, t2: real)
    ensures NoteOn(NoteOn(s, key, w1, t1), key, w2, t2) == NoteOn(s, key, w1, t1)
  {
  }

  /** A second note-off for the same key is a no-op: a stray release is harmless. */
  lemma NoteOffIdempotent(s: EngineState, key: string, t1: real, t2: real)
    ensures NoteOff(NoteOff(s, key, t1), key, t2) == NoteOff(s, key, t1)
  {
  }

  /** Both operations keep every voice on a supported key at that key's frequency. */
  lemma ConsistentPreserved(s: EngineState, key: string, wave: Waveform, now: real)
    requires Consistent(s)
    ensures Consistent(NoteOn(s, key, wave, now))
    ensures Consistent(NoteOff(s, key, now))
  {
  }

  /** If the highlight shows exactly the sounding keys, it still does after either operation. */
  lemma HighlightPreserved(s: EngineState, key: string, wave: Waveform, now: real)
    requires HighlightTracks(s)
    ensures HighlightTracks(NoteOn(s, key, wave, now))
    ensures HighlightTracks(NoteOff(s, key, now))
  {
  }

  /**
   Pressing and releasing a silent supported key leaves the registry and the
   highlight as they were; only the scheduled release of the new voice remains.
   */
  lemma NoteOnOffRestores(s: EngineState, key: string, wave: Waveform, t1: real, t2: real)
    requires HighlightTracks(s)
    requires key in Notes && key !in s.active
    ensures var r := NoteOff(NoteOn(s, key, wave, t1), key, t2);
      && r.active == s.active
      && r.highlighted == s.highlighted
      && r.scheduled == s.scheduled + [ScheduledStop(key, Voice(Notes[key], wave, t1), t2 + ReleaseTime)]
  {
  }

  /**
   Presses of two different keys are independent: the registry and highlight
   do not depend on the order in which they arrive.
   */
  lemma NoteOnCommutes(s: EngineState, k1: string, w1: Waveform, t1: real, k2: string, w2: Waveform, t2: real)
    requires k1 != k2
    ensures NoteOn(NoteOn(s, k1, w1, t1), k2, w2, t2) == NoteOn(NoteOn(s, k2, w2, t2), k1, w1, t1)
  {
  }

  /**
   Releases of two different keys are independent for the registry and the
   highlight; only the order of the two scheduled releases differs.
   */
  lemma NoteOffCommutes(s: EngineState, k1: string, t1: real, k2: string, t2: real)
    requires k1 != k2
    ensures NoteOff(NoteOff(s, k1, t1), k2, t2).active == NoteOff(NoteOff(s, k2, t2), k1, t1).active
    ensures NoteOff(NoteOff(s, k1, t1), k2, t2).highlighted == NoteOff(NoteOff(s, k2, t2), k1, t1).highlighted
    ensures multiset(NoteOff(NoteOff(s, k1, t1), k2, t2).scheduled)
         == multiset(NoteOff(NoteOff(s, k2, t2), k1, t1).scheduled)
  {
  }

  /** Pressing "a" from page load sounds one voice at 261.63 Hz and highlights "a". */
  lemma PressAFromSilence(wave: Waveform, now: real)
    ensures NoteOn(Silent, "a", wave, now).active == map["a" := Voice(261.63, wave, now)]
    ensures NoteOn(Silent, "a", wave, now).highlighted == {"a"}
  {
  }

  /**
   Releasing "a" right after pressing it empties the registry and the
   highlight at once; the fade-out is only scheduled, to end 0.1 s later.
   */
  lemma PressReleaseA(wave: Waveform, t1: real, t2: real)
    ensures var r := NoteOff(NoteOn(Silent, "a", wave, t1), "a", t2);
      && r.active == map[]
      && r.highlighted == {}
      && r.scheduled == [ScheduledStop("a", Voice(261.63, wave, t1), t2 + 0.1)]
  {
  }

  /** Pressing "z", which is not in the table, from any state changes nothing. */
  lemma UnsupportedKeyIgnored(s: EngineState, wave: Waveform, now: real)
    ensures NoteOn(s, "z", wave, now) == s
  {
  }
}
