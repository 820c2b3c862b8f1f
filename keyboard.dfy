/**
 The page's running state as one object: the voice registry, the on-screen
 highlight and the releases handed to the audio clock, updated in place by
 note-on, note-off and the event handlers bound to the keyboard and to each
 on-screen key.
 */
module Piano {
  import opened NoteTable
  import opened ToneEngine
  import opened InputAdapter

  class Keyboard {
    /** The note table the handlers consult. */
    const notes: map<string, real> := Notes

    /** The voice registry: one voice per sounding key. */
    var active: map<string, Voice>
    /** On-screen keys currently shown as pressed. */
    var highlighted: set<string>
    /** Releases scheduled on the audio clock so far, oldest first. */
    var scheduled: seq<ScheduledStop>

    /** The state as a value, for comparison with the tone engine's functions. */
    function Snapshot(): EngineState
      reads this
    {
      EngineState(active, highlighted, scheduled)
    }

    /** Only supported keys sound, at their table frequency, and the highlight shows exactly them. */
    ghost predicate Valid()
      reads this
    {
      Consistent(Snapshot()) && HighlightTracks(Snapshot())
    }

    /** Page load: nothing sounds, nothing is highlighted, nothing is scheduled. */
    constructor ()
      ensures Valid()
      ensures Snapshot() == Silent
    {
      active := map[];
      highlighted := {};
      scheduled := [];
    }

    /** note-on for `key`, with the selector's waveform and the audio clock's time. */
    method PlayNote(key: string, wave: Waveform, now: real)
      requires Valid()
      modifies this
      ensures Valid()
      ensures Snapshot() == NoteOn(old(Snapshot()), key, wave, now)
    {
      if key !in notes || key in active {
        return;
      }
      active := active[key := Voice(notes[key], wave, now)];
      highlighted := highlighted + {key};
    }

    /** note-off for `key` at the audio clock's time `now`. */
    method StopNote(key: string, now: real)
      requires Valid()
      modifies this
      ensures Valid()
      ensures Snapshot() == NoteOff(old(Snapshot()), key, now)
    {
      if key !in active {
        return;
      }
      var voice := active[key];
      scheduled := scheduled + [ScheduledStop(key, voice, now + ReleaseTime)];
      active := active - {key};
      highlighted := highlighted - {key};
    }

    /** Document key-down handler: note-on for the lower-cased key name unless auto-repeated. */
    method OnKeyDown(name: string, repeat: bool, wave: Waveform, now: real)
      requires Valid()
      modifies this
      ensures Valid()
      ensures Snapshot() == Step(old(Snapshot()), Input(KeyDown(name, repeat), wave, now))
    {
      if !repeat {
        PlayNote(ToLower(name), wave, now);
      }
    }

    /** Document key-up handler: note-off for the lower-cased key name. */
    method OnKeyUp(name: string, now: real)
      requires Valid()
      modifies this
      ensures Valid()
      ensures Snapshot() == NoteOff(old(Snapshot()), Target(KeyUp(name)), now)
    {
      StopNote(ToLower(name), now);
    }

    /** Mouse-down handler of the on-screen key whose `data-key` is `dataKey`. */
    method OnMouseDown(dataKey: string, wave: Waveform, now: real)
      requires Valid()
      modifies this
      ensures Valid()
      ensures Snapshot() == Step(old(Snapshot()), Input(MouseDown(dataKey), wave, now))
    {
      PlayNote(dataKey, wave, now);
    }

    /** Mouse-up handler of the on-screen key whose `data-key` is `dataKey`. */
    method OnMouseUp(dataKey: string, now: real)
      requires Valid()
      modifies this
      ensures Valid()
      ensures Snapshot() == NoteOff(old(Snapshot()), Target(MouseUp(dataKey)), now)
    {
      StopNote(dataKey, now);
    }

    /** Mouse-leave handler of the on-screen key whose `data-key` is `dataKey`. */
    method OnMouseLeave(dataKey: string, now: real)
      requires Valid()
      modifies this
      ensures Valid()
      ensures Snapshot() == NoteOff(old(Snapshot()), Target(MouseLeave(dataKey)), now)
    {
      StopNote(dataKey, now);
    }
  }
}
