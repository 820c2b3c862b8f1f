/**
 The input adapter: turns keyboard and pointer events into note-on and
 note-off requests. Keyboard events are named by the lower-cased key name;
 pointer events by the on-screen key's `data-key` attribute. Auto-repeated
 key-downs are dropped; every key-up, mouse-up and mouse-leave releases.
 */
module InputAdapter {
  import opened NoteTable
  import opened ToneEngine

  /** Events the page listens to. */
  datatype Event =
    | KeyDown(name: string, repeat: bool)
    | KeyUp(name: string)
    | MouseDown(dataKey: string)
    | MouseUp(dataKey: string)
    | MouseLeave(dataKey: string)

  /**
   One event as it is handled: with the waveform the selector shows and the
   audio clock's time at that moment.
   */
  datatype Input = Input(event: Event, wave: Waveform, now: real)

  /** What an event asks the tone engine for. */
  datatype Action = Press | Release

  datatype Option<T> = None | Some(value: T)

  /**
   Lower-cases one character of a key name: the ASCII letters A-Z, and the
   KELVIN SIGN (U+212A), whose lower-case form is the ASCII letter "k". Every
   other character is left alone.
   */
  function LowerChar(c: char): (l: char)
    ensures 'A' <= c <= 'Z' ==> 'a' <= l <= 'z' && l as int - c as int == 'a' as int - 'A' as int
    ensures c == '\U{212A}' ==> l == 'k'
    ensures !('A' <= c <= 'Z') && c != '\U{212A}' ==> l == c
  {
    if 'A' <= c <= 'Z' then (c as int - 'A' as int + 'a' as int) as char
    else if c == '\U{212A}' then 'k'
    else c
  }

  /**
   Key-name normalisation, character by character: the result has the same
   length, each character is the lowering of the one it replaces, and no
   upper-case ASCII letter remains.
   */
  function ToLower(name: string): (r: string)
    ensures |r| == |name|
    ensures forall i :: 0 <= i < |name| ==> r[i] == LowerChar(name[i])
    ensures forall i :: 0 <= i < |r| ==> !('A' <= r[i] <= 'Z')
  {
    seq(|name|, i requires 0 <= i < |name| => LowerChar(name[i]))
  }

  /** Normalising twice is normalising once. */
  lemma ToLowerIdempotent(name: string)
    ensures ToLower(ToLower(name)) == ToLower(name)
  {
  }

  /**
   The key identifier an event is about: the normalised key name for keyboard
   events, the on-screen key's `data-key` unchanged for pointer events.
   */
  function Target(e: Event): (key: string)
    ensures e.KeyDown? || e.KeyUp? ==> key == ToLower(e.name)
    ensures e.MouseDown? || e.MouseUp? || e.MouseLeave? ==> key == e.dataKey
  {
    match e
    case KeyDown(name, _) => ToLower(name)
    case KeyUp(name) => ToLower(name)
    case MouseDown(k) => k
    case MouseUp(k) => k
    case MouseLeave(k) => k
  }

  /** What an event asks for: nothing for an auto-repeated key-down. */
  function ActionOf(e: Event): (a: Option<Action>)
    ensures a == None <==> e.KeyDown? && e.repeat
    ensures a == Some(Release) <==> e.KeyUp? || e.MouseUp? || e.MouseLeave?
  {
    match e
    case KeyDown(_, repeat) => if repeat then None else Some(Press)
    case KeyUp(_) => Some(Release)
    case MouseDown(_) => Some(Press)
    case MouseUp(_) => Some(Release)
    case MouseLeave(_) => Some(Release)
  }

  /**
   Handles one event. An auto-repeat changes nothing; a press makes a
   supported target sound (and leaves a sounding one sounding); a release
   silences the target; keys other than the target keep their voice (or
   their silence) and their highlight.
   */
  function Step(s: EngineState, input: Input): (r: EngineState)
    ensures ActionOf(input.event) == None ==> r == s
    ensures ActionOf(input.event) == Some(Press) ==>
      (Target(input.event) in r.active <==> Target(input.event) in Notes || Target(input.event) in s.active)
    ensures ActionOf(input.event) == Some(Release) ==> Target(input.event) !in r.active
    ensures r.active - {Target(input.event)} == s.active - {Target(input.event)}
    ensures r.highlighted - {Target(input.event)} == s.highlighted - {Target(input.event)}
  {
    var key := Target(input.event);
    match ActionOf(input.event)
    case None => s
    case Some(Press) => NoteOn(s, key, input.wave, input.now)
    case Some(Release) => NoteOff(s, key, input.now)
  }

  /** Every key-up, mouse-up and mouse-leave is a note-off for its target; the waveform plays no part. */
  lemma ReleaseRoutesToNoteOff(s: EngineState, input: Input)
    requires ActionOf(input.event) == Some(Release)
    ensures Step(s, input) == NoteOff(s, Target(input.event), input.now)
  {
  }

  /** Every mouse-down, and every key-down that is not an auto-repeat, is a note-on for its target. */
  lemma PressRoutesToNoteOn(s: EngineState, input: Input)
    requires ActionOf(input.event) == Some(Press)
    ensures Step(s, input) == NoteOn(s, Target(input.event), input.wave, input.now)
  {
  }

  /** Handles a sequence of events in order, oldest first. */
  function Run(s: EngineState, inputs: seq<Input>): EngineState
    decreases |inputs|
  {
    if inputs == [] then s
    else Step(Run(s, inputs[..|inputs| - 1]), inputs[|inputs| - 1])
  }

  /** The last press or release aimed at `key`, if any (auto-repeats do not count). */
  function LastAction(key: string, inputs: seq<Input>): (a: Option<Action>)
    decreases |inputs|
  {
    if inputs == [] then None
    else
      var e := inputs[|inputs| - 1].event;
      if Target(e) == key && ActionOf(e) != None then ActionOf(e)
      else LastAction(key, inputs[..|inputs| - 1])
  }

  /** Whether `key` sounds after a history whose last action for it was `last`, starting from `s`. */
  ghost predicate SoundsAfter(s: EngineState, key: string, last: Option<Action>) {
    match last
    case None => key in s.active
    case Some(Press) => key in Notes
    case Some(Release) => false
  }

  /** Handling any sequence of events keeps every voice on a supported key at its table frequency. */
  lemma {:induction false} RunConsistent(s: EngineState, inputs: seq<Input>)
    requires Consistent(s)
    ensures Consistent(Run(s, inputs))
    decreases |inputs|
  {
    if inputs != [] {
      var last := inputs[|inputs| - 1];
      RunConsistent(s, inputs[..|inputs| - 1]);
      ConsistentPreserved(Run(s, inputs[..|inputs| - 1]), Target(last.event), last.wave, last.now);
    }
  }

  /** Handling any sequence of events keeps the highlight equal to the set of sounding keys. */
  lemma {:induction false} RunHighlightTracks(s: EngineState, inputs: seq<Input>)
    requires HighlightTracks(s)
    ensures HighlightTracks(Run(s, inputs))
    decreases |inputs|
  {
    if inputs != [] {
      var last := inputs[|inputs| - 1];
      RunHighlightTracks(s, inputs[..|inputs| - 1]);
      HighlightPreserved(Run(s, inputs[..|inputs| - 1]), Target(last.event), last.wave, last.now);
    }
  }

  /**
   After any sequence of events, a key sounds exactly when its last press or
   release was a press of a supported key, or, if no press or release was
   aimed at it (auto-repeats do not count), when it sounded at the start.
   In particular a key whose last event was a key-up, mouse-up or
   mouse-leave is silent, so every full press/release sequence leaves the
   key silent.
   */
  lemma {:induction false} RunSounding(s: EngineState, inputs: seq<Input>, key: string)
    requires Consistent(s)
    ensures key in Run(s, inputs).active <==> SoundsAfter(s, key, LastAction(key, inputs))
    decreases |inputs|
  {
    if inputs != [] {
      var prefix := inputs[..|inputs| - 1];
      RunSounding(s, prefix, key);
      RunConsistent(s, prefix);
      var before := Run(s, prefix);
      var e := inputs[|inputs| - 1].event;
      if Target(e) != key || ActionOf(e) == None {
        assert (key in Run(s, inputs).active <==> key in before.active) by {
          assert Run(s, inputs).active - {Target(e)} == before.active - {Target(e)};
          if ActionOf(e) != None {
            assert key !in {Target(e)};
          }
        }
      }
    }
  }

  /**
   A key that no event in the sequence is aimed at keeps exactly the voice it
   had (or stays silent) and keeps its highlight.
   */
  lemma {:induction false} RunUntouched(s: EngineState, inputs: seq<Input>, key: string)
    requires forall i :: 0 <= i < |inputs| ==> Target(inputs[i].event) != key
    ensures key in Run(s, inputs).active <==> key in s.active
    ensures key in s.active ==> Run(s, inputs).active[key] == s.active[key]
    ensures key in Run(s, inputs).highlighted <==> key in s.highlighted
    decreases |inputs|
  {
    if inputs != [] {
      var prefix := inputs[..|inputs| - 1];
      RunUntouched(s, prefix, key);
      var before := Run(s, prefix);
      var t := Target(inputs[|inputs| - 1].event);
      var after := Run(s, inputs);
      assert key in after.active <==> key in before.active by {
        assert key !in {t};
        assert after.active - {t} == before.active - {t};
      }
      assert key in after.active ==> after.active[key] == before.active[key] by {
        if key in after.active {
          assert (after.active - {t})[key] == (before.active - {t})[key];
        }
      }
      assert key in after.highlighted <==> key in before.highlighted by {
        assert key !in {t};
        assert after.highlighted - {t} == before.highlighted - {t};
      }
    }
  }

  /** An auto-repeated key-down added to any history changes nothing. */
  lemma AutoRepeatIgnored(s: EngineState, inputs: seq<Input>, name: string, wave: Waveform, now: real)
    ensures Run(s, inputs + [Input(KeyDown(name, true), wave, now)]) == Run(s, inputs)
  {
  }

  /**
   A key pressed under one spelling and released under another that
   normalises to the same identifier (Shift or Caps Lock changed in between)
   is silent afterwards: both handlers lower-case the key name.
   */
  lemma ReleaseAnyCase(s: EngineState, n1: string, n2: string, w1: Waveform, t1: real, w2: Waveform, t2: real)
    requires ToLower(n1) == ToLower(n2)
    ensures ToLower(n1) !in Run(s, [Input(KeyDown(n1, false), w1, t1), Input(KeyUp(n2), w2, t2)]).active
  {
    var inputs := [Input(KeyDown(n1, false), w1, t1), Input(KeyUp(n2), w2, t2)];
    assert inputs[..1][..0] == [];
  }

  /**
   Pressing "a" and releasing it with Shift held (the key-up then reports "A")
   still silences the note, because both names normalise to "a".
   */
  lemma ShiftedReleaseSilences(s: EngineState, w1: Waveform, t1: real, w2: Waveform, t2: real)
    ensures var r := Run(s, [Input(KeyDown("a", false), w1, t1), Input(KeyUp("A"), w2, t2)]);
      "a" !in r.active
  {
    assert ToLower("A") == "a" == ToLower("a");
    ReleaseAnyCase(s, "a", "A", w1, t1, w2, t2);
  }

  /**
   A key-down reporting the KELVIN SIGN (U+212A) lower-cases to "k" and so
   plays C5 like a key-down "k" would: afterwards "k" sounds at 523.25 Hz,
   whether it was silent before or already sounding.
   */
  lemma KelvinSignPlaysC5(s: EngineState, wave: Waveform, now: real)
    requires Consistent(s)
    ensures var r := Step(s, Input(KeyDown("\U{212A}", false), wave, now));
      "k" in r.active && r.active["k"].frequency == 523.25
  {
    assert ToLower("\U{212A}") == "k";
  }
}
