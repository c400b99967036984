/**
 * The synthesizer's module-level state and handlers, as the source has them:
 * variables that the handlers update in place. The fields are the registry
 * (`activeNotes`), whether the audio context exists, and the browser's
 * timer table. Every method is proved to change the fields exactly as the
 * corresponding function of module Registry changes a `State`, so the
 * lemmas of module RegistryLemmas hold of the class as well.
 */
module Synth {
  import opened Options
  import opened KeyTable
  import opened Config
  import opened Registry
  import RegistryLemmas

  class Synth {
    /** `activeNotes`: key code to note record. */
    var notes: map<KeyCode, Note>
    /** The browser's pending `setTimeout` callbacks, each with the key it captured. */
    var pending: map<TimerId, KeyCode>
    /** The id the next `setTimeout` returns. */
    var nextTimer: TimerId
    /** Whether `audioCtx` (and with it `globalGain`) exists. */
    var audioReady: bool

    /** The fields as a registry state. */
    ghost function Abs(): State
      reads this
    {
      State(notes, pending, nextTimer, audioReady)
    }

    ghost predicate Valid()
      reads this
    {
      Registry.Valid(Abs())
    }

    /** The page as loaded. */
    constructor ()
      ensures Abs() == Initial() && Valid()
    {
      notes := map[];
      pending := map[];
      nextTimer := 1;
      audioReady := false;
    }

    /** `ensureAudioReady` / `initAudioIfNeeded`: create the context once, if the browser can. */
    method EnsureAudioReady(available: bool)
      modifies this
      ensures Abs() == EnsureAudio(old(Abs()), available)
    {
      if audioReady {
        return;
      }
      if available {
        audioReady := true;
      }
    }

    /** `releaseNote`: re-anchor the envelope and schedule a cleanup timer. */
    method ReleaseNote(code: KeyCode, now: real, current: real)
      modifies this
      ensures Abs() == Release(old(Abs()), code, now, current)
    {
      if code !in notes {
        return;
      }
      var note := notes[code];
      var id := nextTimer;
      nextTimer := nextTimer + 1;
      pending := pending[id := code];
      notes := notes[code := note.(releaseTimer := Some(id), gain := Envelope.ReleaseEvents(note.gain, now, current))];
    }

    /** `safeStopAndCleanup`: clear the recorded timer and delete the entry under the key. */
    method SafeStopAndCleanup(code: KeyCode)
      modifies this
      ensures Abs() == Cleanup(old(Abs()), code)
    {
      if code !in notes {
        return;
      }
      var note := notes[code];
      if note.releaseTimer.Some? {
        pending := pending - {note.releaseTimer.value};
      }
      notes := notes - {code};
    }

    /**
     * The browser runs pending timer `id`: the timer is forgotten and its
     * callback cleans up the key it captured. Called by the environment.
     */
    method FireTimer(id: TimerId)
      requires Valid()
      modifies this
      ensures Abs() == Registry.FireTimer(old(Abs()), id)
      ensures Valid()
    {
      RegistryLemmas.FireTimerPreservesValid(Abs(), id);
      if id !in pending {
        return;
      }
      var code := pending[id];
      pending := pending - {id};
      SafeStopAndCleanup(code);
    }

    /** `enforcePolyphonyLimit`: at or above the limit, release the oldest entry in scan order. */
    method EnforcePolyphonyLimit(env: Env)
      modifies this
      ensures Abs() == Enforce(old(Abs()), env)
    {
      var limit := PolyphonyLimit(env.polyphony);
      var keys := ScanOrder(notes.Keys);
      if |keys| < limit {
        return;
      }
      var oldestKey := ScanOldest(keys, notes);
      ReleaseNote(oldestKey, env.now, env.gainNow);
    }

    /** The bookkeeping of `playNote`: record a fresh entry under the key. */
    method PlayNote(code: KeyCode, env: Env)
      modifies this
      ensures Abs() == Registry.PlayNote(old(Abs()), code, env)
    {
      if !audioReady {
        return;
      }
      notes := notes[code := FreshNote(env)];
    }

    /** The `keydown` listener, after the key code is decoded. */
    method KeyDown(code: KeyCode, repeat: bool, env: Env)
      requires Valid()
      modifies this
      ensures Abs() == Registry.KeyDown(old(Abs()), code, repeat, env)
      ensures Valid()
    {
      RegistryLemmas.KeyDownPreservesValid(Abs(), code, repeat, env);
      if repeat {
        return;
      }
      if !InTable(code) {
        return;
      }
      EnsureAudioReady(env.audioAvailable);
      if !audioReady {
        return;
      }
      if code in notes {
        return;
      }
      EnforcePolyphonyLimit(env);
      PlayNote(code, env);
    }

    /** The `keyup` listener, after the key code is decoded. */
    method KeyUp(code: KeyCode, env: Env)
      requires Valid()
      modifies this
      ensures Abs() == Registry.KeyUp(old(Abs()), code, env)
      ensures Valid()
    {
      RegistryLemmas.ReleasePreservesValid(Abs(), code, env.now, env.gainNow);
      if !InTable(code) {
        return;
      }
      if !audioReady {
        return;
      }
      ReleaseNote(code, env.now, env.gainNow);
    }

    /** The `mousedown` and `touchstart` listeners of a key element with attribute `code` (`""` if absent). */
    method PointerDown(code: KeyCode, env: Env)
      requires Valid()
      modifies this
      ensures Abs() == Registry.PointerDown(old(Abs()), code, env)
      ensures Valid()
    {
      RegistryLemmas.PointerDownPreservesValid(Abs(), code, env);
      EnsureAudioReady(env.audioAvailable);
      if !audioReady {
        return;
      }
      if code != "" && InTable(code) && code !in notes {
        EnforcePolyphonyLimit(env);
        PlayNote(code, env);
      }
    }

    /** The `mouseup`, `mouseleave` and `touchend` listeners. */
    method PointerUp(code: KeyCode, env: Env)
      requires Valid()
      modifies this
      ensures Abs() == Registry.PointerUp(old(Abs()), code, env)
      ensures Valid()
    {
      RegistryLemmas.ReleasePreservesValid(Abs(), code, env.now, env.gainNow);
      if code != "" {
        ReleaseNote(code, env.now, env.gainNow);
      }
    }
  }
}
