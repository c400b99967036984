/** What the registry's handlers guarantee, and what they do not. */
module RegistryLemmas {
  import opened Options
  import opened KeyTable
  import opened Config
  import opened Envelope
  import opened Registry

  /** A release links its key to the timer it schedules, and leaves every other link alone. */
  lemma ReleaseKeepsLinks(s: State, code: KeyCode, now: real, current: real)
    requires TimersIssued(s) && TimersLinked(s)
    ensures TimersLinked(Release(s, code, now, current))
  {
    if code in s.notes {
      var r := Release(s, code, now, current);
      assert r.pending == s.pending[s.nextTimer := code];
      forall k | k in r.notes && r.notes[k].releaseTimer.Some?
        ensures r.notes[k].releaseTimer.value in r.pending && r.pending[r.notes[k].releaseTimer.value] == k
      {
        if k != code {
          var t := s.notes[k].releaseTimer.value;
          assert t in s.pending && t < s.nextTimer;
        }
      }
    }
  }

  /** A release takes the next timer id and counts past it. */
  lemma ReleaseKeepsIssued(s: State, code: KeyCode, now: real, current: real)
    requires TimersIssued(s)
    ensures TimersIssued(Release(s, code, now, current))
  {
    if code in s.notes {
      var r := Release(s, code, now, current);
      assert r.pending == s.pending[s.nextTimer := code];
      forall t | t in r.pending ensures 1 <= t < r.nextTimer {
        if t != s.nextTimer {
          assert t in s.pending;
        }
      }
    }
  }

  /** A release neither adds keys nor starts anything without an audio context. */
  lemma ReleaseKeepsKeys(s: State, code: KeyCode, now: real, current: real)
    requires KeysInTable(s) && QuietBeforeAudio(s)
    ensures KeysInTable(Release(s, code, now, current)) && QuietBeforeAudio(Release(s, code, now, current))
  {
  }

  /** A release keeps `Valid`: its timer id is fresh, so no earlier timer is overwritten. */
  lemma ReleasePreservesValid(s: State, code: KeyCode, now: real, current: real)
    requires Valid(s)
    ensures s.nextTimer !in s.pending
    ensures Valid(Release(s, code, now, current))
  {
    ReleaseKeepsLinks(s, code, now, current);
    ReleaseKeepsIssued(s, code, now, current);
    ReleaseKeepsKeys(s, code, now, current);
  }

  /**
   * `releaseNote` on a registered key: the entry stays, its recorded timer
   * becomes a freshly scheduled one, every timer pending before stays
   * pending, and no other entry changes. On an absent key it does nothing.
   * The id is fresh in every `Valid` state (see `ReleasePreservesValid`).
   */
  lemma ReleaseKeepsEarlierTimers(s: State, code: KeyCode, now: real, current: real)
    requires s.nextTimer !in s.pending
    ensures code !in s.notes ==> Release(s, code, now, current) == s
    ensures code in s.notes ==>
      var r := Release(s, code, now, current);
      && r.notes.Keys == s.notes.Keys
      && r.notes[code].releaseTimer == Some(s.nextTimer)
      && (forall t :: t in s.pending ==> t in r.pending && r.pending[t] == s.pending[t])
      && |r.pending| == |s.pending| + 1
      && (forall k :: k in s.notes && k != code ==> r.notes[k] == s.notes[k])
  {
    if code in s.notes {
      var r := Release(s, code, now, current);
      assert r.pending == s.pending[s.nextTimer := code];
      forall t | t in s.pending ensures t in r.pending && r.pending[t] == s.pending[t] {
        assert t != s.nextTimer;
      }
    }
  }

  /** Cleanup keeps `Valid`: the timer it clears belongs to the key it deletes. */
  lemma CleanupPreservesValid(s: State, code: KeyCode)
    requires Valid(s)
    ensures Valid(Cleanup(s, code))
  {
  }

  /** Cleaning up a key twice is the same as cleaning it up once. */
  lemma CleanupIdempotent(s: State, code: KeyCode)
    ensures Cleanup(Cleanup(s, code), code) == Cleanup(s, code)
  {
  }

  /**
   * A firing timer keeps `Valid`, even though its callback deletes whatever
   * entry is now under its key: if that entry had recorded this very timer,
   * the entry is the one deleted.
   */
  lemma FireTimerPreservesValid(s: State, id: TimerId)
    requires Valid(s)
    ensures Valid(FireTimer(s, id))
  {
    if id in s.pending {
      var code := s.pending[id];
      var s1 := s.(pending := s.pending - {id});
      var r := Cleanup(s1, code);
      forall k | k in r.notes && r.notes[k].releaseTimer.Some?
        ensures r.notes[k].releaseTimer.value in r.pending && r.pending[r.notes[k].releaseTimer.value] == k
      {
        var t := s.notes[k].releaseTimer.value;
        assert s.pending[t] == k && k != code;
        assert t != id;
      }
    }
  }

  /** On an ascending scan, the scan's pick beats every other key by start time, then by key code. */
  lemma OldestBeatsOthers(keys: seq<KeyCode>, notes: map<KeyCode, Note>, j: nat)
    requires |keys| > 0 && Ascending(keys)
    requires forall n :: 0 <= n < |keys| ==> keys[n] in notes
    requires j < |keys| && j != OldestIndex(keys, notes)
    ensures
      var v := keys[OldestIndex(keys, notes)];
      notes[v].startTime < notes[keys[j]].startTime ||
      (notes[v].startTime == notes[keys[j]].startTime && CodeValue(v) < CodeValue(keys[j]))
  {
    var i := OldestIndex(keys, notes);
    if j < i {
      assert notes[keys[j]].startTime > notes[keys[i]].startTime;
    }
  }

  /** The scan of a `Valid` registry visits each of its keys once, in ascending order. */
  lemma RegistryScan(s: State)
    requires Valid(s)
    ensures Ascending(ScanOrder(s.notes.Keys))
    ensures |ScanOrder(s.notes.Keys)| == |s.notes|
    ensures forall k :: k in s.notes ==> IsTwoDigitCode(k) && k in ScanOrder(s.notes.Keys)
  {
    ScanOrderAscending(s.notes.Keys);
    forall k | k in s.notes ensures IsTwoDigitCode(k) {
      assert InTable(k);
    }
  }

  /**
   * The eviction rule. A victim exists exactly when the registry holds at
   * least `limit` entries; it is an entry with the smallest start time, held
   * and releasing entries alike, and among equal start times the one with
   * the numerically smallest key code, which the scan meets first.
   */
  lemma EvictionChoice(s: State, env: Env)
    requires Valid(s)
    ensures Victim(s, env).Some? <==> |s.notes| >= PolyphonyLimit(env.polyphony)
    ensures Victim(s, env).Some? ==>
      var v := Victim(s, env).value;
      && v in s.notes
      && (forall k :: k in s.notes ==> s.notes[v].startTime <= s.notes[k].startTime)
      && (forall k :: k in s.notes ==> IsTwoDigitCode(k))
      && (forall k :: k in s.notes && k != v ==>
            s.notes[v].startTime < s.notes[k].startTime ||
            (s.notes[v].startTime == s.notes[k].startTime && CodeValue(v) < CodeValue(k)))
  {
    var keys := ScanOrder(s.notes.Keys);
    RegistryScan(s);
    if Victim(s, env).Some? {
      var i := OldestIndex(keys, s.notes);
      var v := keys[i];
      forall k | k in s.notes
        ensures s.notes[v].startTime <= s.notes[k].startTime
        ensures k != v ==>
          s.notes[v].startTime < s.notes[k].startTime ||
          (s.notes[v].startTime == s.notes[k].startTime && CodeValue(v) < CodeValue(k))
      {
        var j :| 0 <= j < |keys| && keys[j] == k;
        if j != i {
          OldestBeatsOthers(keys, s.notes, j);
        }
      }
    }
  }

  /** Eviction releases at most one entry and deletes none, so it keeps `Valid`. */
  lemma EnforcePreservesValid(s: State, env: Env)
    requires Valid(s)
    ensures Valid(Enforce(s, env))
  {
    if Victim(s, env).Some? {
      ReleasePreservesValid(s, Victim(s, env).value, env.now, env.gainNow);
    }
  }

  /**
   * A press that the guards let through: eviction runs first, then exactly
   * one entry is added for the key, started now with no timer; nothing is
   * deleted, so the registry grows by one. Only the victim, if any, changes,
   * and it gets the one new pending timer.
   */
  lemma PressAdds(s: State, code: KeyCode, env: Env)
    requires s.audioReady && code !in s.notes
    ensures Press(s, code, env).audioReady
    ensures Press(s, code, env).notes.Keys == s.notes.Keys + {code}
    ensures |Press(s, code, env).notes| == |s.notes| + 1
    ensures Press(s, code, env).notes[code] == FreshNote(env)
  {
    var e := Enforce(s, env);
    assert e.audioReady && e.notes.Keys == s.notes.Keys;
    assert |e.notes[code := FreshNote(env)]| == |s.notes| + 1;
  }

  /** Without a victim, a press touches no other entry and schedules no timer. */
  lemma PressWithoutVictim(s: State, code: KeyCode, env: Env)
    requires Victim(s, env).None?
    ensures Press(s, code, env).pending == s.pending
    ensures Press(s, code, env).nextTimer == s.nextTimer
    ensures forall k :: k in s.notes && k != code ==> Press(s, code, env).notes[k] == s.notes[k]
  {
  }

  /** With a victim, a press releases it, which is the only other entry that changes. */
  lemma PressWithVictim(s: State, code: KeyCode, env: Env)
    requires Valid(s) && code !in s.notes
    requires Victim(s, env).Some?
    ensures
      var v := Victim(s, env).value;
      && v in s.notes
      && Press(s, code, env).pending == s.pending[s.nextTimer := v]
      && Press(s, code, env).nextTimer == s.nextTimer + 1
      && Press(s, code, env).notes[v].releaseTimer == Some(s.nextTimer)
      && Press(s, code, env).notes[v].startTime == s.notes[v].startTime
      && forall k :: k in s.notes && k != v ==> Press(s, code, env).notes[k] == s.notes[k]
  {
    var v := Victim(s, env).value;
    ReleasePreservesValid(s, v, env.now, env.gainNow);
    assert Release(s, v, env.now, env.gainNow).pending == s.pending[s.nextTimer := v];
  }

  /** A key press on a free table key, with the context available, is such a press. */
  lemma KeyDownPresses(s: State, code: KeyCode, env: Env)
    requires InTable(code) && code !in s.notes
    requires s.audioReady || env.audioAvailable
    ensures EnsureAudio(s, env.audioAvailable).audioReady
    ensures KeyDown(s, code, false, env) == Press(EnsureAudio(s, env.audioAvailable), code, env)
  {
  }

  /** Adding a table key with no timer keeps `Valid`. */
  lemma PlayNotePreservesValid(s: State, code: KeyCode, env: Env)
    requires Valid(s) && InTable(code) && code !in s.notes
    ensures Valid(PlayNote(s, code, env))
  {
  }

  /**
   * The registry does not stay within the polyphony limit: a press at or
   * above the limit only releases the victim and still adds the new entry.
   */
  lemma PressExceedsLimit(s: State, code: KeyCode, env: Env)
    requires Valid(s)
    requires InTable(code) && code !in s.notes
    requires s.audioReady || env.audioAvailable
    requires |s.notes| >= PolyphonyLimit(env.polyphony)
    ensures |KeyDown(s, code, false, env).notes| > PolyphonyLimit(env.polyphony)
  {
    KeyDownPresses(s, code, env);
    PressAdds(EnsureAudio(s, env.audioAvailable), code, env);
  }

  /**
   * A key press changes nothing for a repeat, an unknown key, a missing
   * audio context, or a key that already has an entry, whether held or
   * still releasing; so a key never gets a second entry.
   */
  lemma PressIgnored(s: State, code: KeyCode, repeat: bool, env: Env)
    requires Valid(s)
    requires repeat || !InTable(code) || (!s.audioReady && !env.audioAvailable) || code in s.notes
    ensures KeyDown(s, code, repeat, env) == s
  {
  }

  /**
   * The pointer handlers behave as the keyboard ones on table keys; on any
   * other element a press only starts the audio context, and a release does
   * nothing.
   */
  lemma PointerMatchesKeyboard(s: State, code: KeyCode, env: Env)
    requires Valid(s)
    ensures InTable(code) ==> PointerDown(s, code, env) == KeyDown(s, code, false, env)
    ensures !InTable(code) ==> PointerDown(s, code, env) == EnsureAudio(s, env.audioAvailable)
    ensures PointerUp(s, code, env) == KeyUp(s, code, env)
  {
  }

  lemma KeyDownPreservesValid(s: State, code: KeyCode, repeat: bool, env: Env)
    requires Valid(s)
    ensures Valid(KeyDown(s, code, repeat, env))
  {
    var s1 := EnsureAudio(s, env.audioAvailable);
    if !repeat && InTable(code) && s1.audioReady && code !in s1.notes {
      EnforcePreservesValid(s1, env);
      PlayNotePreservesValid(Enforce(s1, env), code, env);
    }
  }

  lemma KeyUpPreservesValid(s: State, code: KeyCode, env: Env)
    requires Valid(s)
    ensures Valid(KeyUp(s, code, env))
  {
    ReleasePreservesValid(s, code, env.now, env.gainNow);
  }

  lemma PointerDownPreservesValid(s: State, code: KeyCode, env: Env)
    requires Valid(s)
    ensures Valid(PointerDown(s, code, env))
  {
    var s1 := EnsureAudio(s, env.audioAvailable);
    if s1.audioReady && code != "" && InTable(code) && code !in s1.notes {
      EnforcePreservesValid(s1, env);
      PlayNotePreservesValid(Enforce(s1, env), code, env);
    }
  }

  lemma PointerUpPreservesValid(s: State, code: KeyCode, env: Env)
    requires Valid(s)
    ensures Valid(PointerUp(s, code, env))
  {
    ReleasePreservesValid(s, code, env.now, env.gainNow);
  }

  /** Every callback keeps `Valid`. */
  lemma StepPreservesValid(s: State, e: Event)
    requires Valid(s)
    ensures Valid(Step(s, e))
  {
    match e
    case KeyPress(code, repeat, env) => KeyDownPreservesValid(s, code, repeat, env);
    case KeyRelease(code, env) => KeyUpPreservesValid(s, code, env);
    case PointerPress(code, env) => PointerDownPreservesValid(s, code, env);
    case PointerRelease(code, env) => PointerUpPreservesValid(s, code, env);
    case TimerFires(id) => FireTimerPreservesValid(s, id);
  }

  /** Every state reached from the loaded page by any sequence of callbacks is `Valid`. */
  lemma {:induction false} RunPreservesValid(s: State, events: seq<Event>)
    requires Valid(s)
    ensures Valid(Run(s, events))
    decreases |events|
  {
    if events != [] {
      StepPreservesValid(s, events[0]);
      RunPreservesValid(Step(s, events[0]), events[1..]);
    }
  }

  /**
   * Every entry of `s` that is still in `r` has kept its start time, its
   * waveform and its envelope, except that a release at `now` may have
   * re-anchored the envelope. The envelope holds the targets scaled by the
   * polyphony limit of its note-on; neither alternative involves a new limit.
   */
  predicate KeepsVoices(s: State, r: State, now: real, current: real) {
    forall k :: k in s.notes && k in r.notes ==>
      && r.notes[k].startTime == s.notes[k].startTime
      && r.notes[k].waveform == s.notes[k].waveform
      && (r.notes[k].gain == s.notes[k].gain || r.notes[k].gain == ReleaseEvents(s.notes[k].gain, now, current))
  }

  /** Every entry of `s` that is still in `r` is unchanged. */
  predicate KeepsEntries(s: State, r: State) {
    forall k :: k in s.notes && k in r.notes ==> r.notes[k] == s.notes[k]
  }

  lemma KeepsVoicesThenEntries(s: State, t: State, u: State, now: real, current: real)
    requires KeepsVoices(s, t, now, current) && KeepsEntries(t, u) && s.notes.Keys <= t.notes.Keys
    ensures KeepsVoices(s, u, now, current)
  {
  }

  lemma EnforceKeepsVoices(s: State, env: Env)
    ensures KeepsVoices(s, Enforce(s, env), env.now, env.gainNow) && s.notes.Keys == Enforce(s, env).notes.Keys
  {
    if Victim(s, env).Some? {
      ReleaseKeepsVoices(s, Victim(s, env).value, env.now, env.gainNow);
    }
  }

  lemma PlayNoteKeepsVoices(s: State, code: KeyCode, env: Env)
    requires code !in s.notes
    ensures KeepsEntries(s, PlayNote(s, code, env)) && s.notes.Keys <= PlayNote(s, code, env).notes.Keys
  {
  }

  lemma PressKeepsVoices(s: State, code: KeyCode, env: Env)
    requires code !in s.notes
    ensures KeepsVoices(s, Press(s, code, env), env.now, env.gainNow) && s.notes.Keys <= Press(s, code, env).notes.Keys
  {
    var e := Enforce(s, env);
    EnforceKeepsVoices(s, env);
    PlayNoteKeepsVoices(e, code, env);
    KeepsVoicesThenEntries(s, e, PlayNote(e, code, env), env.now, env.gainNow);
  }

  lemma KeyDownKeepsVoices(s: State, code: KeyCode, repeat: bool, env: Env)
    ensures KeepsVoices(s, KeyDown(s, code, repeat, env), env.now, env.gainNow)
    ensures s.notes.Keys <= KeyDown(s, code, repeat, env).notes.Keys
  {
    var s1 := EnsureAudio(s, env.audioAvailable);
    if !repeat && InTable(code) && s1.audioReady && code !in s1.notes {
      PressKeepsVoices(s1, code, env);
    }
  }

  lemma PointerDownKeepsVoices(s: State, code: KeyCode, env: Env)
    ensures KeepsVoices(s, PointerDown(s, code, env), env.now, env.gainNow)
    ensures s.notes.Keys <= PointerDown(s, code, env).notes.Keys
  {
    var s1 := EnsureAudio(s, env.audioAvailable);
    if s1.audioReady && code != "" && InTable(code) && code !in s1.notes {
      PressKeepsVoices(s1, code, env);
    }
  }

  lemma ReleaseKeepsVoices(s: State, code: KeyCode, now: real, current: real)
    ensures KeepsVoices(s, Release(s, code, now, current), now, current)
    ensures s.notes.Keys == Release(s, code, now, current).notes.Keys
  {
  }

  lemma FireTimerKeepsVoices(s: State, id: TimerId)
    ensures KeepsEntries(s, FireTimer(s, id))
    ensures FireTimer(s, id).notes.Keys == s.notes.Keys - (if id in s.pending then {s.pending[id]} else {})
  {
  }

  /**
   * Settings are snapshots: an entry that survives any callback keeps its
   * start time, its waveform and its limit-scaled envelope, whatever the
   * selects now say; only a release re-anchors the envelope. Only a timer
   * removes entries, and only the entry under the key it captured; the
   * entries it leaves are unchanged.
   */
  lemma StepKeepsVoices(s: State, e: Event)
    ensures !e.TimerFires? ==> KeepsVoices(s, Step(s, e), e.env.now, e.env.gainNow)
    ensures !e.TimerFires? ==> s.notes.Keys <= Step(s, e).notes.Keys
    ensures e.TimerFires? ==> KeepsEntries(s, Step(s, e))
    ensures e.TimerFires? ==>
      Step(s, e).notes.Keys == s.notes.Keys - (if e.id in s.pending then {s.pending[e.id]} else {})
  {
    match e
    case KeyPress(code, repeat, env) => KeyDownKeepsVoices(s, code, repeat, env);
    case KeyRelease(code, env) =>
      if InTable(code) && s.audioReady {
        ReleaseKeepsVoices(s, code, env.now, env.gainNow);
      }
    case PointerPress(code, env) => PointerDownKeepsVoices(s, code, env);
    case PointerRelease(code, env) => ReleaseKeepsVoices(s, code, env.now, env.gainNow);
    case TimerFires(id) => FireTimerKeepsVoices(s, id);
  }

  /** The configuration the scenario uses: one voice allowed, audio available. */
  function OneVoiceAt(t: real): Env {
    Env(t, Select(Some(1)), None, true, 0.5)
  }

  /**
   * The scenario: hold key `a`, release it, press `b` and `c` (each evicts
   * `a` again), let the first timer fire, press `a` again. Times are in
   * seconds of audio time: `a` at 0, its key-up at 0.01 (timer 1, due at
   * 0.17), `b` at 0.05 (timer 2, due at 0.21), `c` at 0.10 (timer 3, due at
   * 0.26), timer 1 at 0.17, and `a` again at 0.18, before timer 2 is due.
   */
  function ScenarioEvent(a: KeyCode, b: KeyCode, c: KeyCode, k: nat): Event
    requires k < 6
  {
    match k
    case 0 => KeyPress(a, false, OneVoiceAt(0.0))
    case 1 => KeyRelease(a, OneVoiceAt(0.01))
    case 2 => KeyPress(b, false, OneVoiceAt(0.05))
    case 3 => KeyPress(c, false, OneVoiceAt(0.10))
    case 4 => TimerFires(1)
    case _ => KeyPress(a, false, OneVoiceAt(0.18))
  }

  /** The scenario's six callbacks in order. */
  function StaleTimerEvents(a: KeyCode, b: KeyCode, c: KeyCode): (es: seq<Event>)
    ensures |es| == 6 && forall k :: 0 <= k < 6 ==> es[k] == ScenarioEvent(a, b, c, k)
  {
    seq(6, k requires 0 <= k < 6 => ScenarioEvent(a, b, c, k))
  }

  /** Three different table keys. */
  predicate DistinctKeys(a: KeyCode, b: KeyCode, c: KeyCode) {
    InTable(a) && InTable(b) && InTable(c) && a != b && b != c && a != c
  }

  /** The registry after the first press: `a` held, no timer yet. */
  predicate AtOne(a: KeyCode, s1: State) {
    && Valid(s1) && s1.audioReady
    && s1.notes.Keys == {a} && s1.notes[a].startTime == 0.0
    && s1.pending == map[] && s1.nextTimer == 1
  }

  /** The registry after the key-up: `a` releasing under timer 1. */
  predicate AtTwo(a: KeyCode, s2: State) {
    && Valid(s2) && s2.audioReady
    && s2.notes.Keys == {a} && s2.notes[a].startTime == 0.0
    && s2.pending == map[1 := a] && s2.nextTimer == 2
  }

  /** The registry after the second press: `a` released twice, `b` held. */
  predicate AtThree(a: KeyCode, b: KeyCode, s3: State) {
    && Valid(s3) && s3.audioReady
    && s3.notes.Keys == {a, b}
    && s3.notes[a].startTime == 0.0 && s3.notes[b].startTime == 0.05
    && s3.pending == map[1 := a, 2 := a] && s3.nextTimer == 3
  }

  /** The registry after the third press: `a` released three times, `b` and `c` held. */
  predicate AtFour(a: KeyCode, b: KeyCode, c: KeyCode, s4: State) {
    && Valid(s4) && s4.audioReady
    && s4.notes.Keys == {a, b, c}
    && s4.notes[a].releaseTimer == Some(3)
    && s4.pending == map[1 := a, 2 := a, 3 := a] && s4.nextTimer == 4
  }

  /** The registry after timer 1: `b` and `c` held, timer 2 still pending for `a`. */
  predicate AtFive(a: KeyCode, b: KeyCode, c: KeyCode, s5: State) {
    && Valid(s5) && s5.audioReady
    && s5.notes.Keys == {b, c}
    && s5.pending == map[2 := a] && s5.nextTimer == 4
  }

  /** The end of the scenario: `a` held afresh, and the stale timer 2 would delete it. */
  predicate HeldButDoomed(a: KeyCode, s: State) {
    && a in s.notes && s.notes[a] == FreshNote(OneVoiceAt(0.18))
    && 2 in s.pending && s.pending[2] == a
    && a !in FireTimer(s, 2).notes
  }

  // The scenario's proof is split into one small lemma per step: set and map
  // steps here, one lemma per callback below (`ScenarioFirstPress` ...
  // `ScenarioRepress`), and the `Through...` lemmas that unfold `Run` one
  // callback at a time. Each keeps its own proof obligation small; proved
  // together in one lemma, the same steps exceed the solver's resource limit.

  /** Set steps the scenario needs, stated once. */
  lemma AddSecondKey(x: set<KeyCode>, a: KeyCode, b: KeyCode)
    requires x == {a}
    ensures x + {b} == {a, b}
  {
  }

  lemma AddThirdKey(x: set<KeyCode>, a: KeyCode, b: KeyCode, c: KeyCode)
    requires x == {a, b}
    ensures x + {c} == {a, b, c}
  {
  }

  lemma DropFirstKey(x: set<KeyCode>, y: set<KeyCode>, a: KeyCode, b: KeyCode, c: KeyCode)
    requires x == {a, b, c} && a != b && a != c
    requires forall k :: k in y <==> k in x && k != a
    ensures y == {b, c}
  {
  }

  lemma OnlySecondTimerLeft(p: map<TimerId, KeyCode>, q: map<TimerId, KeyCode>, a: KeyCode)
    requires p == map[1 := a, 2 := a, 3 := a]
    requires forall t :: t in q <==> t in p && t != 1 && t != 3
    requires forall t :: t in q ==> q[t] == p[t]
    ensures q == map[2 := a]
  {
  }

  /** A key press on a free table key once the context exists is a press. */
  lemma KeyDownIsPress(s: State, code: KeyCode, env: Env)
    requires s.audioReady && InTable(code) && code !in s.notes
    ensures KeyDown(s, code, false, env) == Press(s, code, env)
  {
  }

  /** Scenario, first press of `a`: the context starts and nothing is evicted. */
  lemma ScenarioFirstPress(a: KeyCode)
    requires InTable(a)
    ensures AtOne(a, KeyDown(Initial(), a, false, OneVoiceAt(0.0)))
  {
    var s0 := EnsureAudio(Initial(), true);
    var env := OneVoiceAt(0.0);
    KeyDownPresses(Initial(), a, env);
    KeyDownPreservesValid(Initial(), a, false, env);
    EvictionChoice(s0, env);
    PressAdds(s0, a, env);
    PressWithoutVictim(s0, a, env);
  }

  /** Scenario, key-up of `a`: timer 1. */
  lemma ScenarioKeyUp(a: KeyCode, s1: State)
    requires InTable(a) && AtOne(a, s1)
    ensures AtTwo(a, KeyUp(s1, a, OneVoiceAt(0.01)))
  {
    var s2 := Release(s1, a, 0.01, 0.5);
    assert KeyUp(s1, a, OneVoiceAt(0.01)) == s2;
    assert Valid(s2) by {
      ReleasePreservesValid(s1, a, 0.01, 0.5);
    }
    assert s2.pending == map[][1 := a];
  }

  /**
   * A key press on a free table key that evicts `v`: the new entry is added,
   * `v` is released under the next timer id, and nothing else changes.
   */
  lemma KeyDownEvicts(s: State, code: KeyCode, env: Env, v: KeyCode)
    requires Valid(s) && s.audioReady && InTable(code) && code !in s.notes
    requires Victim(s, env) == Some(v)
    ensures
      var r := KeyDown(s, code, false, env);
      && Valid(r) && r.audioReady
      && r.notes.Keys == s.notes.Keys + {code}
      && r.notes[code] == FreshNote(env)
      && v in s.notes && r.notes[v].releaseTimer == Some(s.nextTimer)
      && r.notes[v].startTime == s.notes[v].startTime
      && r.pending == s.pending[s.nextTimer := v]
      && r.nextTimer == s.nextTimer + 1
      && (forall k :: k in s.notes && k != v ==> r.notes[k] == s.notes[k])
  {
    KeyDownIsPress(s, code, env);
    KeyDownPreservesValid(s, code, false, env);
    PressAdds(s, code, env);
    PressWithVictim(s, code, env);
  }

  /** Scenario, `b` at 2: `a` is the only entry, so it is released again (timer 2). */
  lemma ScenarioSecondPress(a: KeyCode, b: KeyCode, c: KeyCode, s2: State)
    requires DistinctKeys(a, b, c) && AtTwo(a, s2)
    ensures AtThree(a, b, KeyDown(s2, b, false, OneVoiceAt(0.05)))
  {
    var env := OneVoiceAt(0.05);
    assert Victim(s2, env) == Some(a) by {
      EvictionChoice(s2, env);
    }
    KeyDownEvicts(s2, b, env, a);
    AddSecondKey(s2.notes.Keys, a, b);
  }

  /** With one voice allowed, two entries of which `a` is older: `a` is the victim. */
  lemma OlderOfTwoIsVictim(a: KeyCode, b: KeyCode, s: State, env: Env)
    requires Valid(s) && a != b
    requires PolyphonyLimit(env.polyphony) == 1
    requires s.notes.Keys == {a, b} && s.notes[a].startTime < s.notes[b].startTime
    ensures Victim(s, env) == Some(a)
  {
    EvictionChoice(s, env);
    assert |s.notes| == 2 by { assert |s.notes.Keys| == 2; }
  }

  /** Scenario, `c` at 3: `a` is the oldest entry and is released a third time (timer 3). */
  lemma ScenarioThirdPress(a: KeyCode, b: KeyCode, c: KeyCode, s3: State)
    requires DistinctKeys(a, b, c) && AtThree(a, b, s3)
    ensures AtFour(a, b, c, KeyDown(s3, c, false, OneVoiceAt(0.10)))
  {
    var env := OneVoiceAt(0.10);
    assert Victim(s3, env) == Some(a) by {
      OlderOfTwoIsVictim(a, b, s3, env);
    }
    KeyDownEvicts(s3, c, env, a);
    AddThirdKey(s3.notes.Keys, a, b, c);
  }

  /** Scenario, timer 1 fires: `a` is deleted and timer 3 cleared; timer 2 remains. */
  lemma ScenarioFirstTimer(a: KeyCode, b: KeyCode, c: KeyCode, s4: State)
    requires DistinctKeys(a, b, c) && AtFour(a, b, c, s4)
    ensures AtFive(a, b, c, FireTimer(s4, 1))
  {
    var s4' := s4.(pending := s4.pending - {1});
    var s5 := Cleanup(s4', a);
    assert FireTimer(s4, 1) == s5;
    assert Valid(s5) by {
      FireTimerPreservesValid(s4, 1);
    }
    DropFirstKey(s4'.notes.Keys, s5.notes.Keys, a, b, c);
    assert forall t :: t in s5.pending <==> t in s4.pending && t != 1 && t != 3;
    OnlySecondTimerLeft(s4.pending, s5.pending, a);
  }

  /** Scenario, `a` again at 4: a new, held entry while timer 2 is still pending. */
  lemma ScenarioRepress(a: KeyCode, b: KeyCode, c: KeyCode, s5: State)
    requires DistinctKeys(a, b, c) && AtFive(a, b, c, s5)
    ensures HeldButDoomed(a, KeyDown(s5, a, false, OneVoiceAt(0.18)))
  {
    var env := OneVoiceAt(0.18);
    assert Victim(s5, env).Some? by {
      assert b in s5.notes;
      EvictionChoice(s5, env);
    }
    var v := Victim(s5, env).value;
    var s6 := KeyDown(s5, a, false, env);
    assert s6.notes[a] == FreshNote(env) && s6.pending == map[2 := a][4 := v] by {
      KeyDownEvicts(s5, a, env, v);
    }
    assert a !in FireTimer(s6, 2).notes;
  }

  // Unfolding `Run` over the scenario, three callbacks at a time.

  /** Running a non-empty list of callbacks: the first one, then the rest. */
  lemma RunCons(s: State, e: Event, rest: seq<Event>)
    ensures Run(s, [e] + rest) == Run(Step(s, e), rest)
  {
    assert ([e] + rest)[1..] == rest;
  }

  /** `RunCons`, with the state after the first callback given. */
  lemma RunConsTo(s: State, e: Event, rest: seq<Event>, t: State)
    requires Step(s, e) == t
    ensures Run(s, [e] + rest) == Run(t, rest)
  {
    RunCons(s, e, rest);
  }

  /** Running two lists of callbacks one after the other. */
  lemma {:induction false} RunAppend(s: State, x: seq<Event>, y: seq<Event>)
    ensures Run(s, x + y) == Run(Run(s, x), y)
    decreases |x|
  {
    if x == [] {
      assert x + y == y;
    } else {
      assert x + y == [x[0]] + (x[1..] + y);
      assert x == [x[0]] + x[1..];
      RunCons(s, x[0], x[1..] + y);
      RunCons(s, x[0], x[1..]);
      RunAppend(Step(s, x[0]), x[1..], y);
    }
  }

  /** The scenario's halves, callback by callback. */
  lemma ScenarioHalves(a: KeyCode, b: KeyCode, c: KeyCode)
    ensures StaleTimerEvents(a, b, c)[..3]
      == [ScenarioEvent(a, b, c, 0)] + [ScenarioEvent(a, b, c, 1), ScenarioEvent(a, b, c, 2)]
    ensures StaleTimerEvents(a, b, c)[3..]
      == [ScenarioEvent(a, b, c, 3)] + [ScenarioEvent(a, b, c, 4), ScenarioEvent(a, b, c, 5)]
    ensures StaleTimerEvents(a, b, c)[..3] + StaleTimerEvents(a, b, c)[3..] == StaleTimerEvents(a, b, c)
  {
  }

  lemma PressEventIsKeyDown(a: KeyCode, b: KeyCode, c: KeyCode, k: nat, s: State)
    requires k < 6 && ScenarioEvent(a, b, c, k).KeyPress?
    ensures var e := ScenarioEvent(a, b, c, k); Step(s, e) == KeyDown(s, e.code, false, e.env)
  {
  }

  lemma ReleaseEventIsKeyUp(a: KeyCode, b: KeyCode, c: KeyCode, s: State)
    ensures Step(s, ScenarioEvent(a, b, c, 1)) == KeyUp(s, a, OneVoiceAt(0.01))
  {
  }

  lemma TimerEventFires(a: KeyCode, b: KeyCode, c: KeyCode, s: State)
    ensures Step(s, ScenarioEvent(a, b, c, 4)) == FireTimer(s, 1)
  {
  }

  lemma ThroughThird(a: KeyCode, b: KeyCode, c: KeyCode, s2: State)
    requires DistinctKeys(a, b, c) && AtTwo(a, s2)
    ensures AtThree(a, b, Run(s2, [ScenarioEvent(a, b, c, 2)]))
  {
    var s3 := KeyDown(s2, b, false, OneVoiceAt(0.05));
    ScenarioSecondPress(a, b, c, s2);
    assert Run(s2, [ScenarioEvent(a, b, c, 2)]) == s3 by {
      PressEventIsKeyDown(a, b, c, 2, s2);
      RunConsTo(s2, ScenarioEvent(a, b, c, 2), [], s3);
      assert [ScenarioEvent(a, b, c, 2)] + [] == [ScenarioEvent(a, b, c, 2)];
    }
  }

  lemma ThroughSecond(a: KeyCode, b: KeyCode, c: KeyCode, s1: State)
    requires DistinctKeys(a, b, c) && AtOne(a, s1)
    ensures AtThree(a, b, Run(s1, [ScenarioEvent(a, b, c, 1), ScenarioEvent(a, b, c, 2)]))
  {
    var s2 := KeyUp(s1, a, OneVoiceAt(0.01));
    ScenarioKeyUp(a, s1);
    ThroughThird(a, b, c, s2);
    assert Run(s1, [ScenarioEvent(a, b, c, 1), ScenarioEvent(a, b, c, 2)])
      == Run(s2, [ScenarioEvent(a, b, c, 2)]) by {
      ReleaseEventIsKeyUp(a, b, c, s1);
      RunConsTo(s1, ScenarioEvent(a, b, c, 1), [ScenarioEvent(a, b, c, 2)], s2);
      assert [ScenarioEvent(a, b, c, 1), ScenarioEvent(a, b, c, 2)]
        == [ScenarioEvent(a, b, c, 1)] + [ScenarioEvent(a, b, c, 2)];
    }
  }

  /** The first three callbacks. */
  lemma ThroughFirst(a: KeyCode, b: KeyCode, c: KeyCode)
    requires DistinctKeys(a, b, c)
    ensures AtThree(a, b, Run(Initial(), StaleTimerEvents(a, b, c)[..3]))
  {
    var s1 := KeyDown(Initial(), a, false, OneVoiceAt(0.0));
    var rest := [ScenarioEvent(a, b, c, 1), ScenarioEvent(a, b, c, 2)];
    assert AtThree(a, b, Run(s1, rest)) by {
      ScenarioFirstPress(a);
      ThroughSecond(a, b, c, s1);
    }
    assert Run(Initial(), StaleTimerEvents(a, b, c)[..3]) == Run(s1, rest) by {
      ScenarioHalves(a, b, c);
      PressEventIsKeyDown(a, b, c, 0, Initial());
      RunConsTo(Initial(), ScenarioEvent(a, b, c, 0), rest, s1);
    }
  }

  lemma ThroughSixth(a: KeyCode, b: KeyCode, c: KeyCode, s5: State)
    requires DistinctKeys(a, b, c) && AtFive(a, b, c, s5)
    ensures HeldButDoomed(a, Run(s5, [ScenarioEvent(a, b, c, 5)]))
  {
    var s6 := KeyDown(s5, a, false, OneVoiceAt(0.18));
    ScenarioRepress(a, b, c, s5);
    assert Run(s5, [ScenarioEvent(a, b, c, 5)]) == s6 by {
      PressEventIsKeyDown(a, b, c, 5, s5);
      RunConsTo(s5, ScenarioEvent(a, b, c, 5), [], s6);
      assert [ScenarioEvent(a, b, c, 5)] + [] == [ScenarioEvent(a, b, c, 5)];
    }
  }

  lemma ThroughFifth(a: KeyCode, b: KeyCode, c: KeyCode, s4: State)
    requires DistinctKeys(a, b, c) && AtFour(a, b, c, s4)
    ensures HeldButDoomed(a, Run(s4, [ScenarioEvent(a, b, c, 4), ScenarioEvent(a, b, c, 5)]))
  {
    var s5 := FireTimer(s4, 1);
    ScenarioFirstTimer(a, b, c, s4);
    ThroughSixth(a, b, c, s5);
    assert Run(s4, [ScenarioEvent(a, b, c, 4), ScenarioEvent(a, b, c, 5)])
      == Run(s5, [ScenarioEvent(a, b, c, 5)]) by {
      TimerEventFires(a, b, c, s4);
      RunConsTo(s4, ScenarioEvent(a, b, c, 4), [ScenarioEvent(a, b, c, 5)], s5);
      assert [ScenarioEvent(a, b, c, 4), ScenarioEvent(a, b, c, 5)]
        == [ScenarioEvent(a, b, c, 4)] + [ScenarioEvent(a, b, c, 5)];
    }
  }

  /** The last three callbacks. */
  lemma ThroughFourth(a: KeyCode, b: KeyCode, c: KeyCode, s3: State)
    requires DistinctKeys(a, b, c) && AtThree(a, b, s3)
    ensures HeldButDoomed(a, Run(s3, StaleTimerEvents(a, b, c)[3..]))
  {
    var s4 := KeyDown(s3, c, false, OneVoiceAt(0.10));
    var rest := [ScenarioEvent(a, b, c, 4), ScenarioEvent(a, b, c, 5)];
    assert HeldButDoomed(a, Run(s4, rest)) by {
      ScenarioThirdPress(a, b, c, s3);
      ThroughFifth(a, b, c, s4);
    }
    assert Run(s3, StaleTimerEvents(a, b, c)[3..]) == Run(s4, rest) by {
      ScenarioHalves(a, b, c);
      PressEventIsKeyDown(a, b, c, 3, s3);
      RunConsTo(s3, ScenarioEvent(a, b, c, 3), rest, s4);
    }
  }

  /** After the second press two entries coexist although the limit is one. */
  lemma ScenarioExceedsLimit(a: KeyCode, b: KeyCode, c: KeyCode)
    requires DistinctKeys(a, b, c)
    ensures |Run(Initial(), StaleTimerEvents(a, b, c)[..3]).notes| == 2 > PolyphonyLimit(Select(Some(1)))
  {
    ThroughFirst(a, b, c);
    var s3 := Run(Initial(), StaleTimerEvents(a, b, c)[..3]);
    assert |s3.notes| == 2 by { assert |s3.notes.Keys| == 2; }
  }

  /**
   * The cleanup callback does not check that the entry under its key is the
   * note it was scheduled for. Key `a` is released three times (key-up, then
   * evicted twice while releasing), scheduling timers 1, 2 and 3; timer 1
   * deletes the entry and clears only timer 3. Timer 2 stays pending, and
   * when it fires it deletes the newly pressed and still held `a`. In this
   * run every timer fires at its due time, 160 ms after the release that
   * scheduled it, so the program can make it.
   */
  lemma StaleTimerDeletesHeldNote(a: KeyCode, b: KeyCode, c: KeyCode)
    requires DistinctKeys(a, b, c)
    ensures HeldButDoomed(a, Run(Initial(), StaleTimerEvents(a, b, c)))
  {
    var es := StaleTimerEvents(a, b, c);
    ThroughFirst(a, b, c);
    ThroughFourth(a, b, c, Run(Initial(), es[..3]));
    RunAppend(Initial(), es[..3], es[3..]);
    ScenarioHalves(a, b, c);
  }
}
