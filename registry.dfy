/**
 * The active-notes registry as a state machine on values.
 *
 * `State` holds what the synthesizer's handlers change: the map from key code
 * to note record, whether the audio context exists, and the browser's pending
 * cleanup timers (a counter for the next timer id and the map from each
 * pending id to the key code its callback will clean up). Each handler of the
 * source is a function from state to state; the class in module Synth
 * performs the same changes in place and is proved against these functions.
 */
module Registry {
  import opened Options
  import opened KeyTable
  import opened Config
  import opened Envelope

  /** A `setTimeout` handle; browsers hand out positive integers. */
  type TimerId = nat

  /** The record stored under a key: start time, latest cleanup timer, and what was asked of the voice. */
  datatype Note = Note(startTime: real, releaseTimer: Option<TimerId>, waveform: string, gain: seq<GainEvent>)

  datatype State = State(
    notes: map<KeyCode, Note>,
    pending: map<TimerId, KeyCode>,
    nextTimer: TimerId,
    audioReady: bool)

  /**
   * What a handler reads from its surroundings: the audio clock, the two
   * select elements, whether an audio context can be created, and the gain
   * node's current value for a note that gets released.
   */
  datatype Env = Env(
    now: real,
    polyphony: PolyphonySelect,
    waveform: Option<string>,
    audioAvailable: bool,
    gainNow: real)

  /**
   * What every reachable state satisfies: only table keys are registered,
   * timer ids are positive and below the counter, a recorded timer is
   * pending and will clean up the key that recorded it, and nothing exists
   * before the audio context does.
   */
  predicate Valid(s: State) {
    KeysInTable(s) && TimersIssued(s) && TimersLinked(s) && QuietBeforeAudio(s)
  }

  predicate KeysInTable(s: State) {
    forall k :: k in s.notes ==> InTable(k)
  }

  predicate TimersIssued(s: State) {
    s.nextTimer >= 1 && forall t :: t in s.pending ==> 1 <= t < s.nextTimer
  }

  predicate TimersLinked(s: State) {
    forall k :: k in s.notes && s.notes[k].releaseTimer.Some? ==>
      s.notes[k].releaseTimer.value in s.pending &&
      s.pending[s.notes[k].releaseTimer.value] == k
  }

  predicate QuietBeforeAudio(s: State) {
    !s.audioReady ==> s.notes == map[] && s.pending == map[]
  }

  /** The page as loaded: no notes, no timers, no audio context. */
  function Initial(): (s: State)
    ensures Valid(s) && s.notes == map[] && s.pending == map[] && !s.audioReady
  {
    State(map[], map[], 1, false)
  }

  /** `ensureAudioReady`: creates the context once, when the browser can. */
  function EnsureAudio(s: State, available: bool): (r: State)
    ensures r.audioReady == (s.audioReady || available)
    ensures r.(audioReady := s.audioReady) == s
  {
    if s.audioReady || !available then s else s.(audioReady := true)
  }

  /** `releaseNote`: re-anchors the envelope and schedules a fresh cleanup timer. */
  function Release(s: State, code: KeyCode, now: real, current: real): (r: State)
    ensures code !in s.notes ==> r == s
    ensures r.notes.Keys == s.notes.Keys && r.audioReady == s.audioReady
    ensures forall k :: k in s.notes && k != code ==> r.notes[k] == s.notes[k]
    ensures code in s.notes ==>
      && r.nextTimer == s.nextTimer + 1
      && r.pending == s.pending[s.nextTimer := code]
      && r.notes[code].releaseTimer == Some(s.nextTimer)
      && r.notes[code].startTime == s.notes[code].startTime
      && r.notes[code].waveform == s.notes[code].waveform
      && r.notes[code].gain == ReleaseEvents(s.notes[code].gain, now, current)
  {
    if code !in s.notes then s
    else
      var note := s.notes[code];
      var id := s.nextTimer;
      s.(notes := s.notes[code := note.(releaseTimer := Some(id), gain := ReleaseEvents(note.gain, now, current))],
         pending := s.pending[id := code],
         nextTimer := id + 1)
  }

  /** `safeStopAndCleanup`: deletes whatever entry is under the key and clears its recorded timer. */
  function Cleanup(s: State, code: KeyCode): (r: State)
    ensures code !in s.notes ==> r == s
    ensures forall k :: k in r.notes <==> k in s.notes && k != code
    ensures forall k :: k in r.notes ==> r.notes[k] == s.notes[k]
    ensures forall t :: t in r.pending <==>
      t in s.pending && (code in s.notes ==> s.notes[code].releaseTimer != Some(t))
    ensures forall t :: t in r.pending ==> r.pending[t] == s.pending[t]
    ensures r.nextTimer == s.nextTimer && r.audioReady == s.audioReady
  {
    if code !in s.notes then s
    else
      var note := s.notes[code];
      var pending := if note.releaseTimer.Some? then s.pending - {note.releaseTimer.value} else s.pending;
      s.(notes := s.notes - {code}, pending := pending)
  }

  /**
   * A pending timer runs its callback: the browser forgets the timer, then
   * the callback cleans up the key it captured. A cleared or already fired
   * timer never runs.
   */
  function FireTimer(s: State, id: TimerId): (r: State)
    ensures id !in s.pending ==> r == s
    ensures id in s.pending ==> id !in r.pending && r == Cleanup(s.(pending := s.pending - {id}), s.pending[id])
  {
    if id !in s.pending then s
    else Cleanup(s.(pending := s.pending - {id}), s.pending[id])
  }

  /**
   * The eviction scan: the position of the first entry, in scan order, whose
   * start time is minimal. Folded from the left, as the loop runs.
   */
  function OldestIndex(keys: seq<KeyCode>, notes: map<KeyCode, Note>): (i: nat)
    requires |keys| > 0
    requires forall n :: 0 <= n < |keys| ==> keys[n] in notes
    ensures i < |keys|
    ensures forall j :: 0 <= j < |keys| ==> notes[keys[i]].startTime <= notes[keys[j]].startTime
    ensures forall j :: 0 <= j < i ==> notes[keys[j]].startTime > notes[keys[i]].startTime
  {
    if |keys| == 1 then 0
    else
      var last := |keys| - 1;
      var i := OldestIndex(keys[..last], notes);
      if notes[keys[last]].startTime < notes[keys[i]].startTime then last else i
  }

  /** The loop of `enforcePolyphonyLimit`, keeping the oldest key and its start time. */
  method ScanOldest(keys: seq<KeyCode>, notes: map<KeyCode, Note>) returns (oldestKey: KeyCode)
    requires |keys| > 0
    requires forall n :: 0 <= n < |keys| ==> keys[n] in notes
    ensures oldestKey == keys[OldestIndex(keys, notes)]
  {
    oldestKey := keys[0];
    var oldestTime := notes[oldestKey].startTime;
    for i := 1 to |keys|
      invariant oldestKey == keys[OldestIndex(keys[..i], notes)]
      invariant oldestTime == notes[oldestKey].startTime
    {
      assert keys[..i + 1][..i] == keys[..i];
      var k := keys[i];
      if notes[k].startTime < oldestTime {
        oldestTime := notes[k].startTime;
        oldestKey := k;
      }
    }
    assert keys[..|keys|] == keys;
  }

  /**
   * The note `enforcePolyphonyLimit` releases, if any: none while fewer
   * entries than the limit exist, otherwise the oldest in scan order.
   */
  function Victim(s: State, env: Env): (v: Option<KeyCode>)
    ensures v.Some? ==> v.value in s.notes
  {
    var limit := PolyphonyLimit(env.polyphony);
    var keys := ScanOrder(s.notes.Keys);
    if |keys| < limit then None
    else Some(keys[OldestIndex(keys, s.notes)])
  }

  /** `enforcePolyphonyLimit`: releases the victim, if there is one; deletes nothing. */
  function Enforce(s: State, env: Env): (r: State)
    ensures Victim(s, env).None? ==> r == s
    ensures Victim(s, env).Some? ==> r == Release(s, Victim(s, env).value, env.now, env.gainNow)
    ensures r.notes.Keys == s.notes.Keys
  {
    match Victim(s, env)
    case None => s
    case Some(oldest) => Release(s, oldest, env.now, env.gainNow)
  }

  /** The record `playNote` creates for a key: started now, no timer yet, settings read now. */
  function FreshNote(env: Env): (n: Note)
    ensures n.startTime == env.now && n.releaseTimer == None
    ensures n.waveform == SelectedWaveform(env.waveform)
    ensures n.gain == NoteOnEvents(env.now, PolyphonyLimit(env.polyphony))
  {
    Note(env.now, None, SelectedWaveform(env.waveform), NoteOnEvents(env.now, PolyphonyLimit(env.polyphony)))
  }

  /** The bookkeeping of `playNote`: without an audio context nothing happens. */
  function PlayNote(s: State, code: KeyCode, env: Env): (r: State)
    ensures !s.audioReady ==> r == s
    ensures s.audioReady ==> r.notes == s.notes[code := FreshNote(env)] && r.(notes := s.notes) == s
  {
    if !s.audioReady then s
    else s.(notes := s.notes[code := FreshNote(env)])
  }

  /** What both press paths do once their guards pass: `enforcePolyphonyLimit()` then `playNote(code)`. */
  function Press(s: State, code: KeyCode, env: Env): (r: State)
    ensures r.audioReady == s.audioReady
    ensures s.audioReady && code !in s.notes ==>
      r.notes.Keys == s.notes.Keys + {code} && r.notes[code] == FreshNote(env)
  {
    var e := Enforce(s, env);
    assert e.notes.Keys == s.notes.Keys;
    PlayNote(e, code, env)
  }

  /** `keyDown` after decoding: repeats, unknown keys, no audio and active keys are ignored. */
  function KeyDown(s: State, code: KeyCode, repeat: bool, env: Env): (r: State)
    ensures repeat || !InTable(code) ==> r == s
    ensures !s.audioReady && !env.audioAvailable ==> r == s
    ensures !repeat && InTable(code) && code in s.notes ==> r == EnsureAudio(s, env.audioAvailable)
    ensures !repeat && InTable(code) && (s.audioReady || env.audioAvailable) && code !in s.notes ==>
      r == Press(EnsureAudio(s, env.audioAvailable), code, env)
    ensures r.audioReady == (s.audioReady || (!repeat && InTable(code) && env.audioAvailable))
  {
    if repeat || !InTable(code) then s
    else
      var s1 := EnsureAudio(s, env.audioAvailable);
      if !s1.audioReady then s1
      else if code in s1.notes then s1
      else Press(s1, code, env)
  }

  /** `keyUp` after decoding: table keys are released once the audio context exists. */
  function KeyUp(s: State, code: KeyCode, env: Env): (r: State)
    ensures !InTable(code) || !s.audioReady ==> r == s
    ensures InTable(code) && s.audioReady ==> r == Release(s, code, env.now, env.gainNow)
    ensures code !in s.notes ==> r == s
  {
    if !InTable(code) || !s.audioReady then s
    else Release(s, code, env.now, env.gainNow)
  }

  /**
   * The `mousedown` and `touchstart` handlers on a key element: audio is
   * initialised first, for any element; an unavailable context throws and
   * ends the handler.
   */
  function PointerDown(s: State, code: KeyCode, env: Env): (r: State)
    ensures r.audioReady == (s.audioReady || env.audioAvailable)
    ensures !s.audioReady && !env.audioAvailable ==> r == s
    ensures !InTable(code) || code in s.notes ==> r == EnsureAudio(s, env.audioAvailable)
    ensures InTable(code) && code !in s.notes && (s.audioReady || env.audioAvailable) ==>
      r == Press(EnsureAudio(s, env.audioAvailable), code, env)
  {
    var s1 := EnsureAudio(s, env.audioAvailable);
    if !s1.audioReady then s1
    else if code != "" && InTable(code) && code !in s1.notes then Press(s1, code, env)
    else s1
  }

  /** The `mouseup`, `mouseleave` and `touchend` handlers: any non-empty code is released. */
  function PointerUp(s: State, code: KeyCode, env: Env): (r: State)
    ensures code == "" || code !in s.notes ==> r == s
    ensures code != "" ==> r == Release(s, code, env.now, env.gainNow)
  {
    if code == "" then s
    else Release(s, code, env.now, env.gainNow)
  }

  /** Everything that can happen to the registry, one callback at a time. */
  datatype Event =
    | KeyPress(code: KeyCode, repeat: bool, env: Env)
    | KeyRelease(code: KeyCode, env: Env)
    | PointerPress(code: KeyCode, env: Env)
    | PointerRelease(code: KeyCode, env: Env)
    | TimerFires(id: TimerId)

  function Step(s: State, e: Event): State {
    match e
    case KeyPress(code, repeat, env) => KeyDown(s, code, repeat, env)
    case KeyRelease(code, env) => KeyUp(s, code, env)
    case PointerPress(code, env) => PointerDown(s, code, env)
    case PointerRelease(code, env) => PointerUp(s, code, env)
    case TimerFires(id) => FireTimer(s, id)
  }

  function Run(s: State, events: seq<Event>): State
    decreases |events|
  {
    if events == [] then s else Run(Step(s, events[0]), events[1..])
  }
}
