# Keyboard synthesizer: the active-notes registry

`main.js` is a browser synthesizer played with the computer keyboard, the
mouse or touch. Each playable key code (the decimal text of a key number, such
as `"90"` for Z) maps to a frequency. Pressing a key starts an oscillator with
an attack/decay envelope and records the note in `activeNotes`. Releasing it
re-anchors the envelope into a release ramp and schedules a cleanup timer that
stops the oscillator and deletes the entry. Before a note starts,
`enforcePolyphonyLimit` releases the oldest entry once the registry holds as
many entries as the polyphony select allows.

This project models that registry and the pure computations around it:

- `KeyTable`: the frequency table's key set, the decimal text of key numbers,
  and the order in which `Object.keys` lists a registry whose keys are integer
  strings. That order is ascending numeric order, by section 10.1.11.1 of
  ECMA-262 (OrdinaryOwnPropertyKeys).
- `Config`: `getPolyphonyLimit` and `getSelectedWaveform`. The result of
  `parseInt` is an `Option<int>`, with `None` for NaN.
- `Envelope`: the gain requests made at note-on and at release, and the
  cleanup delay.
- `Meter`: the peak reduction over the analyser window and the clamped meter
  width.
- `Registry`: the handlers as functions on a `State` that holds:
  - the registry;
  - whether the audio context exists;
  - the browser's pending timers: a counter for the next `setTimeout` id, and
    a map from each pending id to the key its callback will clean up.

  A timer firing is an event supplied by the environment, in any order.
- `RegistryLemmas`: what the handlers guarantee, and two things they do not
  guarantee.
- `Synth`: the same handlers as methods of a class whose fields are updated in
  place. Each method is proved to change the fields exactly as the matching
  `Registry` function changes a `State`.

## Where the code falls short of what one would expect

The model follows `main.js`.

- **The registry can exceed the limit.** One would expect the polyphony limit
  to bound the number of registry entries. The code does not keep that bound.
  `enforcePolyphonyLimit` only *releases* the oldest entry; the entry stays
  until its timer fires, and the new note is still added.
  `RegistryLemmas.PressExceedsLimit` and `RegistryLemmas.ScenarioExceedsLimit`
  show that the registry grows past the limit.
- **A stale timer can delete a new note.** One would expect a cleanup callback
  to remove only the note it was scheduled for. The callback deletes whatever
  entry is under its key. A release of an entry that already has a timer
  overwrites the recorded id without clearing the old timer. When the first
  such timer fires, it clears only the latest recorded timer and leaves the
  others pending. One of those can later delete a new, held note on the same
  key. `RegistryLemmas.StaleTimerDeletesHeldNote` exhibits this with six
  callbacks within 180 ms and a limit of one voice, every timer firing when
  it is due.
- **A second release can be cut short.** One would expect a release ramp to
  run its full 140 ms before the oscillator stops. A release of an entry that
  is already releasing starts a new ramp, but the first timer stays pending
  (`RegistryLemmas.ReleaseKeepsEarlierTimers`) and still fires 160 ms after
  the *first* release. If the second release came more than 20 ms after the
  first, that timer stops the note before the new ramp ends
  (`RegistryLemmas.ScenarioFirstTimer`). This happens when eviction picks an
  entry that is already releasing, and when `mouseleave` follows `mouseup` on
  the same key. `Envelope.StopDelayCoversRelease` covers one release only.

## Model

| member | source | states |
|---|---|---|
| KeyTable.CodeText | main.js:110 | The decimal text of a number from 10 to 99 is a two-digit code that denotes that number. |
| KeyTable.CodeTextOfValue | main.js:110 | Every two-digit code is the decimal text of its own number, so codes and numbers correspond one to one. |
| KeyTable.TableIsFrequencyMapKeys | main.js:1-28 | A code passes the `keyboardFrequencyMap[code]` test exactly when it is one of the 24 keys of the map. |
| KeyTable.ScanOrder | main.js:264 | Every code that `Object.keys(activeNotes)` lists is a registered key. |
| KeyTable.ScanOrderAscending | main.js:264 | `Object.keys` lists every two-digit registered key, in strictly ascending numeric order. When every key is two-digit, it lists exactly as many codes as there are keys. |
| Config.PolyphonyLimit | main.js:244-259 | The limit is at least 1. It is 2 when the select is missing or its value parses to NaN. Otherwise it is the parsed number, raised to 1 when lower. |
| Config.PolyphonyLimitOfParsed | main.js:251-258 | A parsed value of 1 or more is used as it is; a lower value gives 1. |
| Config.SelectedWaveform | main.js:288-297 | The waveform is never empty. It is the select's value when that value is non-empty, and `"sine"` otherwise. |
| Envelope.NoteOnEvents | main.js:169-179 | Note-on makes three requests: the floor at `now`, then a ramp to the peak at exactly `now` plus the attack, then a ramp to the sustain level exactly one decay later. Times increase, every value is at least the floor, and sustain ≤ peak ≤ 0.65. |
| Envelope.TargetsScaleWithLimit | main.js:169-179 | With a limit of 1 or less, the peak is 0.65 and the sustain level is 0.65 × 0.55. Up to 3575 voices a limit of n divides both by n, and up to 6500 it still divides the peak by n. Past 3575 voices the sustain target is the floor, and past 6500 voices the peak is too. |
| Envelope.TargetsMonotone | main.js:169-179 | A larger limit never raises the peak or the sustain target. |
| Envelope.CancelFrom | main.js:207 | `cancelScheduledValues(t)` keeps exactly the requests timed before `t`, and never adds one. |
| Envelope.ReleaseEvents | main.js:207-212 | A release keeps the requests before `now`, then holds max(floor, current value) at `now`, then ramps to the floor at `now` plus the release time. |
| Envelope.ReReleaseCancelsRamp | main.js:207-212 | A second release before the first ramp ends drops that ramp and keeps the first hold point. |
| Envelope.StopDelayCoversRelease | main.js:214 | The 160 ms cleanup delay is at least the release time plus the 20 ms margin. This holds for a single release; a repeated release can be cut short, as described above. |
| Meter.Deviation | main.js:440-441 | A sample's magnitude lies in [0, 1] and is zero exactly at 128. |
| Meter.PeakOf | main.js:436-447 | The folded peak lies in [0, 1]. |
| Meter.PeakIsMaximum | main.js:436-447 | The peak is at least every deviation in the window and equals one of them. An empty window gives 0. |
| Meter.SilentPeakIsZero | main.js:436-447 | A window of silent samples reads a peak of 0. |
| Meter.ComputePeak | main.js:436-447 | The loop returns the peak of the whole window, which lies in [0, 1]. |
| Meter.MeterPercent | main.js:456 | The bar width lies in [0, 100]. It is peak × 100 whenever the peak lies in [0, 1]. |
| Registry.Initial | main.js:30-36 | The page starts with no notes, no timers and no audio context, and this state is `Valid`. |
| Registry.EnsureAudio | main.js:70-101 | The context exists afterwards exactly when it existed before or the browser can create one. Nothing else changes. |
| Registry.Release | main.js:197-220 | On an absent key nothing changes. On a present key, the key set and every other entry stay the same. A fresh timer id is scheduled for the key and recorded on its entry. The entry's start time and waveform stay. Its gain gets the release requests. |
| Registry.Cleanup | main.js:222-242 | The entry under the key is deleted and no other entry changes. Exactly the timer recorded on that entry stops being pending. |
| Registry.FireTimer | main.js:216-219 | A pending timer is forgotten and cleans up the key it captured. A timer that is not pending does nothing. |
| Registry.OldestIndex | main.js:271-283 | The fold picks a position with the smallest start time, and the first such position. |
| Registry.ScanOldest | main.js:271-283 | The loop ends with the key at the position `OldestIndex` picks. |
| Registry.Victim | main.js:261-285 | A note chosen for release is a registered key. |
| Registry.Enforce | main.js:261-286 | Without a victim nothing changes. Otherwise exactly the victim is released. The key set never changes. |
| Registry.FreshNote | main.js:165-192 | A new record starts now and has no timer. Its waveform is the selected one, and its envelope is the note-on requests scaled by the current polyphony limit. |
| Registry.PlayNote | main.js:154-195 | Without a context nothing changes. Otherwise the key is mapped to a fresh record and nothing else changes. |
| Registry.Press | main.js:130-131 | Both press paths pass their guards, then evict and play. The context is unchanged. On a free key with a context, exactly that key is added, with a fresh record. |
| Registry.KeyDown | main.js:103-135 | A repeat or an unknown key changes nothing. Without a context and with none creatable, nothing changes. On a key already registered only the context may start. Otherwise a free table key is a press after the context starts. The context starts only for a non-repeat table key. |
| Registry.KeyUp | main.js:136-152 | An unknown key, or no context, changes nothing. Otherwise the key is released. An unregistered key changes nothing. |
| Registry.PointerDown | main.js:314-327 | The `mousedown` handler; `touchstart` at lines 351-366 is identical. The context starts for any element when the browser can. Without a context and with none creatable, nothing changes. An unknown or already registered key only starts the context. A free table key is a press. |
| Registry.PointerUp | main.js:329-349 | The `mouseup` and `mouseleave` handlers; `touchend` at lines 368-379 is identical. An empty code or an unregistered key changes nothing. Any other code is released. |
| RegistryLemmas.ReleaseKeepsLinks | main.js:216-219 | After a release, every recorded timer is still pending for the key that recorded it. |
| RegistryLemmas.ReleaseKeepsIssued | main.js:216-219 | Timer ids stay positive and below the counter. |
| RegistryLemmas.ReleaseKeepsKeys | main.js:197-220 | A release adds no key, and adds nothing before the context exists. |
| RegistryLemmas.ReleasePreservesValid | main.js:197-220 | In a `Valid` state the next timer id is not pending, and a release keeps the state `Valid`. |
| RegistryLemmas.ReleaseKeepsEarlierTimers | main.js:197-220 | A release keeps every earlier pending timer pending, including one the entry had recorded, so the pending count grows by one. Only the releasing entry changes. |
| RegistryLemmas.CleanupPreservesValid | main.js:222-242 | Cleanup keeps the state `Valid`. |
| RegistryLemmas.CleanupIdempotent | main.js:222-242 | Cleaning up a key twice has the same effect as cleaning it up once. |
| RegistryLemmas.FireTimerPreservesValid | main.js:216-219 | A firing timer keeps the state `Valid`. |
| RegistryLemmas.OldestBeatsOthers | main.js:271-283 | On an ascending scan, the pick has a smaller start time than any other key. On a tie, it has the smaller key number. |
| RegistryLemmas.RegistryScan | main.js:264 | In a `Valid` state, `Object.keys` visits every registered key exactly once, in ascending order. |
| RegistryLemmas.EvictionChoice | main.js:261-285 | A victim exists exactly when the registry holds at least `limit` entries. The victim has the smallest start time, whether it is held or already releasing. On a tie, it has the smallest key number. |
| RegistryLemmas.EnforcePreservesValid | main.js:261-286 | Eviction keeps the state `Valid`. |
| RegistryLemmas.PressAdds | main.js:130-131 | A press the guards let through adds exactly its key, with a fresh record, and deletes nothing, so the registry grows by one. |
| RegistryLemmas.PressWithoutVictim | main.js:266-269 | Without a victim, a press schedules no timer and changes no other entry. |
| RegistryLemmas.PressWithVictim | main.js:271-285 | With a victim, a press schedules one timer for the victim, records it on the victim, and changes no other entry. |
| RegistryLemmas.KeyDownPresses | main.js:103-131 | A key-down on a free table key, with a context available, creates the context and then presses. |
| RegistryLemmas.KeyDownIsPress | main.js:103-131 | Once the context exists, a key-down on a free table key is a press. |
| RegistryLemmas.KeyDownEvicts | main.js:103-131 | A key-down that evicts `v` adds the new key, releases `v` under the next timer id, changes no other entry, and keeps the state `Valid`. |
| RegistryLemmas.OlderOfTwoIsVictim | main.js:261-285 | With one voice allowed and two entries, the older entry is the victim. |
| RegistryLemmas.PlayNotePreservesValid | main.js:186-192 | Recording a fresh note for a free table key keeps the state `Valid`. |
| RegistryLemmas.PressExceedsLimit | main.js:261-286 | A press at or above the limit leaves more entries than the limit. |
| RegistryLemmas.PressIgnored | main.js:103-128 | A key-down changes nothing for a repeat, for an unknown key, when there is no context, or for a key that already has an entry, held or releasing. |
| RegistryLemmas.PointerMatchesKeyboard | main.js:314-349 | On a table key, a pointer press behaves as a key-down; on any other element it only creates the context. A pointer release behaves as a key-up. |
| RegistryLemmas.KeyDownPreservesValid | main.js:103-134 | `keyDown` keeps the state `Valid`. |
| RegistryLemmas.KeyUpPreservesValid | main.js:136-152 | `keyUp` keeps the state `Valid`. |
| RegistryLemmas.PointerDownPreservesValid | main.js:314-327 | The `mousedown` and `touchstart` handlers keep the state `Valid`. |
| RegistryLemmas.PointerUpPreservesValid | main.js:329-349 | The `mouseup`, `mouseleave` and `touchend` handlers keep the state `Valid`. |
| RegistryLemmas.StepPreservesValid | main.js:103-379 | Every callback keeps the state `Valid`. |
| RegistryLemmas.RunPreservesValid | main.js:103-379 | Every state reached by any sequence of callbacks is `Valid`. |
| RegistryLemmas.EnforceKeepsVoices | main.js:261-286 | Eviction keeps the key set and every entry's start time and waveform. Each entry's envelope is unchanged or re-anchored by a release at `now`. |
| RegistryLemmas.PlayNoteKeepsVoices | main.js:186-192 | Adding a note leaves every other entry unchanged. |
| RegistryLemmas.PressKeepsVoices | main.js:130-131 | A press keeps every existing entry's start time and waveform. Each envelope is unchanged or re-anchored by a release at `now`. |
| RegistryLemmas.KeyDownKeepsVoices | main.js:103-134 | A key-down keeps every existing entry's start time and waveform. Each envelope is unchanged or re-anchored by a release at `now`. |
| RegistryLemmas.PointerDownKeepsVoices | main.js:314-327 | A pointer press keeps every existing entry's start time and waveform. Each envelope is unchanged or re-anchored by a release at `now`. |
| RegistryLemmas.ReleaseKeepsVoices | main.js:197-220 | A release keeps every entry's start time and waveform. Each envelope is unchanged or re-anchored at `now`. |
| RegistryLemmas.FireTimerKeepsVoices | main.js:222-242 | A firing timer removes only the key it captured, and leaves every surviving entry unchanged. |
| RegistryLemmas.StepKeepsVoices | main.js:103-379 | Settings are snapshots: no callback changes a surviving entry's start time, waveform or limit-scaled envelope, except that a release re-anchors the envelope at its own time. Only a timer removes entries, and only the key it captured; it leaves the others unchanged. |
| RegistryLemmas.ScenarioFirstTimer | main.js:235-241 | When the first of three timers for the same key fires, it deletes the entry and clears only the last recorded timer. |
| RegistryLemmas.ScenarioExceedsLimit | main.js:261-286 | With one voice allowed, a press 40 ms after the first key's release, before its 160 ms timer is due, leaves two entries. |
| RegistryLemmas.StaleTimerDeletesHeldNote | main.js:216-241 | After six callbacks, a re-pressed key is held while an older timer for it is still pending, and that timer's firing would delete the held note. The six callbacks fit in 180 ms, and every timer fires at its due time. |
| Synth.Synth.constructor | main.js:30-36 | The page as loaded is the initial state, and that state is `Valid`. |
| Synth.Synth.EnsureAudioReady | main.js:70-101 | The fields change as `EnsureAudio` says. |
| Synth.Synth.ReleaseNote | main.js:197-220 | The fields change as `Release` says. |
| Synth.Synth.SafeStopAndCleanup | main.js:222-242 | The fields change as `Cleanup` says. |
| Synth.Synth.FireTimer | main.js:216-219 | The fields change as `Registry.FireTimer` says, and `Valid` is kept. |
| Synth.Synth.EnforcePolyphonyLimit | main.js:261-286 | The fields change as `Enforce` says, with the scan done by the loop. |
| Synth.Synth.PlayNote | main.js:154-195 | The fields change as `Registry.PlayNote` says. |
| Synth.Synth.KeyDown | main.js:103-134 | The fields change as `Registry.KeyDown` says, and `Valid` is kept. |
| Synth.Synth.KeyUp | main.js:136-152 | The fields change as `Registry.KeyUp` says, and `Valid` is kept. |
| Synth.Synth.PointerDown | main.js:314-327 | The fields change as `Registry.PointerDown` says, and `Valid` is kept. The `touchstart` handler at main.js lines 351-366 is identical. |
| Synth.Synth.PointerUp | main.js:329-349 | The fields change as `Registry.PointerUp` says, and `Valid` is kept. The `touchend` handler at main.js lines 368-379 is identical. |

## Left out

- The DOM is not modelled: status text, key highlighting, the background colour, event-listener registration and `preventDefault`.
- Web Audio nodes are not modelled. Oscillators, their start, stop and disconnection, and the analyser are represented only by what the registry records. Gain requests are kept as data, not played.
- Frequencies are not modelled. A code is valid exactly when it is a table key, since every frequency in the table is non-zero.
- Floating-point rounding is not modelled. Times and gains are `real`; `StopDelayMs` is the constant 160 that `Math.ceil((0.14 + 0.02) * 1000)` evaluates to in doubles.
- Clocks are inputs: `audioCtx.currentTime` is `now` in each event's `Env`. Timer delays are not modelled, so timers may fire in any order.
- Resuming a suspended context is not modelled; it does not touch the registry.
- `requestAnimationFrame` scheduling of the meter loop is not modelled; one window's reduction is.
- Event decoding is not modelled. `event.detail || event.which`, `toString` and the `data-code` attribute arrive as the key code string, with `""` for a missing attribute.
- `parseInt` itself is not modelled; its result is a parameter.
- Property names inherited from `Object.prototype` are not modelled; the registry is a map.
- The gain node's current value at release comes from the audio engine and is a parameter, `gainNow`.
- KeyTable.ScanOrder lists only the two-digit codes of a key set. Every key of a `Valid` registry is a table key, and so two-digit (`RegistryLemmas.RegistryScan`). Other integer strings never reach the registry.
- Registry.Victim states only that the victim is registered; the full eviction rule is `RegistryLemmas.EvictionChoice`.
