# Pause — a verified model of the hold-to-pause app

Pause is a small web app. It shows one big button:
- A short press is a "tap".
- Holding it for more than 300 ms is a "pause". The app times the pause, and on release shows a calming message.
- A pause of at least three whole seconds asks a text generator for a short koan. A shorter pause shows one of five fixed comfort messages.
- Every interaction is appended to a history that keeps the newest 100 sessions, and the history is persisted.
- A drawer shows counts, total time and the five newest sessions.
- Each press plays a sound: silence, a user-supplied sample, or a synthesised double snort.
- A two-state colour theme is remembered between visits.

This project models that logic in Dafny and proves properties of it. There are six modules:

- `PauseLog` (`pause_log.dfy`), the session log of `hooks/usePause.ts`.
  - It covers the append-and-trim of a pause, what is written to storage, `lastPause` and the statistics.
  - The log is a class whose `Pause` method replaces the history. Its contract ties the new history to the function `Appended`.
  - Lemmas prove the properties of `Appended`: the queue keeps exactly the newest 100 sessions whatever the run of pauses; the total duration changes by the new duration minus the evicted ones; `lastPause` is the new timestamp; `todayCount` counts exactly the sessions of the day.
- `Sound` (`sound.dfy`), the sound engine of `hooks/useSound.ts`.
  - `SoundEngine` holds the two preference flags, at most one lazily created audio context, the dictionary of decoded samples, the loads in flight and the two storage cells it touches.
  - `playOink` is specified by the pure `Dispatch`, and the two-voice native cue by `NativeCue`.
- `Theme` (`theme.dfy`), the theme toggle of `hooks/useTheme.ts`.
- `Koan` (`koan.dfy`), the pure helpers behind the message card in `App.tsx`:
  - the comfort messages;
  - the whole-seconds seed;
  - the time-of-day bucket;
  - `String.prototype.trim`;
  - the text a settled generation request yields.
- `HistoryView` (`history_view.dfy`), the drawer's list of the five newest sessions, newest first.
- `Interaction` (`interaction.dfy`), the press/hold/release machine of `App.tsx`, as the class `PauseButton`.
  - The fields follow the component's state and refs.
  - Each timer that a ref holds is modelled as a flag: the timer is armed or it is not.
  - Timers that no ref holds any more, because a second press overwrote the ref, are counted as leaked.
  - The browser's timer firings, the tick, the settling of the generation request and the drawer buttons are methods that the environment calls.
  - Time is an integer `now` that each event carries. The local hour and the random fallback index are parameters.
  - Scenario methods at the end of the file chain the events of one interaction. They cover:
    - a pointer-leave followed by the pointer-up;
    - a double press that leaks a timeout;
    - a 3.5 s hold that requests a koan;
    - a 1.2 s hold whose card refuses the next press;
    - the card's hide and clear timers.

Storage (`localStorage`) is modelled as fields of the classes that read and write its keys. A class starts from what storage holds. React's mount effects are separate `Restore` methods, because they run after the first render.

Three behaviours one might expect do not hold in the code, and the model follows the code:
- A press is not refused while the pointer is already down. It arms a second long-press timeout and overwrites the ref to the first without clearing it (`App.tsx:113-137`).
- The "use the custom sound" preference does not imply that the custom sample is loaded. It is turned on at start-up when data is stored, and by a save before the load completes (`hooks/useSound.ts:16-20`, `hooks/useSound.ts:46-50`). The native cue plays until the sample is decoded.
- Toggling the sound flag does not write it to storage (`hooks/useSound.ts:115`). A stored flag is only ever read.

## Model

| member | source | states |
|---|---|---|
| PauseLog.LastN | hooks/usePause.ts:27 | `slice(-n)` keeps min(len, n) elements, and they are the suffix of the input |
| PauseLog.Appended | hooks/usePause.ts:24-27 | after a pause the history has min(old + 1, 100) sessions and ends with the new one |
| PauseLog.AppendedEvictsOldest | hooks/usePause.ts:24-27 | below 100 the old history is an unchanged prefix of the new one; at 100 exactly the oldest session is evicted |
| PauseLog.LastNAfterLastN | hooks/usePause.ts:27 | trimming an already trimmed list after appending more equals trimming once |
| PauseLog.AppendAllKeepsNewest | hooks/usePause.ts:24-27 | any run of pauses leaves exactly the newest 100 sessions of the whole sequence, in order |
| PauseLog.HundredAndFivePauses | hooks/usePause.ts:26-27 | 105 pauses on an empty log leave the last 100; the first 5 are evicted |
| PauseLog.LastPause | hooks/usePause.ts:14-16 | `lastPause` is null exactly when the history is empty, and otherwise the last session's timestamp |
| PauseLog.LastPauseAfterPause | hooks/usePause.ts:14-16 | after a pause, `lastPause` is the new session's timestamp |
| PauseLog.TotalDuration | hooks/usePause.ts:36 | the sum of all durations is never negative when no duration is, and is 0 for a history of taps only |
| PauseLog.TapAddsNothing | hooks/usePause.ts:36 | appending a tap (duration 0) leaves the total duration unchanged |
| PauseLog.TotalDurationConcat | hooks/usePause.ts:36 | the duration sum of two histories laid end to end is the sum of their sums |
| PauseLog.AppendedTotalDuration | hooks/usePause.ts:25-27 | a pause adds its duration to the total and removes the durations of exactly the sessions it evicts |
| PauseLog.TodayCount | hooks/usePause.ts:37-38 | `todayCount` never exceeds the history length |
| PauseLog.TodayCountIsExact | hooks/usePause.ts:37-38 | `todayCount` equals the number of positions whose session falls on the current day |
| PauseLog.StatsOf | hooks/usePause.ts:34-41 | totalCount is the history length, totalDuration the sum of all durations with zeros included, todayCount the count of the day of `now` (the time the memoised stats were last recomputed, that is, when the history last changed) and at most totalCount |
| PauseLog.InitialHistory | hooks/usePause.ts:5-12 | the initial history is the stored list, or empty when nothing is stored or the stored text does not parse |
| PauseLog.SessionLog.constructor | hooks/usePause.ts:5-12 | the log starts from the initial history of what storage holds |
| PauseLog.DurationOrZero | hooks/usePause.ts:18 | the recorded duration is the one passed, or 0 when it is omitted |
| PauseLog.SessionLog.Pause | hooks/usePause.ts:18-31 | the history becomes `Appended(old history, {now, duration or 0})`, is at most 100 long, is what is persisted under 'pause_history' and reads back as itself, and 'pause_timestamp' holds `now` |
| Theme.Name | hooks/useTheme.ts:3 | the identifier is "pink" exactly for the pink theme and "blue" exactly for the blue one |
| Theme.Parse | hooks/useTheme.ts:10-11 | a stored string names a theme exactly when it is "pink" or "blue", and then the theme's name is that string |
| Theme.ParseName | hooks/useTheme.ts:10-12 | every theme's name reads back as that theme |
| Theme.Toggled | hooks/useTheme.ts:21 | a toggle always changes the theme |
| Theme.ToggleTwice | hooks/useTheme.ts:21 | toggling twice is the identity |
| Theme.Restored | hooks/useTheme.ts:8-17 | a valid stored theme is adopted, and anything else leaves the current theme |
| Theme.RestoreAfterToggle | hooks/useTheme.ts:19-25 | the theme a toggle persists is the theme the next start adopts |
| Theme.ThemeState.constructor | hooks/useTheme.ts:6 | the first render is pink whatever is stored |
| Theme.ThemeState.Restore | hooks/useTheme.ts:8-17 | the mount effect sets the theme to `Restored(stored, old theme)` |
| Theme.ThemeState.Toggle | hooks/useTheme.ts:19-25 | the theme becomes `Toggled(old theme)` and 'app_theme' holds its name |
| Sound.CreateSnort | hooks/useSound.ts:60-88 | a snort sounds for 0.15 s from its start and glides from its pitch to 0.6 of it |
| Sound.NativeCue | hooks/useSound.ts:91-96 | the native cue is two voices: one starting now at 110 Hz with grit 30, one starting 0.12 s later at 90 Hz with grit 40 |
| Sound.NativeCueIsDoubleSnort | hooks/useSound.ts:60-96 | the native cue is two voices in order, (now, 110 Hz, grit 30) then (now + 0.12 s, 90 Hz, grit 40), gliding down to 66 Hz and 54 Hz; the second starts before the first stops, and the cue ends 0.27 s after it started |
| Sound.Dispatch | hooks/useSound.ts:98-112 | silence exactly when sound is off; the custom sample exactly when sound is on, the preference is set and 'custom_oink' is loaded, and then it is that buffer; otherwise the native cue |
| Sound.DisabledIsSilent | hooks/useSound.ts:99 | with sound off nothing plays, whatever the preference and the samples |
| Sound.PreferenceWithoutSample | hooks/useSound.ts:102-111 | the preference without a loaded sample plays the native cue |
| Sound.RestoredEnabled | hooks/useSound.ts:13-14 | a stored flag is on exactly when it is the string "true"; with nothing stored the flag is unchanged |
| Sound.SoundEngine.constructor | hooks/useSound.ts:5-9 | sound starts on, with no preference, no custom data, no context and no samples |
| Sound.SoundEngine.Restore | hooks/useSound.ts:11-22 | the flag becomes `RestoredEnabled(stored)`; non-empty stored custom data is adopted and turns the preference on, and nothing is loaded |
| Sound.SoundEngine.GetCtx | hooks/useSound.ts:24-31 | a context is created only when none exists; afterwards one exists, at most one is ever created, and later calls return the same one |
| Sound.SoundEngine.LoadSample | hooks/useSound.ts:33-36 | an empty data URL changes nothing; otherwise the context is obtained and a load of that name starts |
| Sound.SoundEngine.SettleLoad | hooks/useSound.ts:37-43 | a decoded load stores its buffer under its name, overwriting any earlier one; a failed one leaves the samples unchanged |
| Sound.SoundEngine.SaveCustomSound | hooks/useSound.ts:46-51 | the data is persisted and held, the preference is on, and a load of 'custom_oink' starts unless the data is empty |
| Sound.SoundEngine.ClearCustomSound | hooks/useSound.ts:53-58 | the stored and held data are gone, the preference is off, 'custom_oink' is evicted, and every other sample is untouched |
| Sound.SoundEngine.PlayOink | hooks/useSound.ts:98-112 | the cue is `Dispatch` of the current flags and samples; the context is obtained only when something plays |
| Sound.SoundEngine.ToggleSound | hooks/useSound.ts:115 | the flag is negated, and nothing is written to storage |
| Sound.SoundEngine.SetUseCustomIfAvailable | hooks/useSound.ts:118 | the exposed setter sets the preference |
| Sound.StartWithSavedSound | hooks/useSound.ts:16-20 | a start with stored custom data has the preference on, no custom sample, and plays the native cue |
| Sound.ClearTwice | hooks/useSound.ts:53-58 | clearing the custom sound twice is clearing it once: the stored and held data are gone, the preference is off, exactly 'custom_oink' is removed from the samples, and nothing else of the engine changes |
| Sound.ToggleTwice | hooks/useSound.ts:115 | toggling sound twice restores the flag and leaves 'app_sound' untouched |
| Koan.Fallback | App.tsx:157 | a random fallback is one of the five comfort messages and is not empty |
| Koan.WholeSeconds | App.tsx:148 | `Math.floor(d / 1000)` is the whole seconds rounded down, and is at least 3 exactly when d is at least 3000 |
| Koan.Bucket | App.tsx:96-99 | night exactly for hours before 6 or after 21, morning exactly for 6 to 11, day exactly for 12 to 21 |
| Koan.BucketName | App.tsx:97-99 | the prompt word is "morning", "day" or "night" exactly for the matching bucket |
| Koan.ContextOfHour | App.tsx:96-99 | the prompt word of an hour's bucket is the `context` the generator computes from that hour |
| Koan.TrimStart | App.tsx:105 | removes exactly the leading white space: the result is a suffix that does not start with white space |
| Koan.TrimEnd | App.tsx:105 | removes exactly the trailing white space: the result is a prefix that does not end with white space |
| Koan.Trim | App.tsx:105 | the result is a contiguous slice of the input, everything cut away is white space, it neither starts nor ends with white space |
| Koan.TrimBlank | App.tsx:105 | trimming leaves nothing exactly when every character of the input is white space |
| Koan.TrimBounds | App.tsx:105 | the positions trimming cuts away are all white space, and the kept slice has no white space at its edges |
| Koan.KoanText | App.tsx:105-107 | the card text is never empty; it is the trimmed response when that is not empty, the first comfort message for an empty or undefined response, and the picked comfort message when the request failed |
| Koan.BlankResponse | App.tsx:105 | a response of only white space shows the first comfort message |
| HistoryView.Label | App.tsx:282 | a session reads "Tap" exactly when its duration is not positive, and otherwise shows its duration |
| HistoryView.RowOf | App.tsx:280-282 | a row shows the session's timestamp, and "Tap" exactly when its duration is not positive, otherwise that duration |
| HistoryView.Reversed | App.tsx:279 | reversal keeps the length and puts element i at position len - 1 - i |
| HistoryView.Recent | App.tsx:279 | the list holds min(len, 5) sessions, newest first |
| HistoryView.Panel | App.tsx:278-282 | "A blank canvas..." exactly for an empty history; otherwise min(len, 5) rows, row i showing the i-th newest session |
| HistoryView.RecentAfterPause | App.tsx:279 | after a pause the list starts with the new session, followed by the previous list shifted down by one |
| Interaction.PauseButton.constructor | App.tsx:74-89 | the component starts idle, with the drawer and card closed and no timers armed |
| Interaction.PauseButton.Press | App.tsx:113-137 | a press is refused, changing nothing and arming nothing, exactly when the drawer or card is open; otherwise the pointer is down, the start and elapsed time are reset, the cue is `Dispatch`, a timeout is armed, and the timeout it replaces leaks if it was still armed; from idle it keeps the no-leak invariant |
| Interaction.PauseButton.FireLongPress | App.tsx:129-136 | long-press mode and the tick start only when the pointer is still down; a timeout firing after release changes nothing but spending itself; an interval the ref held before is leaked |
| Interaction.PauseButton.Tick | App.tsx:134 | the elapsed time is `now - start`, never accumulated |
| Interaction.PauseButton.Release | App.tsx:139-172 | ignored unless the pointer is down; otherwise the machine is idle and neither the timeout nor the tick is armed; a tap appends a session of duration 0; a hold appends `now - start`, leaves long-press mode, shows the result, and requests a koan seeded with the whole seconds and the bucket exactly when they are at least 3, and otherwise shows the picked fallback and arms the card timer; it keeps the no-leak invariant |
| Interaction.PauseButton.ReleaseHold | App.tsx:142-167 | the hold branch: timers cleared, `now - start` recorded, and the koan or fallback chosen by the whole seconds |
| Interaction.PauseButton.RecordHold | App.tsx:150-153 | a long-press release records one session of the given duration, stores the new history with the current timestamp, ends long-press mode and shows the result styling, with no timer left armed |
| Interaction.PauseButton.ChooseMessage | App.tsx:155-162 | a hold of three or more whole seconds yields a generation request for that many seconds in the hour's bucket and leaves the card alone; a shorter one shows the fallback at the pick at once and arms one hide timer |
| Interaction.PauseButton.ReleaseTap | App.tsx:168-171 | the tap branch: timers cleared and a session of duration 0 recorded |
| Interaction.PauseButton.KoanSettled | App.tsx:155-162 | the settled request shows `KoanText` of its outcome, generation ends, and the card timer is armed |
| Interaction.PauseButton.FireHide | App.tsx:162-166 | the card timer hides the card and the result styling and arms the clearing timer |
| Interaction.PauseButton.FireClear | App.tsx:166 | the clearing timer empties the message |
| Interaction.PauseButton.OpenStats | App.tsx:245 | the drawer opens |
| Interaction.PauseButton.CloseStats | App.tsx:287 | the drawer closes |
| Interaction.LeaveThenUp | App.tsx:234 | a pointer-leave followed by the pointer-up of a tap records one session, not two |
| Interaction.DoublePress | App.tsx:129 | a second press while down leaks the first timeout, which survives the release |
| Interaction.StrayTimeout | App.tsx:129-136 | a leaked timeout firing after release enters no long-press mode |
| Interaction.HoldPastDelay | App.tsx:113-137 | a press whose 300 ms timeout fires while the pointer is down enters long-press mode with the tick armed and no timer leaked, and the first tick shows the 337 ms since the press |
| Interaction.LongHold | App.tsx:147-157 | a 3500 ms hold records 3500 and requests a koan seeded with 3, leaving nothing armed |
| Interaction.ShortHold | App.tsx:155-160 | a 1200 ms hold records 1200 and shows a comfort message at once, raising the card that makes the next press refused |
| Interaction.CardExpires | App.tsx:162-166 | after a koan settles, the hide timer and then the clearing timer leave no card, no text, no hold styling and `isGenerating` off; the card and clearing timers this koan armed are spent, so the timer counts are back where they were, and one pending request fewer remains |
| Interaction.CardLifecycle | App.tsx:113-118 | once the card has expired, a press is accepted again and arms a long-press timeout |

## Left out

- JSON text, `JSON.parse` and `JSON.stringify` are left out. The stored history is an abstract `Serialized(list)` or `Unparsable`. A stored value that parses to something other than a list of sessions is not modelled.
- `localStorage` exceptions are left out. The `try/catch` fallbacks are modelled only as their outcomes: empty history, theme kept, flags kept.
- `Date.now()`, `new Date().getHours()` and `toDateString` are left out. Time is an integer parameter, the hour is a parameter, and "same day" is a calendar function `dayOf` given as a parameter.
- The text generator call (`GoogleGenAI`, the model name, the network) is left out. A request is the seconds and time-of-day bucket it carries, and its settling is a `Responded(text)` or `Failed` outcome that the environment delivers. The prompt's wording is not modelled beyond `BucketName`.
- `Math.random()` is an input: the index `pick` in 0..4.
- The voice times and frequencies (`Sound.NativeCue`, `Sound.CreateSnort`, `Sound.NativeCueIsDoubleSnort`) are exact reals standing for JavaScript doubles. Sums like `now + 0.12 + 0.15` are exact in the model but rounded in the browser, so the stated stop `now + 0.27` may be off by a rounding error there.
- The WebAudio node graph in `createSnort` is left out: the oscillators, the LFO, the gain envelope, the band-pass filter, the waveforms and the `connect` calls. Only each voice's start, stop, pitch glide and grit are kept as data.
- Sound.CreateSnort: the default `pitch = 120` and `grit = 35` are not modelled, because every call passes both.
- Sound.SoundEngine.GetCtx: creating the context is assumed to succeed. In the source `new AudioContext()` (`hooks/useSound.ts:26-27`) throws when Web Audio is missing or refuses a context, and nothing catches it. A press with sound on would then stop after setting the pointer-down ref (`App.tsx:116`), before the start time and the long-press timeout are set, so every release records a tap. `loadSample` would load nothing. The model does not capture these outcomes: `GetCtx`, `PlayOink`, `LoadSample` and `Interaction.PauseButton.Press` always complete.
- `AudioContext.resume()` for a suspended context is left out, because it does not change which context is held. `fetch`, `arrayBuffer()` and `decodeAudioData` become a `DecodeOutcome` that the environment delivers through `SettleLoad`.
- The `console.error` of a failed load is left out.
- The presentation is left out: JSX, CSS classes, themes' styling, `SkyScene`, `FireworkBurst`, the ripple and "boop" animation timers (`App.tsx:120-123`), and `navigator.vibrate`.
- `formatDuration` and the `toFixed` displays are left out, because they are floating-point formatting. A history row keeps the duration in ms.
- React's rendering model is left out: batched state updates, re-renders, and the stale closures through which a timer callback reads state. Each event runs to completion on the current state.
- Interaction.PauseButton.Release: `handlePointerUp` reads `isLongPressMode` through its render's closure. The model reads the current value, so a release that overtakes a pending re-render is not modelled.
- The real concurrency of `setTimeout` and `setInterval` is left out. The environment calls the firing methods in any order their preconditions allow. Timers carry no due time, so the 300 ms long-press delay, the 37 ms tick, the 5000 ms card window and the 1000 ms clearing delay are not checked against the times passed in; the first two appear only as the times of the long-hold scenario.
- Interaction.PauseButton.FireHide: stacked card timers are counted, not told apart. A card timer from an earlier hold hides a later card just as the source's would.
- The `e.preventDefault()` calls are left out, because they do not change state.
- Negative durations are not excluded. A `now` earlier than the start gives a negative hold. It is recorded as given and shown as "Tap", and its whole seconds round down, as in the source.
- vite.config.ts and the interfaces of types.ts are not part of this model. `PauseSession` is the model datatype.
