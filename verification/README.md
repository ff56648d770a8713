# Rally counter: a verified model of the hit detector and the session controller

Rally counter is a browser app that counts table-tennis rallies. It listens to the
microphone, picks paddle hits out of the spectrum, and keeps a tally per session. A
session ends when the player stops it or after a stretch of seconds without a hit.
Finished sessions feed a recent-sessions list, a top-ten high-score list and running
statistics; the high scores and statistics persist in browser storage, and the
recent sessions last only while the page is open.

This project models the following parts of that app in Dafny and proves properties of them:

- **Hit detector** (`audio_detection.dfy`, module `AudioDetection`), from
  `useAudioDetection`.
  - Band features are extracted from a byte spectrum by loops over an `array`.
  - A 10-entry level history and a noise floor calibrated over the first 100
    levels are kept in class fields.
  - The four-stage `detectHit` classifier.
  - The per-frame state update with its minimum hit interval.
  - `startDetection` / `stopDetection` / `resetCounter`.
- **Session controller** (`session.dfy`, module `Session`), from `Home`.
  - Start, manual stop, timeout stop and reset.
  - The 100 ms inactivity interval.
  - The hit-tracking effect.
  - Each handler is a method of `Session.Controller`, proved to perform a pure
    transition on `SessionState` that the lemmas reason about.
- **`saveScore` aggregator** (`scores.dfy`, module `Scores`).
  - Recent sessions, newest first, five kept.
  - High scores after a stable descending sort, ten kept.
  - Statistics whose average is recomputed from the totals.
- **The page** (`home.dfy`, module `Home`) composes the detector, the controller
  and the storage cells of `useSettings`, `useHighscores` and `useStats`, as the
  page's handlers drive all of them.
- **Display formatters** (`time_format.dfy`, module `TimeFormat`): `formatTime` and
  `formatDuration`, with parsers proved to invert them.
- **Storage contract** (`storage.dfy`, module `Storage`), from `useLocalStorage`.
  - Record shapes, keys and defaults.
  - Load-or-default.
  - Write-through with swallowed write errors.

Modelling conventions:

- Times are integers in milliseconds. Durations and the session timeout are reals in
  seconds.
- Levels and averages are exact reals.
- The things the code takes from the browser are parameters:
  - the spectrum snapshot;
  - the sample rate;
  - whether the microphone could be opened;
  - whether storage can be read or written;
  - `Date.now()`, the record id and the ISO date.

## Model

| member | source | states |
|---|---|---|
| AudioDetection.EffectiveSampleRate | src/hooks/useAudioDetection.ts:115 | A missing (0) sample rate is 44100; any other rate is used as is; the result is positive. |
| AudioDetection.BinIndexIsFloor | src/hooks/useAudioDetection.ts:116-124 | The integer bin index equals `floor(freq / ((sampleRate / 2) / bins))` as the source computes it. |
| AudioDetection.SumRangeBounds | src/hooks/useAudioDetection.ts:127-147 | A band sum of bytes lies between 0 and 255 times the band width. |
| AudioDetection.PeakRangeBounds | src/hooks/useAudioDetection.ts:135-139 | `maxAmplitude` is at most 255, at least every magnitude in the band, and attained by one of them. |
| AudioDetection.AverageBounds | src/hooks/useAudioDetection.ts:131-147 | A band average lies in [0, 255]. |
| AudioDetection.FeaturesOf | src/hooks/useAudioDetection.ts:126-154 | The band averages, peak, displayed level and current level of one snapshot. Its bounds are stated by FeaturesBounded, and ExtractFeatures computes it. |
| AudioDetection.FeaturesBounded | src/hooks/useAudioDetection.ts:126-154 | All three averages lie in [0, 255]. `currentLevel` is the largest average over 255 and lies in [0, 1]. `normalizedLevel` lies in [0, 1] and is at least both the overall band average / 255 and 0.7 × peak / 255. |
| AudioDetection.ExtractFeatures | src/hooks/useAudioDetection.ts:126-154 | The three accumulation loops compute exactly the band features of the snapshot, and these are bounded. |
| AudioDetection.PushLevelWindow | src/hooks/useAudioDetection.ts:155-158 | After a push the history has at most 10 entries and ends with the new level. Earlier entries keep their order, and only the oldest is dropped when full. |
| AudioDetection.Record | src/hooks/useAudioDetection.ts:155-164 | One tick's ref updates: push into the 10-slot history and fold into the noise floor while under 100 samples. See RecordAllHistory, RecordAllCount, RecordAllFloor and CalibrationIsMean. |
| AudioDetection.RecordAllHistory | src/hooks/useAudioDetection.ts:155-158 | After any run of levels since a start, the history is the last 10 of them. |
| AudioDetection.RecordAllCount | src/hooks/useAudioDetection.ts:161-164 | The calibration count is min(k, 100) after k levels. |
| AudioDetection.RecordAllFloor | src/hooks/useAudioDetection.ts:161-164 | The noise floor is the arithmetic mean of the first min(k, 100) levels, so it is frozen after 100. |
| AudioDetection.CalibrationIsMean | src/hooks/useAudioDetection.ts:155-164 | After k levels since a start, the refs are the last 10 levels, the mean of the first min(k, 100), and the count min(k, 100). |
| AudioDetection.ConstantCalibration | src/hooks/useAudioDetection.ts:161-164 | A constant level c gives a noise floor of c and a history of c's. |
| AudioDetection.RecentAverage | src/hooks/useAudioDetection.ts:201-204 | The mean of the recent window without its newest entry is non-negative. |
| AudioDetection.DetectHit | src/hooks/useAudioDetection.ts:193-225 | `detectHit`'s four checks in the source's order. See DetectHitIffAllChecks, QuietNeverHits, SlowAttackNeverHits and ShortHistorySkipsAttack. |
| AudioDetection.DetectHitIffAllChecks | src/hooks/useAudioDetection.ts:193-225 | `detectHit` is true exactly when all four pass: the threshold, the attack (or too short a history), the spectral ratio ≥ 0.8, and the high-band peak. |
| AudioDetection.QuietNeverHits | src/hooks/useAudioDetection.ts:194-198 | A level below max(sensitivity / 100, 3 × noise floor) is never a hit, whatever the other features are. |
| AudioDetection.SlowAttackNeverHits | src/hooks/useAudioDetection.ts:200-208 | With at least 3 history entries, an attack ratio below 2.5 is never a hit. |
| AudioDetection.ShortHistorySkipsAttack | src/hooks/useAudioDetection.ts:201-208 | With at most 2 history entries the attack check passes. |
| AudioDetection.SustainedToneNeverHits | src/hooks/useAudioDetection.ts:193-225 | A steady tone whose level equals every recorded level is never a hit, because 3 × the noise floor exceeds it. |
| AudioDetection.IsolatedTransientHits | src/hooks/useAudioDetection.ts:193-225 | With levels derived from band averages as the tick derives them: on a calibrated quiet background (level 0.05) a spike whose bright bands average 204 and 153 (level 0.8) is a hit at sensitivity 25, and a quiet frame after it is not. |
| AudioDetection.Updater | src/hooks/useAudioDetection.ts:166-187 | The `setState` updater of one tick. See UpdaterTransition. |
| AudioDetection.UpdaterTransition | src/hooks/useAudioDetection.ts:166-187 | Inactive or within `minHitInterval`, only `audioLevel` changes. Otherwise the count rises by 1 exactly when `detectHit` fires, and that hit is stamped `now`, at least `minHitInterval` after the previous one. Otherwise nothing but the level changes. |
| AudioDetection.Detector.constructor | src/hooks/useAudioDetection.ts:19-25 | The initial state is inactive, not listening, level 0, count 0 and last hit 0, with empty refs. |
| AudioDetection.Detector.StartDetection | src/hooks/useAudioDetection.ts:75-89 | When initialisation is needed and fails, it returns false and nothing changes. Otherwise the refs are reset, the detector is active with count 0 and `lastHitTime` kept, and it returns true. |
| AudioDetection.Detector.StopDetection | src/hooks/useAudioDetection.ts:91-96 | Only `isActive` is cleared. |
| AudioDetection.Detector.ResetCounter | src/hooks/useAudioDetection.ts:98-100 | Only `hitCount` and `lastHitTime` go to 0. |
| AudioDetection.Detector.RecordLevel | src/hooks/useAudioDetection.ts:155-164 | The refs are updated by pushing the level and calibrating; the detector state is unchanged. |
| AudioDetection.Detector.SetState | src/hooks/useAudioDetection.ts:166-187 | `setState` replaces the detector state with the updater's result and leaves the refs alone. |
| AudioDetection.Detector.Step | src/hooks/useAudioDetection.ts:153-187 | The level is recorded, so the refs stay equal to the calibration of all levels since the start. The state becomes the updater applied to the previous state. |
| AudioDetection.Detector.Analyze | src/hooks/useAudioDetection.ts:109-190 | A frame extracts the snapshot's features, records the level and applies the updater. The count rises by 0 or 1, and a hit is stamped `now`, at least `minHitInterval` after the last one. |
| Scores.RecentAfter | src/pages/Home.tsx:152-156 | The recent list after a save. See RecentAfterProperties. |
| Scores.HighscoresAfter | src/pages/Home.tsx:158-163 | The high scores after a save. See HighscoresAfterProperties and HighscoresAfterSorted. |
| Scores.StatsAfter | src/pages/Home.tsx:165-173 | The stats after a save. See StatsAfterProperties, StatsOfSessions and AverageIsRecomputed. |
| Scores.NewRecord | src/pages/Home.tsx:140-147 | A saved record is of type free and its longest rally equals its score. |
| Scores.SortByScoreProperties | src/pages/Home.tsx:160 | The descending sort is sorted and a permutation, and it keeps the input order among records of equal score, as a stable sort does. |
| Scores.InsertStable | src/pages/Home.tsx:160 | Inserting a record keeps the relative order of the records of each score, with the new record after its equals. |
| Scores.RecentAfterProperties | src/pages/Home.tsx:152-156 | The new record heads the recent list. The rest are the previous records in order, truncated so at most 5 remain. |
| Scores.TakeSortedKeepsBest | src/pages/Home.tsx:160 | Truncating a sorted list keeps it sorted, keeps a sub-multiset, and every kept record scores at least any dropped one. |
| Scores.HighscoresAfterProperties | src/pages/Home.tsx:158-163 | The high scores after a save number min(n + 1, 10) and are sorted descending. They are drawn from the old list plus the new record, and each one kept scores at least any dropped. |
| Scores.HighscoresAfterSorted | src/pages/Home.tsx:158-163 | When the old list is sorted (as every saved list is), the new list is the first 10 of the old list with the new record inserted after every record scoring at least as much and before every record scoring less. |
| Scores.StatsAfterProperties | src/pages/Home.tsx:165-173 | Total hits grow by the score, longest rally becomes the maximum, sessions grow by 1, play time grows by the duration, and average × sessions = total hits. |
| Scores.StatsOfSessions | src/pages/Home.tsx:165-173 | After any sequence of saves from zero stats, the totals are the sums over the sessions, sessions is their number, the longest rally is the best score, and the average is total hits over sessions. |
| Scores.AverageIsRecomputed | src/pages/Home.tsx:171 | Sessions scoring 4 then 6 give an average of 5. |
| Session.Start | src/pages/Home.tsx:25-47 | The start transition. See StartProperties. |
| Session.Stop | src/pages/Home.tsx:76-98 | The manual-stop transition. See StopProperties and StopTwiceSavesOnce. |
| Session.TimeoutStop | src/pages/Home.tsx:100-120 | The timeout-stop transition. See TimeoutStopProperties. |
| Session.Tick | src/pages/Home.tsx:58-69 | One run of the interval body. See TickProperties and OneHitThenTimeout. |
| Session.DetectorUpdate | src/pages/Home.tsx:191-198 | The hit-tracking effect, acting only on a change of its dependencies. See DetectorUpdateProperties, ZeroTimeoutKeepsTally and ResetThenHitTracked. |
| Session.Reset | src/pages/Home.tsx:130-135 | The reset transition. See ResetProperties. |
| Session.StartProperties | src/pages/Home.tsx:25-47 | A successful start sets session start = last hit = now and the tally to 0, and arms the timer showing the full timeout exactly when the timeout is positive. A failed start changes nothing. No record is saved. |
| Session.DetectorUpdateProperties | src/pages/Home.tsx:191-198 | The tally and the last hit time follow the detector only when it changed and is active with a positive count and a positive timeout. Otherwise they stay. Nothing is saved and the timer is untouched. |
| Session.TickProperties | src/pages/Home.tsx:58-69 | An unarmed interval does nothing. Armed, `remaining = timeout − (now − lastHit)/1000`. At or below 0 it disarms, clears the countdown and stops by timeout, saving one record. Otherwise it only updates the countdown. |
| Session.TimeoutStopProperties | src/pages/Home.tsx:100-120 | A timeout stop saves exactly one record, with the session tally as its score and the configured timeout (not the elapsed time) as its duration. It then clears the session start and the tally. |
| Session.StopProperties | src/pages/Home.tsx:76-98 | A manual stop disarms the timer and clears the session. It saves one record (tally, elapsed seconds) exactly when a (truthy) start time is set, and nothing otherwise. |
| Session.StopTwiceSavesOnce | src/pages/Home.tsx:76-98 | Stopping twice saves at most one record, so the session count grows by at most 1. |
| Session.ResetProperties | src/pages/Home.tsx:130-135 | Reset clears the timer, the tally and the session start. It saves nothing and leaves high scores, recent sessions and stats unchanged. |
| Session.ZeroTimeoutKeepsTally | src/pages/Home.tsx:191-198 | With timeout 0, no run of detector updates changes the tally, the session start or the stored records. |
| Session.ZeroTimeoutSavesZero | src/pages/Home.tsx:191-198 | With timeout 0, a started session stopped by hand saves a score of 0 however many hits the detector counted. |
| Session.ResetThenHitTracked | src/pages/Home.tsx:130-135 | After a reset, once the effect sees the zeroed count, the next counted hit (0 to 1) sets the tally to 1 and restarts the inactivity clock at that hit. |
| Session.OneHitThenTimeout | src/pages/Home.tsx:49-74 | Timeout 3 s with one hit at the start: the session is still running at +2.9 s. At +3.0 s it stops and saves a record scoring 1 with duration 3. |
| Session.Controller.constructor | src/pages/Home.tsx:11-16 | The page mounts with no session, no timer, no recent sessions, and the loaded high scores and stats. |
| Session.Controller.SaveScore | src/pages/Home.tsx:137-176 | The recent list, high scores and stats become their `saveScore` updates for one new record. |
| Session.Controller.StartInactivityTimer | src/pages/Home.tsx:49-74 | The interval is (re)armed and the countdown shows the full timeout. |
| Session.Controller.HandleStart | src/pages/Home.tsx:25-47 | Performs the start transition. |
| Session.Controller.ClearTimeouts | src/pages/Home.tsx:122-128 | The interval is disarmed and the countdown cleared. |
| Session.Controller.HandleStop | src/pages/Home.tsx:76-98 | Performs the manual-stop transition. |
| Session.Controller.HandleTimeoutStop | src/pages/Home.tsx:100-120 | Performs the timeout-stop transition. |
| Session.Controller.HandleReset | src/pages/Home.tsx:130-135 | Performs the reset transition. |
| Session.Controller.OnInterval | src/pages/Home.tsx:58-69 | Performs one run of the interval body. |
| Session.Controller.OnDetectorChange | src/pages/Home.tsx:191-198 | Performs the hit-tracking effect for the detector's current state. |
| Home.DetectorConfig | src/pages/Home.tsx:18-23 | The detector listens to 2–8 kHz with the user's sensitivity and minimum hit interval. |
| Home.ReloadAfterSave | src/pages/Home.tsx:158-173 | After a save's writes, a fresh load of the high scores (or stats) returns the saved value when its write succeeded and the earlier load when it failed; the settings load is unaffected. |
| Home.Page.constructor | src/pages/Home.tsx:6-23 | The settings, high scores and stats are the load-or-default of their keys; the detector is configured from those settings, and the controller mounts with their timeout and the loaded records. |
| Home.Page.Persist | src/pages/Home.tsx:158-173 | The high-score and stats cells hold the controller's new values, and storage takes each write that succeeds, high scores first. |
| Home.Page.HandleStart | src/pages/Home.tsx:25-47 | Starts detection: the audio graph is ready exactly on success. On success the detector is active with count 0, reset refs and no levels; on failure its state, refs and levels are unchanged. The session starts exactly when detection did, and the hit-tracking effect then sees the detector's new state. |
| Home.Page.HandleStop | src/pages/Home.tsx:76-98 | The manual-stop transition. Only the detector's active flag changes; its refs, levels and audio graph are kept. Storage receives the save's writes exactly when a session with a start time was saved. The hit-tracking effect then sees the stopped detector. |
| Home.Page.HandleReset | src/pages/Home.tsx:130-135 | The reset transition. Only the detector's count and last hit time are zeroed; its refs, levels and audio graph are kept. Storage is untouched. The hit-tracking effect then sees the zeroed count, so the next counted hit is tracked. |
| Home.Page.OnInterval | src/pages/Home.tsx:58-69 | The interval transition. On timeout the detector is stopped and the save's writes reach storage; otherwise detector and storage are unchanged. Refs, levels and audio graph are kept either way. The hit-tracking effect then sees the detector's state. |
| Home.Page.OnFrame | src/pages/Home.tsx:191-198 | The detector records the frame's level (levels extended by it, refs = one recording step of the old refs) and applies the updater; then the hit-tracking effect sees its new active flag and count. |
| TimeFormat.FormatTime | src/pages/Home.tsx:178-182 | `m:ss`. See SecondsField and ParseFormatTime. |
| TimeFormat.FormatDuration | src/pages/Home.tsx:184-188 | `Xm Ys` or `Ys`. See DurationFields, FormatDurationShape and ParseFormatDuration. |
| TimeFormat.NatToString | src/pages/Home.tsx:181 | `toString` of a whole number is a non-empty string of digits, one digit exactly below 10. |
| TimeFormat.ParseNatToString | src/pages/Home.tsx:181 | The decimal numeral reads back as the number. |
| TimeFormat.NoLeadingZero | src/pages/Home.tsx:181 | A numeral starts with 0 only for 0. |
| TimeFormat.PadStart2 | src/pages/Home.tsx:181 | `padStart(2, '0')` leaves strings of 2 or more characters alone and left-pads shorter ones with zeros to 2. |
| TimeFormat.SecondsField | src/pages/Home.tsx:179-181 | The seconds field of `m:ss` is always two digits and reads back as the seconds mod 60. |
| TimeFormat.ParseFormatTime | src/pages/Home.tsx:178-182 | The countdown text `m:ss` reads back as the whole seconds it was made from. |
| TimeFormat.Trunc | src/pages/Home.tsx:186 | Rounding toward zero, which JavaScript's `%` uses: the result has the sign of `x`, is no larger than `x` in magnitude, and differs from it by less than 1. |
| TimeFormat.JsRemSign | src/pages/Home.tsx:186 | For a positive modulus, `x % m` has the sign of `x` and lies strictly within `m` of zero. |
| TimeFormat.DurationFields | src/pages/Home.tsx:184-188 | For a non-negative duration, minutes × 60 + seconds = floor(duration), with seconds in [0, 60). Minutes are shown exactly from 60 s on. |
| TimeFormat.ParseFormatDuration | src/pages/Home.tsx:184-188 | The duration text `Xm Ys` or `Ys` reads back as the whole seconds of a non-negative duration. |
| TimeFormat.FormatDurationShape | src/pages/Home.tsx:184-188 | Under 60 s the text is `Ys`. From 60 s on it is `Xm Ys`, with whole minutes and the remaining whole seconds. |
| Storage.DecodeEncode | src/hooks/useLocalStorage.ts:7-18 | Parsing what `setValue` stored gives the value back. |
| Storage.LoadOrDefault | src/hooks/useLocalStorage.ts:4-12 | The initial load returns the stored value when the key holds a parseable entry. Otherwise (unreadable storage, missing key, empty or unparseable text) it returns the initial value, and no error escapes. |
| Storage.Store | src/hooks/useLocalStorage.ts:18 | After a write the key holds the encoding of the value. No other key changes, and no key disappears. |
| Storage.LoadAfterStore | src/hooks/useLocalStorage.ts:4-21 | A stored value is what a later load of its key returns, whatever the default. Loads of every other key are unaffected. |
| Storage.FirstRunDefaults | src/hooks/useLocalStorage.ts:53-79 | With nothing stored, the hooks load these defaults: sensitivity 25, interval 200 ms, timeout 3 s, light theme, sound on, English; no high scores; all-zero stats. |
| Storage.Cell.constructor | src/hooks/useLocalStorage.ts:4-12 | The hook's value starts as the load-or-default of its key. |
| Storage.Cell.SetValue | src/hooks/useLocalStorage.ts:14-22 | The in-memory value becomes `v`. The storage entry for the key is written when the write succeeds and left as it was when it fails. |
| Storage.Cell.Update | src/hooks/useLocalStorage.ts:14-22 | The functional form stores `f(current)` in memory and, when the write succeeds, in storage. |

## Left out

- **Microphone and Web Audio** (`getUserMedia`, `AudioContext`, `AnalyserNode`, the FFT itself, `cleanup`).
  - The spectrum snapshot is an input array.
  - The outcome of `initializeAudio` is a boolean.
  - Releasing the stream and the context on unmount is not modelled.
- **Scheduling.**
  - `requestAnimationFrame` and the 100 ms `setInterval` are not modelled. The caller calls `Analyze` / `OnFrame` per frame and `OnInterval` per interval run, each applied atomically. Which frames run is the caller's choice:
    - frames only between start and stop;
    - one analysis loop per start, where the browser would start another loop on each repeated start.
- **React semantics.**
  - A `setState` updater is applied at once, with the refs as they are after this frame's recording. React may defer it to a later render.
  - The hit-tracking effect runs after a render in which its dependencies changed. The controller remembers the last `(isActive, hitCount)` the effect saw. Every page handler and frame ends by running the effect on the detector's new pair, so the remembered pair is always the detector's current one (part of `Home.Page.Valid`).
  - `setValue(f)` applies `f` to the hook's current value. The hook reads the value of the last render, which can be stale when two updates happen before a re-render.
- **Floating point.**
  - Levels, averages and durations are exact reals, so IEEE-754 rounding is not modelled.
  - NaN from a zero-width band is not modelled. `Analyze` and `OnFrame` require every band to be non-empty and inside the snapshot (`WellFormed`).
- **JSON.**
  - Encoding is an abstract round trip.
  - A stored text that parses to a value of another shape (such as `null` or a number) is not modelled. An entry either encodes a value of the key's kind or fails to parse.
- **Values from the environment.** Ids (`crypto.randomUUID`), dates (`toISOString`) and `Date.now()` are parameters. `alert` and `console.log` are dropped.
- **Settings changes.** The session timeout and the detector configuration are fixed when the page is built. A settings change during a session is not modelled.
- **Automatic restart.** No automatic restart exists after a timeout stop: `handleTimeoutStop` (src/pages/Home.tsx:100-120) only stops and saves, so none is modelled.
- **Rendering.**
  - The JSX of the pages is not modelled, including `Math.ceil` of the countdown before `formatTime`.
  - The settings, help and high-score pages, navigation, theme and translations are not modelled.
- Home.Page.constructor: requires the settings, high-score and stats keys to load as values of their own kinds (see JSON above); the source would use a stored value of another kind untyped.
- TimeFormat.FormatTime: takes a whole number of seconds, which is all the page passes it.
- TimeFormat.ParseFormatDuration: the round trip is stated for non-negative durations only. `FormatDuration` models negative input with JavaScript's `%` and `Math.floor`, but no parser is given for the resulting `-Ns` text.
- Scores.HighscoresAfterProperties: `Array.prototype.sort` with the comparator `b.score - a.score` is modelled as a stable insertion sort, which is what the language guarantees. The sort algorithm the engine actually uses is not modelled.
