# Emotion recorder: a verified model of its session logic

The emotion recorder is a browser affect journal. Every five minutes it
rings a buzzer and records 30 seconds of video while speech recognition
transcribes what is said. It then asks the user how they feel, either as a
click on an eight-sector Plutchik emotion wheel or as a typed word. Each
moment is stored in an IndexedDB object store, drawn as a trace and a
timeline, summarised in a statistics panel, and exported as JSON or CSV. A
mechanical-clock sound accompanies the countdown.

This project models the deterministic part of that system in Dafny and
proves what it promises. There is one module per source file, plus `Text`,
which holds the JavaScript string operations the others rely on.

- `Text` (`text.dfy`) covers `trim`, `toLowerCase`, `includes`, `padStart`,
  `replace`, `join` and number rendering. Each one is defined together with
  the facts the rest of the model uses.
- `Colors` (`colors.dfy`) is the `hexToRgba` parser shared by the wheel and
  the trace. It models `parseInt(…, 16)` on two-character slices, including
  its `NaN` case.
- `Wheel` (`emotion_wheel.dfy`) holds:
  - the two theme tables;
  - the angle normaliser and the nearest-angle scan, whose strict `<`
    resolves ties towards the lower index;
  - the intensity bands;
  - the keyword lookup for a typed word;
  - the `EmotionWheel` object, with its click and word selection, reset and
    theme switch.
- `Storage` (`storage.dfy`) models the object store as a sequence of records
  in key order with an auto-increment key generator. It also holds the
  cached session id, the range filter, export, blob lookup, and the cells
  and lines of the CSV export.
- `Transcription` (`transcription.dfy`) is the transcript accumulator, fed by
  the recogniser's `start`, `result` and `end` events.
- `Recorder` (`recorder.dfy`) is the 30-second recording timer and the chunk
  buffer.
- `Sound` (`sound_manager.dfy`) is the per-second tick/tock decision, the
  single ticking interval and the on/off switch.
- `Visualization` (`visualization.dfy`) holds the colour lookup, the
  per-emotion counts, the most common emotion, the first and last
  timestamps and the newest-first timeline.
- `App` (`app.dfy`) is the session controller as a class over the others:
  - start, pause and stop;
  - the 100 ms countdown tick with its `m:ss` display;
  - the capture, and the events that end it;
  - the word box;
  - submission and clearing.

Time is an explicit `now` in milliseconds. The browser's answers are
parameters: camera permission, whether a `MediaRecorder` could be created,
whether speech recognition or audio exist, the random suffix of a session
id, the locale formatting of dates and times, the string rendering of
fractional numbers, and the confirmation dialogs.

Where the code and the intended design differ, the model follows the code:

- Resuming after a pause re-arms a full five-minute interval, not the time
  that was left (`app.js:180`, `app.js:218`).
- The stored `emotion` is the typed word, not the category it maps to
  (`app.js:339`).
- A typed word is placed at intensity 0.66 with the label `'moderate'`,
  although the intensity bands call 0.66 `'intense'` (`js/emotionWheel.js:226`,
  `js/emotionWheel.js:273-274`). `Wheel.WordIntensityIsBandedIntense` states
  the mismatch.
- `stop` does not call `stopRecording` and does not stop recognition
  (`app.js:194-215`). It releases the camera stream, which ends its tracks
  (`recorder.js:132-137`); the recorder's resulting `stop` event is modelled
  separately, by `OnRecorderStop`.
- `pause` has no guard on the capture phase (`app.js:174-181`). Resuming
  during a recording or while the emotion form is open arms a new countdown
  beside that capture. `Pause`'s contract holds in every phase, so it covers
  this case too.
- The word `"unhappy"` lands in Joy, not Sadness, because it contains the Joy
  keyword `"happy"` and Joy comes first in the table.

## Model

| member | source | states |
|---|---|---|
| Text.Trim | app.js:95 | `trim()`: the result is no longer than the input, and when it is not empty it neither starts nor ends with white space. It is empty exactly when every character of the input is white space. |
| Text.TrimRemovesOnlyEdgeSpaces | js/transcription.js:103 | The trimmed string is the slice between the leading and the trailing white space. Every character cut off is white space. |
| Text.TrimIdempotent | js/transcription.js:74 | Trimming twice is the same as trimming once. |
| Text.ToLower | js/emotionWheel.js:231 | `toLowerCase()` keeps the length and lower-cases each character in place. |
| Text.ToLowerIdempotent | visualization.js:155 | Lower-casing twice is the same as lower-casing once. |
| Text.ContainsIff | js/emotionWheel.js:247 | The `includes` test holds exactly when the pattern occurs at some position of the string. |
| Text.PadStart | app.js:252 | `padStart(len, c)`: when the string is shorter than `len`, the result has length `len`. The string ends the result and every character before it is `c`. |
| Text.ReplaceAll | js/storage.js:127 | Replacing every `c` by a text without `c` leaves no `c` behind. |
| Text.CountChar | js/storage.js:127 | The number of occurrences of a character in a string. `CountCharAppend`, `CountCharJoin` and `Storage.EscapeDoublesQuotes` state its properties. |
| Text.NatToString | app.js:252 | A number's decimal rendering is a non-empty run of digits, one digit long exactly for numbers below 10. |
| Text.ParseNatToString | app.js:252 | Reading a number's decimal rendering back gives the number. |
| Text.CountCharJoin | js/storage.js:132-135 | Joining `n` parts with the separator `c` adds exactly `n - 1` occurrences of `c` to those already in the parts. |
| Colors.ParseIntHex | visualization.js:289-291 | `parseInt(s, 16)`: skip leading white space, accept one sign and then one `0x` prefix, read the longest run of hex digits, and give `NaN` without a digit. `ParsePair` and `NonHexPairIsNaN` state its results on the two-character slices `hexToRgba` passes. |
| Colors.HexToRgba | visualization.js:288-293 | `hexToRgba` keeps the alpha as given. |
| Colors.Channel | visualization.js:289-291 | On a `#RRGGBB` colour, each two-character slice parses as a hexadecimal number from 0 to 255. |
| Colors.HexToRgbaChannels | visualization.js:288-293 | On a `#RRGGBB` colour, the result is the three channel values of the slices at 1, 3 and 5, each between 0 and 255, with the alpha as given. |
| Colors.ParsePair | js/emotionWheel.js:280-282 | `parseInt` of two hexadecimal digits is 16 times the first digit plus the second. |
| Colors.RgbRoundTrip | js/emotionWheel.js:279-284 | Parsing the `#RRGGBB` rendering of three channels from 0 to 255 gives those channels back. |
| Colors.NonHexPairIsNaN | visualization.js:289-291 | A slice whose first character is not a hexadecimal digit, white space or a sign parses as `NaN`. |
| Wheel.ThemesShareLayout | js/emotionWheel.js:11-32 | Both theme tables list the eight category names in the same order, at angles 0, 45, …, 315. |
| Wheel.IntensityLevel | js/emotionWheel.js:224-228 | The level is `mild` iff intensity < 0.33, `moderate` iff 0.33 ≤ intensity < 0.66, and `intense` iff intensity ≥ 0.66, including 0.66 itself. |
| Wheel.IntensityLevelMonotonic | js/emotionWheel.js:224-228 | A larger intensity never gets a lower band. |
| Wheel.AngleDifference | js/emotionWheel.js:217-222 | The result lies in [-180, 180] and differs from `angle1 - angle2` by a whole number of turns. |
| Wheel.WrappedSize | js/emotionWheel.js:217-222 | The size of any such wrapped difference is the circular distance of the two angles. |
| Wheel.CircularDistance | js/emotionWheel.js:204 | The circular distance lies between 0 and 180. |
| Wheel.Sector | js/emotionWheel.js:202-215 | The 45-degree sector of an angle in [0, 360) is one of the 8 entries. Boundaries go to the lower index and 337.5 goes to Joy. `NearestIsSector` proves this is the index the nearest-angle scan finds. |
| Wheel.EmotionWheel.GetEmotionFromAngle | js/emotionWheel.js:202-215 | The entry returned is at the least circular distance from the angle, and strictly nearer than every entry before it, so ties go to the lower index. |
| Wheel.NearestIsUnique | js/emotionWheel.js:206-211 | Only one index can be the first nearest entry. |
| Wheel.NearestDependsOnlyOnAngles | js/emotionWheel.js:291-295 | Two tables with the same angles classify every angle the same way, so switching themes does not change classification. |
| Wheel.NearestIsSector | js/emotionWheel.js:202-215 | On a theme table, the first nearest entry to an angle in [0, 360) is its 45-degree sector rounded to the nearer, lower-on-ties canonical angle. |
| Wheel.SectorIsCloser | js/emotionWheel.js:208 | The sector's entry is at least as near as every other entry, and strictly nearer than those before it. |
| Wheel.TieBreaks | js/emotionWheel.js:208 | 22.5 degrees gives Joy, 202.5 gives Sadness and 337.5 gives Joy. |
| Wheel.AnyKeywordMatchesIff | js/emotionWheel.js:247 | A category matches exactly when one of its keywords contains the word or is contained in it. |
| Wheel.FirstMatchingCategory | js/emotionWheel.js:246-251 | Any index found is the index of one of the categories. `FirstMatchingCategoryIsFirst` states that it is the first one that matches. |
| Wheel.FirstMatchingCategoryIsFirst | js/emotionWheel.js:246-251 | The category found matches, and no earlier one does. With none found, no category matches. |
| Wheel.WordCategory | js/emotionWheel.js:230-255 | A word's category is one of the 8. `WordCategoryIsFirstMatch` states which one it is. |
| Wheel.WordCategoryIsFirstMatch | js/emotionWheel.js:230-255 | After lower-casing and trimming, a word lands in the first category in map order with a matching keyword, and in Joy when none matches. |
| Wheel.FindByName | js/emotionWheel.js:248 | `find` by lower-cased name returns an entry of the table with that name. `None` is returned only when no entry has it. |
| Wheel.FindByNameFirst | js/emotionWheel.js:248 | `find` returns the first entry with the name. |
| Wheel.ThemeNamesAreKeys | js/emotionWheel.js:234-243 | The lower-cased names of a theme table are the category keys, in the same order. |
| Wheel.FindCategoryEntry | js/emotionWheel.js:248 | Looking up a category key in a theme table finds the entry at the same index. |
| Wheel.MapWordToEmotion | js/emotionWheel.js:230-255 | `mapWordToEmotion`: lower-case and trim the word, look up the first matching category's entry by name, and fall back to the first entry. `MapWordToEmotionIsCategory` states the result on a theme table. |
| Wheel.MapWordToEmotionIsCategory | js/emotionWheel.js:230-255 | `mapWordToEmotion` on a theme table always finds an entry: the one at the word's category. |
| Wheel.UnhappyIsJoy | js/emotionWheel.js:235-239 | `"unhappy"` is a Sadness keyword but lands in Joy. |
| Wheel.JoyfulIsJoy | js/emotionWheel.js:231 | `"  Joyful "` lands in Joy once lower-cased and trimmed. |
| Wheel.WordIntensityIsBandedIntense | js/emotionWheel.js:273-274 | The bands call the fixed word intensity 0.66 `intense`, while the word path labels it `moderate`. |
| Wheel.EmotionWheel.constructor | js/emotionWheel.js:3-44 | The wheel starts on the light table with no marker. |
| Wheel.EmotionWheel.HandleClick | js/emotionWheel.js:174-197 | A click outside the radius selects nothing and leaves the marker. Inside it, the results are: the angle is normalised into [0, 360); the intensity is distance/maxRadius in [0, 1] with its band; the entry is the angle's sector; the marker moves to the click. |
| Wheel.EmotionWheel.SelectByWord | js/emotionWheel.js:257-277 | The word's category entry is returned at its canonical angle, intensity 0.66 and level `moderate`, and the marker moves there. |
| Wheel.EmotionWheel.Reset | js/emotionWheel.js:286-289 | No marker is left. |
| Wheel.EmotionWheel.UpdateTheme | js/emotionWheel.js:291-295 | The table becomes the dark one in dark mode and the light one otherwise, with names and angles unchanged. |
| Storage.Merge | js/storage.js:42-48 | The saved record takes the clock and the cached session id unless the caller supplies them. Every other field, the blob included, is the caller's. |
| Storage.NewSessionId | js/storage.js:98 | A new session id begins with `session_` and has more after it. |
| Storage.SessionIdFor | js/storage.js:95-102 | A non-empty cached id is returned as is. Otherwise a fresh id is returned, which is never empty. |
| Storage.SessionIdIsStable | js/storage.js:95-102 | Once an id is cached, every later call returns it, whatever the clock or random input. |
| Storage.StorageManager.constructor | js/storage.js:3-8 | The store starts empty, with key 1 next and no cached session id. |
| Storage.StorageManager.Open | js/storage.js:10-35 | `init`: the store holds the records earlier sessions persisted, and the key generator resumes where they left it. The store stays well formed: keys are increasing and every stored key is below the next one. |
| Storage.StorageManager.GetSessionId | js/storage.js:95-102 | The id returned is the cached one when it is non-empty, and otherwise a new one, which is then cached. |
| Storage.StorageManager.SaveCapture | js/storage.js:37-55 | One merged record is added at the end under the next key, which no existing record has. The other records are unchanged, the session id is cached, and key order holds. |
| Storage.StorageManager.GetAllCaptures | js/storage.js:57-66 | Every record is returned, in increasing key order. |
| Storage.InRange | js/storage.js:68-73 | The filter keeps exactly the records with start ≤ timestamp ≤ end. |
| Storage.InRangeKeepsOrder | js/storage.js:70 | The filter keeps the records in store order. |
| Storage.InvertedRangeIsEmpty | js/storage.js:70-71 | A range ending before it starts selects nothing. |
| Storage.StorageManager.GetCapturesByDateRange | js/storage.js:68-73 | The result lists exactly the records in the inclusive range, in key order. |
| Storage.StorageManager.DeleteAllCaptures | js/storage.js:75-84 | The store is empty afterwards. |
| Storage.StorageManager.ExportData | js/storage.js:86-93 | The export holds every record and counts them. |
| Storage.Lookup | js/storage.js:152 | A point lookup finds a record with that key, or reports that no record has it. |
| Storage.LookupAppended | js/storage.js:50-52 | A record just added under a fresh key is found by that key. |
| Storage.LookupOthers | js/storage.js:50-52 | Adding a record does not change what any other key finds. |
| Storage.BlobOf | js/storage.js:148-160 | The blob of the record found under a key, and `null` when there is none. `GetVideoBlob`, `SavedBlobIsFound` and the `Lookup` lemmas state its results. |
| Storage.StorageManager.GetVideoBlob | js/storage.js:148-160 | The lookup returns the record's blob, and `null` when no record has the key. |
| Storage.SavedBlobIsFound | js/storage.js:47 | After a save, the new key's blob is the one the caller passed. |
| Storage.EscapeQuotes | js/storage.js:127 | `replace(/"/g, '""')`: every `"` of the transcript is written as two. `EscapeDoublesQuotes` and `EscapeRoundTrip` state this. |
| Storage.EscapeDoublesQuotes | js/storage.js:127 | Escaping exactly doubles the number of `"` characters, and every other character occurs as often as before. |
| Storage.EscapeRoundTrip | js/storage.js:127 | Doubling the quotes of a transcript loses nothing: undoing it gives the transcript back. |
| Storage.NumberCell | js/storage.js:125-126 | `x \|\| ''` for a number: zero gives the empty cell, and any other value the number's string rendering (JavaScript `toString`), which is a parameter. `CsvRow` states both cases. |
| Storage.CsvRow | js/storage.js:118-130 | A data row has the eight header columns: the timestamp, the locale date and time, and the emotion. A zero angle or intensity gives an empty cell, and any other value its `toString` rendering. The transcript cell is the transcript with its quotes doubled, and reading it back gives the transcript. The last cell is `Yes` or `No` by blob presence. |
| Storage.Quote | js/storage.js:134 | Every data cell is wrapped in one pair of double quotes. |
| Storage.CsvLine | js/storage.js:134 | A row's cells, each quoted, joined by commas. `Quote`, `LineAvoids` and `CsvLineCount` state its properties. |
| Storage.DataLines | js/storage.js:134 | There is one quoted, comma-joined line per record, in store order. |
| Storage.CsvLines | js/storage.js:132-135 | The file is the unquoted header line followed by one line per record, 1 + n lines in all. |
| Storage.CsvContent | js/storage.js:132-135 | The file's content is its lines joined by line breaks. `CsvLines` and `CsvLineCount` state what those lines are and how many breaks there are. |
| Storage.HeaderLine | js/storage.js:117 | The header line has no quote and no line break, and its 7 commas separate 8 names. |
| Storage.CsvLineCount | js/storage.js:132-135 | When no cell holds a line break, the file has exactly one `\n` per record. |
| Storage.LineAvoids | js/storage.js:134 | A character other than `"` and `,` that is in no cell is in no quoted line. |
| Transcription.TranscriptionManager.constructor | js/transcription.js:2-11 | The transcript starts empty, not listening. |
| Transcription.TranscriptionManager.Start | js/transcription.js:79-94 | Without recognition, `false` and no change. With it, the transcript is emptied and a new session is started. Starting while a session runs fails, as the recogniser throws. |
| Transcription.TranscriptionManager.Stop | js/transcription.js:96-100 | The recogniser is asked to stop only when it exists and is listening. |
| Transcription.TranscriptionManager.OnStart | js/transcription.js:27-30 | The manager is listening. |
| Transcription.TranscriptionManager.OnResult | js/transcription.js:32-55 | The transcript is extended by each final text from `resultIndex` on, followed by a space. The update shows the new transcript followed by the interim texts. |
| Transcription.FinalText | js/transcription.js:36-44 | The final results of a run, each text followed by a space, in order. `FinalTextAppend`, `FinalTextLength` and `InterimOnlyAddsNothing` state its properties. |
| Transcription.InterimText | js/transcription.js:36-44 | The interim results of a run, concatenated in order. `OnResult` shows them after the transcript. |
| Transcription.FinalTextAppend | js/transcription.js:36-49 | The final text of two runs of results is the final text of each, in order. |
| Transcription.InterimOnlyAddsNothing | js/transcription.js:39-43 | Interim results never enter the transcript. |
| Transcription.FinalTextLength | js/transcription.js:40 | Each final result adds its text and exactly one space. |
| Transcription.TranscriptionManager.OnEnd | js/transcription.js:69-76 | Listening ends and the trimmed transcript is reported. |
| Transcription.TranscriptionManager.GetTranscript | js/transcription.js:102-104 | The trimmed transcript is returned, the same text `onend` reports; it is empty only when the transcript is all white space. |
| Transcription.TranscriptionManager.Reset | js/transcription.js:106-108 | The transcript is empty. |
| Recorder.Kept | recorder.js:69-73 | The buffer holds only non-empty chunks, every non-empty arrival, and nothing that did not arrive. |
| Recorder.KeptAppend | recorder.js:69-73 | Buffering is per arrival: a longer run keeps what each part keeps, in order. |
| Recorder.KeptKeepsAllBytes | recorder.js:70-71 | Dropping empty chunks loses no byte of what arrived. |
| Recorder.VideoRecorder.constructor | recorder.js:2-13 | No stream, not recording, no timer, an empty buffer and 30 seconds left. |
| Recorder.VideoRecorder.RequestPermissions | recorder.js:15-38 | The answer is the user's, and a stream is held only when it was granted. |
| Recorder.VideoRecorder.StartRecording | recorder.js:40-119 | Without a stream and with permission refused, it returns `false` and nothing changes. Otherwise the buffer is emptied and 30 seconds are set before the recorder is created. Creation succeeding starts recording and the timer. |
| Recorder.VideoRecorder.TimerTick | recorder.js:100-110 | Each tick takes exactly one second off. Once none is left the timer stops with a guarded `stopRecording`; before that it keeps running. |
| Recorder.VideoRecorder.SetCompletionListener | app.js:294-296 | After a successful start the completion handler is installed. |
| Recorder.VideoRecorder.StopRecording | recorder.js:121-130 | The recorder is asked to stop only while it records. The timer is always cleared. |
| Recorder.VideoRecorder.OnDataAvailable | recorder.js:69-73 | A chunk is appended exactly when it is non-empty. |
| Recorder.VideoRecorder.OnStop | recorder.js:75-89 | Recording and the timer stop, and the listener, if set, receives the blob of all buffered chunks. |
| Recorder.VideoRecorder.StopStream | recorder.js:132-137 | No stream is held afterwards, however often it is called. |
| Sound.Decide | js/soundManager.js:165-183 | An unchanged second plays nothing and keeps the state. A changed one is remembered. From 1 to 10 it plays a warning tick, and at 0 or below nothing; neither flips tick/tock. Above 10 it plays tick or tock by the flag, then flips it. |
| Sound.TickTockAlternates | js/soundManager.js:162-180 | Successive changed readings above 10 play tick, tock, tick, … alternately from the starting flag. From a fresh interval that is tick first. |
| Sound.RepeatsAreSilent | js/soundManager.js:168 | Any number of repeats of the last reading plays nothing and leaves the state as it was. |
| Sound.SoundManager.constructor | js/soundManager.js:2-17 | Sound is enabled exactly when an audio context exists, and nothing ticks. |
| Sound.SoundManager.Play | js/soundManager.js:21 | A sound is audible exactly when sound is enabled and an audio context exists. The same guard opens `play*` at lines 45, 68, 91 and 132. |
| Sound.SoundManager.StartCountdownTicking | js/soundManager.js:159-164 | One interval ticks, from a fresh tick-first state at the given second. |
| Sound.SoundManager.StopCountdownTicking | js/soundManager.js:186-191 | No interval ticks afterwards, however often it is called. |
| Sound.SoundManager.OnTick | js/soundManager.js:165-183 | One firing follows `Decide`, and its cue is heard only when sound is on. |
| Sound.SoundManager.ToggleSound | js/soundManager.js:194-197 | `enabled` is negated and the new value returned, so two toggles restore it. |
| Visualization.FirstKeyIn | visualization.js:154-158 | The key found is the first one, in table order, whose lower-cased form occurs in the lower-cased name. When none is found, no key occurs. |
| Visualization.EmotionColor | visualization.js:152-160 | The colour is that of the first matching key, and `#667eea` for an empty name or no match. |
| Visualization.CategoryNamesGetWheelColors | visualization.js:12-21 | Every category name gets its wheel colour. |
| Visualization.HappyGetsDefaultColor | visualization.js:152-160 | A word matching no key, such as `"happy"`, gets the default colour. |
| Visualization.EmotionKey | visualization.js:253 | An empty emotion is counted under `Unknown`, so no key is empty. |
| Visualization.CountOfPositive | visualization.js:252-255 | An emotion has a positive count exactly when some capture has it. |
| Visualization.Tally | visualization.js:251-255 | The `forEach` counting, as a function of the captures: each capture's key is added, or its count raised. `TallyIsCorrect` and `TallyFirstSeen` state what it computes. |
| Visualization.TallyIsCorrect | visualization.js:251-255 | The tally lists each emotion once, with its number of captures, and the counts add up to the number of captures. |
| Visualization.TallyFirstSeen | visualization.js:251-255 | The keys come in first-seen order: when a capture is counted under a key, every key listed before it has already occurred among the earlier captures. |
| Visualization.CountEmotions | visualization.js:251-255 | The loop computes that tally: distinct keys, exactly the emotions that occur, each with its count, summing to the number of captures. |
| Visualization.MostCommon | visualization.js:258-259 | The pick is a key whose count is at least every other count, and the first key with that count, as a stable sort gives. |
| Visualization.OccurringKeyIsListed | visualization.js:251-255 | Every capture's emotion is listed in the tally, at some index. |
| Visualization.TieSeenBy | visualization.js:258-259 | Take the first key of the tally with its count. Any capture whose emotion has the same count comes at or after that key's first capture. |
| Visualization.FirstMaximalKeyWins | visualization.js:258-259 | The same for every capture, with the most common emotion `MostCommon` returns on the tally: a tie goes to the emotion seen first. |
| Visualization.FirstTimestamp | visualization.js:265 | The first capture time is the least timestamp of some capture. |
| Visualization.LastTimestamp | visualization.js:266 | The last capture time is the greatest timestamp of some capture. |
| Visualization.TotalIntensityBounds | visualization.js:262 | With intensities in [0, 1], the total lies between 0 and the number of captures. |
| Visualization.SortNewestFirst | visualization.js:171 | The timeline order is a permutation of the captures, sorted by timestamp non-increasing. |
| Visualization.VisualizationManager.constructor | visualization.js:3-22 | The trace starts with no captures. |
| Visualization.VisualizationManager.LoadCaptures | visualization.js:24-29 | The trace holds every stored record. |
| Visualization.VisualizationManager.Timeline | visualization.js:170-171 | The timeline lists the captures newest first, each exactly as often as stored. |
| Visualization.VisualizationManager.UpdateStatistics | visualization.js:239-286 | There are no statistics exactly when there are no captures. Otherwise they give: the total; the most common emotion, whose count is positive and at least every capture's emotion count, and on a tie the emotion seen first; the average intensity; the least and greatest timestamps. |
| App.CeilSeconds | app.js:247 | `Math.ceil(ms / 1000)`: the least whole number of seconds covering the milliseconds. |
| App.JsRem | app.js:249 | JavaScript's `%`: the mathematical remainder for a non-negative dividend, and zero or negative for a negative one. |
| App.FormatCountdown | app.js:246-253 | `updateCountdown`: the milliseconds left, rounded up to whole seconds, shown as minutes, a colon and two-digit seconds. `CountdownFormat` and the two example lemmas state its results. |
| App.CountdownFormat | app.js:246-253 | With time left, the display is the minutes, a colon and exactly two digits. Read back these give the rounded-up seconds divided by 60, and the remainder. |
| App.TwoDigitSeconds | app.js:252 | A seconds count below 60, padded, is two digits that read back as the count. |
| App.FullIntervalShowsFiveMinutes | app.js:246-253 | 300000 ms shows `5:00`. |
| App.LastMillisecondShowsOneSecond | app.js:246-253 | 1 ms shows `0:01`. |
| App.RemainingMs | app.js:236 | The milliseconds left are the deadline minus now, with a missing deadline counted as 0. |
| App.EmotionRecorderApp.constructor | app.js:3-74 | The constructor and `init`: not running, not paused, no interval or deadline, and an empty draft. The store opens on the persisted records and key generator, and the trace loads those records. |
| App.EmotionRecorderApp.StartCountdown | app.js:217-244 | The deadline is a full interval from now, whatever was left. The countdown interval and one clock-ticking interval are armed. |
| App.EmotionRecorderApp.Start | app.js:152-172 | Refused permission changes nothing but the stream. Granted, it is running, not paused, with a deadline five minutes away. |
| App.EmotionRecorderApp.Pause | app.js:174-192 | `isPaused` flips. Pausing disarms the interval and the ticking and keeps the deadline. Resuming re-arms a full interval from now. |
| App.EmotionRecorderApp.Stop | app.js:194-215 | Not running, not paused, no interval, no ticking, no stream, and the display reads `5:00`. |
| App.EmotionRecorderApp.SoundTick | app.js:225-231 | The clock ticking reads the seconds left from the deadline and decides its cue as `Decide` says. |
| App.EmotionRecorderApp.Tick | app.js:233-243 | While paused, nothing changes. Before the deadline, only the display changes, to the time left as `m:ss`. Once the deadline has passed, a capture starts. Transcription restarts with an empty transcript when it exists. With a stream (held or granted) and a created recorder, recording runs with an empty buffer, 30 seconds, the timer and the completion handler, and no countdown or ticking. Otherwise a full countdown and its ticking are re-armed. |
| App.EmotionRecorderApp.StartCapture | app.js:255-297 | The countdown and ticking stop and the buzzer plays when sound is on. Transcription restarts when it exists. A recording that starts leaves the countdown off and waits for completion. One that fails re-arms a full countdown. |
| App.EmotionRecorderApp.ShowEmotionInput | app.js:313-322 | An empty word box, no marker and no selection. |
| App.EmotionRecorderApp.OnRecordingComplete | app.js:299-311 | Recognition is asked to stop if listening. The blob is kept and the emotion form is shown empty. |
| App.EmotionRecorderApp.OnRecorderStop | app.js:294-296 | The recorder's stop delivers the buffered chunks as the capture's blob when the completion handler is installed. |
| App.EmotionRecorderApp.OnRecognitionEnd | app.js:65-67 | The trimmed transcript becomes the capture's transcript. |
| App.EmotionRecorderApp.OnWheelClick | app.js:50-54 | An accepted click becomes the selection and puts its emotion name in the word box. A click outside the wheel changes neither. |
| App.EmotionRecorderApp.OnWordInput | app.js:94-101 | A blank word leaves the selection alone. A non-blank one replaces it with the trimmed word's mapping on the wheel. |
| App.EmotionRecorderApp.SelectionFor | app.js:332-335 | The submission uses the current selection, or, when there is none, the word's mapping. |
| App.EmotionRecorderApp.SaveDraft | app.js:347-350 | The store gains the merged record and the trace shows the store. |
| App.EmotionRecorderApp.Record | app.js:332-358 | The record is the typed word plus the selection's angle, intensity and level, with the transcript and blob. It is stored under the next key, the trace reloaded, and the draft cleared. |
| App.EmotionRecorderApp.ClearDraft | app.js:356-358 | No transcript, selection or blob is kept. |
| App.EmotionRecorderApp.SubmitEmotion | app.js:324-366 | A word that trims to nothing changes no state. Otherwise the capture is stored as `Record` states. The next full countdown starts only while running; after a stop, the interval stays off. |
| App.EmotionRecorderApp.ClearData | app.js:383-392 | Confirmed, the store and the trace are empty. Declined, both are unchanged. |

## Left out

- Drawing on the canvas and the DOM (`draw*`, the timeline HTML, `playVideo`, status text, theme toggling, the `localStorage` theme key) is presentation only.
- `Math.atan2`, `Math.sqrt`, `Math.cos` and `Math.sin` are floating-point geometry. The click handler takes the pointer's distance and its `atan2` angle in degrees as inputs, and the word path's marker is given as angle and radius.
- `toFixed` on the average intensity is display formatting; the average itself is modelled.
- The bodies of the `play*` methods (oscillators, frequencies, ramps) are Web Audio synthesis. A sound is reduced to whether it is audible. The chime scheduled 1.6 s after the buzzer is not modelled.
- `getUserMedia`, `MediaRecorder` and `SpeechRecognition` are browser APIs. They appear as booleans (permission granted, recorder created, recognition supported) and as the events they deliver. The recogniser's throw on a second `start` is modelled by `sessionActive`.
- IndexedDB opening, upgrade, transactions and promises are left out; only the resulting store contents and key generator are modelled. The `timestamp`, `emotion` and `sessionId` indexes are never queried by the core.
- `Blob` creation, object URLs and downloads are left out. `toISOString`, `toLocaleDateString`, `toLocaleTimeString` and the `toString` rendering of numbers are parameters of the export, and `Math.random` is the `randomSuffix` parameter. `downloadAsJSON` and the JSON/CSV choice in `exportData` are I/O.
- The `localStorage` export, import and clear block at the end of `js/storage.js` only serialises keys and reloads the page.
- Real timers are not modelled. `setInterval` and `setTimeout` are replaced by an explicit `now` and by one call per firing. `alert` and `confirm` become a parameter or a refused, unchanged call.
- Text.ToLower: `toLowerCase` is modelled on ASCII letters only, and other characters keep their case. "Keeps the length" holds in this model only: the full Unicode mapping can lengthen a string (`"İ"` lower-cases to two code units).
- Visualization.EmotionColor, Wheel.WordCategory: both rely on the key order of `Object.entries`, which for these string keys is the order of the literal.
- Visualization.CountEmotions: the counts are a plain object in the source, modelled as a map plus a key list in insertion order. Three plain-object effects are not modelled. `Object.entries` lists integer-like keys (an emotion typed as `"42"`) first, in numeric order, which can change the tie-break. Keys such as `"toString"` or `"constructor"` read an inherited member before their first count. `"__proto__"` is never stored as a key, and when it is the only emotion, `mostCommon[0]` throws.
- Wheel.EmotionWheel.HandleClick: the angle is an exact real here. In doubles, a tiny negative `atan2` angle plus 360 rounds to 360.0. The source's angle can then equal 360, which the model's bound `< 360` rules out; the nearest-angle scan still gives Joy for it.
- App.EmotionRecorderApp.constructor: the session id starts uncached. A reload in the same tab, where `sessionStorage` keeps its id, is not modelled.
- Visualization.SortNewestFirst: its order among equal timestamps is not stated, so the model does not claim the stability of `Array.prototype.sort`.
- Storage.HeaderLine: states the header's shape (8 unquoted names, 7 commas) rather than a separate lemma about its literal names, which are the constant `CsvHeaders`.
- Recorder.VideoRecorder.TimerTick: states one tick. That the 30th tick after a start is the first to stop the recorder follows from it by arithmetic, and is not a separate lemma.
- Recorder.VideoRecorder.StartRecording: a throw from `new MediaRecorder` and one from `start(1000)` (`recorder.js:92`) are the same case, `recorderCreated` false. In the second, the new recorder has already replaced the old one. Since neither records, no later operation can tell the two apart.
- Recorder.VideoRecorder.StartRecording also: the recording timer is the single flag `timerActive`, so a second interval armed while an earlier one still runs (the source overwrites its handle without clearing it) is not told apart from one interval.
- Wheel: only `"unhappy"` and `"  Joyful "` are worked through as concrete words. The first-match lemmas cover all words but do not compute the category of any other given word.
- `getTimeRemaining`, `isCurrentlyRecording`, `downloadRecording`, `isEnabled` and `isSupported` are one-line accessors or I/O outside the core.
