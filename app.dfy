/**
 * The session controller: a countdown of five minutes between captures, the
 * pause toggle and the stop button, the 100 ms interval that either refreshes
 * the countdown display or starts a capture, the capture itself (recording
 * plus transcription), and the emotion form whose submission stores the
 * capture and starts the next countdown. Time is the explicit `now`, in
 * milliseconds; the browser's answers (permission, recorder creation, the
 * random part of a session id) are parameters.
 */
module App {
  import opened Text
  import opened Wheel
  import opened Storage
  import opened Recorder
  import opened Transcription
  import opened Sound
  import opened Visualization

  /** Five minutes, in milliseconds. */
  const IntervalDuration: int := 5 * 60 * 1000

  /** `Math.ceil(ms / 1000)` for a whole number of milliseconds. */
  function CeilSeconds(ms: int): (s: int)
    ensures (s - 1) * 1000 < ms <= s * 1000
  {
    -((-ms) / 1000)
  }

  /** JavaScript's `%` on integers: the remainder takes the sign of the dividend. */
  function JsRem(a: int, b: int): (r: int)
    requires b > 0
    ensures a >= 0 ==> r == a % b
    ensures a < 0 ==> -b < r <= 0
  {
    if a >= 0 then a % b else -((-a) % b)
  }

  /** `updateCountdown`: the milliseconds left, rounded up to seconds, as `m:ss`. */
  function FormatCountdown(ms: int): string
  {
    var totalSeconds := CeilSeconds(ms);
    var minutes := totalSeconds / 60;
    var seconds := JsRem(totalSeconds, 60);
    IntToString(minutes) + ":" + PadStart(IntToString(seconds), 2, '0')
  }

  /** A seconds count below 60, padded to two characters, is two digits that read back as it. */
  lemma TwoDigitSeconds(s: nat)
    requires s < 60
    ensures var p := PadStart(NatToString(s), 2, '0'); |p| == 2 && ParseNat(p) == Some(s)
  {
    var ss := NatToString(s);
    if s >= 10 {
      assert ss == NatToString(s / 10) + [DigitChar(s % 10)];
    } else {
      assert PadStart(ss, 2, '0') == "0" + ss;
      DigitsValueLeadingZero(ss);
    }
    ParseNatToString(s);
  }

  /** With time left, the rendered minutes and seconds are both natural numbers. */
  lemma CountdownParts(ms: int)
    requires ms > 0
    ensures var t := CeilSeconds(ms);
      FormatCountdown(ms) == NatToString(t / 60) + ":" + PadStart(NatToString(t % 60), 2, '0')
  {
    var t := CeilSeconds(ms);
    assert t >= 1;
    assert JsRem(t, 60) == t % 60;
  }

  /**
   * For time still left the display reads `m:ss`: the minutes and then exactly
   * two digits for the seconds below 60, together the milliseconds rounded up
   * to whole seconds.
   */
  lemma CountdownFormat(ms: int)
    requires ms > 0
    ensures var t := CeilSeconds(ms); var r := FormatCountdown(ms);
      && |r| >= 4 && r[|r| - 3] == ':'
      && ParseNat(r[..|r| - 3]) == Some(t / 60)
      && ParseNat(r[|r| - 2..]) == Some(t % 60)
  {
    var t := CeilSeconds(ms);
    CountdownParts(ms);
    TwoDigitSeconds(t % 60);
    ParseNatToString(t / 60);
    MinutesColonSeconds(NatToString(t / 60), PadStart(NatToString(t % 60), 2, '0'));
  }

  /** The two sides of `m:ss` can be read back from the ends. */
  lemma MinutesColonSeconds(minutes: string, seconds: string)
    requires |seconds| == 2
    ensures var r := minutes + ":" + seconds;
      |r| >= 3 && r[|r| - 3] == ':' && r[..|r| - 3] == minutes && r[|r| - 2..] == seconds
  {
    var r := minutes + ":" + seconds;
    assert r[..|r| - 3] == minutes;
    assert r[|r| - 2..] == seconds;
  }

  /** A full interval reads "5:00". */
  lemma FullIntervalShowsFiveMinutes()
    ensures FormatCountdown(IntervalDuration) == "5:00"
  {
    assert CeilSeconds(IntervalDuration) == 300;
    assert IntToString(5) == "5";
    assert IntToString(0) == "0";
  }

  /** One millisecond left reads "0:01". */
  lemma LastMillisecondShowsOneSecond()
    ensures FormatCountdown(1) == "0:01"
  {
    assert CeilSeconds(1) == 1;
    assert IntToString(0) == "0";
    assert IntToString(1) == "1";
  }

  /** `nextCaptureTime - Date.now()`; a missing deadline counts as 0. */
  function RemainingMs(nextCaptureTime: Option<int>, now: int): (r: int)
    ensures nextCaptureTime.Some? ==> r == nextCaptureTime.value - now
    ensures nextCaptureTime.None? ==> r == -now
  {
    (if nextCaptureTime.Some? then nextCaptureTime.value else 0) - now
  }

  /** The selection `selectByWord` makes for a word on a table. */
  function WordSelection(table: seq<Emotion>, word: string): Selection
    requires |table| == 8
  {
    var e := table[WordCategory(word)];
    Selection(e.name, e.angle as real, WordIntensity, Moderate, e.color)
  }

  /** The record `submitEmotion` hands to the store: the typed word and the selection's geometry. */
  function CaptureDraft(word: string, data: Selection, transcript: string, blob: Option<Blob>): Draft
  {
    Draft(None, None, word, data.angle, data.intensity, data.intensityLevel, transcript, blob)
  }

  class EmotionRecorderApp {
    const recorder: VideoRecorder
    const transcription: TranscriptionManager
    const wheel: EmotionWheel
    const store: StorageManager
    const sound: SoundManager
    const visualization: VisualizationManager

    var isRunning: bool
    var isPaused: bool
    /** The 100 ms countdown interval is armed. */
    var intervalActive: bool
    var nextCaptureTime: Option<int>
    var currentTranscript: string
    var currentEmotionData: Option<Selection>
    var currentVideoBlob: Option<Blob>
    /** The emotion-word input's value. */
    var emotionWord: string
    /** The countdown display. */
    var countdownText: string

    /**
     * The collaborators are well formed, the clock ticks exactly while the
     * countdown interval is armed, and an armed interval has a deadline.
     */
    ghost predicate Valid()
      reads this, recorder, wheel, store, sound
    {
      && recorder.Valid() && wheel.Valid() && store.Valid()
      && |wheel.emotions| == 8
      && sound.ticking == intervalActive
      && (intervalActive ==> nextCaptureTime.Some?)
    }

    /**
     * The constructor and `init`: the store opens on the records earlier
     * sessions persisted, and the visualization loads them.
     */
    constructor (speechSupported: bool, audioAvailable: bool, maxRadius: real,
                 persisted: seq<Capture>, persistedNextKey: nat)
      requires maxRadius > 0.0
      requires persistedNextKey >= 1 && IdsIncreasing(persisted)
      requires forall c :: c in persisted ==> 1 <= c.id < persistedNextKey
      ensures Valid()
      ensures fresh(recorder) && fresh(transcription) && fresh(wheel) && fresh(store) && fresh(sound) && fresh(visualization)
      ensures !isRunning && !isPaused && !intervalActive && nextCaptureTime == None
      ensures currentTranscript == "" && currentEmotionData == None && currentVideoBlob == None
      ensures transcription.supported == speechSupported && sound.audioAvailable == audioAvailable
      ensures store.captures == persisted && store.nextKey == persistedNextKey && store.sessionStorageId == None
      ensures visualization.captures == persisted
    {
      recorder := new VideoRecorder();
      transcription := new TranscriptionManager(speechSupported);
      wheel := new EmotionWheel(maxRadius);
      store := new StorageManager();
      sound := new SoundManager(audioAvailable);
      var v := new VisualizationManager();
      visualization := v;
      isRunning := false;
      isPaused := false;
      intervalActive := false;
      nextCaptureTime := None;
      currentTranscript := "";
      currentEmotionData := None;
      currentVideoBlob := None;
      emotionWord := "";
      countdownText := "5:00";
      new;
      store.Open(persisted, persistedNextKey);
      visualization.LoadCaptures(store);
    }

    /**
     * `startCountdown`: the deadline is a full interval from now, whatever
     * was left before, and both the countdown interval and the clock ticking
     * are re-armed.
     */
    method StartCountdown(now: int)
      requires Valid()
      modifies this`nextCaptureTime, this`intervalActive, sound`ticking, sound`ticker
      ensures Valid()
      ensures nextCaptureTime == Some(now + IntervalDuration) && intervalActive
      ensures sound.ticking && sound.ticker == InitialTicker(CeilSeconds(IntervalDuration))
    {
      nextCaptureTime := Some(now + IntervalDuration);
      intervalActive := false;
      sound.StartCountdownTicking(CeilSeconds(nextCaptureTime.value - now));
      intervalActive := true;
    }

    /** `start`: asks for the camera; when refused nothing but the stream changes. */
    method Start(now: int, granted: bool)
      requires Valid()
      modifies this`isRunning, this`isPaused, this`nextCaptureTime, this`intervalActive
      modifies recorder`hasStream, sound`ticking, sound`ticker
      ensures Valid()
      ensures recorder.hasStream == (granted || old(recorder.hasStream))
      ensures !granted ==>
        && isRunning == old(isRunning) && isPaused == old(isPaused)
        && nextCaptureTime == old(nextCaptureTime) && intervalActive == old(intervalActive)
        && sound.ticking == old(sound.ticking) && sound.ticker == old(sound.ticker)
      ensures granted ==>
        && isRunning && !isPaused
        && nextCaptureTime == Some(now + IntervalDuration) && intervalActive
        && sound.ticking && sound.ticker == InitialTicker(CeilSeconds(IntervalDuration))
    {
      var hasPermission := recorder.RequestPermissions(granted);
      if !hasPermission {
        return;
      }
      isRunning := true;
      isPaused := false;
      StartCountdown(now);
    }

    /**
     * `pause`, a toggle: pausing disarms the interval and the ticking and
     * keeps the deadline; resuming starts a new full countdown.
     */
    method Pause(now: int)
      requires Valid()
      modifies this`isPaused, this`nextCaptureTime, this`intervalActive, sound`ticking, sound`ticker
      ensures Valid()
      ensures isPaused == !old(isPaused)
      ensures old(isPaused) ==>
        && nextCaptureTime == Some(now + IntervalDuration) && intervalActive
        && sound.ticking && sound.ticker == InitialTicker(CeilSeconds(IntervalDuration))
      ensures !old(isPaused) ==>
        && !intervalActive && !sound.ticking
        && nextCaptureTime == old(nextCaptureTime) && sound.ticker == old(sound.ticker)
    {
      if isPaused {
        isPaused := false;
        StartCountdown(now);
      } else {
        isPaused := true;
        intervalActive := false;
        sound.StopCountdownTicking();
      }
    }

    /**
     * `stop`: not running, not paused, no interval, no ticking, the stream
     * released and the display back at "5:00". `stop` does not call
     * `stopRecording` or stop recognition; releasing the stream ends its
     * tracks, and the recorder's resulting `stop` event is `OnRecorderStop`.
     */
    method Stop()
      requires Valid()
      modifies this`isRunning, this`isPaused, this`intervalActive, this`countdownText
      modifies sound`ticking, recorder`hasStream
      ensures Valid()
      ensures !isRunning && !isPaused && !intervalActive && !sound.ticking && !recorder.hasStream
      ensures countdownText == "5:00"
    {
      isRunning := false;
      isPaused := false;
      intervalActive := false;
      sound.StopCountdownTicking();
      recorder.StopStream();
      countdownText := "5:00";
    }

    /**
     * One firing of the clock-ticking interval: the sound manager reads the
     * seconds left from the deadline.
     */
    method SoundTick(now: int) returns (cue: Cue, audible: bool)
      requires Valid() && sound.ticking
      modifies sound`ticker
      ensures Valid()
      ensures (cue, sound.ticker) == Decide(old(sound.ticker), CeilSeconds(RemainingMs(nextCaptureTime, now)))
      ensures audible <==> cue != Silent && sound.enabled && sound.audioAvailable
    {
      cue, audible := sound.OnTick(CeilSeconds(RemainingMs(nextCaptureTime, now)));
    }

    /**
     * `startCapture`: the countdown and the ticking stop and the buzzer
     * sounds (`buzzer` says whether it is heard); transcription restarts and
     * recording starts. When recording cannot start the countdown starts
     * again; otherwise the app waits for the recording to complete.
     */
    method StartCapture(now: int, granted: bool, recorderCreated: bool) returns (recording: bool, buzzer: bool)
      requires Valid()
      modifies this`nextCaptureTime, this`intervalActive, sound`ticking, sound`ticker
      modifies transcription`transcript, transcription`sessionActive, recorder
      ensures Valid()
      ensures buzzer == (sound.enabled && sound.audioAvailable)
      ensures transcription.supported ==> transcription.transcript == "" && transcription.sessionActive
      ensures !transcription.supported ==> transcription.transcript == old(transcription.transcript)
      ensures recording == ((old(recorder.hasStream) || granted) && recorderCreated)
      ensures recording ==>
        && !intervalActive && !sound.ticking && nextCaptureTime == old(nextCaptureTime)
        && recorder.isRecording && recorder.timerActive && recorder.hasCompletionListener
        && recorder.recordedChunks == [] && recorder.timeRemaining == RecordingDuration
      ensures !recording ==>
        && nextCaptureTime == Some(now + IntervalDuration) && intervalActive
        && sound.ticking && sound.ticker == InitialTicker(CeilSeconds(IntervalDuration))
    {
      intervalActive := false;
      sound.StopCountdownTicking();
      buzzer := sound.Play(Buzzer);
      var _ := transcription.Start();
      recording := recorder.StartRecording(granted, recorderCreated);
      if !recording {
        StartCountdown(now);
        return;
      }
      recorder.SetCompletionListener();
    }

    /**
     * One firing of the 100 ms interval: nothing while paused; once the
     * deadline has passed, a capture starts; otherwise the display shows
     * the time left.
     */
    method Tick(now: int, granted: bool, recorderCreated: bool) returns (captureStarted: bool, recording: bool)
      requires Valid() && intervalActive
      modifies this`nextCaptureTime, this`intervalActive, this`countdownText, sound`ticking, sound`ticker
      modifies transcription`transcript, transcription`sessionActive, recorder
      ensures Valid()
      ensures captureStarted <==> !old(isPaused) && RemainingMs(old(nextCaptureTime), now) <= 0
      ensures recording <==> captureStarted && (old(recorder.hasStream) || granted) && recorderCreated
      ensures captureStarted ==>
        && (transcription.supported ==> transcription.transcript == "" && transcription.sessionActive)
        && (!transcription.supported ==> transcription.transcript == old(transcription.transcript))
      ensures recording ==>
        && !intervalActive && !sound.ticking && nextCaptureTime == old(nextCaptureTime)
        && recorder.isRecording && recorder.timerActive && recorder.hasCompletionListener
        && recorder.recordedChunks == [] && recorder.timeRemaining == RecordingDuration
      ensures captureStarted && !recording ==>
        && nextCaptureTime == Some(now + IntervalDuration) && intervalActive
        && sound.ticking && sound.ticker == InitialTicker(CeilSeconds(IntervalDuration))
      ensures old(isPaused) ==>
        && nextCaptureTime == old(nextCaptureTime) && intervalActive && countdownText == old(countdownText)
        && sound.ticker == old(sound.ticker) && transcription.transcript == old(transcription.transcript)
        && unchanged(recorder)
      ensures !old(isPaused) && !captureStarted ==>
        && countdownText == FormatCountdown(RemainingMs(old(nextCaptureTime), now))
        && nextCaptureTime == old(nextCaptureTime) && intervalActive
        && sound.ticker == old(sound.ticker) && transcription.transcript == old(transcription.transcript)
        && unchanged(recorder)
      ensures captureStarted ==> countdownText == old(countdownText)
    {
      if isPaused {
        return false, false;
      }
      var remaining := RemainingMs(nextCaptureTime, now);
      if remaining <= 0 {
        var buzzer;
        recording, buzzer := StartCapture(now, granted, recorderCreated);
        captureStarted := true;
      } else {
        countdownText := FormatCountdown(remaining);
        captureStarted, recording := false, false;
      }
    }

    /** `showEmotionInput`: an empty word box, no marker and no selection. */
    method ShowEmotionInput()
      modifies this`emotionWord, this`currentEmotionData, wheel`selectedPosition
      ensures emotionWord == "" && currentEmotionData == None && wheel.selectedPosition == None
    {
      emotionWord := "";
      wheel.Reset();
      currentEmotionData := None;
    }

    /**
     * `onRecordingComplete`: recognition is asked to stop (`stopRequested`),
     * the blob is kept for the capture, and the emotion form is shown.
     */
    method OnRecordingComplete(blob: Blob) returns (stopRequested: bool)
      modifies this`currentVideoBlob, this`emotionWord, this`currentEmotionData, wheel`selectedPosition
      ensures stopRequested == (transcription.supported && transcription.isListening)
      ensures currentVideoBlob == Some(blob)
      ensures emotionWord == "" && currentEmotionData == None && wheel.selectedPosition == None
    {
      stopRequested := transcription.Stop();
      currentVideoBlob := Some(blob);
      ShowEmotionInput();
    }

    /**
     * The recorder's `onstop` event as the app sees it: the completion handler,
     * when installed, receives the blob of every buffered chunk.
     */
    method OnRecorderStop() returns (completed: bool)
      requires Valid()
      modifies recorder`isRecording, recorder`timerActive
      modifies this`currentVideoBlob, this`emotionWord, this`currentEmotionData, wheel`selectedPosition
      ensures Valid()
      ensures !recorder.isRecording && !recorder.timerActive
      ensures completed == recorder.hasCompletionListener
      ensures completed ==>
        && currentVideoBlob == Some(Blob(recorder.recordedChunks))
        && emotionWord == "" && currentEmotionData == None && wheel.selectedPosition == None
      ensures !completed ==>
        && currentVideoBlob == old(currentVideoBlob) && emotionWord == old(emotionWord)
        && currentEmotionData == old(currentEmotionData) && wheel.selectedPosition == old(wheel.selectedPosition)
    {
      var delivered := recorder.OnStop();
      completed := delivered.Some?;
      if delivered.Some? {
        var _ := OnRecordingComplete(delivered.value);
      }
    }

    /** `onTranscriptComplete`, fed by the recogniser's `onend`: the trimmed transcript is kept. */
    method OnRecognitionEnd() returns (completed: string)
      modifies transcription`isListening, transcription`sessionActive, this`currentTranscript
      ensures !transcription.isListening && !transcription.sessionActive
      ensures completed == Trim(transcription.transcript) && currentTranscript == completed
    {
      completed := transcription.OnEnd();
      currentTranscript := completed;
    }

    /** The wheel's `onSelect`, after a click: the selection and its name in the word box. */
    method OnWheelClick(distance: real, atan2Degrees: real) returns (selected: Option<Selection>)
      requires Valid() && distance >= 0.0 && -180.0 <= atan2Degrees <= 180.0
      modifies wheel`selectedPosition, this`currentEmotionData, this`emotionWord
      ensures Valid()
      ensures distance > wheel.maxRadius <==> selected.None?
      ensures selected.None? ==> currentEmotionData == old(currentEmotionData) && emotionWord == old(emotionWord)
      ensures selected.Some? ==>
        && currentEmotionData == selected && emotionWord == selected.value.emotion
        && 0.0 <= selected.value.angle < 360.0
        && selected.value.emotion == wheel.emotions[Sector(selected.value.angle)].name
        && selected.value.intensity == distance / wheel.maxRadius
    {
      selected := wheel.HandleClick(distance, atan2Degrees);
      if selected.Some? {
        currentEmotionData := selected;
        emotionWord := selected.value.emotion;
      }
    }

    /**
     * The word box's `input` event with its new value: a non-blank word
     * replaces the selection with the word's mapping on the wheel.
     */
    method OnWordInput(value: string)
      requires Valid()
      modifies this`emotionWord, this`currentEmotionData, wheel`selectedPosition
      ensures Valid() && emotionWord == value
      ensures Trim(value) == "" ==>
        currentEmotionData == old(currentEmotionData) && wheel.selectedPosition == old(wheel.selectedPosition)
      ensures Trim(value) != "" ==> currentEmotionData == Some(WordSelection(wheel.emotions, Trim(value)))
    {
      emotionWord := value;
      var word := Trim(value);
      if word != "" {
        var data := wheel.SelectByWord(word);
        currentEmotionData := Some(data);
      }
    }

    /** The selection a submission uses: the current one, or else the word's mapping on the wheel. */
    method SelectionFor(word: string) returns (data: Selection)
      requires Valid()
      modifies this`currentEmotionData, wheel`selectedPosition
      ensures Valid() && currentEmotionData == Some(data)
      ensures old(currentEmotionData).Some? ==>
        data == old(currentEmotionData).value && wheel.selectedPosition == old(wheel.selectedPosition)
      ensures old(currentEmotionData).None? ==> data == WordSelection(wheel.emotions, word)
    {
      if currentEmotionData.None? {
        var mapped := wheel.SelectByWord(word);
        currentEmotionData := Some(mapped);
      }
      data := currentEmotionData.value;
    }

    /** `saveCapture` followed by `refresh`: the trace shows the store with the new record. */
    method SaveDraft(draft: Draft, now: int, randomSuffix: string)
      requires Valid()
      modifies store, visualization`captures
      ensures Valid()
      ensures store.captures == old(store.captures) + [Merge(draft, old(store.nextKey), now,
                                                             SessionIdFor(old(store.sessionStorageId), now, randomSuffix))]
      ensures visualization.captures == store.captures
    {
      var _ := store.SaveCapture(draft, now, randomSuffix);
      visualization.LoadCaptures(store);
    }

    /**
     * `submitEmotion`: a blank word is refused and nothing changes. Otherwise
     * the capture is stored as `Recorded` describes, and the next countdown
     * starts if the session is still running.
     */
    method SubmitEmotion(now: int, randomSuffix: string) returns (saved: bool)
      requires Valid()
      modifies this`currentTranscript, this`currentEmotionData, this`currentVideoBlob
      modifies this`nextCaptureTime, this`intervalActive, wheel`selectedPosition, store
      modifies visualization`captures, sound`ticking, sound`ticker
      ensures Valid()
      ensures saved <==> Trim(old(emotionWord)) != ""
      ensures !saved ==>
        && currentTranscript == old(currentTranscript) && currentEmotionData == old(currentEmotionData)
        && currentVideoBlob == old(currentVideoBlob) && nextCaptureTime == old(nextCaptureTime)
        && intervalActive == old(intervalActive) && unchanged(store) && visualization.captures == old(visualization.captures)
        && wheel.selectedPosition == old(wheel.selectedPosition) && sound.ticker == old(sound.ticker)
      ensures saved ==> Recorded(Trim(old(emotionWord)), now, randomSuffix)
      ensures saved && isRunning ==>
        nextCaptureTime == Some(now + IntervalDuration) && intervalActive
        && sound.ticker == InitialTicker(CeilSeconds(IntervalDuration))
      ensures saved && !isRunning ==>
        nextCaptureTime == old(nextCaptureTime) && intervalActive == old(intervalActive) && sound.ticker == old(sound.ticker)
    {
      var word := Trim(emotionWord);
      if word == "" {
        return false;
      }
      Record(word, now, randomSuffix);
      if isRunning {
        StartCountdown(now);
      }
      saved := true;
    }

    /**
     * What storing a submission of the non-blank `word` leaves behind: the
     * selection (or, without one, the word's mapping) stored with the typed
     * word as the emotion, the trace reloaded, and the draft cleared.
     */
    twostate predicate Recorded(word: string, now: int, randomSuffix: string)
      reads this`currentTranscript, this`currentEmotionData, this`currentVideoBlob
      reads wheel`emotions, wheel`selectedPosition, store`captures, store`nextKey, store`sessionStorageId
      reads visualization`captures
      requires |wheel.emotions| == 8
    {
      var data := if old(currentEmotionData).Some? then old(currentEmotionData).value
                  else WordSelection(wheel.emotions, word);
      && store.captures == old(store.captures) + [Merge(CaptureDraft(word, data, old(currentTranscript), old(currentVideoBlob)),
                                                        old(store.nextKey), now,
                                                        SessionIdFor(old(store.sessionStorageId), now, randomSuffix))]
      && visualization.captures == store.captures
      && currentTranscript == "" && currentEmotionData == None && currentVideoBlob == None
      && (old(currentEmotionData).Some? ==> wheel.selectedPosition == old(wheel.selectedPosition))
    }

    /** `submitEmotion` past the blank check, up to the restart of the countdown. */
    method Record(word: string, now: int, randomSuffix: string)
      requires Valid()
      modifies this`currentTranscript, this`currentEmotionData, this`currentVideoBlob
      modifies wheel`selectedPosition, store, visualization`captures
      ensures Valid()
      ensures Recorded(word, now, randomSuffix)
    {
      var data := SelectionFor(word);
      var draft := CaptureDraft(word, data, currentTranscript, currentVideoBlob);
      SaveDraft(draft, now, randomSuffix);
      ClearDraft();
    }

    /** The reset after a submission: no transcript, selection or blob is kept. */
    method ClearDraft()
      requires Valid()
      modifies this`currentTranscript, this`currentEmotionData, this`currentVideoBlob
      ensures Valid()
      ensures currentTranscript == "" && currentEmotionData == None && currentVideoBlob == None
    {
      currentTranscript, currentEmotionData, currentVideoBlob := "", None, None;
    }

    /** `clearData`, after the confirmation dialog's answer: the store and the trace are emptied. */
    method ClearData(confirmed: bool)
      requires Valid()
      modifies store`captures, visualization`captures
      ensures Valid()
      ensures confirmed ==> store.captures == [] && visualization.captures == []
      ensures !confirmed ==> store.captures == old(store.captures) && visualization.captures == old(visualization.captures)
    {
      if !confirmed {
        return;
      }
      store.DeleteAllCaptures();
      visualization.LoadCaptures(store);
    }
  }
}
