/**
 * The video recorder: a 30-second countdown that stops the recording when it
 * runs out, a buffer that keeps the non-empty data chunks in arrival order,
 * and the blob handed on when the recording stops. The browser's `getUserMedia`
 * and `MediaRecorder` are reduced to their outcomes (permission granted or not,
 * recorder created or not) and to the events they deliver.
 */
module Recorder {
  import opened Text

  /** One `dataavailable` payload; its size is the number of bytes. */
  datatype Chunk = Chunk(data: seq<bv8>)

  /** The recording handed on when the recorder stops: its chunks, in order. */
  datatype Blob = Blob(chunks: seq<Chunk>)

  /** Length of one recording, in seconds. */
  const RecordingDuration: int := 30

  /** The chunks the buffer keeps from a run of `dataavailable` events: the non-empty ones, in order. */
  function Kept(arrivals: seq<Chunk>): (kept: seq<Chunk>)
    ensures |kept| <= |arrivals|
    ensures forall i :: 0 <= i < |kept| ==> |kept[i].data| > 0
    ensures forall c :: c in arrivals && |c.data| > 0 ==> c in kept
    ensures forall c :: c in kept ==> c in arrivals
  {
    if arrivals == [] then []
    else (if |arrivals[0].data| > 0 then [arrivals[0]] else []) + Kept(arrivals[1..])
  }

  /** All bytes of a run of chunks, in order. */
  function Bytes(chunks: seq<Chunk>): seq<bv8>
  {
    if chunks == [] then [] else chunks[0].data + Bytes(chunks[1..])
  }

  /** Keeping the chunks of a longer run keeps those of each part. */
  lemma {:induction false} KeptAppend(a: seq<Chunk>, b: seq<Chunk>)
    ensures Kept(a + b) == Kept(a) + Kept(b)
  {
    if a != [] {
      assert (a + b)[1..] == a[1..] + b;
      KeptAppend(a[1..], b);
      assert (a + b)[0] == a[0];
    } else {
      assert a + b == b;
    }
  }

  /** Dropping the empty chunks loses no byte: the blob holds everything that arrived. */
  lemma {:induction false} KeptKeepsAllBytes(arrivals: seq<Chunk>)
    ensures Bytes(Kept(arrivals)) == Bytes(arrivals)
  {
    if arrivals != [] {
      KeptKeepsAllBytes(arrivals[1..]);
      BytesAppend(if |arrivals[0].data| > 0 then [arrivals[0]] else [], Kept(arrivals[1..]));
    }
  }

  lemma {:induction false} BytesAppend(a: seq<Chunk>, b: seq<Chunk>)
    ensures Bytes(a + b) == Bytes(a) + Bytes(b)
  {
    if a != [] {
      assert (a + b)[1..] == a[1..] + b;
      BytesAppend(a[1..], b);
      assert (a + b)[0] == a[0];
    } else {
      assert a + b == b;
    }
  }

  class VideoRecorder {
    /** A camera and microphone stream is held. */
    var hasStream: bool
    /** A `MediaRecorder` has been created. */
    var hasMediaRecorder: bool
    var recordedChunks: seq<Chunk>
    /** Every `dataavailable` payload since the last start, empty ones included. */
    ghost var arrivals: seq<Chunk>
    var isRecording: bool
    /** The one-second recording timer is armed. */
    var timerActive: bool
    var timeRemaining: int
    /** `onRecordingComplete` is set. */
    var hasCompletionListener: bool

    ghost predicate Valid()
      reads this
    {
      recordedChunks == Kept(arrivals)
    }

    constructor ()
      ensures Valid()
      ensures !hasStream && !hasMediaRecorder && !isRecording && !timerActive && !hasCompletionListener
      ensures recordedChunks == [] && timeRemaining == RecordingDuration
    {
      hasStream := false;
      hasMediaRecorder := false;
      recordedChunks := [];
      arrivals := [];
      isRecording := false;
      timerActive := false;
      timeRemaining := RecordingDuration;
      hasCompletionListener := false;
    }

    /** `requestPermissions`, with the user's answer as `granted`: the stream is kept only when granted. */
    method RequestPermissions(granted: bool) returns (ok: bool)
      modifies this`hasStream
      ensures ok == granted
      ensures hasStream == (granted || old(hasStream))
    {
      if granted {
        hasStream := true;
      }
      ok := granted;
    }

    /**
     * `startRecording`. Without a stream it first asks for permission and
     * gives up, changing nothing, when it is refused. Then it empties the
     * buffer and resets the countdown to 30 before it tries to create the
     * recorder; `recorderCreated` says whether that succeeds. On success the
     * recorder and the timer run.
     */
    method StartRecording(granted: bool, recorderCreated: bool) returns (ok: bool)
      requires Valid()
      modifies this
      ensures Valid()
      ensures hasCompletionListener == old(hasCompletionListener)
      ensures !old(hasStream) && !granted ==>
        !ok && hasStream == old(hasStream) && recordedChunks == old(recordedChunks) && arrivals == old(arrivals)
        && timeRemaining == old(timeRemaining) && isRecording == old(isRecording)
        && timerActive == old(timerActive) && hasMediaRecorder == old(hasMediaRecorder)
      ensures old(hasStream) || granted ==>
        && hasStream && recordedChunks == [] && arrivals == [] && timeRemaining == RecordingDuration
        && ok == recorderCreated
        && hasMediaRecorder == (recorderCreated || old(hasMediaRecorder))
        && isRecording == (recorderCreated || old(isRecording))
        && timerActive == (recorderCreated || old(timerActive))
    {
      if !hasStream {
        var hasPermission := RequestPermissions(granted);
        if !hasPermission {
          return false;
        }
      }
      recordedChunks := [];
      arrivals := [];
      timeRemaining := RecordingDuration;
      if !recorderCreated {
        return false;
      }
      hasMediaRecorder := true;
      isRecording := true;
      timerActive := true;
      ok := true;
    }

    /** The app installs its completion handler once a recording has started. */
    method SetCompletionListener()
      modifies this`hasCompletionListener
      ensures hasCompletionListener
    {
      hasCompletionListener := true;
    }

    /**
     * `stopRecording`: asks the recorder to stop only while it records
     * (`stopRequested`), and always disarms the timer.
     */
    method StopRecording() returns (stopRequested: bool)
      modifies this`timerActive
      ensures stopRequested == (hasMediaRecorder && isRecording)
      ensures !timerActive
    {
      stopRequested := hasMediaRecorder && isRecording;
      timerActive := false;
    }

    /**
     * One firing of the recording timer: one second less, and once no time
     * is left, `stopRecording`. `shown` is what the timer display receives.
     */
    method TimerTick() returns (shown: int, stopRequested: bool)
      requires timerActive
      modifies this`timeRemaining, this`timerActive
      ensures timeRemaining == old(timeRemaining) - 1 && shown == timeRemaining
      ensures timeRemaining <= 0 ==> !timerActive && stopRequested == (hasMediaRecorder && isRecording)
      ensures timeRemaining > 0 ==> timerActive && !stopRequested
    {
      timeRemaining := timeRemaining - 1;
      shown := timeRemaining;
      stopRequested := false;
      if timeRemaining <= 0 {
        stopRequested := StopRecording();
      }
    }

    /** `ondataavailable`: a chunk is buffered only when it has data. */
    method OnDataAvailable(chunk: Chunk)
      requires Valid()
      modifies this`recordedChunks, this`arrivals
      ensures Valid() && arrivals == old(arrivals) + [chunk]
      ensures recordedChunks == old(recordedChunks) + (if |chunk.data| > 0 then [chunk] else [])
    {
      KeptAppend(arrivals, [chunk]);
      assert Kept([chunk]) == (if |chunk.data| > 0 then [chunk] else []) + Kept([]);
      if |chunk.data| > 0 {
        recordedChunks := recordedChunks + [chunk];
      }
      arrivals := arrivals + [chunk];
    }

    /**
     * `onstop`: recording ends, the timer is disarmed, and the blob of every
     * buffered chunk goes to the completion handler if one is set.
     */
    method OnStop() returns (delivered: Option<Blob>)
      modifies this`isRecording, this`timerActive
      ensures !isRecording && !timerActive
      ensures delivered == if hasCompletionListener then Some(Blob(recordedChunks)) else None
    {
      isRecording := false;
      timerActive := false;
      delivered := if hasCompletionListener then Some(Blob(recordedChunks)) else None;
    }

    /** `stopStream`: releases the stream; releasing it twice is the same as once. */
    method StopStream()
      modifies this`hasStream
      ensures !hasStream
    {
      hasStream := false;
    }
  }
}
