/**
 * The transcript accumulator behind the speech recogniser: final results are
 * appended, each followed by a space; interim results are only shown; the
 * trimmed transcript is reported when recognition ends. The recogniser itself
 * is reduced to whether it exists and to the events it delivers.
 */
module Transcription {
  import opened Text

  /** One entry of `event.results`: its best alternative's text and whether it is final. */
  datatype RecognitionResult = RecognitionResult(text: string, isFinal: bool)

  /** What the final results of a run contribute: each text followed by a space, in order. */
  function FinalText(results: seq<RecognitionResult>): string
  {
    if results == [] then ""
    else
      var last := results[|results| - 1];
      FinalText(results[..|results| - 1]) + (if last.isFinal then last.text + " " else "")
  }

  /** The interim results of a run, concatenated in order. */
  function InterimText(results: seq<RecognitionResult>): string
  {
    if results == [] then ""
    else
      var last := results[|results| - 1];
      InterimText(results[..|results| - 1]) + (if last.isFinal then "" else last.text)
  }

  /** Handling two runs one after the other adds what handling them as one run adds. */
  lemma {:induction false} FinalTextAppend(a: seq<RecognitionResult>, b: seq<RecognitionResult>)
    ensures FinalText(a + b) == FinalText(a) + FinalText(b)
    decreases |b|
  {
    if b == [] {
      assert a + b == a;
    } else {
      var b' := b[..|b| - 1];
      assert (a + b)[..|a + b| - 1] == a + b';
      assert (a + b)[|a + b| - 1] == b[|b| - 1];
      FinalTextAppend(a, b');
    }
  }

  /** Interim results never reach the transcript: a run without final results adds nothing. */
  lemma {:induction false} InterimOnlyAddsNothing(results: seq<RecognitionResult>)
    requires forall i :: 0 <= i < |results| ==> !results[i].isFinal
    ensures FinalText(results) == ""
  {
    if results != [] {
      InterimOnlyAddsNothing(results[..|results| - 1]);
    }
  }

  /** A run with only final results adds one space per result to their texts. */
  lemma {:induction false} FinalTextLength(results: seq<RecognitionResult>)
    requires forall i :: 0 <= i < |results| ==> results[i].isFinal
    ensures |FinalText(results)| == |results| + TextLength(results)
  {
    if results != [] {
      FinalTextLength(results[..|results| - 1]);
    }
  }

  function TextLength(results: seq<RecognitionResult>): nat
  {
    if results == [] then 0 else TextLength(results[..|results| - 1]) + |results[|results| - 1].text|
  }

  /** The results of an event from `resultIndex` on; none when the index is past the end. */
  function FromIndex(results: seq<RecognitionResult>, resultIndex: nat): seq<RecognitionResult>
  {
    if resultIndex <= |results| then results[resultIndex..] else []
  }

  class TranscriptionManager {
    /** Speech recognition exists in this browser. */
    const supported: bool
    var transcript: string
    var isListening: bool
    /** The recogniser has been started and has not ended yet. */
    var sessionActive: bool

    constructor (supported: bool)
      ensures this.supported == supported
      ensures transcript == "" && !isListening && !sessionActive
    {
      this.supported := supported;
      transcript := "";
      isListening := false;
      sessionActive := false;
    }

    /**
     * `start`: without recognition it fails and changes nothing; otherwise it
     * empties the transcript and starts the recogniser, which fails when a
     * session is still active.
     */
    method Start() returns (ok: bool)
      modifies this`transcript, this`sessionActive
      ensures !supported ==> !ok && transcript == old(transcript) && sessionActive == old(sessionActive)
      ensures supported ==> transcript == "" && ok == !old(sessionActive) && sessionActive
    {
      if !supported {
        return false;
      }
      transcript := "";
      if sessionActive {
        return false;
      }
      sessionActive := true;
      ok := true;
    }

    /** `stop`: the recogniser is asked to stop only while it is listening. */
    method Stop() returns (stopRequested: bool)
      ensures stopRequested == (supported && isListening)
    {
      stopRequested := supported && isListening;
    }

    /** The `onstart` handler. */
    method OnStart()
      modifies this`isListening
      ensures isListening
    {
      isListening := true;
    }

    /**
     * The `onresult` handler: from `resultIndex` on, final texts (each with a
     * space) are collected for the transcript and interim texts for display.
     * `update` is what the update callback receives.
     */
    method OnResult(results: seq<RecognitionResult>, resultIndex: nat) returns (update: string)
      modifies this`transcript
      ensures transcript == old(transcript) + FinalText(FromIndex(results, resultIndex))
      ensures update == transcript + InterimText(FromIndex(results, resultIndex))
    {
      var interimTranscript := "";
      var finalTranscript := "";
      var i := resultIndex;
      while i < |results|
        invariant resultIndex <= |results| ==> resultIndex <= i <= |results|
        invariant resultIndex <= |results| ==> finalTranscript == FinalText(results[resultIndex..i])
        invariant resultIndex <= |results| ==> interimTranscript == InterimText(results[resultIndex..i])
        invariant resultIndex > |results| ==> i == resultIndex && finalTranscript == "" && interimTranscript == ""
        decreases |results| - i
      {
        assert results[resultIndex..i + 1][..i - resultIndex] == results[resultIndex..i];
        var text := results[i].text;
        if results[i].isFinal {
          finalTranscript := finalTranscript + text + " ";
        } else {
          interimTranscript := interimTranscript + text;
        }
        i := i + 1;
      }
      if resultIndex <= |results| {
        assert results[resultIndex..i] == FromIndex(results, resultIndex);
      }
      if finalTranscript != "" {
        transcript := transcript + finalTranscript;
      }
      update := transcript + interimTranscript;
    }

    /** The `onend` handler: no longer listening; `completed` is the trimmed transcript it reports. */
    method OnEnd() returns (completed: string)
      modifies this`isListening, this`sessionActive
      ensures !isListening && !sessionActive
      ensures completed == Trim(transcript)
    {
      isListening := false;
      sessionActive := false;
      completed := Trim(transcript);
    }

    /** `getTranscript`: the transcript without surrounding white space. */
    method GetTranscript() returns (text: string)
      ensures text == Trim(transcript)
      ensures |text| <= |transcript|
      ensures text == [] <==> forall i :: 0 <= i < |transcript| ==> IsSpace(transcript[i])
    {
      text := Trim(transcript);
    }

    /** `reset`. */
    method Reset()
      modifies this`transcript
      ensures transcript == ""
    {
      transcript := "";
    }
  }
}
