/**
 * The value-level parts of the voice processor: the capture configuration,
 * the specification of the bounded capture loop, the routing after capture,
 * the choice of transcript from a recognition response and the console line.
 *
 * The capture runs on its own thread and polls the shared recording flag;
 * here each loop iteration is a `Tick` carrying the value of the flag seen
 * at the top of the iteration and the outcome of that iteration's read.
 */
module Recognition {
  import opened Util

  newtype byte = x: int | 0 <= x < 256

  /** One chunk of 16-bit mono PCM as read from the stream. */
  type Frame = seq<byte>

  const Rate: nat := 16000
  const Chunk: nat := 1024
  const RecordSeconds: nat := 15

  /** `int(RATE / CHUNK * RECORD_SECONDS)`: 15.625 * 15 = 234.375 is exact in floating point. */
  const MaxReads: int := (Rate as real / Chunk as real * RecordSeconds as real).Floor

  lemma MaxReadsValue()
    ensures MaxReads == (Rate * RecordSeconds) / Chunk == 234
  {
    assert Rate as real / Chunk as real * RecordSeconds as real == 234.375;
  }

  datatype ReadOutcome = ReadOk(data: Frame) | ReadFailed

  /** One iteration of the capture loop: the recording flag as polled, and the read. */
  datatype Tick = Tick(recording: bool, read: ReadOutcome)

  predicate StillRecording(t: Tick) { t.recording }

  /** The frames a run of reads appends: successful reads only, in order. */
  function Successes(ticks: seq<Tick>): seq<Frame>
    decreases |ticks|
  {
    if ticks == [] then []
    else
      var last := ticks[|ticks| - 1];
      Successes(ticks[..|ticks| - 1]) + (if last.read.ReadOk? then [last.read.data] else [])
  }

  /** The reads performed: the loop stops at the first iteration whose flag is down, or at the bound. */
  function ReadsPerformed(ticks: seq<Tick>): (n: nat)
    requires |ticks| >= MaxReads
    ensures n <= MaxReads == 234
    ensures forall k :: 0 <= k < n ==> ticks[k].recording
    ensures n < MaxReads ==> !ticks[n].recording
  {
    MaxReadsValue();
    var n := Span(ticks[..MaxReads], StillRecording);
    assert n < MaxReads ==> ticks[..MaxReads][n] == ticks[n];
    n
  }

  /** The buffer after the loop. */
  function Captured(ticks: seq<Tick>): seq<Frame>
    requires |ticks| >= MaxReads
  {
    Successes(ticks[..ReadsPerformed(ticks)])
  }

  lemma {:induction false} SuccessesAppend(a: seq<Tick>, b: seq<Tick>)
    ensures Successes(a + b) == Successes(a) + Successes(b)
    decreases |b|
  {
    if b == [] {
      assert a + b == a;
    } else {
      var b' := b[..|b| - 1];
      assert (a + b)[..|a + b| - 1] == a + b';
      SuccessesAppend(a, b');
    }
  }

  /** At most one frame per read, and exactly one per read when no read fails. */
  lemma {:induction false} SuccessesLength(ticks: seq<Tick>)
    ensures |Successes(ticks)| <= |ticks|
    ensures (forall k :: 0 <= k < |ticks| ==> ticks[k].read.ReadOk?) ==> |Successes(ticks)| == |ticks|
    decreases |ticks|
  {
    if ticks != [] {
      SuccessesLength(ticks[..|ticks| - 1]);
    }
  }

  /** Never more than 234 frames; a full, unfailing, uninterrupted run collects exactly 234. */
  lemma CapturedBounds(ticks: seq<Tick>)
    requires |ticks| >= MaxReads
    ensures |Captured(ticks)| <= ReadsPerformed(ticks) <= 234
    ensures (forall k :: 0 <= k < MaxReads ==> ticks[k].recording && ticks[k].read.ReadOk?) ==>
              |Captured(ticks)| == 234
    ensures !ticks[0].recording ==> Captured(ticks) == []
  {
    var n := ReadsPerformed(ticks);
    SuccessesLength(ticks[..n]);
    if forall k :: 0 <= k < MaxReads ==> ticks[k].recording && ticks[k].read.ReadOk? {
      assert n == MaxReads;
      assert forall k :: 0 <= k < n ==> ticks[..n][k] == ticks[k];
    }
    if !ticks[0].recording {
      assert ticks[..0] == [];
    }
  }

  /** An earlier stop leaves a prefix of the buffer a later stop would have left. */
  lemma CapturedPrefix(ticks: seq<Tick>, k: nat)
    requires |ticks| >= MaxReads && k <= ReadsPerformed(ticks)
    ensures Captured(ticks) == Successes(ticks[..k]) + Successes(ticks[k..ReadsPerformed(ticks)])
  {
    var n := ReadsPerformed(ticks);
    assert ticks[..n] == ticks[..k] + ticks[k..n];
    SuccessesAppend(ticks[..k], ticks[k..n]);
  }

  /** `b''.join(frames)`. */
  function Join(frames: seq<Frame>): seq<byte>
    decreases |frames|
  {
    if frames == [] then [] else Join(frames[..|frames| - 1]) + frames[|frames| - 1]
  }

  lemma {:induction false} JoinAppend(a: seq<Frame>, b: seq<Frame>)
    ensures Join(a + b) == Join(a) + Join(b)
    decreases |b|
  {
    if b == [] {
      assert a + b == a;
    } else {
      var b' := b[..|b| - 1];
      assert (a + b)[..|a + b| - 1] == a + b';
      JoinAppend(a, b');
    }
  }

  /** The capture loop of the recording thread. */
  method CaptureFrames(ticks: seq<Tick>) returns (frames: seq<Frame>, readCount: nat)
    requires |ticks| >= MaxReads
    ensures readCount == ReadsPerformed(ticks)
    ensures frames == Captured(ticks)
  {
    MaxReadsValue();
    frames := [];
    var i := 0;
    while i < MaxReads
      invariant 0 <= i <= MaxReads
      invariant forall k :: 0 <= k < i ==> ticks[k].recording
      invariant frames == Successes(ticks[..i])
    {
      if !ticks[i].recording {
        break;
      }
      assert ticks[..i + 1][..i] == ticks[..i];
      match ticks[i].read {
        case ReadOk(data) => frames := frames + [data];
        case ReadFailed =>
      }
      i := i + 1;
    }
    assert forall k :: 0 <= k < i ==> ticks[..MaxReads][k] == ticks[k];
    assert i < MaxReads ==> ticks[..MaxReads][i] == ticks[i];
    SpanIs(ticks[..MaxReads], StillRecording, i);
    readCount := i;
  }

  // ---------------------------------------------------------------------------
  // After the loop
  // ---------------------------------------------------------------------------

  datatype Route = Transcribe | NoAudioAfterStop | NoAudioRecorded

  /**
   * The branch taken after the loop, given the flag as re-read after the
   * stream is closed and the number of frames collected.
   */
  function RouteAfterCapture(recordingAfter: bool, frameCount: nat): (r: Route)
    ensures r == Transcribe <==> frameCount > 0
    ensures r == NoAudioAfterStop <==> !recordingAfter && frameCount == 0
    ensures r == NoAudioRecorded <==> recordingAfter && frameCount == 0
  {
    if !recordingAfter then
      if frameCount > 0 then Transcribe else NoAudioAfterStop
    else if frameCount == 0 then NoAudioRecorded
    else Transcribe
  }

  const NoAudioAfterStopStatus := "❌ 수집된 오디오 데이터가 없습니다"
  const NoAudioRecordedStatus := "❌ 녹음된 데이터가 없습니다"

  // ---------------------------------------------------------------------------
  // Choosing the transcript
  // ---------------------------------------------------------------------------

  datatype Alternative = Alternative(transcript: string, confidence: real)
  datatype SpeechResult = SpeechResult(alternatives: seq<Alternative>)

  /** What the recognition call produced: its results, or an exception with its message. */
  datatype Response = Responded(results: seq<SpeechResult>) | ApiFailed(message: string)

  datatype Transcription = Transcription(text: string, confidence: real)

  const NoClientText := "[오류] Google Cloud API 연결 실패"
  const NoResultText := "[음성 인식 실패] 음성을 인식할 수 없습니다"
  const ApiErrorTag := "[API 오류] "

  /** `f"[API 오류] {str(e)[:50]}..."`. */
  function ApiErrorText(message: string): (t: string)
    ensures t == ApiErrorTag + message[..Min(50, |message|)] + "..."
    ensures |t| <= |ApiErrorTag| + 50 + 3
  {
    ApiErrorTag + message[..Min(50, |message|)] + "..."
  }

  /** The call returned a first result that has a first alternative. */
  predicate Recognized(hasClient: bool, response: Response) {
    hasClient && response.Responded? && |response.results| > 0 && |response.results[0].alternatives| > 0
  }

  /**
   * The transcript and confidence handed to the display: the first
   * alternative of the first result, otherwise a fixed failure text with
   * confidence 0.0.
   */
  function Recognize(hasClient: bool, response: Response): (t: Transcription)
    ensures Recognized(hasClient, response) ==>
              t == Transcription(response.results[0].alternatives[0].transcript,
                                 response.results[0].alternatives[0].confidence)
    ensures !hasClient ==> t == Transcription(NoClientText, 0.0)
    ensures hasClient && response.ApiFailed? ==> t == Transcription(ApiErrorText(response.message), 0.0)
    ensures hasClient && response.Responded? && !Recognized(hasClient, response) ==>
              t == Transcription(NoResultText, 0.0)
  {
    if !hasClient then Transcription(NoClientText, 0.0)
    else match response
      case ApiFailed(message) => Transcription(ApiErrorText(message), 0.0)
      case Responded(results) =>
        if |results| > 0 && |results[0].alternatives| > 0 then
          var best := results[0].alternatives[0];
          Transcription(best.transcript, best.confidence)
        else Transcription(NoResultText, 0.0)
  }

  /**
   * Every failure reaches the display as a bracketed error text with
   * confidence 0.0, so a positive confidence always comes from the service.
   */
  lemma FailuresAreTaggedTexts(hasClient: bool, response: Response)
    ensures var t := Recognize(hasClient, response);
            !Recognized(hasClient, response) ==> t.confidence == 0.0 && |t.text| > 0 && t.text[0] == '['
    ensures Recognize(hasClient, response).confidence != 0.0 ==> Recognized(hasClient, response)
  {
    var t := Recognize(hasClient, response);
    if !Recognized(hasClient, response) {
      if !hasClient {
        assert t.text == NoClientText;
      } else if response.ApiFailed? {
        assert t.text[0] == ApiErrorTag[0];
      } else {
        assert t.text == NoResultText;
      }
    }
  }

  // ---------------------------------------------------------------------------
  // The result line
  // ---------------------------------------------------------------------------

  /** A displayed result: timestamp, text and the confidence suffix if one is shown. */
  datatype ResultLine = ResultLine(timestamp: string, text: string, confidence: Option<real>)

  /** The processor's console line: the confidence suffix only for a positive confidence. */
  function ConsoleLine(timestamp: string, t: Transcription): (line: ResultLine)
    ensures line.timestamp == timestamp && line.text == t.text
    ensures line.confidence.Some? <==> t.confidence > 0.0
    ensures line.confidence.Some? ==> line.confidence.value == t.confidence
  {
    ResultLine(timestamp, t.text, if t.confidence > 0.0 then Some(t.confidence) else None)
  }

  /** Failure texts are never printed with a confidence. */
  lemma FailureLinesHaveNoConfidence(timestamp: string, hasClient: bool, response: Response)
    requires !Recognized(hasClient, response)
    ensures ConsoleLine(timestamp, Recognize(hasClient, response)).confidence == None
  {
    FailuresAreTaggedTexts(hasClient, response);
  }
}
