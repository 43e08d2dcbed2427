/**
 * The voice recorder (app/components/diary/VoiceDiaryRecorder.tsx): the
 * record/stop/reset/submit controls, the prompt shown for each kind of
 * recording, the multipart fields of a submission, the reading of the
 * server's reply and the mm:ss clock.
 *
 * The microphone and MediaRecorder are events the model receives: whether
 * access was granted, each chunk of data, and the recorder's stop event.
 * The submit handler is split at its one `await`: BeginSubmit builds the
 * request, FinishSubmit reads the reply.
 */
module Recorder {
  import opened Optional
  import opened DiaryTypes
  import Api
  import Text

  // ---------------------------------------------------------------------------
  // The mm:ss clock

  /** Below 100 a number has at most two decimal digits. */
  lemma TwoDigitsBelow100(n: nat)
    requires n < 100
    ensures |Text.NatToDecimal(n)| <= 2
  {
    if n >= 10 {
      assert Text.NatToDecimal(n) == Text.NatToDecimal(n / 10) + [Text.DigitChar(n % 10)];
    }
  }

  /** `n.toString().padStart(2, '0')`. */
  function Pad2(n: nat): (s: string)
    ensures |s| >= 2 && Text.AllDigits(s) && Text.DecimalValue(s) == n
    ensures n < 100 ==> |s| == 2
  {
    var digits := Text.NatToDecimal(n);
    Text.DecimalRoundTrip(n);
    Text.ZeroPaddingKeepsValue(digits, 2);
    if n < 100 then TwoDigitsBelow100(n); Text.PadStart(digits, 2, '0')
    else Text.PadStart(digits, 2, '0')
  }

  /**
   * `formatTime`: minutes and seconds, each at least two digits, around a
   * colon; the seconds field is below 60 and the two fields read back as the
   * given number of seconds.
   */
  function FormatTime(seconds: nat): (clock: string)
    ensures |clock| >= 5 && clock[|clock| - 3] == ':'
    ensures var mins, secs := clock[..|clock| - 3], clock[|clock| - 2..];
            && |mins| >= 2 && Text.AllDigits(mins) && Text.AllDigits(secs)
            && Text.DecimalValue(secs) < 60
            && Text.DecimalValue(mins) * 60 + Text.DecimalValue(secs) == seconds
  {
    var mins, secs := Pad2(seconds / 60), Pad2(seconds % 60);
    ColonSplits(mins, secs);
    MinutesAndSeconds(seconds);
    mins + ":" + secs
  }

  /** Around a colon, a two-character seconds field and the minutes before it read back apart. */
  lemma ColonSplits(mins: string, secs: string)
    requires |secs| == 2
    ensures var clock := mins + ":" + secs;
            clock[..|clock| - 3] == mins && clock[|clock| - 3] == ':' && clock[|clock| - 2..] == secs
  {
  }

  /** Whole minutes and the remaining seconds add back up to the total. */
  lemma MinutesAndSeconds(seconds: nat)
    ensures (seconds / 60) * 60 + seconds % 60 == seconds && seconds % 60 < 60
  {
  }

  /** Below 100 minutes the clock is exactly five characters. */
  lemma FiveCharacterClock(seconds: nat)
    requires seconds < 6000
    ensures |FormatTime(seconds)| == 5
  {
    assert |Pad2(seconds / 60)| == 2;
  }

  // ---------------------------------------------------------------------------
  // Prompts

  /** The `supplementFor` prop: the entry to supplement, the kind of recording and the question. */
  datatype SupplementTarget = SupplementTarget(diaryId: int, kind: SupplementType, question: string)

  const MorningPrompt := "What did you do in the morning? How did you feel?"
  const AfternoonPrompt := "What did you do in the afternoon? What happened?"
  const EveningPrompt := "What happened in the evening? How did you feel?"
  const QuestionFallbackPrompt := "Please respond to this meaningful question about your day."
  const AnythingElsePrompt := "Is there anything else you would like to record?"
  const FullDayPrompt := "How was your day? Please tell me what you did in the morning, afternoon, and evening."

  /** The prompt the effect sets for a target. */
  function PromptFor(target: Option<SupplementTarget>): (prompt: string)
    ensures target.None? ==> prompt == FullDayPrompt
    ensures target.Some? && target.value.kind.IsPeriod() ==>
              prompt == [MorningPrompt, AfternoonPrompt, EveningPrompt][PeriodIndex(target.value.kind)]
    ensures target.Some? && target.value.kind == QuestionResponse ==>
              prompt == (if target.value.question != "" then target.value.question else QuestionFallbackPrompt)
    ensures target.Some? && target.value.kind == General ==> prompt == AnythingElsePrompt
    ensures prompt != ""
  {
    match target
    case None => FullDayPrompt
    case Some(t) =>
      match t.kind
      case Morning => MorningPrompt
      case Afternoon => AfternoonPrompt
      case Evening => EveningPrompt
      case QuestionResponse => if t.question != "" then t.question else QuestionFallbackPrompt
      case General => AnythingElsePrompt
  }

  /** The position of a period in the day. */
  function PeriodIndex(t: SupplementType): (i: nat)
    requires t.IsPeriod()
    ensures i < 3 && Periods[i] == t
  {
    match t
    case Morning => 0
    case Afternoon => 1
    case Evening => 2
  }

  /** Different kinds of recording without a question get different prompts. */
  lemma PromptsTellKindsApart(a: SupplementTarget, b: SupplementTarget)
    requires a.kind != QuestionResponse && b.kind != QuestionResponse && a.kind != b.kind
    ensures PromptFor(Some(a)) != PromptFor(Some(b))
    ensures PromptFor(Some(a)) != PromptFor(None)
  {
  }

  // ---------------------------------------------------------------------------
  // The submission

  /** A chunk of recorded audio. */
  type Chunk = seq<bv8>

  /** A part of the multipart body: the audio, or a named text field. */
  datatype Part = Audio(chunks: seq<Chunk>) | TextField(name: string, value: string)

  datatype Request = Request(endpoint: string, parts: seq<Part>)

  const NewEntryEndpoint := "/diaries/voice"
  const SupplementEndpoint := "/diaries/voice/supplement"

  /** The value of the first text field named `name`. */
  function FieldValue(parts: seq<Part>, name: string): Option<string>
  {
    if parts == [] then None
    else if parts[0].TextField? && parts[0].name == name then Some(parts[0].value)
    else FieldValue(parts[1..], name)
  }

  /**
   * The text fields after the audio. A supplement always names the entry and
   * the kind, and the question only for a question response with a
   * question; a new entry carries today's date and the title derived from it.
   * `today` is `format(new Date(), 'yyyy-MM-dd')`.
   */
  function TextFields(target: Option<SupplementTarget>, today: string): (fields: seq<Part>)
    ensures forall i :: 0 <= i < |fields| ==> fields[i].TextField?
    ensures target.Some? ==>
              && FieldValue(fields, "diaryId") == Some(Text.IntToString(target.value.diaryId))
              && FieldValue(fields, "supplementType") == Some(TypeName(target.value.kind))
              && (FieldValue(fields, "question").Some? <==>
                    target.value.kind == QuestionResponse && target.value.question != "")
              && (FieldValue(fields, "question").Some? ==> FieldValue(fields, "question") == Some(target.value.question))
              && FieldValue(fields, "date") == None && FieldValue(fields, "title") == None
    ensures target.None? ==>
              && FieldValue(fields, "date") == Some(today)
              && FieldValue(fields, "title") == Some("Diary: " + today)
              && FieldValue(fields, "diaryId") == None && FieldValue(fields, "supplementType") == None
              && FieldValue(fields, "question") == None
  {
    match target
    case Some(t) =>
      var extra := if t.kind == QuestionResponse && t.question != "" then [TextField("question", t.question)] else [];
      var fields := [TextField("diaryId", Text.IntToString(t.diaryId)), TextField("supplementType", TypeName(t.kind))] + extra;
      FieldAt(fields, "diaryId", 0);
      FieldAt(fields, "supplementType", 1);
      NoSuchField(fields, "date");
      NoSuchField(fields, "title");
      if extra == [] then NoSuchField(fields, "question"); fields
      else FieldAt(fields, "question", 2); fields
    case None =>
      var fields := [TextField("date", today), TextField("title", "Diary: " + today)];
      FieldAt(fields, "date", 0);
      FieldAt(fields, "title", 1);
      NoSuchField(fields, "diaryId");
      NoSuchField(fields, "supplementType");
      NoSuchField(fields, "question");
      fields
  }

  /** A name no text field carries is not found. */
  lemma {:induction false} NoSuchField(parts: seq<Part>, name: string)
    requires forall i :: 0 <= i < |parts| ==> !(parts[i].TextField? && parts[i].name == name)
    ensures FieldValue(parts, name) == None
  {
    if parts != [] {
      NoSuchField(parts[1..], name);
    }
  }

  /** The lookup finds the first text field with the name. */
  lemma {:induction false} FieldAt(parts: seq<Part>, name: string, i: nat)
    requires i < |parts| && parts[i].TextField? && parts[i].name == name
    requires forall j :: 0 <= j < i ==> !(parts[j].TextField? && parts[j].name == name)
    ensures FieldValue(parts, name) == Some(parts[i].value)
  {
    if i > 0 {
      FieldAt(parts[1..], name, i - 1);
    }
  }

  /** The server reads back the entry id and the kind of a supplement from its fields. */
  lemma SupplementFieldsReadBack(t: SupplementTarget, today: string)
    ensures var fields := TextFields(Some(t), today);
            && Text.ParseInt(FieldValue(fields, "diaryId").value) == Some(t.diaryId)
            && forall k :: TypeName(k) == FieldValue(fields, "supplementType").value ==> k == t.kind
  {
    Text.ParseIntRoundTrip(t.diaryId);
  }

  /** The request a submission sends: the audio first, then the text fields. */
  function SubmissionRequest(target: Option<SupplementTarget>, today: string, blob: seq<Chunk>): (r: Request)
    ensures r.endpoint == if target.Some? then SupplementEndpoint else NewEntryEndpoint
    ensures |r.parts| >= 1 && r.parts[0] == Audio(blob)
    ensures r.parts[1..] == TextFields(target, today)
  {
    Request(if target.Some? then SupplementEndpoint else NewEntryEndpoint, [Audio(blob)] + TextFields(target, today))
  }

  // ---------------------------------------------------------------------------
  // The reply

  const NoAudio := "No audio recorded"
  const Processing := "Processing..."
  const SubmissionError := "Error during submission"
  const MicrophoneRequired := "Microphone access required"
  const Ready := "Ready"
  const RecordingStatus := "Recording..."
  const RecordingCompleted := "Recording completed"
  const AskingQuestionPhase := "asking_question"

  /**
   * What a reply changes: the new status (none: the status stays), the new
   * AI question (none: it stays), and the id `onSuccess` is called with.
   */
  datatype Interpretation = Interpretation(status: Option<string>, aiQuestion: Option<string>, notify: Option<Api.JsNumber>)

  /**
   * The reply handling: a thrown call reports the submission error; a reply
   * with `success` false reports its message; a successful one reports the
   * AI's question when the conversation is asking one, otherwise its
   * suggestion if any, and in both cases hands the entry id to `onSuccess`.
   */
  function Interpret(outcome: Api.Outcome<Api.VoiceReply>): (i: Interpretation)
    ensures outcome.Threw? ==> i == Interpretation(Some(SubmissionError), None, None)
    ensures outcome.Returned? && !outcome.value.success ==>
              && i.notify == None && i.aiQuestion == None
              && i.status == Some("Error: " + if outcome.value.message != "" then outcome.value.message else "Unknown error")
    ensures outcome.Returned? && outcome.value.success ==>
              var r := outcome.value;
              var asks := r.conversationPhase == AskingQuestionPhase && r.meaningfulQuestion != "";
              && i.notify == Some(r.diaryId)
              && (i.aiQuestion.Some? <==> asks)
              && (asks ==> i.aiQuestion == Some(r.meaningfulQuestion) && i.status == Some("AI asks: " + r.meaningfulQuestion))
              && (!asks && r.nextQuestion != "" ==> i.status == Some("AI suggests: " + r.nextQuestion))
              && (!asks && r.nextQuestion == "" ==> i.status == None)
  {
    match outcome
    case Threw(_) => Interpretation(Some(SubmissionError), None, None)
    case Returned(r) =>
      if !r.success then
        Interpretation(Some("Error: " + if r.message != "" then r.message else "Unknown error"), None, None)
      else if r.conversationPhase == AskingQuestionPhase && r.meaningfulQuestion != "" then
        Interpretation(Some("AI asks: " + r.meaningfulQuestion), Some(r.meaningfulQuestion), Some(r.diaryId))
      else if r.nextQuestion != "" then
        Interpretation(Some("AI suggests: " + r.nextQuestion), None, Some(r.diaryId))
      else
        Interpretation(None, None, Some(r.diaryId))
  }

  /** Only a successful reply reaches `onSuccess`. */
  lemma OnlySuccessNotifies(outcome: Api.Outcome<Api.VoiceReply>)
    ensures Interpret(outcome).notify.Some? <==> outcome.Returned? && outcome.value.success
  {
  }

  // ---------------------------------------------------------------------------
  // The controls

  datatype Controls = Controls(start: bool, stop: bool, recordAgain: bool, submit: bool,
                               enabled: bool, submitCaption: string)

  // ---------------------------------------------------------------------------
  // The component state

  class Recorder {
    var isRecording: bool
    var audioBlob: Option<seq<Chunk>>
    var recordingTime: nat
    var status: string
    var submitting: bool
    var prompt: string
    var aiQuestion: Option<string>
    /** `mediaRecorderRef.current` is set. */
    var hasRecorder: bool
    /** `audioChunksRef.current`. */
    var chunks: seq<Chunk>

    /** Every collected chunk, and every chunk of the blob, holds data. */
    predicate Valid()
      reads this
    {
      && (forall i :: 0 <= i < |chunks| ==> |chunks[i]| > 0)
      && (audioBlob.Some? ==> forall i :: 0 <= i < |audioBlob.value| ==> |audioBlob.value[i]| > 0)
    }

    constructor()
      ensures Valid()
      ensures !isRecording && audioBlob == None && recordingTime == 0 && status == Ready
      ensures !submitting && prompt == "" && aiQuestion == None && !hasRecorder && chunks == []
    {
      isRecording := false;
      audioBlob := None;
      recordingTime := 0;
      status := Ready;
      submitting := false;
      prompt := "";
      aiQuestion := None;
      hasRecorder := false;
      chunks := [];
    }

    /** The prompt effect; a question response also sets (or clears) the AI question. */
    method ApplyPrompt(target: Option<SupplementTarget>)
      modifies this
      ensures prompt == PromptFor(target)
      ensures target.Some? && target.value.kind == QuestionResponse ==>
                aiQuestion == (if target.value.question != "" then Some(target.value.question) else None)
      ensures !(target.Some? && target.value.kind == QuestionResponse) ==> aiQuestion == old(aiQuestion)
      ensures isRecording == old(isRecording) && audioBlob == old(audioBlob) && recordingTime == old(recordingTime)
      ensures status == old(status) && submitting == old(submitting)
      ensures hasRecorder == old(hasRecorder) && chunks == old(chunks)
    {
      prompt := PromptFor(target);
      if target.Some? && target.value.kind == QuestionResponse {
        aiQuestion := if target.value.question != "" then Some(target.value.question) else None;
      }
    }

    /**
     * `startRecording`, once microphone access was answered: with access a
     * new recorder starts on an empty chunk list and the clock restarts;
     * without it only the status changes.
     */
    method StartRecording(micGranted: bool)
      requires Valid()
      modifies this
      ensures Valid()
      ensures micGranted ==>
                && hasRecorder && chunks == [] && isRecording
                && status == RecordingStatus && recordingTime == 0
      ensures !micGranted ==>
                && status == MicrophoneRequired
                && hasRecorder == old(hasRecorder) && chunks == old(chunks)
                && isRecording == old(isRecording) && recordingTime == old(recordingTime)
      ensures audioBlob == old(audioBlob) && submitting == old(submitting)
      ensures prompt == old(prompt) && aiQuestion == old(aiQuestion)
    {
      if !micGranted {
        status := MicrophoneRequired;
        return;
      }
      hasRecorder := true;
      chunks := [];
      isRecording := true;
      status := RecordingStatus;
      recordingTime := 0;
    }

    /** `ondataavailable`: a chunk with data is appended; an empty one is dropped. */
    method OnDataAvailable(chunk: Chunk)
      requires Valid()
      modifies this
      ensures Valid()
      ensures chunks == old(chunks) + (if |chunk| > 0 then [chunk] else [])
      ensures isRecording == old(isRecording) && audioBlob == old(audioBlob)
      ensures recordingTime == old(recordingTime) && status == old(status) && submitting == old(submitting)
      ensures prompt == old(prompt) && aiQuestion == old(aiQuestion) && hasRecorder == old(hasRecorder)
    {
      if |chunk| > 0 {
        chunks := chunks + [chunk];
      }
    }

    /** `onstop`: the collected chunks become the blob. */
    method OnRecorderStop()
      requires Valid()
      modifies this
      ensures Valid()
      ensures audioBlob == Some(old(chunks))
      ensures chunks == old(chunks) && isRecording == old(isRecording)
      ensures recordingTime == old(recordingTime) && status == old(status) && submitting == old(submitting)
      ensures prompt == old(prompt) && aiQuestion == old(aiQuestion) && hasRecorder == old(hasRecorder)
    {
      audioBlob := Some(chunks);
    }

    /** The recording timer's tick, once a second while recording. */
    method Tick()
      modifies this
      ensures recordingTime == if old(isRecording) then old(recordingTime) + 1 else old(recordingTime)
      ensures isRecording == old(isRecording) && audioBlob == old(audioBlob) && chunks == old(chunks)
      ensures status == old(status) && submitting == old(submitting)
      ensures prompt == old(prompt) && aiQuestion == old(aiQuestion) && hasRecorder == old(hasRecorder)
    {
      if isRecording {
        recordingTime := recordingTime + 1;
      }
    }

    /** `stopRecording`: does nothing unless a recorder exists and is recording. */
    method StopRecording()
      modifies this
      ensures old(hasRecorder && isRecording) ==> !isRecording && status == RecordingCompleted
      ensures !old(hasRecorder && isRecording) ==> isRecording == old(isRecording) && status == old(status)
      ensures audioBlob == old(audioBlob) && chunks == old(chunks) && recordingTime == old(recordingTime)
      ensures submitting == old(submitting) && hasRecorder == old(hasRecorder)
      ensures prompt == old(prompt) && aiQuestion == old(aiQuestion)
    {
      if hasRecorder && isRecording {
        isRecording := false;
        status := RecordingCompleted;
      }
    }

    /** `resetRecording`: forgets the blob, the status is Ready and the clock 0. */
    method ResetRecording()
      requires Valid()
      modifies this
      ensures Valid()
      ensures audioBlob == None && status == Ready && recordingTime == 0
      ensures isRecording == old(isRecording) && chunks == old(chunks) && submitting == old(submitting)
      ensures prompt == old(prompt) && aiQuestion == old(aiQuestion) && hasRecorder == old(hasRecorder)
    {
      audioBlob := None;
      status := Ready;
      recordingTime := 0;
    }

    /**
     * Submit, up to the request: without a blob only the status changes and
     * nothing is sent; with one, submitting starts and the request is built.
     */
    method BeginSubmit(target: Option<SupplementTarget>, today: string) returns (request: Option<Request>)
      modifies this
      ensures old(audioBlob).None? ==> request == None && status == NoAudio && submitting == old(submitting)
      ensures old(audioBlob).Some? ==>
                && request == Some(SubmissionRequest(target, today, old(audioBlob).value))
                && submitting && status == Processing
      ensures isRecording == old(isRecording) && audioBlob == old(audioBlob) && chunks == old(chunks)
      ensures recordingTime == old(recordingTime) && prompt == old(prompt)
      ensures aiQuestion == old(aiQuestion) && hasRecorder == old(hasRecorder)
    {
      if audioBlob.None? {
        status := NoAudio;
        return None;
      }
      submitting := true;
      status := Processing;
      request := Some(SubmissionRequest(target, today, audioBlob.value));
    }

    /**
     * Submit, after the reply to the request BeginSubmit sent: the status and
     * AI question change as the reply says, the entry id goes to `onSuccess`,
     * and submitting ends whatever happened. The reply to the supplement
     * endpoint goes through `supplementVoiceDiary`, that to the new-entry
     * endpoint through `submitVoiceDiary`, so both halves of the handler
     * follow the same `supplementFor`.
     */
    method FinishSubmit(sent: Request, reply: Api.Remote<Api.VoiceReply>)
      returns (notify: Option<Api.JsNumber>)
      modifies this
      ensures var i := Interpret(if sent.endpoint == SupplementEndpoint then Api.SupplementVoiceDiary(reply)
                                 else Api.SubmitVoiceDiary(reply));
              && notify == i.notify
              && status == (if i.status.Some? then i.status.value else old(status))
              && aiQuestion == (if i.aiQuestion.Some? then i.aiQuestion else old(aiQuestion))
      ensures !submitting
      ensures isRecording == old(isRecording) && audioBlob == old(audioBlob) && chunks == old(chunks)
      ensures recordingTime == old(recordingTime) && prompt == old(prompt) && hasRecorder == old(hasRecorder)
    {
      var outcome := if sent.endpoint == SupplementEndpoint then Api.SupplementVoiceDiary(reply)
                     else Api.SubmitVoiceDiary(reply);
      var i := Interpret(outcome);
      if i.status.Some? {
        status := i.status.value;
      }
      if i.aiQuestion.Some? {
        aiQuestion := i.aiQuestion;
      }
      notify := i.notify;
      submitting := false;
    }

    /**
     * The buttons: Start only when idle without a blob, Stop only while
     * recording, Record Again and Submit only with a blob; all disabled while
     * submitting.
     */
    function ShownControls(): (c: Controls)
      reads this
      ensures c.start <==> !isRecording && audioBlob.None?
      ensures c.stop <==> isRecording
      ensures c.recordAgain <==> audioBlob.Some?
      ensures c.submit <==> audioBlob.Some?
      ensures c.enabled <==> !submitting
      ensures c.submitCaption == if submitting then Processing else "Submit"
    {
      Controls(!isRecording && audioBlob.None?, isRecording, audioBlob.Some?, audioBlob.Some?,
               !submitting, if submitting then Processing else "Submit")
    }

    /** The recorder never offers to start a recording next to a blob to submit. */
    lemma StartExcludesSubmit()
      ensures !(ShownControls().start && ShownControls().submit)
      ensures !(ShownControls().start && ShownControls().stop)
    {
    }
  }

  /**
   * One submission of a supplement, start to finish: without a recording
   * nothing is sent; otherwise the request goes to the supplement endpoint
   * and its reply is read as a supplement's.
   */
  method SubmitSupplement(r: Recorder, target: SupplementTarget, today: string, reply: Api.Remote<Api.VoiceReply>)
    returns (notify: Option<Api.JsNumber>)
    modifies r
    ensures old(r.audioBlob).None? ==> notify == None && r.status == NoAudio
    ensures old(r.audioBlob).Some? ==> notify == Interpret(Api.SupplementVoiceDiary(reply)).notify && !r.submitting
  {
    var sent := r.BeginSubmit(Some(target), today);
    if sent.None? {
      return None;
    }
    notify := r.FinishSubmit(sent.value, reply);
  }
}
