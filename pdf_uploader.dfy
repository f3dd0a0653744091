/**
 * The question/answer session of the PDF uploader component: nine pieces of
 * React state, the MediaRecorder and chunk refs, and the handlers that update
 * them. Every handler runs to completion here; the fetches, the microphone,
 * the recorder and audio.play() are outside the model and enter as the
 * outcomes the handlers receive.
 *
 * The pure functions After* state what each handler does to the nine state
 * fields; the class Uploader performs the same setter sequences as the
 * component and proves that it ends in the state those functions give.
 */
module PdfUploader {
  import opened Wrappers
  import opened JsText
  import opened Backend
  import opened AudioChunks

  const TTS_SERVER_URL := "http://localhost:5001"

  const INVALID_PDF := "Please upload a valid PDF file."
  const NO_TEXT_EXTRACTED := "No text extracted."
  const PDF_FAILED := "Failed to process PDF."
  const UPLOAD_NETWORK_ERROR := "Network error. Please check your connection and try again."
  const NETWORK_ERROR := "Network error. Please try again."
  const LOGIN_REQUIRED := "You need to be logged in to use TTS"
  const TTS_ERROR_PREFIX := "TTS Error: "
  const TTS_SERVER_ERROR := "TTS server error"
  const NO_AUDIO_URL := "Server didn't return an audio URL"
  const NO_RECORDING_SUPPORT := "Your browser does not support audio recording."
  const MIC_DENIED := "Microphone access denied or unavailable."
  const RECORDING_PROMPT := "Recording\U{2026} Speak clearly and click Stop when done."
  const NO_SPEECH := "No speech detected. Try speaking louder."
  const EMPTY_QUESTION := "Please enter a question."
  const AUDIO_QUESTION_FAILED := "Failed to process audio question."
  const TEXT_QUESTION_FAILED := "Failed to process question."
  const RESET_FAILED := "Failed to reset session."

  /** The component's nine state variables. */
  datatype Fields = Fields(
    extractedText: string,
    isLoading: bool,
    question: string,
    answer: string,
    audioUrl: string,
    isRecording: bool,
    showTextInput: bool,
    error: string,
    recordingPrompt: string)

  /** The playback probe passes: an ok response, a non-empty audio_url, and play() resolved. */
  predicate ProbeSucceeds(reply: Response<SpeechBody>, play: PlayResult) {
    reply.Responded? && reply.ok && reply.body.audioUrl != "" && play.Played?
  }

  /** The message of the Error that ends convertAnswerToSpeech when the probe does not pass. */
  function SpeechFailure(reply: Response<SpeechBody>, play: PlayResult): string
    requires !ProbeSucceeds(reply, play)
  {
    match reply
    case Failed(message) => message
    case Responded(ok, body) =>
      if !ok then Or(body.error, TTS_SERVER_ERROR)
      else if body.audioUrl == "" then NO_AUDIO_URL
      else play.message
  }

  /** convertAnswerToSpeech: the state after the speech request and the playback probe. */
  function AfterSpeech(v: Fields, token: string, reply: Response<SpeechBody>, play: PlayResult): (r: Fields)
    // no token: the error is set and nothing else changes (no request is sent)
    ensures token == "" ==> r == v.(error := LOGIN_REQUIRED)
    // with a token, only audioUrl and error may change, and loading has ended
    ensures token != "" ==> r.(audioUrl := v.audioUrl, error := v.error) == v.(isLoading := false)
    // the audio reference is replaced exactly when the probe passes, by the server's locator
    ensures token != "" && ProbeSucceeds(reply, play) ==>
      r.audioUrl == TTS_SERVER_URL + reply.body.audioUrl && r.error == ""
    ensures token != "" && !ProbeSucceeds(reply, play) ==>
      r.audioUrl == v.audioUrl && r.error == TTS_ERROR_PREFIX + SpeechFailure(reply, play)
  {
    if token == "" then v.(error := LOGIN_REQUIRED)
    else SpeechSettled(v.(isLoading := true, error := ""), reply, play).(isLoading := false)
  }

  /** The try/catch of convertAnswerToSpeech: the probed URL is shown, or the error. */
  function SpeechSettled(v: Fields, reply: Response<SpeechBody>, play: PlayResult): Fields {
    if ProbeSucceeds(reply, play) then v.(audioUrl := TTS_SERVER_URL + reply.body.audioUrl)
    else v.(error := TTS_ERROR_PREFIX + SpeechFailure(reply, play))
  }

  /** The handling of a /ask_text or /ask_audio1 response shared by both question paths;
   *  `fallback` is the path's default error message. */
  function AfterAnswer(v: Fields, reply: Response<AnswerBody>, fallback: string, token: string,
                       speech: Response<SpeechBody>, play: PlayResult): (r: Fields)
    // question and answer change together, and only from an ok response
    ensures (r.question, r.answer) ==
      if reply.Responded? && reply.ok then (reply.body.question, reply.body.answer) else (v.question, v.answer)
    // a failed request changes the error and nothing else
    ensures reply.Failed? ==> r == v.(error := NETWORK_ERROR)
    ensures reply.Responded? && !reply.ok ==> r == v.(error := Or(reply.body.error, fallback))
    // the audio reference changes only when the whole pipeline succeeded
    ensures r.audioUrl != v.audioUrl ==> reply.Responded? && reply.ok && token != "" && ProbeSucceeds(speech, play)
    ensures r.extractedText == v.extractedText && r.isRecording == v.isRecording &&
            r.showTextInput == v.showTextInput && r.recordingPrompt == v.recordingPrompt
  {
    match reply
    case Failed(_) => v.(error := NETWORK_ERROR)
    case Responded(ok, body) =>
      if ok then AfterSpeech(v.(question := body.question, answer := body.answer), token, speech, play)
      else v.(error := Or(body.error, fallback))
  }

  /** handleFileUpload. */
  function AfterUpload(v: Fields, file: Option<FileInfo>, reply: Response<UploadBody>): (r: Fields)
    // a missing or non-PDF file only sets the error
    ensures !IsPdf(file) ==> r == v.(error := INVALID_PDF)
    // an accepted file clears the previous answer and audio, and loading ends on every exit
    ensures IsPdf(file) ==> !r.isLoading && r.answer == "" && r.audioUrl == ""
    ensures IsPdf(file) ==>
      r.(extractedText := v.extractedText, isLoading := v.isLoading, answer := v.answer,
         audioUrl := v.audioUrl, error := v.error) == v
    // text is shown exactly when the backend accepted the document, and an error exactly otherwise
    ensures IsPdf(file) ==> (r.extractedText != "" <==> reply.Responded? && reply.ok)
    ensures IsPdf(file) ==> (r.error == "" <==> reply.Responded? && reply.ok)
    ensures IsPdf(file) && reply.Responded? && reply.ok ==>
      r.extractedText == Or(reply.body.text, NO_TEXT_EXTRACTED)
    ensures IsPdf(file) && reply.Responded? && !reply.ok ==> r.error == Or(reply.body.error, PDF_FAILED)
    ensures IsPdf(file) && reply.Failed? ==> r.error == UPLOAD_NETWORK_ERROR
  {
    if !IsPdf(file) then v.(error := INVALID_PDF)
    else
      var cleared := v.(isLoading := true, error := "", extractedText := "", answer := "", audioUrl := "");
      var settled :=
        match reply
        case Failed(_) => cleared.(error := UPLOAD_NETWORK_ERROR)
        case Responded(ok, body) =>
          if ok then cleared.(extractedText := Or(body.text, NO_TEXT_EXTRACTED))
          else cleared.(error := Or(body.error, PDF_FAILED));
      settled.(isLoading := false)
  }

  /** handleTextQuestionSubmit. */
  function AfterTextSubmit(v: Fields, input: string, reply: Response<AnswerBody>, token: string,
                           speech: Response<SpeechBody>, play: PlayResult): (r: Fields)
    // blank input only sets the error
    ensures Trim(input) == "" ==> r == v.(error := EMPTY_QUESTION)
    // otherwise the input box closes, and no answer or audio of an earlier question survives
    ensures Trim(input) != "" ==> !r.showTextInput
    ensures Trim(input) != "" ==>
      r.answer == if reply.Responded? && reply.ok then reply.body.answer else ""
    ensures Trim(input) != "" ==>
      r.audioUrl == "" || (reply.Responded? && reply.ok && token != "" && ProbeSucceeds(speech, play))
    // every failure of the request is reported
    ensures Trim(input) != "" && r.error == "" ==> reply.Responded? && reply.ok
    ensures r.extractedText == v.extractedText && r.isRecording == v.isRecording
  {
    if Trim(input) == "" then v.(error := EMPTY_QUESTION)
    else
      AfterAnswer(v.(showTextInput := false, error := "", answer := "", audioUrl := ""),
                  reply, TEXT_QUESTION_FAILED, token, speech, play)
  }

  /** The recorder's onstop handler. */
  function AfterRecording(v: Fields, reply: Response<AnswerBody>, token: string,
                          speech: Response<SpeechBody>, play: PlayResult): (r: Fields)
    // the recording is over and its prompt is gone, whatever the outcome
    ensures !r.isRecording && r.recordingPrompt == ""
    // every failure of the request is reported
    ensures r.error == "" ==> reply.Responded? && reply.ok
    ensures r.audioUrl != v.audioUrl ==> reply.Responded? && reply.ok && token != "" && ProbeSucceeds(speech, play)
    ensures r.extractedText == v.extractedText && r.showTextInput == v.showTextInput
  {
    AfterAnswer(v.(isRecording := false, recordingPrompt := "", error := ""),
                reply, AUDIO_QUESTION_FAILED, token, speech, play)
  }

  /** The onstop handler with the previous audio cleared as well, as the text path
   *  does: no audio of an earlier answer is left beside the new one. */
  function AfterRecordingFixed(v: Fields, reply: Response<AnswerBody>, token: string,
                               speech: Response<SpeechBody>, play: PlayResult): (r: Fields)
    ensures !r.isRecording && r.recordingPrompt == ""
    ensures r.error == "" ==> reply.Responded? && reply.ok
    // the audio shown, if any, was produced for the answer of this recording
    ensures r.audioUrl == "" ||
      (reply.Responded? && reply.ok && token != "" && ProbeSucceeds(speech, play) &&
       r.answer == reply.body.answer && r.audioUrl == TTS_SERVER_URL + speech.body.audioUrl)
    ensures r.extractedText == v.extractedText && r.showTextInput == v.showTextInput
  {
    AfterRecording(v.(audioUrl := ""), reply, token, speech, play)
  }

  /** handleResetSession. */
  function AfterReset(v: Fields, reply: Response<ResetBody>): (r: Fields)
    // an acknowledged reset empties the document, question, answer, audio and error
    ensures reply.Responded? && reply.ok ==>
      r == v.(extractedText := "", question := "", answer := "", audioUrl := "", error := "")
    // otherwise an error is shown and nothing else changes
    ensures !(reply.Responded? && reply.ok) ==> r.error != "" && r.(error := v.error) == v
  {
    match reply
    case Failed(_) => v.(error := NETWORK_ERROR)
    case Responded(ok, body) =>
      if ok then v.(extractedText := "", question := "", answer := "", audioUrl := "", error := "")
      else v.(error := Or(body.error, RESET_FAILED))
  }

  /** MediaRecorder: recording, stopped with its stop event still to come, or finished. */
  datatype Phase = Recording | Stopping | Finished

  /** The recorder in mediaRecorderRef; `generation` numbers the voice-button clicks. */
  datatype Recorder = Recorder(generation: nat, phase: Phase)

  /** The state values that the closures created by one voice-button click see. */
  datatype Capture = Capture(isRecording: bool, answer: string, question: string)

  /** The JSON body and bearer token of a /convert_to_speech request. */
  datatype SpeechRequest = SpeechRequest(text: string, question: string, bearer: string)

  /** The recording feature check and getUserMedia's settlement. */
  datatype MicAccess = Unsupported | Denied | Granted

  /** Everything the recording side holds besides the state variables. */
  datatype Machinery = Machinery(
    recorder: Option<Recorder>,
    chunks: seq<Chunk>,
    delivered: seq<Chunk>,
    micOpen: bool,
    nextGeneration: nat,
    captures: map<nat, Capture>,
    pendingTimers: set<nat>)

  /** The machinery after a granted voice-button click whose closures captured
   *  `capture`: a new recorder that is recording, an empty buffer, the open stream,
   *  and the click's timer pending. */
  function Started(m: Machinery, capture: Capture): Machinery {
    Machinery(Some(Recorder(m.nextGeneration, Recording)), [], [], true, m.nextGeneration + 1,
              m.captures[m.nextGeneration := capture], m.pendingTimers + {m.nextGeneration})
  }

  /**
   * The component's two refs and what the recording closures hold on to:
   * mediaRecorderRef.current, audioChunksRef.current, the microphone stream of
   * the current recording, and the 10-second timers still to fire, each with the
   * state values its click captured.
   */
  class RecorderRefs {
    /** mediaRecorderRef.current */
    var recorder: Option<Recorder>
    /** audioChunksRef.current */
    var chunks: seq<Chunk>
    /** The stream of the current recording still has live tracks. */
    var micOpen: bool
    var nextGeneration: nat
    /** What each click's closures captured, by generation. */
    var captures: map<nat, Capture>
    /** The generations whose timer has not fired yet. */
    var pendingTimers: set<nat>
    /** Every chunk the current recorder delivered, empty ones included. */
    ghost var delivered: seq<Chunk>

    ghost function State(): Machinery
      reads this
    {
      Machinery(recorder, chunks, delivered, micOpen, nextGeneration, captures, pendingTimers)
    }

    /** The stream is open exactly while a recorder has not finished, and the buffer
     *  holds the non-empty chunks delivered since the recording started. */
    ghost predicate Valid()
      reads this
    {
      && (micOpen <==> recorder.Some? && recorder.value.phase != Finished)
      && (recorder.Some? ==> recorder.value.generation in captures)
      && (forall g :: g in captures ==> g < nextGeneration)
      && pendingTimers <= captures.Keys
      && chunks == NonEmpty(delivered)
    }

    constructor ()
      ensures Valid() && State() == Machinery(None, [], [], false, 0, map[], {})
    {
      recorder, chunks, micOpen := None, [], false;
      nextGeneration, captures, pendingTimers := 0, map[], {};
      delivered := [];
    }

    /** A granted microphone: a new recorder that is recording, an empty buffer, the
     *  open stream, and the timer of this click with what its closures captured. */
    method Start(capture: Capture) returns (generation: nat)
      requires Valid() && !micOpen
      modifies this
      ensures Valid()
      ensures generation == old(nextGeneration)
      ensures State() == Started(old(State()), capture)
    {
      generation := nextGeneration;
      nextGeneration := nextGeneration + 1;
      micOpen := true;
      recorder := Some(Recorder(generation, Recording));
      chunks := [];
      delivered := [];
      captures := captures[generation := capture];
      pendingTimers := pendingTimers + {generation};
    }

    /** The recorder's ondataavailable handler: only chunks of positive size are kept. */
    method OnDataAvailable(chunk: Chunk)
      requires Valid()
      modifies this
      ensures Valid()
      ensures chunks == old(chunks) + if |chunk| > 0 then [chunk] else []
      ensures State() == old(State()).(chunks := chunks, delivered := old(delivered) + [chunk])
    {
      NonEmptyAppend(delivered, chunk);
      if |chunk| > 0 {
        chunks := chunks + [chunk];
      }
      delivered := delivered + [chunk];
    }

    /** recorder.stop() when its state is 'recording'; the stop event is then due. */
    method StopIfRecording()
      requires Valid()
      modifies this
      ensures Valid()
      ensures recorder ==
        if old(recorder).Some? && old(recorder).value.phase == Recording
        then Some(old(recorder).value.(phase := Stopping)) else old(recorder)
      ensures State() == old(State()).(recorder := recorder)
    {
      if recorder.Some? && recorder.value.phase == Recording {
        recorder := Some(recorder.value.(phase := Stopping));
      }
    }

    /** new Blob(audioChunksRef.current): the bytes of every chunk delivered since the
     *  recording started, the empty ones having contributed nothing. */
    method Blob() returns (payload: seq<bv8>)
      requires Valid()
      ensures payload == Flatten(delivered)
    {
      FlattenNonEmpty(delivered);
      payload := Flatten(chunks);
    }

    /** The end of the stop event: the stream's tracks are stopped. */
    method Release()
      requires Valid() && recorder.Some? && recorder.value.phase != Finished
      modifies this
      ensures Valid()
      ensures State() == old(State()).(recorder := Some(old(recorder.value).(phase := Finished)), micOpen := false)
    {
      recorder := Some(recorder.value.(phase := Finished));
      micOpen := false;
    }

    /** A timer fires, once: it is no longer pending, and its closure's capture is read. */
    method FireTimer(generation: nat) returns (snapshot: Capture)
      requires Valid() && generation in pendingTimers
      modifies this
      ensures Valid()
      ensures snapshot == old(captures[generation])
      ensures State() == old(State()).(pendingTimers := old(pendingTimers) - {generation})
    {
      snapshot := captures[generation];
      pendingTimers := pendingTimers - {generation};
    }
  }

  class Uploader {
    /** The `token` prop; "" when absent. */
    const token: string
    const refs: RecorderRefs

    var extractedText: string
    var isLoading: bool
    var question: string
    var answer: string
    var audioUrl: string
    var isRecording: bool
    var showTextInput: bool
    var error: string
    var recordingPrompt: string

    /** The URLs whose playback probe passed. */
    ghost var probed: set<string>
    /** The question and answer of the last ok /ask_* response. */
    ghost var lastReply: Option<(string, string)>

    ghost function View(): Fields
      reads this
    {
      Fields(extractedText, isLoading, question, answer, audioUrl,
             isRecording, showTextInput, error, recordingPrompt)
    }

    /** What holds of the state variables between handlers: nothing is loading, the
     *  prompt shows only while recording, the audio shown passed its probe, and the
     *  answer shown came with the question shown. */
    ghost predicate ViewValid()
      reads this
    {
      !isLoading && Consistent()
    }

    /** ViewValid() apart from the loading flag, which is set while a request is out. */
    ghost predicate Consistent()
      reads this
    {
      && (!isRecording ==> recordingPrompt == "")
      && (audioUrl != "" ==> audioUrl in probed)
      && (answer != "" ==> lastReply == Some((question, answer)))
    }

    ghost predicate Valid()
      reads this, refs
    {
      ViewValid() && (isRecording <==> refs.micOpen)
    }

    constructor (token: string)
      ensures Valid() && refs.Valid() && this.token == token && fresh(refs)
      ensures View() == Fields("", false, "", "", "", false, false, "", "")
      ensures refs.State() == Machinery(None, [], [], false, 0, map[], {})
    {
      this.token := token;
      refs := new RecorderRefs();
      extractedText, isLoading, question, answer, audioUrl := "", false, "", "", "";
      isRecording, showTextInput, error, recordingPrompt := false, false, "", "";
      probed, lastReply := {}, None;
    }

    /** handleFileUpload; `posted` tells whether the file was sent to /upload_pdf. */
    method HandleFileUpload(file: Option<FileInfo>, reply: Response<UploadBody>) returns (posted: bool)
      requires Valid()
      modifies this
      ensures Valid()
      ensures posted == IsPdf(file)
      ensures View() == AfterUpload(old(View()), file, reply)
    {
      if file.None? || file.value.mimeType != PDF_TYPE {
        error := INVALID_PDF;
        return false;
      }
      isLoading := true;
      error := "";
      extractedText := "";
      answer := "";
      audioUrl := "";
      posted := true;
      match reply {
        case Failed(_) =>
          error := UPLOAD_NETWORK_ERROR;
        case Responded(ok, body) =>
          if ok {
            extractedText := Or(body.text, NO_TEXT_EXTRACTED);
          } else {
            error := Or(body.error, PDF_FAILED);
          }
      }
      isLoading := false;
    }

    /** convertAnswerToSpeech. `renderedQuestion` is the `question` of the render that
     *  created the calling handler; `request` is what is sent, if anything. */
    method ConvertAnswerToSpeech(answerText: string, renderedQuestion: string,
                                 reply: Response<SpeechBody>, play: PlayResult)
      returns (request: Option<SpeechRequest>)
      requires ViewValid()
      modifies this
      ensures ViewValid()
      ensures request == if token == "" then None else Some(SpeechRequest(answerText, renderedQuestion, token))
      ensures View() == AfterSpeech(old(View()), token, reply, play)
      ensures lastReply == old(lastReply)
    {
      if token == "" {
        error := LOGIN_REQUIRED;
        return None;
      }
      isLoading := true;
      error := "";
      request := Some(SpeechRequest(answerText, renderedQuestion, token));
      SettleSpeech(reply, play);
      isLoading := false;
    }

    /** The try/catch of convertAnswerToSpeech, once the request is out. */
    method SettleSpeech(reply: Response<SpeechBody>, play: PlayResult)
      requires Consistent()
      modifies this
      ensures Consistent()
      ensures View() == SpeechSettled(old(View()), reply, play)
      ensures lastReply == old(lastReply)
    {
      if !ProbeSucceeds(reply, play) {
        error := TTS_ERROR_PREFIX + SpeechFailure(reply, play);
      } else {
        var fullAudioUrl := TTS_SERVER_URL + reply.body.audioUrl;
        probed := probed + {fullAudioUrl};
        audioUrl := fullAudioUrl;
      }
    }

    /** The `response.ok` / error / catch handling of both question paths, with the
     *  question to send along to the speech server. */
    method ReceiveAnswer(reply: Response<AnswerBody>, fallback: string, speechQuestion: string,
                         speech: Response<SpeechBody>, play: PlayResult)
      returns (request: Option<SpeechRequest>)
      requires ViewValid()
      modifies this
      ensures ViewValid()
      ensures View() == AfterAnswer(old(View()), reply, fallback, token, speech, play)
      ensures request ==
        if reply.Responded? && reply.ok && token != ""
        then Some(SpeechRequest(reply.body.answer, speechQuestion, token)) else None
      ensures reply.Responded? && reply.ok ==> question == reply.body.question && answer == reply.body.answer
    {
      match reply {
        case Failed(_) =>
          error := NETWORK_ERROR;
          request := None;
        case Responded(ok, body) =>
          if ok {
            question := body.question;
            answer := body.answer;
            lastReply := Some((body.question, body.answer));
            request := ConvertAnswerToSpeech(body.answer, speechQuestion, speech, play);
          } else {
            error := Or(body.error, fallback);
            request := None;
          }
      }
    }

    /** The setters of handleTextQuestionSubmit for a non-blank question: the input box
     *  closes, the previous error, answer and audio are cleared, and the response is
     *  handled; `speechQuestion` goes along to the speech server. */
    method AskText(reply: Response<AnswerBody>, speechQuestion: string,
                   speech: Response<SpeechBody>, play: PlayResult)
      returns (request: Option<SpeechRequest>)
      requires ViewValid()
      modifies this
      ensures ViewValid()
      ensures View() == AfterAnswer(old(View()).(showTextInput := false, error := "", answer := "", audioUrl := ""),
                                    reply, TEXT_QUESTION_FAILED, token, speech, play)
      ensures request ==
        if reply.Responded? && reply.ok && token != ""
        then Some(SpeechRequest(reply.body.answer, speechQuestion, token)) else None
      ensures reply.Responded? && reply.ok ==> question == reply.body.question && answer == reply.body.answer
    {
      showTextInput := false;
      error := "";
      answer := "";
      audioUrl := "";
      request := ReceiveAnswer(reply, TEXT_QUESTION_FAILED, speechQuestion, speech, play);
    }

    /** handleTextQuestionSubmit as written: the speech request carries the question
     *  of the render the handler came from, not the one just received. */
    method HandleTextQuestionSubmit(input: string, reply: Response<AnswerBody>,
                                    speech: Response<SpeechBody>, play: PlayResult)
      returns (posted: Option<string>, request: Option<SpeechRequest>)
      requires Valid()
      modifies this
      ensures Valid()
      ensures posted == if Trim(input) == "" then None else Some(Trim(input))
      ensures View() == AfterTextSubmit(old(View()), input, reply, token, speech, play)
      ensures request ==
        if Trim(input) != "" && reply.Responded? && reply.ok && token != ""
        then Some(SpeechRequest(reply.body.answer, old(question), token)) else None
    {
      var trimmed := Trim(input);
      if trimmed == "" {
        error := EMPTY_QUESTION;
        return None, None;
      }
      ghost var before := View();
      posted := Some(trimmed);
      request := AskText(reply, question, speech, play);
      assert AfterTextSubmit(before, input, reply, token, speech, play) ==
        AfterAnswer(before.(showTextInput := false, error := "", answer := "", audioUrl := ""),
                    reply, TEXT_QUESTION_FAILED, token, speech, play);
    }

    /** handleTextQuestionSubmit with the speech request carrying the question the
     *  backend just returned, the one shown beside the answer. */
    method HandleTextQuestionSubmitFixed(input: string, reply: Response<AnswerBody>,
                                         speech: Response<SpeechBody>, play: PlayResult)
      returns (posted: Option<string>, request: Option<SpeechRequest>)
      requires Valid()
      modifies this
      ensures Valid()
      ensures posted == if Trim(input) == "" then None else Some(Trim(input))
      ensures View() == AfterTextSubmit(old(View()), input, reply, token, speech, play)
      // the speech server is sent the answer and question now shown, and nothing else
      ensures request.Some? <==> Trim(input) != "" && reply.Responded? && reply.ok && token != ""
      ensures request.Some? ==> request.value == SpeechRequest(answer, question, token)
    {
      var trimmed := Trim(input);
      if trimmed == "" {
        error := EMPTY_QUESTION;
        return None, None;
      }
      ghost var before := View();
      posted := Some(trimmed);
      var received := if reply.Responded? then reply.body.question else "";
      request := AskText(reply, received, speech, play);
      assert AfterTextSubmit(before, input, reply, token, speech, play) ==
        AfterAnswer(before.(showTextInput := false, error := "", answer := "", audioUrl := ""),
                    reply, TEXT_QUESTION_FAILED, token, speech, play);
    }

    /** handleVoiceQuestion: the feature check, getUserMedia, a fresh recorder and
     *  buffer, and the 10-second timer. The voice button is disabled while
     *  recording, so the handler only runs when isRecording is false. */
    method HandleVoiceQuestion(mic: MicAccess)
      requires Valid() && refs.Valid() && !isRecording
      modifies this, refs
      ensures Valid() && refs.Valid()
      ensures mic != Granted ==> unchanged(refs)
      ensures mic == Unsupported ==> View() == old(View()).(error := NO_RECORDING_SUPPORT)
      ensures mic == Denied ==>
        View() == old(View()).(error := MIC_DENIED, isRecording := false, recordingPrompt := "")
      ensures mic == Granted ==>
        View() == old(View()).(isRecording := true, recordingPrompt := RECORDING_PROMPT) &&
        refs.State() == Started(old(refs.State()), Capture(old(isRecording), old(answer), old(question)))
      // the timer's closure sees isRecording as false
      ensures mic == Granted ==> !refs.captures[old(refs.nextGeneration)].isRecording
    {
      if mic == Unsupported {
        error := NO_RECORDING_SUPPORT;
        return;
      }
      if mic == Denied {
        error := MIC_DENIED;
        isRecording := false;
        recordingPrompt := "";
        return;
      }
      BeginRecording();
    }

    /** The granted branch of handleVoiceQuestion: a new recorder and buffer, the
     *  timer with what this render's closures see, and the recording flag and prompt. */
    method BeginRecording()
      requires Valid() && refs.Valid() && !isRecording
      modifies this, refs
      ensures Valid() && refs.Valid()
      ensures View() == old(View()).(isRecording := true, recordingPrompt := RECORDING_PROMPT)
      ensures refs.State() == Started(old(refs.State()), Capture(false, old(answer), old(question)))
    {
      // the closures capture this render's isRecording, which is false here
      var _ := refs.Start(Capture(isRecording, answer, question));
      isRecording := true;
      recordingPrompt := RECORDING_PROMPT;
    }

    /** The setters of the onstop handler: the recording flag and prompt and the
     *  previous error are cleared, and the /ask_audio1 response is handled. */
    method AskAudio(reply: Response<AnswerBody>, speechQuestion: string,
                    speech: Response<SpeechBody>, play: PlayResult)
      returns (request: Option<SpeechRequest>)
      requires ViewValid()
      modifies this
      ensures ViewValid()
      ensures View() == AfterRecording(old(View()), reply, token, speech, play)
      ensures request ==
        if reply.Responded? && reply.ok && token != ""
        then Some(SpeechRequest(reply.body.answer, speechQuestion, token)) else None
      ensures reply.Responded? && reply.ok ==> question == reply.body.question && answer == reply.body.answer
    {
      isRecording := false;
      recordingPrompt := "";
      error := "";
      request := ReceiveAnswer(reply, AUDIO_QUESTION_FAILED, speechQuestion, speech, play);
    }

    /** The recorder's onstop handler, after a stop() call or after the recorder
     *  stopped by itself (its track ended): the payload is the Blob of the buffered
     *  chunks; the stream is released after the request, whatever its outcome. */
    method OnStop(reply: Response<AnswerBody>, speech: Response<SpeechBody>, play: PlayResult)
      returns (payload: seq<bv8>, request: Option<SpeechRequest>)
      requires Valid() && refs.Valid() && refs.recorder.Some? && refs.recorder.value.phase != Finished
      modifies this, refs
      ensures Valid() && refs.Valid()
      ensures payload == Flatten(old(refs.delivered))
      ensures View() == AfterRecording(old(View()), reply, token, speech, play)
      ensures request ==
        if reply.Responded? && reply.ok && token != ""
        then Some(SpeechRequest(reply.body.answer, old(refs.captures[refs.recorder.value.generation].question), token))
        else None
      ensures refs.State() ==
        old(refs.State()).(recorder := Some(old(refs.recorder.value).(phase := Finished)), micOpen := false)
    {
      var capture := refs.captures[refs.recorder.value.generation];
      payload := refs.Blob();
      request := AskAudio(reply, capture.question, speech, play);
      refs.Release();
    }

    /** The onstop handler corrected: the previous audio is cleared with the error,
     *  and the speech request carries the question the backend just returned. */
    method OnStopFixed(reply: Response<AnswerBody>, speech: Response<SpeechBody>, play: PlayResult)
      returns (payload: seq<bv8>, request: Option<SpeechRequest>)
      requires Valid() && refs.Valid() && refs.recorder.Some? && refs.recorder.value.phase != Finished
      modifies this, refs
      ensures Valid() && refs.Valid()
      ensures payload == Flatten(old(refs.delivered))
      ensures View() == AfterRecordingFixed(old(View()), reply, token, speech, play)
      // the speech server is sent the answer and question now shown, and nothing else
      ensures request.Some? <==> reply.Responded? && reply.ok && token != ""
      ensures request.Some? ==> request.value == SpeechRequest(answer, question, token)
      ensures refs.State() ==
        old(refs.State()).(recorder := Some(old(refs.recorder.value).(phase := Finished)), micOpen := false)
    {
      payload := refs.Blob();
      request := AskAudioFixed(reply, speech, play);
      refs.Release();
    }

    /** The setters of the corrected onstop handler: the previous audio goes with
     *  the flag, prompt and error, and the received question goes to the speech server. */
    method AskAudioFixed(reply: Response<AnswerBody>, speech: Response<SpeechBody>, play: PlayResult)
      returns (request: Option<SpeechRequest>)
      requires ViewValid()
      modifies this
      ensures ViewValid()
      ensures View() == AfterRecordingFixed(old(View()), reply, token, speech, play)
      ensures request.Some? <==> reply.Responded? && reply.ok && token != ""
      ensures request.Some? ==> request.value == SpeechRequest(answer, question, token)
    {
      audioUrl := "";
      var received := if reply.Responded? then reply.body.question else "";
      request := AskAudio(reply, received, speech, play);
    }

    /** handleStopRecording: stops the recorder if it is recording. */
    method HandleStopRecording()
      requires Valid() && refs.Valid()
      modifies refs
      ensures Valid() && refs.Valid()
      ensures refs.recorder ==
        if old(refs.recorder).Some? && old(refs.recorder).value.phase == Recording
        then Some(old(refs.recorder).value.(phase := Stopping)) else old(refs.recorder)
      ensures refs.State() == old(refs.State()).(recorder := refs.recorder)
    {
      refs.StopIfRecording();
    }

    /** The 10-second timer of click `generation`, as written: its guard reads the
     *  isRecording and answer its closure captured at the click. */
    method AutoStopTimer(generation: nat)
      requires Valid() && refs.Valid() && generation in refs.pendingTimers
      modifies this, refs
      ensures Valid() && refs.Valid()
      ensures
        var snapshot := old(refs.captures[generation]);
        var fires := snapshot.isRecording && old(refs.recorder).Some? && old(refs.recorder).value.phase == Recording;
        && refs.State() == old(refs.State()).(
             recorder := if fires then Some(old(refs.recorder).value.(phase := Stopping)) else old(refs.recorder),
             pendingTimers := old(refs.pendingTimers) - {generation})
        && View() == if fires && snapshot.answer == "" then old(View()).(error := NO_SPEECH) else old(View())
    {
      var snapshot := refs.FireTimer(generation);
      if snapshot.isRecording && refs.recorder.Some? && refs.recorder.value.phase == Recording {
        refs.StopIfRecording();
        if snapshot.answer == "" {
          error := NO_SPEECH;
        }
      }
    }

    /** The 10-second timer with its guard on the live state: it stops the recording
     *  of its own click if that recording is still running. */
    method AutoStopTimerFixed(generation: nat)
      requires Valid() && refs.Valid() && generation in refs.pendingTimers
      modifies this, refs
      ensures Valid() && refs.Valid()
      // after the timer of a click, that click's recording is no longer running
      ensures refs.recorder.Some? && refs.recorder.value.generation == generation ==>
        refs.recorder.value.phase != Recording
      ensures
        var fires := old(refs.recorder) == Some(Recorder(generation, Recording));
        && refs.State() == old(refs.State()).(
             recorder := if fires then Some(Recorder(generation, Stopping)) else old(refs.recorder),
             pendingTimers := old(refs.pendingTimers) - {generation})
        && View() == if fires && old(answer) == "" then old(View()).(error := NO_SPEECH) else old(View())
    {
      var _ := refs.FireTimer(generation);
      if refs.recorder == Some(Recorder(generation, Recording)) {
        refs.StopIfRecording();
        if answer == "" {
          error := NO_SPEECH;
        }
      }
    }

    /** handleResetSession. */
    method HandleResetSession(reply: Response<ResetBody>)
      requires Valid()
      modifies this
      ensures Valid()
      ensures View() == AfterReset(old(View()), reply)
    {
      match reply {
        case Failed(_) =>
          error := NETWORK_ERROR;
        case Responded(ok, body) =>
          if ok {
            extractedText := "";
            question := "";
            answer := "";
            audioUrl := "";
            error := "";
          } else {
            error := Or(body.error, RESET_FAILED);
          }
      }
    }

    /** The effect that clears the prompt whenever isRecording is false: every
     *  handler already leaves it cleared, so it changes nothing. */
    method ClearPromptEffect()
      requires Valid()
      modifies this
      ensures Valid()
      ensures View() == old(View())
    {
      if !isRecording {
        recordingPrompt := "";
      }
    }
  }

  /** A voice question whose user never presses Stop: the timer fires and the
   *  recording keeps running. */
  method AutoStopNeverFires() returns (stillRecording: bool)
    ensures stillRecording
  {
    var u := new Uploader("token");
    u.HandleVoiceQuestion(Granted);
    u.AutoStopTimer(0);
    stillRecording := u.isRecording && u.refs.recorder == Some(Recorder(0, Recording));
  }

  /** The same session with the live guard: the timer stops the recording. */
  method AutoStopFixedFires() returns (stopped: bool)
    ensures stopped
  {
    var u := new Uploader("token");
    u.HandleVoiceQuestion(Granted);
    u.AutoStopTimerFixed(0);
    stopped := u.refs.recorder == Some(Recorder(0, Stopping));
  }

  /** Two text questions in a row: the speech request for the second answer
   *  carries the first question. */
  method StaleSpeechQuestion() returns (second: Option<SpeechRequest>)
    ensures second == Some(SpeechRequest("A2", "Q1", "token"))
  {
    var u := new Uploader("token");
    var audio := Responded(true, SpeechBody("/audio/a.mp3", ""));
    assert !IsWhitespace("first"[0]);
    TrimmedEmptyIffBlank("first");
    assert !IsWhitespace("second"[0]);
    TrimmedEmptyIffBlank("second");
    var _, _ := u.HandleTextQuestionSubmit("first", Responded(true, AnswerBody("Q1", "A1", "")), audio, Played);
    var _, r := u.HandleTextQuestionSubmit("second", Responded(true, AnswerBody("Q2", "A2", "")), audio, Played);
    second := r;
  }

  /** The same two questions with the corrected handler: the second answer is sent
   *  with its own question. */
  method FreshSpeechQuestion() returns (second: Option<SpeechRequest>)
    ensures second == Some(SpeechRequest("A2", "Q2", "token"))
  {
    var u := new Uploader("token");
    var audio := Responded(true, SpeechBody("/audio/a.mp3", ""));
    assert !IsWhitespace("first"[0]);
    TrimmedEmptyIffBlank("first");
    assert !IsWhitespace("second"[0]);
    TrimmedEmptyIffBlank("second");
    var _, _ := u.HandleTextQuestionSubmitFixed("first", Responded(true, AnswerBody("Q1", "A1", "")), audio, Played);
    var _, r := u.HandleTextQuestionSubmitFixed("second", Responded(true, AnswerBody("Q2", "A2", "")), audio, Played);
    second := r;
  }

  /** A session in which one voice question was answered and its audio played. */
  method SpokenVoiceAnswer() returns (u: Uploader)
    ensures fresh(u) && fresh(u.refs) && u.Valid() && u.refs.Valid() && !u.isRecording
    ensures u.token == "token" && u.answer == "A1" && u.audioUrl == TTS_SERVER_URL + "/a"
  {
    u := new Uploader("token");
    u.HandleVoiceQuestion(Granted);
    u.HandleStopRecording();
    var _, _ := u.OnStop(Responded(true, AnswerBody("Q1", "A1", "")),
                         Responded(true, SpeechBody("/a", "")), Played);
  }

  /** A second voice question is answered but its audio does not play: the second
   *  answer shows beside the first one's audio. */
  method StaleAudioAfterVoice() returns (answer: string, audioUrl: string)
    ensures answer == "A2" && audioUrl == TTS_SERVER_URL + "/a"
  {
    var u := SpokenVoiceAnswer();
    u.HandleVoiceQuestion(Granted);
    u.HandleStopRecording();
    var _, _ := u.OnStop(Responded(true, AnswerBody("Q2", "A2", "")),
                         Responded(true, SpeechBody("/b", "")), PlayFailed("blocked"));
    answer, audioUrl := u.answer, u.audioUrl;
  }

  /** The same second question with the corrected handler: no audio shows beside
   *  the second answer. */
  method FreshAudioAfterVoice() returns (answer: string, audioUrl: string)
    ensures answer == "A2" && audioUrl == ""
  {
    var u := SpokenVoiceAnswer();
    u.HandleVoiceQuestion(Granted);
    u.HandleStopRecording();
    var _, _ := u.OnStopFixed(Responded(true, AnswerBody("Q2", "A2", "")),
                              Responded(true, SpeechBody("/b", "")), PlayFailed("blocked"));
    answer, audioUrl := u.answer, u.audioUrl;
  }
}
