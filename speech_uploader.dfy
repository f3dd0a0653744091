/**
 * The older uploader component: text extraction with pdf.js in the browser, and a
 * question asked by voice through the browser's SpeechRecognition or typed in a box.
 * Each handler and recognition event runs to completion; whether the browser
 * supports recognition, what pdf.js made of the file and the recognition events
 * themselves enter as parameters and as calls of the event methods.
 */
module SpeechUploader {
  import opened Wrappers
  import opened JsText
  import opened Backend
  import opened PageText
  import opened RecognitionErrors

  const NO_TEXT_COULD_BE_EXTRACTED := "No text could be extracted."
  const EXTRACTION_FAILED := "Failed to extract text. Please try another PDF."
  const NOT_SUPPORTED := "Your browser does not support speech recognition. Please use Chrome, Edge, or Safari."
  const RECORDING_PROMPT := "Recording\U{2026} Speak clearly now and click Stop when done."
  const TIMER_NO_SPEECH := "No speech detected. Try speaking sooner and click Stop when done."
  const STOP_NO_SPEECH := "No speech detected. Try speaking louder and sooner."
  const VOICE_PREFIX := "Voice Question: "
  const TEXT_PREFIX := "Text Question: "

  /** What pdf.js made of the file: the item strings of each page, or a rejection. */
  datatype PdfRead = Parsed(pages: seq<seq<string>>) | ParseFailed

  /** The component's state variables; `recognition` numbers the SpeechRecognition
   *  object in recognitionInstance, None standing for null. */
  datatype Fields = Fields(
    extractedText: string,
    isLoading: bool,
    question: string,
    isRecording: bool,
    showTextInput: bool,
    voiceError: string,
    recordingPrompt: string,
    recognition: Option<nat>)

  /** The state values that the timer closure of one voice-button click sees. */
  datatype Capture = Capture(isRecording: bool, question: string, voiceError: string)

  /** fullText || 'No text could be extracted.': the fallback shows exactly when the
   *  document has no pages, and otherwise the text of the pages shows. */
  function ShownText(pages: seq<seq<string>>): (text: string)
    ensures text == NO_TEXT_COULD_BE_EXTRACTED <==> |pages| == 0
    ensures |pages| > 0 ==> text == AllPagesText(pages)
  {
    var fullText := AllPagesText(pages);
    assert NO_TEXT_COULD_BE_EXTRACTED[|NO_TEXT_COULD_BE_EXTRACTED| - 1] == '.';
    Or(fullText, NO_TEXT_COULD_BE_EXTRACTED)
  }

  class Uploader {
    var extractedText: string
    var isLoading: bool
    var question: string
    var isRecording: bool
    var showTextInput: bool
    var voiceError: string
    var recordingPrompt: string
    var recognition: Option<nat>

    /** The number the next SpeechRecognition object gets. */
    var nextInstance: nat
    /** What each click's timer closure captured, by instance. */
    var captures: map<nat, Capture>
    /** The instances whose timer has not fired yet. */
    var pendingTimers: set<nat>

    ghost function View(): Fields
      reads this
    {
      Fields(extractedText, isLoading, question, isRecording, showTextInput,
             voiceError, recordingPrompt, recognition)
    }

    /** A recognition object is held exactly while recording, and the prompt shows
     *  exactly then. */
    ghost predicate Valid()
      reads this
    {
      && (isRecording <==> recognition.Some?)
      && (isRecording ==> recordingPrompt == RECORDING_PROMPT)
      && (!isRecording ==> recordingPrompt == "")
      && (recognition.Some? ==> recognition.value < nextInstance)
      && (forall n :: n in captures ==> n < nextInstance)
      && pendingTimers <= captures.Keys
    }

    constructor ()
      ensures Valid()
      ensures View() == Fields("", false, "", false, false, "", "", None)
      ensures nextInstance == 0 && captures == map[] && pendingTimers == {}
    {
      extractedText, isLoading, question, isRecording := "", false, "", false;
      showTextInput, voiceError, recordingPrompt, recognition := false, "", "", None;
      nextInstance, captures, pendingTimers := 0, map[], {};
    }

    /** handleFileUpload as written: a rejection from pdf.js is thrown inside the
     *  reader's onload callback, out of reach of the catch around it, so loading
     *  never ends. `alerted` tells whether the invalid-file alert was raised. */
    method FileUpload(file: Option<FileInfo>, read: PdfRead) returns (alerted: bool)
      requires Valid()
      modifies this
      ensures Valid()
      ensures alerted == !IsPdf(file)
      ensures !IsPdf(file) ==> View() == old(View())
      ensures IsPdf(file) && read.Parsed? ==>
        View() == old(View()).(extractedText := ShownText(read.pages), isLoading := false)
      ensures IsPdf(file) && read.ParseFailed? ==> View() == old(View()).(isLoading := true)
      ensures nextInstance == old(nextInstance) && captures == old(captures) && pendingTimers == old(pendingTimers)
    {
      if file.None? || file.value.mimeType != PDF_TYPE {
        return true;
      }
      alerted := false;
      isLoading := true;
      match read {
        case ParseFailed =>
        case Parsed(pages) =>
          var fullText := ExtractText(pages);
          extractedText := Or(fullText, NO_TEXT_COULD_BE_EXTRACTED);
          isLoading := false;
      }
    }

    /** handleFileUpload with the parse failure reaching the catch: the failure
     *  message shows, and loading ends on every path. */
    method FileUploadFixed(file: Option<FileInfo>, read: PdfRead) returns (alerted: bool)
      requires Valid()
      modifies this
      ensures Valid()
      ensures alerted == !IsPdf(file)
      ensures !IsPdf(file) ==> View() == old(View())
      ensures IsPdf(file) ==> !isLoading
      ensures IsPdf(file) ==>
        View() == old(View()).(isLoading := false, extractedText :=
          if read.Parsed? then ShownText(read.pages) else EXTRACTION_FAILED)
      ensures nextInstance == old(nextInstance) && captures == old(captures) && pendingTimers == old(pendingTimers)
    {
      if file.None? || file.value.mimeType != PDF_TYPE {
        return true;
      }
      alerted := false;
      isLoading := true;
      match read {
        case ParseFailed =>
          extractedText := EXTRACTION_FAILED;
          isLoading := false;
        case Parsed(pages) =>
          var fullText := ExtractText(pages);
          extractedText := Or(fullText, NO_TEXT_COULD_BE_EXTRACTED);
          isLoading := false;
      }
    }

    /** handleVoiceQuestion. The voice button is disabled while recording, so the
     *  handler only runs when isRecording is false. `started` is the new
     *  recognition object, if one was started. */
    method VoiceQuestion(supported: bool) returns (started: Option<nat>)
      requires Valid() && !isRecording
      modifies this
      ensures Valid()
      ensures !supported ==>
        started == None && View() == old(View()).(voiceError := NOT_SUPPORTED) &&
        nextInstance == old(nextInstance) && captures == old(captures) && pendingTimers == old(pendingTimers)
      ensures supported ==>
        && started == Some(old(nextInstance))
        && View() == old(View()).(isRecording := true, voiceError := "",
                                  recordingPrompt := RECORDING_PROMPT, recognition := started)
        && nextInstance == old(nextInstance) + 1
        && captures == old(captures)[old(nextInstance) := Capture(false, old(question), old(voiceError))]
        && pendingTimers == old(pendingTimers) + {old(nextInstance)}
    {
      if !supported {
        voiceError := NOT_SUPPORTED;
        return None;
      }
      var instance := StartRecognition();
      started := Some(instance);
    }

    /** The supported branch of handleVoiceQuestion: a new recognition object is
     *  started and held, and its timer captures this render's values. */
    method StartRecognition() returns (instance: nat)
      requires Valid() && !isRecording
      modifies this
      ensures Valid()
      ensures instance == old(nextInstance)
      ensures View() == old(View()).(isRecording := true, voiceError := "",
                                     recordingPrompt := RECORDING_PROMPT, recognition := Some(instance))
      ensures nextInstance == instance + 1
      ensures captures == old(captures)[instance := Capture(false, old(question), old(voiceError))]
      ensures pendingTimers == old(pendingTimers) + {instance}
    {
      instance := nextInstance;
      nextInstance := nextInstance + 1;
      // the closure captures this render's isRecording, which is false here
      captures := captures[instance := Capture(isRecording, question, voiceError)];
      pendingTimers := pendingTimers + {instance};
      isRecording := true;
      voiceError := "";
      recordingPrompt := RECORDING_PROMPT;
      recognition := Some(instance);
    }

    /** recognition.onresult: the transcript becomes the question and the recording
     *  is over. */
    method RecognitionResult(transcript: string)
      requires Valid()
      modifies this
      ensures Valid()
      ensures View() == old(View()).(question := VOICE_PREFIX + transcript,
                                     isRecording := false, recordingPrompt := "", recognition := None)
      ensures nextInstance == old(nextInstance) && captures == old(captures) && pendingTimers == old(pendingTimers)
    {
      question := VOICE_PREFIX + transcript;
      isRecording := false;
      recordingPrompt := "";
      recognition := None;
    }

    /** recognition.onerror: the message of the error code shows and the recording
     *  is over. */
    method RecognitionError(code: string)
      requires Valid()
      modifies this
      ensures Valid()
      ensures View() == old(View()).(voiceError := ErrorMessage(code),
                                     isRecording := false, recordingPrompt := "", recognition := None)
      ensures nextInstance == old(nextInstance) && captures == old(captures) && pendingTimers == old(pendingTimers)
    {
      voiceError := ErrorMessage(code);
      isRecording := false;
      recordingPrompt := "";
      recognition := None;
    }

    /** recognition.onend: the recording is over. */
    method RecognitionEnd()
      requires Valid()
      modifies this
      ensures Valid()
      ensures View() == old(View()).(isRecording := false, recordingPrompt := "", recognition := None)
      ensures nextInstance == old(nextInstance) && captures == old(captures) && pendingTimers == old(pendingTimers)
    {
      isRecording := false;
      recordingPrompt := "";
      recognition := None;
    }

    /** handleStopRecording; `stopCalled` is the object whose stop() was called. */
    method StopRecording() returns (stopCalled: Option<nat>)
      requires Valid()
      modifies this
      ensures Valid()
      ensures stopCalled == old(recognition)
      // with no recognition object nothing happens
      ensures old(recognition).None? ==> View() == old(View())
      ensures old(recognition).Some? ==>
        View() == old(View()).(voiceError :=
          if old(question) == "" && old(voiceError) == "" then STOP_NO_SPEECH else old(voiceError))
      ensures nextInstance == old(nextInstance) && captures == old(captures) && pendingTimers == old(pendingTimers)
    {
      stopCalled := recognition;
      if recognition.Some? {
        if question == "" && voiceError == "" {
          voiceError := STOP_NO_SPEECH;
        }
      }
    }

    /** The 10-second timer of `instance`, as written: its guard and its check read
     *  the isRecording, question and voiceError its closure captured at the click. */
    method AutoStopTimer(instance: nat) returns (stopCalled: Option<nat>)
      requires Valid() && instance in pendingTimers
      modifies this
      ensures Valid()
      ensures
        var snapshot := old(captures[instance]);
        && stopCalled == (if snapshot.isRecording then Some(instance) else None)
        && View() == (if snapshot.isRecording && snapshot.question == "" && snapshot.voiceError == ""
                      then old(View()).(voiceError := TIMER_NO_SPEECH) else old(View()))
      ensures pendingTimers == old(pendingTimers) - {instance}
      ensures nextInstance == old(nextInstance) && captures == old(captures)
    {
      var snapshot := captures[instance];
      pendingTimers := pendingTimers - {instance};
      stopCalled := None;
      if snapshot.isRecording {
        stopCalled := Some(instance);
        if snapshot.question == "" && snapshot.voiceError == "" {
          voiceError := TIMER_NO_SPEECH;
        }
      }
    }

    /** The 10-second timer with its guard and check on the live state: it stops its
     *  own recognition object if that one is still the current one. */
    method AutoStopTimerFixed(instance: nat) returns (stopCalled: Option<nat>)
      requires Valid() && instance in pendingTimers
      modifies this
      ensures Valid()
      ensures stopCalled.Some? <==> old(recognition) == Some(instance)
      ensures stopCalled.Some? ==> stopCalled.value == instance
      ensures View() == (if old(recognition) == Some(instance) && old(question) == "" && old(voiceError) == ""
                         then old(View()).(voiceError := TIMER_NO_SPEECH) else old(View()))
      ensures pendingTimers == old(pendingTimers) - {instance}
      ensures nextInstance == old(nextInstance) && captures == old(captures)
    {
      pendingTimers := pendingTimers - {instance};
      stopCalled := None;
      if recognition == Some(instance) {
        stopCalled := Some(instance);
        if question == "" && voiceError == "" {
          voiceError := TIMER_NO_SPEECH;
        }
      }
    }

    /** handleTextQuestionSubmit: a non-blank entry becomes the question and closes
     *  the box; a blank one changes nothing and shows no error. */
    method TextQuestionSubmit(input: string)
      requires Valid()
      modifies this
      ensures Valid()
      ensures Trim(input) == "" ==> View() == old(View())
      ensures Trim(input) != "" ==>
        View() == old(View()).(question := TEXT_PREFIX + Trim(input), showTextInput := false)
      ensures nextInstance == old(nextInstance) && captures == old(captures) && pendingTimers == old(pendingTimers)
    {
      var trimmed := Trim(input);
      if trimmed != "" {
        question := TEXT_PREFIX + trimmed;
        showTextInput := false;
      }
    }

    /** The effect that clears the prompt whenever isRecording is false: every
     *  handler already leaves it cleared, so it changes nothing. */
    method PromptEffect()
      requires Valid()
      modifies this
      ensures Valid()
      ensures View() == old(View())
      ensures nextInstance == old(nextInstance) && captures == old(captures) && pendingTimers == old(pendingTimers)
    {
      if !isRecording {
        recordingPrompt := "";
      }
    }
  }

  /** A voice question whose user never presses Stop: when the timer fires, it
   *  does not stop the recognition, and the recording goes on. */
  method TimerNeverStops() returns (stopCalled: Option<nat>, stillRecording: bool)
    ensures stopCalled == None && stillRecording
  {
    var u := new Uploader();
    var _ := u.VoiceQuestion(true);
    stopCalled := u.AutoStopTimer(0);
    stillRecording := u.isRecording;
  }

  /** The same session with the live guard: the timer stops the recognition. */
  method TimerFixedStops() returns (stopCalled: Option<nat>)
    ensures stopCalled == Some(0)
  {
    var u := new Uploader();
    var _ := u.VoiceQuestion(true);
    stopCalled := u.AutoStopTimerFixed(0);
  }

  /** A PDF that pdf.js cannot parse: the loading indicator stays on. */
  method LoadingNeverEnds() returns (loading: bool)
    ensures loading
  {
    var u := new Uploader();
    var _ := u.FileUpload(Some(FileInfo(PDF_TYPE)), ParseFailed);
    loading := u.isLoading;
  }

  /** The same file with the corrected handler: the failure message shows and
   *  loading ends. */
  method LoadingEndsFixed() returns (loading: bool, text: string)
    ensures !loading && text == EXTRACTION_FAILED
  {
    var u := new Uploader();
    var _ := u.FileUploadFixed(Some(FileInfo(PDF_TYPE)), ParseFailed);
    loading, text := u.isLoading, u.extractedText;
  }
}
