# RAGyverse PDF uploader: the question/answer session, modelled in Dafny

RAGyverse's front end lets a user upload a PDF, ask a question about it by voice or
by typing, read the answer and hear it spoken by a speech server. This project
models the React component that runs that session, and an older variant of it,
as state machines, and proves what each handler does to the component's state.

- `src/components/PDFUploader.js` (module `PdfUploader`).
  - The nine `useState` fields are the fields of the class `Uploader`.
  - The recorder and chunk refs, the microphone stream and the 10-second timers are held by the class `RecorderRefs`.
  - Each handler is a method that runs its setter sequence to completion. Its outcome is tied to a pure function on the nine fields (`AfterUpload`, `AfterSpeech`, `AfterAnswer`, `AfterTextSubmit`, `AfterRecording`, `AfterReset`), and it preserves the invariant `Valid()`:
    - nothing is left loading;
    - the prompt shows only while recording;
    - the audio shown passed its playback probe;
    - the answer shown came with the question shown;
    - the microphone stream is open exactly while recording.
- `PDFUploader.js`, the older variant with speech recognition in the browser, is split into three modules:
  - `RecognitionErrors`: the error-code switch, with an inverse that reads the code back;
  - `PageText`: the per-page join and the `fullText +=` loop;
  - `SpeechUploader`: the class `Uploader` with its handlers and recognition events.
- `JsText` models `String.prototype.trim` and the `||` fallback on strings.
- `AudioChunks` models the chunk filter and the Blob's bytes.
- `Backend` holds the shapes of the responses the components receive.

The network, the microphone, the recorder, `audio.play()`, pdf.js and the
recognition service are outside the model. Their outcomes enter as parameters
(`Response`, `PlayResult`, `MicAccess`, `PdfRead`, a transcript, an error code) or
as calls of the event methods (`OnDataAvailable`, `OnStop`, `RecognitionResult`,
`AutoStopTimer`, ...).

A closure sees the state of the render that created it. The model therefore records, per
voice-button click, the values the click's closures captured (`Capture`). The
timers and the `onstop` handler read these captured values. The speech request of a text
question carries the `question` of the render the submit handler came from.

## Model

| member | source | states |
|---|---|---|
| JsText.TrimStartSuffix | Implementation/Frontend/src/components/PDFUploader.js:206 | trimming the start drops only leading whitespace and leaves a suffix that starts with a non-space |
| JsText.TrimEndPrefix | Implementation/Frontend/src/components/PDFUploader.js:206 | trimming the end drops only trailing whitespace and leaves a prefix that ends with a non-space |
| JsText.TrimmedEmptyIffBlank | Implementation/Frontend/src/components/PDFUploader.js:206-207 | `trim()` gives the empty string exactly when every character is whitespace, so `!input` rejects exactly the blank entries |
| JsText.TrimmedSlice | Implementation/Frontend/src/components/PDFUploader.js:206 | the trimmed text is a slice of the input, no longer than it, with non-space ends and only whitespace cut off on either side |
| JsText.IsWhitespace | Implementation/Frontend/src/components/PDFUploader.js:206 | no contract of its own: the characters `trim()` removes, used by `TrimStartSuffix`, `TrimEndPrefix` and `TrimmedSlice` |
| JsText.TrimStart | Implementation/Frontend/src/components/PDFUploader.js:206 | no contract of its own: specified by `TrimStartSuffix` |
| JsText.TrimEnd | Implementation/Frontend/src/components/PDFUploader.js:206 | no contract of its own: specified by `TrimEndPrefix` |
| JsText.Trim | Implementation/Frontend/PDFUploader.js:134 | no contract of its own: `trim()` in both components, specified by `TrimmedSlice` and `TrimmedEmptyIffBlank` |
| JsText.Or | Implementation/Frontend/src/components/PDFUploader.js:47-49 | `value \|\| fallback` is the value when it is non-empty and the fallback otherwise, so the server's message wins over the default; it is empty exactly when both are |
| AudioChunks.NonEmpty | Implementation/Frontend/src/components/PDFUploader.js:138-142 | the kept chunks all have a positive size and were delivered, and there are no more of them than were delivered |
| AudioChunks.NonEmptyAppend | Implementation/Frontend/src/components/PDFUploader.js:138-142 | pushing chunk by chunk, skipping empty ones, yields the filter of the whole stream, in arrival order |
| AudioChunks.FlattenNonEmpty | Implementation/Frontend/src/components/PDFUploader.js:145 | the Blob of the kept chunks has exactly the bytes of all delivered chunks, so dropping empty chunks loses no audio |
| AudioChunks.FlattenAppend | Implementation/Frontend/src/components/PDFUploader.js:145 | the bytes of a Blob of two runs of chunks are the bytes of the first run followed by those of the second |
| AudioChunks.Flatten | Implementation/Frontend/src/components/PDFUploader.js:145 | no contract of its own: the Blob's bytes, specified by `FlattenAppend` and `FlattenNonEmpty` |
| Backend.IsPdf | Implementation/Frontend/src/components/PDFUploader.js:26 | no contract of its own: the file test of both upload handlers (also Implementation/Frontend/PDFUploader.js:21), whose outcome `AfterUpload` and `FileUpload` state |
| PdfUploader.AfterUpload | Implementation/Frontend/src/components/PDFUploader.js:24-57 | a missing or non-PDF file only sets the invalid-file error. An accepted file clears the answer and audio and ends with loading off. Text shows exactly when the backend accepted the file (its text, or 'No text extracted.'). Otherwise an error shows: the server's, 'Failed to process PDF.', or the network message |
| PdfUploader.AfterSpeech | Implementation/Frontend/src/components/PDFUploader.js:60-124 | without a token only the login error is set. Otherwise only the audio URL and the error change, and loading ends off. The URL becomes the server address plus `audio_url` exactly when the response is ok, `audio_url` is non-empty and play succeeds. Any failure shows 'TTS Error: ' plus its message and keeps the old URL |
| PdfUploader.ProbeSucceeds | Implementation/Frontend/src/components/PDFUploader.js:89-112 | no contract of its own: the condition under which `AfterSpeech` shows the new URL |
| PdfUploader.SpeechFailure | Implementation/Frontend/src/components/PDFUploader.js:89-120 | no contract of its own: the thrown message that `AfterSpeech` shows after 'TTS Error: ' |
| PdfUploader.SpeechSettled | Implementation/Frontend/src/components/PDFUploader.js:89-120 | no contract of its own: the try/catch of the speech step, specified by `AfterSpeech` |
| PdfUploader.AfterAnswer | Implementation/Frontend/src/components/PDFUploader.js:153-171 | question and answer change together and only from an ok response. A non-ok response or network failure changes only the error (the server's message or the default). The audio changes only when the whole pipeline succeeded |
| PdfUploader.AfterTextSubmit | Implementation/Frontend/src/components/PDFUploader.js:204-237 | a blank entry only sets 'Please enter a question.'. Otherwise the box closes, and no earlier answer or audio survives a failed request. Every failure shows an error |
| PdfUploader.AfterRecording | Implementation/Frontend/src/components/PDFUploader.js:144-172 | after a recording the flag and prompt are cleared whatever the outcome, every failure shows an error, and the audio changes only on full success |
| PdfUploader.AfterRecordingFixed | Implementation/Frontend/src/components/PDFUploader.js:144-172 | the corrected onstop handling: flag and prompt cleared, every failure reported, and the audio shown, if any, was produced for this recording's answer |
| PdfUploader.AfterReset | Implementation/Frontend/src/components/PDFUploader.js:240-261 | an acknowledged reset empties text, question, answer, audio and error; otherwise a non-empty error shows and nothing else changes |
| PdfUploader.RecorderRefs.constructor | Implementation/Frontend/src/components/PDFUploader.js:14-15 | both refs start empty, with no recorder and no stream |
| PdfUploader.RecorderRefs.Start | Implementation/Frontend/src/components/PDFUploader.js:134-136 | a granted microphone gives a new recording recorder, an emptied buffer, an open stream and a pending timer holding the click's captured values |
| PdfUploader.RecorderRefs.OnDataAvailable | Implementation/Frontend/src/components/PDFUploader.js:138-142 | a chunk is appended exactly when its size is positive, and the buffer stays the filtered stream |
| PdfUploader.RecorderRefs.StopIfRecording | Implementation/Frontend/src/components/PDFUploader.js:197-201 | a recording recorder moves to stopping; otherwise nothing changes |
| PdfUploader.RecorderRefs.Blob | Implementation/Frontend/src/components/PDFUploader.js:145 | the payload is the bytes of every chunk delivered since the recording started |
| PdfUploader.RecorderRefs.Release | Implementation/Frontend/src/components/PDFUploader.js:173 | the stream's tracks are stopped and the recorder is finished |
| PdfUploader.RecorderRefs.FireTimer | Implementation/Frontend/src/components/PDFUploader.js:180-181 | a timer fires once and hands over what its click captured |
| PdfUploader.Started | Implementation/Frontend/src/components/PDFUploader.js:134-136 | no contract of its own: the refs after a granted click, the state `RecorderRefs.Start` ends in |
| PdfUploader.Uploader.constructor | Implementation/Frontend/src/components/PDFUploader.js:3-15 | every field starts empty or false, and the invariant holds |
| PdfUploader.Uploader.HandleFileUpload | Implementation/Frontend/src/components/PDFUploader.js:24-57 | posts exactly a PDF, ends in the state `AfterUpload` gives, and keeps the invariant |
| PdfUploader.Uploader.ConvertAnswerToSpeech | Implementation/Frontend/src/components/PDFUploader.js:60-124 | sends a request only with a token, carrying the answer, the render's question and the token. Ends in the state `AfterSpeech` gives, and keeps the invariant: a URL shown has passed its probe |
| PdfUploader.Uploader.SettleSpeech | Implementation/Frontend/src/components/PDFUploader.js:89-120 | the probed URL shows, or the 'TTS Error: ' message |
| PdfUploader.Uploader.ReceiveAnswer | Implementation/Frontend/src/components/PDFUploader.js:158-171 | ends in the state `AfterAnswer` gives. An ok response shows its own question and answer, and a speech request follows exactly when the response is ok and there is a token |
| PdfUploader.Uploader.AskText | Implementation/Frontend/src/components/PDFUploader.js:212-236 | clears box, error, answer and audio before the request, then handles the response |
| PdfUploader.Uploader.HandleTextQuestionSubmit | Implementation/Frontend/src/components/PDFUploader.js:204-237 | posts the trimmed entry to /ask_text exactly when it is not blank, and ends in the state `AfterTextSubmit` gives. The speech request carries the question of the earlier render (see Findings) |
| PdfUploader.Uploader.HandleTextQuestionSubmitFixed | Implementation/Frontend/src/components/PDFUploader.js:204-237 | as above, but the speech request carries exactly the answer and question now shown |
| PdfUploader.Uploader.HandleVoiceQuestion | Implementation/Frontend/src/components/PDFUploader.js:127-194 | unsupported: only the error is set. Denied: the error is set and recording is off. Granted: recording is on with the prompt, the refs are started, and the timer captures isRecording as false |
| PdfUploader.Uploader.BeginRecording | Implementation/Frontend/src/components/PDFUploader.js:134-179 | the granted branch: refs started with the click's captured values, flag and prompt set |
| PdfUploader.Uploader.AskAudio | Implementation/Frontend/src/components/PDFUploader.js:149-171 | clears flag, prompt and error, then handles the /ask_audio1 response |
| PdfUploader.Uploader.OnStop | Implementation/Frontend/src/components/PDFUploader.js:144-174 | runs after stop() or after the recorder stopped by itself. Sends the bytes of all delivered chunks as the /ask_audio1 payload and ends in the state `AfterRecording` gives. The speech request carries the question captured at the click. The stream is released after the request whatever its outcome |
| PdfUploader.Uploader.OnStopFixed | Implementation/Frontend/src/components/PDFUploader.js:144-174 | the corrected handler: the same payload, the state `AfterRecordingFixed` gives, and a speech request carrying exactly the answer and question now shown |
| PdfUploader.Uploader.AskAudioFixed | Implementation/Frontend/src/components/PDFUploader.js:149-171 | clears flag, prompt, error and the previous audio, then handles the response, sending the received question to the speech server |
| PdfUploader.Uploader.HandleStopRecording | Implementation/Frontend/src/components/PDFUploader.js:197-201 | stops the recorder only if it is recording; nothing else changes |
| PdfUploader.Uploader.AutoStopTimer | Implementation/Frontend/src/components/PDFUploader.js:180-187 | as written: stops only if the captured isRecording is true and the recorder is recording, and then sets the no-speech error if the captured answer was empty |
| PdfUploader.Uploader.AutoStopTimerFixed | Implementation/Frontend/src/components/PDFUploader.js:180-187 | with a live guard: after the timer of a click, that click's recording is no longer running |
| PdfUploader.Uploader.HandleResetSession | Implementation/Frontend/src/components/PDFUploader.js:240-261 | ends in the state `AfterReset` gives and keeps the invariant |
| PdfUploader.Uploader.ClearPromptEffect | Implementation/Frontend/src/components/PDFUploader.js:264-268 | under the invariant the effect changes nothing: every handler already clears the prompt when recording ends |
| PdfUploader.AutoStopNeverFires | Implementation/Frontend/src/components/PDFUploader.js:180-187 | a granted recording whose timer fires is still recording afterwards |
| PdfUploader.AutoStopFixedFires | Implementation/Frontend/src/components/PDFUploader.js:180-187 | with the live guard, the same timer stops the recording |
| PdfUploader.StaleSpeechQuestion | Implementation/Frontend/src/components/PDFUploader.js:81-84 | two text questions in a row: the second answer is sent with the first question |
| PdfUploader.FreshSpeechQuestion | Implementation/Frontend/src/components/PDFUploader.js:81-84 | with the corrected handler the second answer is sent with its own question |
| PdfUploader.StaleAudioAfterVoice | Implementation/Frontend/src/components/PDFUploader.js:149-171 | after a spoken first answer, a second voice answer whose audio does not play shows beside the first answer's audio |
| PdfUploader.FreshAudioAfterVoice | Implementation/Frontend/src/components/PDFUploader.js:149-171 | with the corrected handler no audio shows beside the second answer |
| RecognitionErrors.ErrorMessage | Implementation/Frontend/PDFUploader.js:81-97 | every code gets a non-empty message; it is one of the four fixed messages exactly when the code is one of the four known codes |
| RecognitionErrors.CodeOf | Implementation/Frontend/PDFUploader.js:81-97 | the code read back from a message is never longer than it, and a message read back as an unknown code is exactly that code's message |
| RecognitionErrors.OtherMessageIsNotFixed | Implementation/Frontend/PDFUploader.js:95-96 | the message of an unknown code differs from all four fixed messages |
| RecognitionErrors.CodeOfErrorMessage | Implementation/Frontend/PDFUploader.js:81-97 | reading the code back from the message of any code gives that code |
| RecognitionErrors.ErrorMessageInjective | Implementation/Frontend/PDFUploader.js:81-97 | different codes produce different messages |
| PageText.JoinWithSpaces | Implementation/Frontend/PDFUploader.js:33 | the join of no items is empty and of one item is that item; otherwise its length is the items' total length plus one separator between each two |
| PageText.JoinAppend | Implementation/Frontend/PDFUploader.js:33 | for all items, spaces included: the join of two non-empty runs is the join of the first, one space, and the join of the second, so the items appear in order separated by single spaces |
| PageText.SplitOnSpaces | Implementation/Frontend/PDFUploader.js:33 | splitting on spaces yields at least one piece |
| PageText.SplitWord | Implementation/Frontend/PDFUploader.js:33 | a string without a space splits into itself alone |
| PageText.SplitAtFirstSpace | Implementation/Frontend/PDFUploader.js:33 | the first space ends the first piece |
| PageText.SplitJoin | Implementation/Frontend/PDFUploader.js:33 | splitting the joined page text on spaces gives back the items, when there is at least one and none contains a space |
| PageText.PageLine | Implementation/Frontend/PDFUploader.js:33-34 | no contract of its own: one page's line, specified through `AllPagesText` and `AllPagesTextAppend` |
| PageText.AllPagesText | Implementation/Frontend/PDFUploader.js:28-35 | the text has at least one character per page, is empty exactly when there are no pages, and otherwise ends with a newline |
| PageText.AllPagesTextAppend | Implementation/Frontend/PDFUploader.js:30-35 | the text of a document is the text of its first pages followed by the text of the rest |
| PageText.ExtractText | Implementation/Frontend/PDFUploader.js:28-35 | the page loop from page 1 to numPages builds exactly the text of all pages in order |
| SpeechUploader.ShownText | Implementation/Frontend/PDFUploader.js:37 | the 'No text could be extracted.' fallback shows exactly for a document without pages; otherwise the pages' text shows |
| SpeechUploader.Uploader.constructor | Implementation/Frontend/PDFUploader.js:9-16 | every field starts empty, false or null, and the invariant holds |
| SpeechUploader.Uploader.FileUpload | Implementation/Frontend/PDFUploader.js:19-49 | a non-PDF only raises the alert and changes no state, pending timers included. A parsed PDF shows its text and ends loading. As written, a parse failure leaves loading on |
| SpeechUploader.Uploader.FileUploadFixed | Implementation/Frontend/PDFUploader.js:19-49 | as above, but every accepted file ends with loading off, a parse failure showing the catch's message |
| SpeechUploader.Uploader.VoiceQuestion | Implementation/Frontend/PDFUploader.js:52-69 | unsupported: only the error is set. Otherwise recording is on, the error is cleared, and the prompt and a new recognition object are set. The timer captures isRecording as false |
| SpeechUploader.Uploader.StartRecognition | Implementation/Frontend/PDFUploader.js:58-69 | the supported branch: a fresh recognition object held, with its timer's captured values |
| SpeechUploader.Uploader.RecognitionResult | Implementation/Frontend/PDFUploader.js:71-77 | the question becomes 'Voice Question: ' + transcript and flag, prompt and instance are cleared |
| SpeechUploader.Uploader.RecognitionError | Implementation/Frontend/PDFUploader.js:79-102 | exactly the code's message shows and flag, prompt and instance are cleared |
| SpeechUploader.Uploader.RecognitionEnd | Implementation/Frontend/PDFUploader.js:104-108 | flag, prompt and instance are cleared and nothing else changes |
| SpeechUploader.Uploader.StopRecording | Implementation/Frontend/PDFUploader.js:122-129 | nothing happens without a recognition object. Otherwise stop() is called on it, and the no-speech error is set only if question and error are both empty |
| SpeechUploader.Uploader.AutoStopTimer | Implementation/Frontend/PDFUploader.js:111-118 | as written: stops only when the captured isRecording is true, and the check reads the captured question and error |
| SpeechUploader.Uploader.AutoStopTimerFixed | Implementation/Frontend/PDFUploader.js:111-118 | with a live guard: stop() is called exactly when the timer's own recognition object is still the current one |
| SpeechUploader.Uploader.TextQuestionSubmit | Implementation/Frontend/PDFUploader.js:132-139 | a non-blank entry becomes 'Text Question: ' + the trimmed entry and closes the box; a blank one changes nothing and sets no error |
| SpeechUploader.Uploader.PromptEffect | Implementation/Frontend/PDFUploader.js:142-146 | under the invariant the effect changes nothing, neither the state variables nor the recognition objects and timers |
| SpeechUploader.TimerNeverStops | Implementation/Frontend/PDFUploader.js:111-118 | after a started recognition, its timer calls no stop() and recording goes on |
| SpeechUploader.TimerFixedStops | Implementation/Frontend/PDFUploader.js:111-118 | with the live guard the timer stops the recognition |
| SpeechUploader.LoadingNeverEnds | Implementation/Frontend/PDFUploader.js:25-45 | a PDF that pdf.js rejects leaves the loading indicator on |
| SpeechUploader.LoadingEndsFixed | Implementation/Frontend/PDFUploader.js:25-45 | with the corrected handler the same file ends loading and shows the failure message |

## Left out

- Asynchrony: each handler and event runs to completion, so interleavings such as a reset while a question is in flight are not modelled. A timer firing, a recorder's data and stop events and the recognition events are explicit method calls.
- Browser and library I/O become parameters: `fetch`, `FormData`, `response.json()`, `getUserMedia`, `MediaRecorder`, `SpeechRecognition`, `Audio` and pdf.js. A rejected `fetch` or JSON decode is `Failed(message)`. An absent or falsy JSON string field is the empty string.
- The backend URL, the form field names and the request of /reset_session are not modelled. The requests are modelled by what they carry: whether /upload_pdf is sent the file, the trimmed question sent to /ask_text, the audio bytes sent to /ask_audio1, and the speech request's text, question and bearer token.
- A `MediaRecorder` constructor that throws after the microphone was granted would leave the stream open. It is not modelled: `Granted` always yields a recorder.
- The `onerror` handler of the probe's `Audio` element (src/components/PDFUploader.js:107-109) throws inside a callback, never reaching the catch. Only the outcome of `play()` is modelled.
- A recorder that stops by itself (its track ends) is modelled by `OnStop` running while the recorder is still recording. Why the track ended is not modelled.
- Only the stop event of the current recorder is modelled. No new recording can start while one is running, so an older recorder cannot be stopping.
- PdfUploader.Uploader.OnStop: sends the question captured at the click, as written; `OnStopFixed` sends the received one.
- In the older variant, the preset message 'Error during speech recognition. Please try again.' (PDFUploader.js:81) is always overwritten by the switch, so it never shows and is not a constant of the model.
- The recognition settings (`lang`, `interimResults`, `maxAlternatives`) are not modelled, and neither is the selection of `event.results[0][0]`: the transcript is a parameter.
- The older upload's catch (PDFUploader.js:41-45) only catches synchronous failures of the file reader, which are not modelled. `FileUploadFixed` routes a parse failure there.
- UI only, not modelled: JSX rendering, the text-box toggle button, the alerts (the older variant's invalid-file alert is the returned flag), the 'Session reset successfully.' alert, the loading texts and `console` logging.
- The backend (server.py), the speech server (Implementation/Frontend/tts_server.py), Register.js, History.js, App.js and Navbar.js are not part of this model: the components see them only through the responses they return.

## Findings

| source | as written | input that shows it | evidently intended | confidence | as-written member | corrected member |
|---|---|---|---|---|---|---|
| Implementation/Frontend/src/components/PDFUploader.js:180-187 | the timer's guard reads the `isRecording` its closure captured at the click. That value is false, because the button is disabled while recording (:308) | one voice question, Stop never pressed: after 10 s the recorder is still recording and nothing stops it | stop a recording still running after 10 s | not executed | PdfUploader.AutoStopNeverFires | PdfUploader.Uploader.AutoStopTimerFixed |
| Implementation/Frontend/src/components/PDFUploader.js:81-84 | the speech request carries the `question` of the render that created the handler, not `data.question` just received. The speech server files it in the history beside the answer (Implementation/Frontend/tts_server.py:126-147) | two text questions answered (Q1, A1) then (Q2, A2): the second request is (A2, Q1) | send the answer with the question returned alongside it | not executed | PdfUploader.StaleSpeechQuestion | PdfUploader.Uploader.HandleTextQuestionSubmitFixed |
| Implementation/Frontend/PDFUploader.js:111-118 | the timer's guard reads the `isRecording` captured at the click. That value is false, because the button is disabled while recording (:186) | one voice question with no result and no Stop: the timer never calls stop() | stop a recognition still running after 10 s | not executed | SpeechUploader.TimerNeverStops | SpeechUploader.Uploader.AutoStopTimerFixed |
| Implementation/Frontend/PDFUploader.js:25-45 | a pdf.js rejection is thrown inside the async `onload` callback, outside the try/catch around the reader's setup | a file of type application/pdf that pdf.js cannot parse: `isLoading` stays true and no message shows | show 'Failed to extract text. Please try another PDF.' and end loading | not executed | SpeechUploader.LoadingNeverEnds | SpeechUploader.Uploader.FileUploadFixed |
| Implementation/Frontend/src/components/PDFUploader.js:149-151 | the voice path clears the flag, prompt and error but not `audioUrl`, which the text path clears (:215). The player shows `audioUrl` under whatever answer is shown (:354-362) | a spoken answer A1, then a voice question answered with A2 whose `play()` rejects: A2 shows with A1's audio | clear the previous audio, as the text path does, so that audio shown belongs to the answer shown | not executed | PdfUploader.StaleAudioAfterVoice | PdfUploader.Uploader.OnStopFixed |
