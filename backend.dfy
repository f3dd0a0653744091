/**
 * What the components receive from the browser and from the two backends. Every
 * fetch, JSON decode, recorder and audio element is outside the model; their
 * outcomes are values of these types. An absent (or otherwise falsy) string field
 * of a JSON body is the empty string.
 */
module Backend {
  import opened Wrappers

  /** A settled fetch: either a response with its `ok` flag and decoded body, or a
   *  rejection (of fetch itself or of response.json()) with its message. */
  datatype Response<B> = Responded(ok: bool, body: B) | Failed(message: string)

  /** Body of POST /upload_pdf. */
  datatype UploadBody = UploadBody(text: string, error: string)

  /** Body of POST /ask_text and POST /ask_audio1. */
  datatype AnswerBody = AnswerBody(question: string, answer: string, error: string)

  /** Body of POST /convert_to_speech on the speech server. */
  datatype SpeechBody = SpeechBody(audioUrl: string, error: string)

  /** Body of POST /reset_session. */
  datatype ResetBody = ResetBody(error: string)

  /** Settlement of the promise returned by audio.play(). */
  datatype PlayResult = Played | PlayFailed(message: string)

  /** The selected file, as far as the components look at it. */
  datatype FileInfo = FileInfo(mimeType: string)

  const PDF_TYPE := "application/pdf"

  /** A file was chosen and its type is exactly application/pdf. */
  predicate IsPdf(file: Option<FileInfo>) {
    file.Some? && file.value.mimeType == PDF_TYPE
  }
}
