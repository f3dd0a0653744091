/**
 * The speech-recognition error switch of the older uploader component: each error
 * code reported by SpeechRecognition's error event becomes one message for the user.
 */
module RecognitionErrors {
  import opened Wrappers

  const NO_SPEECH_MESSAGE := "No speech detected. Speak louder and closer to the microphone."
  const AUDIO_CAPTURE_MESSAGE := "Microphone not detected. Ensure your microphone is connected."
  const NOT_ALLOWED_MESSAGE := "Microphone access denied. Allow microphone permissions in your browser."
  const NETWORK_MESSAGE := "Network issue. Check your internet connection."

  /** The text around the code in the message of any other error code. */
  const OTHER_PREFIX := "Speech recognition error ("
  const OTHER_SUFFIX := "). Please try again."

  /** The switch over event.error; every code, known or not, gets exactly one message. */
  function ErrorMessage(code: string): (message: string)
    ensures |message| > 0
    // the four codes the component knows get fixed messages that do not mention the code
    ensures message in {NO_SPEECH_MESSAGE, AUDIO_CAPTURE_MESSAGE, NOT_ALLOWED_MESSAGE, NETWORK_MESSAGE}
            <==> code in {"no-speech", "audio-capture", "not-allowed", "network"}
  {
    match code
    case "no-speech" => NO_SPEECH_MESSAGE
    case "audio-capture" => AUDIO_CAPTURE_MESSAGE
    case "not-allowed" => NOT_ALLOWED_MESSAGE
    case "network" => NETWORK_MESSAGE
    case _ =>
      OtherMessageIsNotFixed(code);
      OTHER_PREFIX + code + OTHER_SUFFIX
  }

  /** Reads the error code back from a message shown by the switch, if it is one. */
  function CodeOf(message: string): (code: Option<string>)
    ensures code.Some? ==> |code.value| <= |message|
    // a message read back as an unknown code is exactly the message of that code
    ensures code.Some? && code.value !in {"no-speech", "audio-capture", "not-allowed", "network"} ==>
      ErrorMessage(code.value) == message
  {
    if message == NO_SPEECH_MESSAGE then Some("no-speech")
    else if message == AUDIO_CAPTURE_MESSAGE then Some("audio-capture")
    else if message == NOT_ALLOWED_MESSAGE then Some("not-allowed")
    else if message == NETWORK_MESSAGE then Some("network")
    else if |OTHER_PREFIX| + |OTHER_SUFFIX| <= |message|
         && message[..|OTHER_PREFIX|] == OTHER_PREFIX
         && message[|message| - |OTHER_SUFFIX|..] == OTHER_SUFFIX
    then Some(message[|OTHER_PREFIX|..|message| - |OTHER_SUFFIX|])
    else None
  }

  /** The message of an unknown code is none of the four fixed messages: they differ
   *  in the third character from the end. */
  lemma OtherMessageIsNotFixed(code: string)
    ensures OTHER_PREFIX + code + OTHER_SUFFIX !in
            {NO_SPEECH_MESSAGE, AUDIO_CAPTURE_MESSAGE, NOT_ALLOWED_MESSAGE, NETWORK_MESSAGE}
  {
    var m := OTHER_PREFIX + code + OTHER_SUFFIX;
    assert m[|m| - 3] == 'i';
    assert NO_SPEECH_MESSAGE[|NO_SPEECH_MESSAGE| - 3] == 'n';
    assert AUDIO_CAPTURE_MESSAGE[|AUDIO_CAPTURE_MESSAGE| - 3] == 'e';
    assert NOT_ALLOWED_MESSAGE[|NOT_ALLOWED_MESSAGE| - 3] == 'e';
    assert NETWORK_MESSAGE[|NETWORK_MESSAGE| - 3] == 'o';
  }

  /** The message names its code: reading the code back gives the code reported. */
  lemma CodeOfErrorMessage(code: string)
    ensures CodeOf(ErrorMessage(code)) == Some(code)
  {
    if code !in {"no-speech", "audio-capture", "not-allowed", "network"} {
      var m := OTHER_PREFIX + code + OTHER_SUFFIX;
      OtherMessageIsNotFixed(code);
      assert m[..|OTHER_PREFIX|] == OTHER_PREFIX;
      assert m[|m| - |OTHER_SUFFIX|..] == OTHER_SUFFIX;
      assert m[|OTHER_PREFIX|..|m| - |OTHER_SUFFIX|] == code;
    }
  }

  /** Different codes are shown as different messages. */
  lemma ErrorMessageInjective(a: string, b: string)
    ensures ErrorMessage(a) == ErrorMessage(b) ==> a == b
  {
    CodeOfErrorMessage(a);
    CodeOfErrorMessage(b);
  }
}
