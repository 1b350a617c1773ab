/**
 * The voice-input hook: a listening flag driven by start/stop requests and
 * by the speech recognizer's result, error and end events.
 */
module VoiceInput {
  import opened Wrappers

  datatype Alternative = Alternative(transcript: string, confidence: real)

  /** One recognition result: its alternatives, best first, and whether it is final. */
  datatype SpeechResult = SpeechResult(isFinal: bool, alternatives: seq<Alternative>)

  /**
   * The text forwarded for a result event: the best alternative of the
   * last result, and only when that result is final. The browser never
   * delivers an event without results or a result without alternatives.
   */
  function FinalTranscript(results: seq<SpeechResult>): (t: Option<string>)
    requires |results| > 0 && |results[|results| - 1].alternatives| > 0
    ensures t.Some? <==> results[|results| - 1].isFinal
    ensures t.Some? ==> t.value == results[|results| - 1].alternatives[0].transcript
  {
    var last := results[|results| - 1];
    if last.isFinal then Some(last.alternatives[0].transcript) else None
  }

  /** Earlier results of the same event are never forwarded. */
  lemma OnlyLastResultCounts(earlier: seq<SpeechResult>, last: SpeechResult)
    requires |last.alternatives| > 0
    ensures FinalTranscript(earlier + [last]) == FinalTranscript([last])
  {
  }

  const GenericMessage: string := "Could not recognize speech. Please try again."
  const NoSpeechMessage: string := "No speech detected. Please speak clearly after clicking the microphone."
  const AccessDeniedMessage: string := "Microphone access denied. Please allow microphone access in your browser settings."
  const NoMicrophoneMessage: string := "No microphone found. Please check your microphone is connected."
  const NetworkMessage: string := "Network error. Please check your internet connection."

  /** The message shown for a recognizer error code. */
  function ErrorMessage(code: string): (m: string)
    ensures m == NoSpeechMessage <==> code == "no-speech"
    ensures m == AccessDeniedMessage <==> code == "not-allowed" || code == "permission-denied"
    ensures m == NoMicrophoneMessage <==> code == "audio-capture"
    ensures m == NetworkMessage <==> code == "network"
    ensures m == GenericMessage <==>
      code !in ["no-speech", "not-allowed", "permission-denied", "audio-capture", "network"]
  {
    if code == "no-speech" then NoSpeechMessage
    else if code == "not-allowed" || code == "permission-denied" then AccessDeniedMessage
    else if code == "audio-capture" then NoMicrophoneMessage
    else if code == "network" then NetworkMessage
    else GenericMessage
  }

  /** The settings the recognizer is created with. */
  datatype Recognizer = Recognizer(continuous: bool, interimResults: bool, lang: string)

  const Configured: Recognizer := Recognizer(false, true, "en-US")

  /** A command sent to the recognizer. */
  datatype Call = Start | Stop

  /** The notice a start request raises. */
  datatype Notice = NotSupported | MicrophoneAccessNeeded | Listening | NoNotice

  /**
   * The hook's state: the listening flag, the recognizer (absent when the
   * browser has no speech API) and the commands sent to it so far.
   */
  class VoiceInputHook {
    var isListening: bool
    var recognizer: Option<Recognizer>
    var calls: seq<Call>

    /** Without a recognizer nothing is ever started and the flag stays down. */
    ghost predicate Valid()
      reads this
    {
      (recognizer.Some? ==> recognizer.value == Configured) &&
      (recognizer.None? ==> !isListening && calls == [])
    }

    /** Mounting the hook; `supported` says whether the browser offers a speech API. */
    constructor (supported: bool)
      ensures Valid() && !isListening && calls == []
      ensures recognizer == if supported then Some(Configured) else None
    {
      isListening := false;
      recognizer := if supported then Some(Configured) else None;
      calls := [];
    }

    /** A result event: returns what is passed to the transcript callback, if anything. */
    method OnResult(results: seq<SpeechResult>) returns (forwarded: Option<string>)
      requires |results| > 0 && |results[|results| - 1].alternatives| > 0
      ensures forwarded.Some? <==> results[|results| - 1].isFinal
      ensures forwarded.Some? ==> forwarded.value == results[|results| - 1].alternatives[0].transcript
    {
      forwarded := FinalTranscript(results);
    }

    /** An error event, whatever its code, lowers the flag; returns the message shown. */
    method OnError(code: string) returns (message: string)
      requires Valid()
      modifies this
      ensures Valid() && !isListening
      ensures recognizer == old(recognizer) && calls == old(calls)
      ensures message == ErrorMessage(code)
    {
      isListening := false;
      message := ErrorMessage(code);
    }

    /** The end event lowers the flag. */
    method OnEnd()
      requires Valid()
      modifies this
      ensures Valid() && !isListening
      ensures recognizer == old(recognizer) && calls == old(calls)
    {
      isListening := false;
    }

    /**
     * A start request. `micPermitted` is the outcome of the microphone
     * permission check; `startSucceeds` says whether the recognizer's start
     * returned without throwing.
     */
    method StartListening(micPermitted: bool, startSucceeds: bool) returns (notice: Notice)
      requires Valid()
      modifies this
      ensures Valid() && recognizer == old(recognizer)
      ensures old(recognizer).None? ==>
        notice == NotSupported && isListening == old(isListening) && calls == old(calls)
      ensures old(recognizer).Some? && !micPermitted ==>
        notice == MicrophoneAccessNeeded && isListening == old(isListening) && calls == old(calls)
      ensures old(recognizer).Some? && micPermitted ==>
        calls == old(calls) + [Start] &&
        (startSucceeds ==> isListening && notice == Listening) &&
        (!startSucceeds ==> isListening == old(isListening) && notice == NoNotice)
    {
      if recognizer.None? {
        notice := NotSupported;
        return;
      }
      if !micPermitted {
        notice := MicrophoneAccessNeeded;
        return;
      }
      calls := calls + [Start];
      if startSucceeds {
        isListening := true;
        notice := Listening;
      } else {
        notice := NoNotice;
      }
    }

    /** A stop request: stops and lowers the flag when there is a recognizer, otherwise does nothing. */
    method StopListening()
      requires Valid()
      modifies this
      ensures Valid() && recognizer == old(recognizer)
      ensures old(recognizer).Some? ==> !isListening && calls == old(calls) + [Stop]
      ensures old(recognizer).None? ==> isListening == old(isListening) && calls == old(calls)
    {
      if recognizer.Some? {
        calls := calls + [Stop];
        isListening := false;
      }
    }
  }
}
