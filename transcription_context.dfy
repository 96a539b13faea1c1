/**
 * The transcription provider: the mutable state it shares with the UI
 * (`isRecording`, `transcript`, `isProcessingFile`, `uploadedFileName`, the
 * selected language and the stored live recogniser) and the handlers and
 * operations that change it.
 *
 * The platform's speech recogniser, microphone permission, audio element
 * and toasts are not modelled: whether the recogniser exists, whether the
 * microphone was granted, and which recogniser events arrive are inputs.
 * Each handler runs to completion before the next one starts.
 */
module TranscriptionContext {
  import opened Wrappers
  import opened TranscriptText

  /**
   * The live recogniser instance kept in the provider's `recognition` state:
   * the language it was created with and the value of `isRecording` that its
   * `onend` handler captured when `startRecording` ran.
   */
  datatype LiveSession = LiveSession(lang: string, capturedRecording: bool)

  /** The parts of an uploaded `File` the provider reads. */
  datatype AudioFile = AudioFile(name: string, mimeType: string)

  /** The ways a file transcription stops, each of which clears `isProcessingFile`. */
  datatype FileStop =
    | RecognitionError(error: string)  // the file recogniser's `onerror`
    | RecognitionEnded                 // the file recogniser's `onend`
    | PlaybackRejected                 // `audioElement.play()` rejected; the recogniser is stopped
    | StartThrew                       // `recognitionInstance.start()` threw
    | AudioLoadError                   // the audio element's `onerror`

  const AudioPrefix: string := "audio/"
  const DefaultLanguage: string := "en-US"

  /** `mimeType.startsWith("audio/")`. */
  predicate IsAudioType(mimeType: string): (b: bool)
    ensures b <==> AudioPrefix <= mimeType
  {
    |AudioPrefix| <= |mimeType| && mimeType[..|AudioPrefix|] == AudioPrefix
  }

  /** A MIME type passes the upload guard exactly when it is `"audio/"` followed by anything. */
  lemma IsAudioTypeExactly(mimeType: string)
    ensures IsAudioType(mimeType) <==> exists rest :: mimeType == AudioPrefix + rest
  {
    if IsAudioType(mimeType) {
      assert mimeType == AudioPrefix + mimeType[|AudioPrefix|..];
    }
    if exists rest :: mimeType == AudioPrefix + rest {
      var rest :| mimeType == AudioPrefix + rest;
      assert mimeType[..|AudioPrefix|] == AudioPrefix;
    }
  }

  /**
   * The controls call `startRecording` only while `isRecording` is false,
   * so the session they create captures `false`: even after it has started,
   * its `onend` does not restart it.
   */
  method StartFromControls(p: TranscriptionProvider) returns (restart: bool)
    requires !p.isRecording
    modifies p
    ensures p.isRecording && p.recognition.Some? && !restart
  {
    p.StartRecording(true, true);
    p.OnLiveStart();
    restart := p.OnLiveEnd(p.recognition.value);
  }

  /**
   * The same sequence with the `onend` its comment describes, which reads
   * the provider's current `isRecording`: a session that ends while the
   * provider is recording is restarted.
   */
  method StartFromControlsCurrent(p: TranscriptionProvider) returns (restart: bool)
    requires !p.isRecording
    modifies p
    ensures p.isRecording && p.recognition.Some? && restart
  {
    p.StartRecording(true, true);
    p.OnLiveStart();
    restart := p.OnLiveEndCurrent();
  }

  class TranscriptionProvider {
    var isRecording: bool
    var transcript: string
    var recognition: Option<LiveSession>
    var selectedLanguage: string
    var isProcessingFile: bool
    var uploadedFileName: Option<string>

    /** The initial state of every `useState` hook. */
    constructor ()
      ensures !isRecording && transcript == "" && recognition == None
      ensures selectedLanguage == DefaultLanguage
      ensures !isProcessingFile && uploadedFileName == None
    {
      isRecording := false;
      transcript := "";
      recognition := None;
      selectedLanguage := DefaultLanguage;
      isProcessingFile := false;
      uploadedFileName := None;
    }

    /**
     * `startRecording`. Without a recogniser nothing changes. When the
     * microphone is granted a live session is created and stored; it
     * captures the current `isRecording` and language. When permission is
     * refused (or starting throws) `isRecording` is cleared. `isRecording`
     * itself is set only by the session's `onstart` (`OnLiveStart`).
     */
    method StartRecording(recognizerAvailable: bool, microphoneGranted: bool)
      modifies this`isRecording, this`recognition
      ensures !recognizerAvailable ==> isRecording == old(isRecording) && recognition == old(recognition)
      ensures recognizerAvailable && microphoneGranted ==>
        isRecording == old(isRecording) && recognition == Some(LiveSession(selectedLanguage, old(isRecording)))
      ensures recognizerAvailable && !microphoneGranted ==>
        !isRecording && recognition == old(recognition)
    {
      if !recognizerAvailable {
        return;
      }
      if microphoneGranted {
        recognition := Some(LiveSession(selectedLanguage, isRecording));
      } else {
        isRecording := false;
      }
    }

    /** The live session's `onstart`. */
    method OnLiveStart()
      modifies this`isRecording
      ensures isRecording
    {
      isRecording := true;
    }

    /**
     * The live session's `onresult`: the final text of the event's window is
     * added after one space; interim text is collected and dropped.
     */
    method OnLiveResult(ev: ResultEvent)
      modifies this`transcript
      ensures transcript == LiveUpdate(old(transcript), ev)
      ensures old(transcript) <= transcript
    {
      var finalText, interimText := CollectSegments(ev);
      FinalsInOrder(Window(ev));
      transcript := LiveAppend(transcript, finalText);
    }

    /** The live session's `onerror`: whatever the error, recording stops. */
    method OnLiveError(error: string)
      modifies this`isRecording
      ensures !isRecording
    {
      isRecording := false;
    }

    /**
     * The live session's `onend`: it restarts the recogniser when the
     * `isRecording` it captured was true, and changes no provider state.
     */
    method OnLiveEnd(session: LiveSession) returns (restart: bool)
      ensures restart <==> session.capturedRecording
    {
      restart := session.capturedRecording;
    }

    /**
     * An `onend` that reads the current `isRecording` instead of the value
     * captured when the session was created: it restarts exactly while the
     * provider is recording.
     */
    method OnLiveEndCurrent() returns (restart: bool)
      ensures restart <==> isRecording
    {
      restart := isRecording;
    }

    /** `stopRecording`: a no-op without a stored live session. */
    method StopRecording()
      modifies this`isRecording
      ensures recognition.None? ==> isRecording == old(isRecording)
      ensures recognition.Some? ==> !isRecording
    {
      if recognition.Some? {
        isRecording := false;
      }
    }

    /** `clearTranscript`: the recording and processing flags are untouched. */
    method ClearTranscript()
      modifies this`transcript, this`uploadedFileName
      ensures transcript == "" && uploadedFileName == None
    {
      transcript := "";
      uploadedFileName := None;
    }

    /** `setSelectedLanguage`. */
    method SetSelectedLanguage(language: string)
      modifies this`selectedLanguage
      ensures selectedLanguage == language
    {
      selectedLanguage := language;
    }

    /**
     * `handleFileUpload`, up to the point where the platform takes over. A
     * non-audio MIME type changes nothing. Otherwise processing starts and
     * the file name is recorded; without a recogniser processing is cleared
     * again but the name is kept. `started` tells whether a file recogniser
     * was set up, after which `OnFileResult` and `EndFileProcessing` apply.
     */
    method HandleFileUpload(file: AudioFile, recognizerAvailable: bool) returns (started: bool)
      modifies this`isProcessingFile, this`uploadedFileName
      ensures started <==> IsAudioType(file.mimeType) && recognizerAvailable
      ensures !IsAudioType(file.mimeType) ==>
        isProcessingFile == old(isProcessingFile) && uploadedFileName == old(uploadedFileName)
      ensures IsAudioType(file.mimeType) ==>
        uploadedFileName == Some(file.name) && isProcessingFile == recognizerAvailable
    {
      if !IsAudioType(file.mimeType) {
        return false;
      }
      isProcessingFile := true;
      uploadedFileName := Some(file.name);
      if !recognizerAvailable {
        isProcessingFile := false;
        return false;
      }
      started := true;
    }

    /**
     * The file recogniser's `onresult`: each final segment of the window is
     * appended, in index order, after its own space.
     */
    method OnFileResult(ev: ResultEvent)
      modifies this`transcript
      ensures transcript == FileUpdate(old(transcript), ev)
      ensures transcript == old(transcript) + ConcatSpaced(FinalTexts(Window(ev)))
    {
      var i := ev.resultIndex;
      while i < |ev.results|
        invariant ev.resultIndex <= |ev.results| ==> ev.resultIndex <= i <= |ev.results|
        invariant ev.resultIndex > |ev.results| ==> i == ev.resultIndex && transcript == old(transcript)
        invariant ev.resultIndex <= |ev.results| ==>
          transcript == old(transcript) + Spaced(ev.results[ev.resultIndex..i])
      {
        assert ev.results[ev.resultIndex..i + 1][..i - ev.resultIndex] == ev.results[ev.resultIndex..i];
        var segment := ev.results[i];
        if segment.isFinal {
          transcript := transcript + " " + segment.text;
        }
        i := i + 1;
      }
      if ev.resultIndex <= |ev.results| {
        assert ev.results[ev.resultIndex..i] == Window(ev);
      }
      SpacedInOrder(Window(ev));
    }

    /** Every way a file transcription stops clears `isProcessingFile` and nothing else. */
    method EndFileProcessing(cause: FileStop)
      modifies this`isProcessingFile
      ensures !isProcessingFile
    {
      isProcessingFile := false;
    }
  }
}
