/** The text-to-speech service: the language heuristic, the choice of a
    neural voice, and what one `speak` call does with the connection, the
    current playback and its temporary audio file. */
module TtsService {
  import opened Wrappers

  /** The voices the service knows, by name. */
  const VOICES: map<string, string> := map[
    "english" := "en-US-ChristopherNeural",
    "english_female" := "en-US-JennyNeural",
    "arabic" := "ar-EG-SalmaNeural",
    "arabic_male" := "ar-EG-ShakirNeural"
  ]

  /** The number of characters above code point 127. */
  function NonAsciiCount(text: string): (n: nat)
    ensures n <= |text|
  {
    if text == [] then 0
    else (if text[0] as int > 127 then 1 else 0) + NonAsciiCount(text[1..])
  }

  /** `_detect_language`: "arabic" when more than 30% of the characters are
      non-ASCII, compared exactly as 10·n > 3·len. */
  function DetectLanguage(text: string): (lang: string)
    ensures lang == "arabic" || lang == "english"
    ensures lang == "arabic" <==> 10 * NonAsciiCount(text) > 3 * |text|
  {
    if 10 * NonAsciiCount(text) > 3 * |text| then "arabic" else "english"
  }

  /** Empty text and plain ASCII text are English; text made only of
      non-ASCII characters is Arabic. */
  lemma {:induction false} DetectLanguageBounds(text: string)
    ensures text == [] ==> DetectLanguage(text) == "english"
    ensures (forall i :: 0 <= i < |text| ==> text[i] as int <= 127) ==> DetectLanguage(text) == "english"
    ensures text != [] && (forall i :: 0 <= i < |text| ==> text[i] as int > 127) ==>
      DetectLanguage(text) == "arabic"
  {
    if forall i :: 0 <= i < |text| ==> text[i] as int <= 127 {
      NoNonAscii(text);
    }
    if forall i :: 0 <= i < |text| ==> text[i] as int > 127 {
      AllNonAscii(text);
    }
  }

  lemma {:induction false} NoNonAscii(text: string)
    requires forall i :: 0 <= i < |text| ==> text[i] as int <= 127
    ensures NonAsciiCount(text) == 0
    decreases |text|
  {
    if text != [] {
      NoNonAscii(text[1..]);
    }
  }

  lemma {:induction false} AllNonAscii(text: string)
    requires forall i :: 0 <= i < |text| ==> text[i] as int > 127
    ensures NonAsciiCount(text) == |text|
    decreases |text|
  {
    if text != [] {
      AllNonAscii(text[1..]);
    }
  }

  /** The voice `speak` uses: a known `voice_name` wins, anything else
      falls back to the detected language's voice. */
  function SelectVoice(voiceName: Option<string>, text: string): (v: string)
    ensures voiceName.Some? && voiceName.value in VOICES ==> v == VOICES[voiceName.value]
    ensures !(voiceName.Some? && voiceName.value in VOICES) ==> v == VOICES[DetectLanguage(text)]
    ensures v in VOICES.Values
  {
    if voiceName.Some? && voiceName.value != [] && voiceName.value in VOICES then VOICES[voiceName.value]
    else VOICES[DetectLanguage(text)]
  }

  /** How far the synthesis and playback get once connected. */
  datatype TtsStep =
    | StopRaises     // stopping the current playback raises: no file yet
    | SaveRaises     // synthesis raises (the file may be partly written)
    | FileMissing    // synthesis ends without a file
    | FileEmpty      // synthesis writes an empty file
    | PlayRaises     // starting playback raises
    | PlaybackError  // playback ends with an error
    | PlaybackOk     // playback ends normally

  /** What one `speak` call did. */
  datatype SpeakResult = SpeakResult(
    ok: bool,             // the return value
    stopped: bool,        // the playback in progress was stopped
    synthesised: Option<string>,  // the voice the text was synthesised with
    played: bool,         // playback was started
    fileLeft: bool)       // the temporary file is still there afterwards

  /** `speak` on a voice client that is `connected` and `playing`, with
      `step` saying where it ends. */
  function Speak(connected: bool, playing: bool, step: TtsStep, voiceName: Option<string>,
                 text: string): SpeakResult
  {
    if !connected then SpeakResult(false, false, None, false, false)
    else
      var stopped := playing && step != StopRaises;
      var voice := if step == StopRaises then None else Some(SelectVoice(voiceName, text));
      match step
      case StopRaises => SpeakResult(false, false, None, false, false)
      case SaveRaises => SpeakResult(false, stopped, voice, false, false)
      case FileMissing => SpeakResult(false, stopped, voice, false, false)
      case FileEmpty => SpeakResult(false, stopped, voice, false, true)
      case PlayRaises => SpeakResult(false, stopped, voice, false, false)
      case PlaybackError => SpeakResult(false, stopped, voice, true, false)
      case PlaybackOk => SpeakResult(true, stopped, voice, true, false)
  }

  /** Without a connection nothing happens and the answer is no. */
  lemma SpeakNotConnected(playing: bool, step: TtsStep, voiceName: Option<string>, text: string)
    ensures Speak(false, playing, step, voiceName, text) == SpeakResult(false, false, None, false, false)
  {
  }

  /** `speak` answers yes exactly when playback ends without error; when it
      does, the audio was synthesised and played, any earlier playback was
      stopped first, and the file is gone. */
  lemma SpeakSucceedsOnlyOnCleanPlayback(connected: bool, playing: bool, step: TtsStep,
                                         voiceName: Option<string>, text: string)
    ensures var r := Speak(connected, playing, step, voiceName, text);
      && (r.ok <==> connected && step == PlaybackOk)
      && (r.ok ==> r.played && r.synthesised.Some? && !r.fileLeft && (r.stopped <==> playing))
  {
  }

  /** A new playback never overlaps the old one, and the synthesised voice
      is the selected one. */
  lemma SpeakStopsBeforePlaying(connected: bool, playing: bool, step: TtsStep,
                                voiceName: Option<string>, text: string)
    ensures var r := Speak(connected, playing, step, voiceName, text);
      && (r.played ==> (r.stopped <==> playing))
      && (r.synthesised.Some? ==> r.synthesised.value == SelectVoice(voiceName, text))
  {
  }

  /** The temporary file is removed on every path except the one that finds
      it empty. */
  lemma SpeakLeavesOnlyEmptyFile(connected: bool, playing: bool, step: TtsStep,
                                 voiceName: Option<string>, text: string)
    ensures Speak(connected, playing, step, voiceName, text).fileLeft <==> connected && step == FileEmpty
  {
  }
}
