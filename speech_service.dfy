/** The speech-recognition service: its default language, the short codes
    it accepts, and what one `transcribe` call returns for each way the
    recognition can end. */
module SpeechService {
  import opened Wrappers
  import opened Text

  /** Short language codes and the recognition locales they stand for. */
  const SUPPORTED_LANGUAGES: map<string, string> := map[
    "en" := "en-US",
    "ar" := "ar-EG",
    "es" := "es-ES",
    "fr" := "fr-FR",
    "de" := "de-DE"
  ]

  /** Audio shorter than this many bytes is not sent for recognition. */
  const MIN_AUDIO_BYTES: nat := 1000

  /** How the work after the length check ends. */
  datatype Recognition =
    | SaveFails             // writing the WAV file raises before it exists
    | WavMissing            // the WAV file is not there after writing
    | RecordFails           // reading the WAV file back raises
    | Recognized(text: string)
    | UnknownValue          // the recognizer cannot make out any words
    | RequestFailed         // the recognition request fails

  /** What one `transcribe` call did. */
  datatype Transcript = Transcript(
    text: string,                    // the return value
    askedIn: Option<string>,         // the locale the recognizer was asked in
    wavLeft: bool)                   // the temporary WAV file stays behind

  class Service {
    var defaultLanguage: string

    /** The locale is always one the service supports. */
    ghost predicate Valid()
      reads this
    {
      defaultLanguage in SUPPORTED_LANGUAGES.Values
    }

    constructor ()
      ensures Valid()
      ensures defaultLanguage == "en-US"
    {
      defaultLanguage := "en-US";
      assert SUPPORTED_LANGUAGES["en"] == "en-US";
    }

    /** `set_language`: a supported short code sets its locale and answers
        yes; anything else leaves the locale alone and answers no. */
    method SetLanguage(code: string) returns (ok: bool)
      requires Valid()
      modifies this
      ensures Valid()
      ensures ok <==> code in SUPPORTED_LANGUAGES
      ensures ok ==> defaultLanguage == SUPPORTED_LANGUAGES[code]
      ensures !ok ==> defaultLanguage == old(defaultLanguage)
    {
      if code in SUPPORTED_LANGUAGES {
        defaultLanguage := SUPPORTED_LANGUAGES[code];
        ok := true;
      } else {
        ok := false;
      }
    }

    /** `transcribe` of `audio` with an optional `language`, ending as
        `outcome` says. */
    function Transcribe(audio: seq<byte>, language: Option<string>, outcome: Recognition): Transcript
      reads this
    {
      TranscribeIn(audio, RecognitionLanguage(language, defaultLanguage), outcome)
    }
  }

  /** An explicit, non-empty language wins over the default. */
  function RecognitionLanguage(language: Option<string>, default: string): (lang: string)
    ensures Given(language) ==> lang == language.value
    ensures !Given(language) ==> lang == default
  {
    if language.Some? && language.value != [] then language.value else default
  }

  predicate Given(s: Option<string>)
  {
    s.Some? && s.value != []
  }

  /** The body of `transcribe` once the locale is fixed. */
  function TranscribeIn(audio: seq<byte>, lang: string, outcome: Recognition): Transcript
  {
    if |audio| < MIN_AUDIO_BYTES then Transcript("", None, false)
    else match outcome
      case SaveFails => Transcript("", None, false)
      case WavMissing => Transcript("", None, false)
      case RecordFails => Transcript("", None, true)
      case Recognized(t) => Transcript(Strip(t), Some(lang), false)
      case UnknownValue => Transcript("", Some(lang), true)
      case RequestFailed => Transcript("", Some(lang), true)
  }

  /** Short audio is never sent: the answer is empty whatever the
      recognizer would have said. */
  lemma ShortAudioIsNeverSent(s: Service, audio: seq<byte>, language: Option<string>, outcome: Recognition)
    requires |audio| < MIN_AUDIO_BYTES
    ensures s.Transcribe(audio, language, outcome) == Transcript("", None, false)
  {
  }

  /** Once sent, the recognizer is asked in the explicit language when one is
      given, else in the service's default. */
  lemma RecognizerLanguage(s: Service, audio: seq<byte>, language: Option<string>, outcome: Recognition)
    requires |audio| >= MIN_AUDIO_BYTES
    requires outcome.Recognized? || outcome == UnknownValue || outcome == RequestFailed
    ensures var r := s.Transcribe(audio, language, outcome);
      && r.askedIn.Some?
      && (Given(language) ==> r.askedIn.value == language.value)
      && (!Given(language) ==> r.askedIn.value == s.defaultLanguage)
  {
  }

  /** A transcript is non-empty only when the recognizer made out words, and
      it is then those words stripped of surrounding whitespace; every
      failure answers the empty string. */
  lemma TranscriptIsRecognizedText(s: Service, audio: seq<byte>, language: Option<string>, outcome: Recognition)
    ensures var r := s.Transcribe(audio, language, outcome);
      && (r.text != [] ==> |audio| >= MIN_AUDIO_BYTES && outcome.Recognized?)
      && (|audio| >= MIN_AUDIO_BYTES && outcome.Recognized? ==> r.text == Strip(outcome.text))
      && (r.text != [] ==> !IsSpace(r.text[0]) && !IsSpace(r.text[|r.text| - 1]))
  {
  }

  /** The WAV file is removed only after a successful recognition; the
      failures after it was read back leave it behind. */
  lemma WavRemovedOnlyOnSuccess(s: Service, audio: seq<byte>, language: Option<string>, outcome: Recognition)
    requires |audio| >= MIN_AUDIO_BYTES
    ensures s.Transcribe(audio, language, outcome).wavLeft <==>
      outcome == RecordFails || outcome == UnknownValue || outcome == RequestFailed
  {
  }
}
