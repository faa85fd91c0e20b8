/** The recogniser language of the voice recorder
    (Van-Rakshak-Community-App/src/components/VoiceRecorder.js). */
module VoiceRecorder {
  import opened Common

  const SpeechTags: set<string> := {"en-US", "hi-IN", "ta-IN", "kn-IN"}

  /** `getLanguageCode`: the table lookup, with `en-US` for any code the
      table lacks. */
  function LanguageCode(lang: string): (r: string)
    ensures r in SpeechTags
    ensures lang !in {"en", "hi", "ta", "kn"} ==> r == "en-US"
    ensures lang == "en" ==> r == "en-US"
    ensures lang == "hi" ==> r == "hi-IN"
    ensures lang == "ta" ==> r == "ta-IN"
    ensures lang == "kn" ==> r == "kn-IN"
  {
    match lang
    case "en" => "en-US"
    case "hi" => "hi-IN"
    case "ta" => "ta-IN"
    case "kn" => "kn-IN"
    case _ => "en-US"
  }

  /** The language given to the recogniser: the UI language, or `en`
      when it is missing or empty. */
  function RecognizerLanguage(uiLanguage: Option<string>): (r: string)
    ensures r in SpeechTags
    ensures !Truthy(uiLanguage) ==> r == "en-US"
    ensures Truthy(uiLanguage) ==> r == LanguageCode(uiLanguage.value)
  {
    LanguageCode(if Truthy(uiLanguage) then uiLanguage.value else "en")
  }

  /** Each tag names the language of its code: the region is dropped by
      the two letters in front of the dash. */
  lemma TagKeepsLanguage(lang: string)
    requires lang in {"en", "hi", "ta", "kn"}
    ensures LanguageCode(lang)[..2] == lang
  {
  }
}
