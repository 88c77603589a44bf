/** The TeXML <Say> verb and its defaulting of voice and language (texml.go). */
module TeXML {
  import opened GoStrings
  import opened Notification

  const DefaultVoice: Bytes := Str("alice")
  const DefaultLanguage: Bytes := Str("en-US")

  /** <Say voice=".." language="..">text</Say> */
  datatype SayVerb = SayVerb(voice: Bytes, language: Bytes, text: Bytes)

  /** NewSayVerb: the configured voice and language, each replaced by its
      default when empty; the text unchanged. */
  function NewSayVerb(cfg: AppConfig, text: Bytes): (r: SayVerb)
    ensures r.text == text
    ensures |r.voice| > 0 && |r.language| > 0
    ensures cfg.voiceName != [] ==> r.voice == cfg.voiceName
    ensures cfg.voiceName == [] ==> r.voice == DefaultVoice
    ensures cfg.voiceLanguage != [] ==> r.language == cfg.voiceLanguage
    ensures cfg.voiceLanguage == [] ==> r.language == DefaultLanguage
  {
    var voice := if cfg.voiceName == [] then DefaultVoice else cfg.voiceName;
    var lang := if cfg.voiceLanguage == [] then DefaultLanguage else cfg.voiceLanguage;
    SayVerb(voice, lang, text)
  }

  /** Defaulting is idempotent: configuring the voice and language a verb ended
      up with gives back the same verb. */
  lemma NewSayVerbIdempotent(cfg: AppConfig, text: Bytes)
    ensures var r := NewSayVerb(cfg, text);
      NewSayVerb(cfg.(voiceName := r.voice, voiceLanguage := r.language), text) == r
  {
  }
}
