/** HTTP responses as far as the application looks at them. */
module Http {
  import opened Values
  import opened Text

  /** A response: its `ok` status, its `Content-Type` header (absent or a value) and an
      opaque body that tells two responses apart. */
  datatype Response = Response(ok: bool, contentType: Option<string>, body: string)

  /** The prefix both the player and the media cache demand of an audio payload. */
  const AUDIO_PREFIX: string := "audio/"

  /** `(headers.get("Content-Type") || "").startsWith("audio/")`: the header is read
      case-sensitively and an absent header counts as the empty string, so a missing or
      empty header never passes, and a header passes exactly when its first six characters
      are the lower-case prefix. */
  predicate IsAudioType(contentType: Option<string>): (r: bool)
    ensures contentType.None? || contentType == Some("") ==> !r
    ensures contentType.Some? ==>
      (r <==> |contentType.value| >= |AUDIO_PREFIX| && contentType.value[..|AUDIO_PREFIX|] == AUDIO_PREFIX)
  {
    StartsWith(OrEmpty(contentType), AUDIO_PREFIX)
  }

  /** Examples: `audio/mpeg` passes; `text/html` (an error page) and `Audio/MPEG` do not. */
  lemma AudioTypeExamples()
    ensures IsAudioType(Some("audio/mpeg"))
    ensures !IsAudioType(Some("text/html"))
    ensures !IsAudioType(Some("Audio/MPEG"))
  {
    assert "text/html"[0] != AUDIO_PREFIX[0];
    assert "Audio/MPEG"[0] != AUDIO_PREFIX[0];
  }
}
