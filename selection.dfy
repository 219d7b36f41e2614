/**
 * The track-selection policy of the transcript endpoint. With an explicit
 * language list the catalog's own lookup decides; without one (no list, or an
 * empty list) a fixed fallback chain does: manual English, the first manual
 * track, generated English, the first generated track, and finally one more
 * lookup of English through the catalog.
 */
module Selection {
  import opened Wrappers
  import opened Transcripts

  /** The request names languages: the list is present and non-empty. */
  predicate HasPreference(languages: Option<seq<LanguageCode>>)
  {
    languages.Some? && |languages.value| > 0
  }

  /** A lookup answer as a selection: a miss is the library's "no transcript found". */
  function FoundOr(found: Option<Track>): (r: Result<Track, Failure>)
    ensures r.Ok? <==> found.Some?
    ensures r.Ok? ==> r.value == found.value
    ensures r.Err? ==> r.error == NoTranscriptFound
  {
    match found
    case Some(t) => Ok(t)
    case None => Err(NoTranscriptFound)
  }

  /** Tiers one to four of the fallback chain: None only when the catalog lists no track at all. */
  function DefaultChain(c: TranscriptList): (r: Option<Track>)
    ensures r.Some? <==> |c.manual| + |c.generated| > 0
    ensures r.Some? ==> (r.value in c.manual || r.value in c.generated)
  {
    match Lookup(c.manual, "en")
    case Some(t) => Some(t)
    case None =>
      if |c.manual| > 0 then Some(c.manual[0])
      else
        match Lookup(c.generated, "en")
        case Some(t) => Some(t)
        case None => if |c.generated| > 0 then Some(c.generated[0]) else None
  }

  /** The whole selection step: exactly one track, or a failure. */
  function Select(c: TranscriptList, languages: Option<seq<LanguageCode>>): (r: Result<Track, Failure>)
    ensures r.Err? ==> r.error == NoTranscriptFound
  {
    if HasPreference(languages) then FoundOr(c.findTranscript(languages.value))
    else
      match DefaultChain(c)
      case Some(t) => Ok(t)
      case None => FoundOr(c.findTranscript(["en"]))
  }

  /** Tier one: without a preference, a manual English track is always the one selected. */
  lemma SelectManualEnglish(c: TranscriptList, languages: Option<seq<LanguageCode>>)
    requires !HasPreference(languages)
    requires HasCode(c.manual, "en")
    ensures Select(c, languages).Ok?
    ensures Select(c, languages).value in c.manual
    ensures Select(c, languages).value.languageCode == "en"
  {
  }

  /** Tier two: without a preference and without manual English, the first manual track. */
  lemma SelectFirstManual(c: TranscriptList, languages: Option<seq<LanguageCode>>)
    requires !HasPreference(languages)
    requires !HasCode(c.manual, "en") && |c.manual| > 0
    ensures Select(c, languages) == Ok(c.manual[0])
  {
  }

  /** Tiers three and four: with no manual track, generated English if present, else the first generated track. */
  lemma SelectGenerated(c: TranscriptList, languages: Option<seq<LanguageCode>>)
    requires !HasPreference(languages)
    requires |c.manual| == 0 && |c.generated| > 0
    ensures Select(c, languages).Ok?
    ensures Select(c, languages).value in c.generated
    ensures HasCode(c.generated, "en") ==> Select(c, languages).value.languageCode == "en"
    ensures !HasCode(c.generated, "en") ==> Select(c, languages).value == c.generated[0]
  {
  }

  /**
   * Without a preference, selection succeeds exactly when the catalog lists a
   * track; the last lookup of English is reached only for an empty catalog,
   * where it can only fail.
   */
  lemma SelectSucceedsIffCatalogNonEmpty(c: TranscriptList, languages: Option<seq<LanguageCode>>)
    requires LookupWithin(c)
    requires !HasPreference(languages)
    ensures Select(c, languages).Ok? <==> |c.manual| + |c.generated| > 0
    ensures |c.manual| + |c.generated| == 0 ==> Select(c, languages) == Err(NoTranscriptFound)
  {
  }

  /** With a preference, the catalog's lookup alone decides. */
  lemma SelectDelegates(c: TranscriptList, languages: Option<seq<LanguageCode>>)
    requires HasPreference(languages)
    ensures Select(c, languages).Ok? <==> c.findTranscript(languages.value).Some?
    ensures Select(c, languages).Ok? ==> Select(c, languages).value == c.findTranscript(languages.value).value
  {
  }

  /** Whatever is selected is a track of the catalog. */
  lemma SelectWithinCatalog(c: TranscriptList, languages: Option<seq<LanguageCode>>)
    requires LookupWithin(c)
    ensures Select(c, languages).Ok? ==>
      Select(c, languages).value in c.manual || Select(c, languages).value in c.generated
  {
  }

  /**
   * Without a preference, the selected track is generated exactly when the
   * catalog has no manual track: manual tracks always win.
   */
  lemma SelectPrefersManual(c: TranscriptList, languages: Option<seq<LanguageCode>>)
    requires WellFormed(c) && LookupWithin(c)
    requires !HasPreference(languages)
    requires Select(c, languages).Ok?
    ensures Select(c, languages).value.isGenerated <==> |c.manual| == 0
  {
  }
}
