/**
 * The transcript endpoint: list the video's catalog, select one track, fetch
 * its snippets and shape the response, with every failure on the way turned
 * into an HTTP error. The network-backed library calls are inputs: the
 * listing's outcome, and the fetch outcome of each track.
 */
module Endpoint {
  import opened Wrappers
  import opened Transcripts
  import opened Selection
  import opened Shaping
  import opened Errors

  /** What a request to the endpoint answers, given what the library answers. */
  function Handle(
    videoId: string, languages: Option<seq<LanguageCode>>, includeTimestamps: bool, format: string,
    listing: Result<TranscriptList, Failure>, fetch: Track -> Result<seq<Snippet>, Failure>)
    : Reply
  {
    match listing
    case Err(f) => ErrorResponse(f)
    case Ok(catalog) =>
      match Select(catalog, languages)
      case Err(f) => ErrorResponse(f)
      case Ok(track) =>
        match fetch(track)
        case Err(f) => ErrorResponse(f)
        case Ok(snippets) => Body(Shape(videoId, track, snippets, includeTimestamps, format))
  }

  /**
   * The path-parameter endpoint, step by step: the selected transcript starts
   * out absent and each fallback tier may set it; the JSON response gains its
   * segments field in place.
   */
  method GetTranscript(
    videoId: string, languages: Option<seq<LanguageCode>>, includeTimestamps: bool, format: string,
    listing: Result<TranscriptList, Failure>, fetch: Track -> Result<seq<Snippet>, Failure>)
    returns (reply: Reply)
    ensures reply == Handle(videoId, languages, includeTimestamps, format, listing, fetch)
  {
    if listing.Err? {
      return ErrorResponse(listing.error);
    }
    var catalog := listing.value;
    var transcript: Option<Track> := None;
    if HasPreference(languages) {
      transcript := catalog.findTranscript(languages.value);
      if transcript.None? {
        return ErrorResponse(NoTranscriptFound);
      }
    } else {
      transcript := Lookup(catalog.manual, "en");
      if transcript.None? && |catalog.manual| > 0 {
        transcript := Some(catalog.manual[0]);
      }
      if transcript.None? {
        transcript := Lookup(catalog.generated, "en");
        if transcript.None? && |catalog.generated| > 0 {
          transcript := Some(catalog.generated[0]);
        }
      }
    }
    if transcript.None? {
      transcript := catalog.findTranscript(["en"]);
      if transcript.None? {
        return ErrorResponse(NoTranscriptFound);
      }
    }
    var track := transcript.value;
    assert Select(catalog, languages) == Ok(track);

    var fetched := fetch(track);
    if fetched.Err? {
      return ErrorResponse(fetched.error);
    }
    var data := ToRecords(fetched.value);
    var texts := seq(|data|, i requires 0 <= i < |data| => RecordText(data[i]));
    assert texts == Texts(fetched.value);
    var fullText := JoinWithSpace(texts);

    if IsTextFormat(format) {
      return Body(map["video_id" := JStr(videoId), "transcript" := JStr(fullText), "format" := JStr("text")]);
    }
    var response := map["video_id" := JStr(videoId), "transcript" := JStr(fullText),
                         "language" := JStr(track.languageCode), "generated" := JBool(track.isGenerated),
                         "format" := JStr("json")];
    if includeTimestamps {
      response := response["segments" := JList(data)];
    }
    return Body(response);
  }

  /** The query-parameter endpoint answers exactly what the path-parameter endpoint answers. */
  method GetTranscriptQuery(
    videoId: string, languages: Option<seq<LanguageCode>>, includeTimestamps: bool, format: string,
    listing: Result<TranscriptList, Failure>, fetch: Track -> Result<seq<Snippet>, Failure>)
    returns (reply: Reply)
    ensures reply == Handle(videoId, languages, includeTimestamps, format, listing, fetch)
  {
    reply := GetTranscript(videoId, languages, includeTimestamps, format, listing, fetch);
  }

  /** No partial responses: every failure of the library ends the request in its HTTP error. */
  lemma FailuresAreReported(
    videoId: string, languages: Option<seq<LanguageCode>>, includeTimestamps: bool, format: string,
    listing: Result<TranscriptList, Failure>, fetch: Track -> Result<seq<Snippet>, Failure>)
    ensures var r := Handle(videoId, languages, includeTimestamps, format, listing, fetch);
      && (listing.Err? ==> r == ErrorResponse(listing.error))
      && (listing.Ok? && Select(listing.value, languages).Err? ==> r == HttpError(404, NotFoundDetail))
      && (listing.Ok? && Select(listing.value, languages).Ok? && fetch(Select(listing.value, languages).value).Err?
          ==> r == ErrorResponse(fetch(Select(listing.value, languages).value).error))
      && (r.Body? <==> listing.Ok? && Select(listing.value, languages).Ok?
                        && fetch(Select(listing.value, languages).value).Ok?)
  {
  }

  /**
   * Without a preference, an empty catalog always ends in a 404 "no transcript
   * found"; a catalog with a track never does so unless fetching the selected
   * track itself reports that no transcript was found.
   */
  lemma NoPreferenceNotFoundOnlyWhenEmpty(
    videoId: string, languages: Option<seq<LanguageCode>>, includeTimestamps: bool, format: string,
    catalog: TranscriptList, fetch: Track -> Result<seq<Snippet>, Failure>)
    requires LookupWithin(catalog)
    requires !HasPreference(languages)
    ensures var r := Handle(videoId, languages, includeTimestamps, format, Ok(catalog), fetch);
      && (|catalog.manual| + |catalog.generated| == 0 ==> r == HttpError(404, NotFoundDetail))
      && (|catalog.manual| + |catalog.generated| > 0 ==>
            Select(catalog, languages).Ok?
            && (r == HttpError(404, NotFoundDetail) ==> fetch(Select(catalog, languages).value) == Err(NoTranscriptFound)))
  {
  }

  /** A video whose only track is generated English, asked without a preference, answers in English, generated. */
  lemma OnlyGeneratedEnglish(
    videoId: string, languages: Option<seq<LanguageCode>>, format: string,
    catalog: TranscriptList, fetch: Track -> Result<seq<Snippet>, Failure>)
    requires !HasPreference(languages) && !IsTextFormat(format)
    requires catalog.manual == [] && catalog.generated == [Track("en", true)]
    requires fetch(Track("en", true)).Ok?
    ensures var r := Handle(videoId, languages, false, format, Ok(catalog), fetch);
      r.Body? && r.fields["language"] == JStr("en") && r.fields["generated"] == JBool(true)
      && "segments" !in r.fields
  {
  }
}
