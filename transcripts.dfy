/**
 * The values the transcript endpoint works on: the catalog of tracks that the
 * transcript library lists for one video, the timed snippets of a track, the
 * library's failure kinds, and the JSON values the endpoint answers with.
 */
module Transcripts {
  import opened Wrappers

  type LanguageCode = string

  /** Seconds as the library reports them; carried as payload, never computed with. */
  type Seconds = real

  /** One selectable transcript track: its language code and whether it was generated. */
  datatype Track = Track(languageCode: LanguageCode, isGenerated: bool)

  /**
   * The catalog listed for one video. `manual` and `generated` are the two
   * per-kind dictionaries of the library in their enumeration order (each
   * dictionary is keyed by the track's language code). `findTranscript` is the
   * library's own lookup by an explicit list of language codes; its ranking is
   * not part of this model, it is an arbitrary total function that answers
   * None where the library raises "no transcript found".
   */
  datatype TranscriptList = TranscriptList(
    manual: seq<Track>,
    generated: seq<Track>,
    findTranscript: seq<LanguageCode> -> Option<Track>)

  /** One fetched caption unit, in the order the track delivers them. */
  datatype Snippet = Snippet(text: string, start: Seconds, duration: Seconds)

  /** The library's failures that the endpoint tells apart, and all the others. */
  datatype Failure =
    | TranscriptsDisabled
    | NoTranscriptFound
    | VideoUnavailable
    | OtherError(description: string)

  /** A JSON value as the web framework serialises it. */
  datatype Json =
    | JStr(str: string)
    | JBool(flag: bool)
    | JNum(num: real)
    | JList(items: seq<Json>)
    | JObject(fields: map<string, Json>)

  /** What one request ends in: a JSON object body, or an HTTP error with a detail message. */
  datatype Reply =
    | Body(fields: map<string, Json>)
    | HttpError(status: nat, detail: string)

  predicate HasCode(tracks: seq<Track>, code: LanguageCode)
  {
    exists i :: 0 <= i < |tracks| && tracks[i].languageCode == code
  }

  /** A dictionary keyed by language code holds each key once. */
  predicate UniqueCodes(tracks: seq<Track>)
  {
    forall i, j :: 0 <= i < j < |tracks| ==> tracks[i].languageCode != tracks[j].languageCode
  }

  /** The catalog as the library builds it: unique keys per kind, and each track in the dictionary of its kind. */
  predicate WellFormed(c: TranscriptList)
  {
    && UniqueCodes(c.manual)
    && UniqueCodes(c.generated)
    && (forall i :: 0 <= i < |c.manual| ==> !c.manual[i].isGenerated)
    && (forall i :: 0 <= i < |c.generated| ==> c.generated[i].isGenerated)
  }

  /** The library's lookup only ever answers with a track of the catalog it was asked about. */
  ghost predicate LookupWithin(c: TranscriptList)
  {
    forall codes :: c.findTranscript(codes).Some? ==>
      c.findTranscript(codes).value in c.manual || c.findTranscript(codes).value in c.generated
  }

  /**
   * Lookup of one language code in one per-kind dictionary, as the library's
   * find_manually_created_transcript(['en']) and find_generated_transcript(['en'])
   * do: the track stored under that key, or None where the library raises.
   */
  function Lookup(tracks: seq<Track>, code: LanguageCode): (r: Option<Track>)
    ensures r.Some? <==> HasCode(tracks, code)
    ensures r.Some? ==>
      exists i :: 0 <= i < |tracks| && tracks[i] == r.value && r.value.languageCode == code
        && forall j :: 0 <= j < i ==> tracks[j].languageCode != code
  {
    if |tracks| == 0 then None
    else if tracks[0].languageCode == code then Some(tracks[0])
    else
      var rest := Lookup(tracks[1..], code);
      assert HasCode(tracks, code) ==> HasCode(tracks[1..], code) by {
        if HasCode(tracks, code) {
          var i :| 0 <= i < |tracks| && tracks[i].languageCode == code;
          assert tracks[1..][i - 1] == tracks[i];
        }
      }
      if rest.Some? then
        var i :| 0 <= i < |tracks[1..]| && tracks[1..][i] == rest.value
          && forall j :: 0 <= j < i ==> tracks[1..][j].languageCode != code;
        assert tracks[i + 1] == rest.value;
        assert forall j :: 0 <= j < i + 1 ==> tracks[j].languageCode != code by {
          forall j | 0 <= j < i + 1 ensures tracks[j].languageCode != code {
            if j > 0 { assert tracks[j] == tracks[1..][j - 1]; }
          }
        }
        rest
      else
        rest
  }

  /** In a dictionary with unique keys, the lookup finds exactly the track stored under the key. */
  lemma LookupFindsKey(tracks: seq<Track>, t: Track)
    requires UniqueCodes(tracks)
    requires t in tracks
    ensures Lookup(tracks, t.languageCode) == Some(t)
  {
  }
}
