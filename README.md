# YouTube transcript endpoint — a Dafny model

This project models the core of a small web service that returns the
transcript of a YouTube video. The service lists the video's transcript
catalog through the `youtube_transcript_api` library. It then picks exactly
one track, fetches that track's timed snippets and answers with either a
plain-text object or a JSON object. Each library failure becomes an HTTP
error.

The model is built from these modules:

- `Wrappers` (`wrappers.dfy`): the `Option` and `Result` values.
- `Transcripts` (`transcripts.dfy`): the data model.
  - The catalog (`TranscriptList`) holds manual and generated tracks, each in
    enumeration order, plus the library's own lookup by a language list.
  - The other values are snippets, the library's failure kinds, JSON values and
    the reply.
  - `Lookup` is the library's lookup of one language key in one per-kind
    dictionary.
- `Selection` (`selection.dfy`): the track-selection policy as a total
  function, `Select`, and lemmas covering each fallback tier.
- `Shaping` (`shaping.dfy`): snippet records, the single-space join, the
  case-insensitive `"text"` format test and the response object.
- `Errors` (`errors.dfy`): the failure-to-status mapping.
- `Endpoint` (`endpoint.dfy`):
  - `GetTranscript` is the handler written step by step, the way the source
    is: the selected transcript starts absent and each tier may set it, and
    the JSON response gains its `segments` field in place.
  - It is proved equal to the specification function `Handle`.
  - `GetTranscriptQuery` is the query-parameter alias.

The library calls that go over the network are inputs to the model:

- `listing` is what listing the catalog returned: a catalog, or a failure.
- `fetch` is what fetching each track returns: its snippets, or a failure.
- `TranscriptList.findTranscript` is the library's lookup for a
  caller-supplied language list. It is an arbitrary total function. The only
  property ever assumed of it is `LookupWithin`: it answers only with tracks
  of its own catalog.

Two choices of the model follow the endpoint as written:

- The endpoint does not check that the video identifier is non-empty, and the
  model does not either.
- Fetching a track may fail with any failure. `fetch` returns any `Failure`,
  and each one is mapped as the endpoint maps it (main.py:114-121).

## Model

| member | source | states |
|---|---|---|
| `Transcripts.Lookup` | main.py:53-54 | The lookup of a key succeeds exactly when some track has that language code, and then it returns the first such track. |
| `Transcripts.LookupFindsKey` | main.py:54 | When keys are unique, looking up a track's own language code returns that very track. |
| `Selection.FoundOr` | main.py:44-46 | A lookup miss becomes "no transcript found". A hit becomes the selected track. |
| `Selection.DefaultChain` | main.py:47-74 | The four fallback tiers yield a track exactly when the catalog lists at least one track, and the track is one of the catalog's. |
| `Selection.Select` | main.py:42-81 | Selection either yields one track or fails with "no transcript found". It never fails in any other way. |
| `Selection.SelectManualEnglish` | main.py:53-54 | Without a preference, a manual `en` track is always the one selected. |
| `Selection.SelectFirstManual` | main.py:55-60 | Without a preference and without a manual `en` track, the first manual track is selected. |
| `Selection.SelectGenerated` | main.py:64-72 | Without a preference and without manual tracks, a generated `en` track is selected if there is one. Otherwise the first generated track is selected. |
| `Selection.SelectSucceedsIffCatalogNonEmpty` | main.py:76-81 | Without a preference, selection succeeds if and only if the catalog lists a track. The last `en` lookup is reached only for an empty catalog, and there it fails. |
| `Selection.SelectDelegates` | main.py:44-46 | With a non-empty language list, the selection is exactly the answer of the catalog's own lookup for that list. |
| `Selection.SelectWithinCatalog` | main.py:42-81 | A selected track is always a track of the catalog. |
| `Selection.SelectPrefersManual` | main.py:47-72 | Without a preference, the selected track is generated if and only if the catalog has no manual track. |
| `Shaping.ToRecords` | main.py:87-90 | There is one record per snippet, in the same order. Each record reads back to exactly its snippet and carries its text. |
| `Shaping.JoinWithSpace` | main.py:92 | An empty list of texts joins to the empty string. |
| `Shaping.JoinIsSuffixedWithoutLastSpace` | main.py:92 | The full text is each text followed by one space, with the final space dropped. So neighbours are separated by exactly one space and nothing is trimmed. |
| `Shaping.JoinLength` | main.py:92 | The full text's length is the sum of the text lengths plus one per gap. |
| `Shaping.JoinAppend` | main.py:92 | Joining two concatenated lists puts exactly one space between the two joins. |
| `Shaping.AsciiLower` | main.py:94 | Lower-casing keeps the length and leaves no upper-case ASCII letter. Each character is unchanged or is its lower-case partner. |
| `Shaping.TextFormatSpellings` | main.py:94 | The text format is chosen if and only if the format is "text" in some mix of upper and lower case. |
| `Shaping.TextShape` | main.py:94-95 | A text response has exactly the keys `video_id`, `transcript` and `format`. Its `format` is "text" and its `transcript` is the joined texts. |
| `Shaping.JsonShape` | main.py:101-112 | A JSON response has `format` "json" and the track's `language` and `generated`. It has `segments` if and only if timestamps were requested, and then `segments` holds all the records. |
| `Errors.ErrorResponse` | main.py:114-121 | Disabled, not-found and unavailable each give 404 with their fixed message. Every other failure gives 400 with the failure's own text. |
| `Errors.ErrorResponseInjective` | main.py:114-121 | Failures of different named kinds, or other failures with different texts, never give the same HTTP error. |
| `Endpoint.GetTranscript` | main.py:24-121 | The step-by-step handler answers exactly what `Handle` specifies. |
| `Endpoint.GetTranscriptQuery` | main.py:123-133 | The query-parameter endpoint answers exactly what the path-parameter endpoint answers. |
| `Endpoint.FailuresAreReported` | main.py:36-121 | A failed listing, selection or fetch ends in that failure's HTTP error, so no partial response is ever given. A body is given if and only if all three steps succeed. |
| `Endpoint.NoPreferenceNotFoundOnlyWhenEmpty` | main.py:76-117 | Without a preference, an empty catalog always gives 404 "no transcript found". A non-empty catalog always selects a track, and it gives that reply only when fetching the track reports it. |
| `Endpoint.OnlyGeneratedEnglish` | main.py:64-107 | If the only track is generated English and no preference is given, the JSON answer has language `en`, `generated` true and no `segments`. |

## Left out

- Building the FastAPI app, the CORS middleware, the root greeting route and the uvicorn launcher (main.py:6-22, main.py:135-137): these are framework and server plumbing.
- Query-string parsing and the framework's own validation, such as the error for a missing `video_id` on the query endpoint: this belongs to the web framework.
- The network calls `YouTubeTranscriptApi().list` and `fetch()`: both are inputs, `listing` and `fetch`.
- The ranking that the library's `find_transcript` applies to a caller-supplied language list: its code is not part of this model. So nothing is proved about which requested language wins.
- `start` and `duration` are floats in the source. They are carried as payload values and never computed with.
- `Shaping.AsciiLower`: it folds ASCII case only, not all of Unicode as Python's `str.lower()` does.
- The text of the three named library exceptions: the endpoint replaces it with fixed messages, so it is not modelled.
- The key order of the JSON response: the framework serialises the object in insertion order (`video_id`, `transcript`, `language`, `generated`, `format`, `segments`), while `Shape` builds a `map`, which has no order.
- Exceptions other than the three named kinds are modelled by their text alone (`OtherError`): two different exception classes with equal `str(e)` are one failure in the model.
- The bare `except: pass` around reading the library's private per-kind dictionaries (main.py:56-62, main.py:68-74): in the model `manual` and `generated` can always be read, so a tier is never skipped because reading them failed.
- test_api.py: it is an HTTP integration test against a live server and a real video, with no logic of its own.
