/**
 * Shaping a fetched track into the endpoint's response: each snippet becomes
 * a three-field record, the texts are joined with single spaces into the full
 * transcript, and the requested format picks a plain-text or a JSON object.
 */
module Shaping {
  import opened Wrappers
  import opened Transcripts

  /** The record a snippet becomes in the response. */
  function SegmentRecord(s: Snippet): Json
  {
    JObject(map["text" := JStr(s.text), "start" := JNum(s.start), "duration" := JNum(s.duration)])
  }

  /** Reads a segment record back into the snippet it came from, if it has that shape. */
  function RecordSnippet(j: Json): Option<Snippet>
  {
    if j.JObject? && j.fields.Keys == {"text", "start", "duration"}
      && j.fields["text"].JStr? && j.fields["start"].JNum? && j.fields["duration"].JNum?
    then Some(Snippet(j.fields["text"].str, j.fields["start"].num, j.fields["duration"].num))
    else None
  }

  /** The text field of a record, as the join reads it. */
  function RecordText(j: Json): string
  {
    if j.JObject? && "text" in j.fields && j.fields["text"].JStr? then j.fields["text"].str else ""
  }

  /**
   * The records of a track's snippets: one per snippet, in the same order,
   * each reading back to exactly its snippet and carrying its text.
   */
  function ToRecords(snippets: seq<Snippet>): (r: seq<Json>)
    ensures |r| == |snippets|
    ensures forall i :: 0 <= i < |r| ==> RecordSnippet(r[i]) == Some(snippets[i])
    ensures forall i :: 0 <= i < |r| ==> RecordText(r[i]) == snippets[i].text
  {
    seq(|snippets|, i requires 0 <= i < |snippets| => SegmentRecord(snippets[i]))
  }

  function Texts(snippets: seq<Snippet>): seq<string>
  {
    seq(|snippets|, i requires 0 <= i < |snippets| => snippets[i].text)
  }

  /** The strings joined with one space between neighbours, as Python's " ".join does. */
  function JoinWithSpace(parts: seq<string>): (r: string)
    ensures |parts| == 0 ==> r == ""
  {
    if |parts| == 0 then ""
    else if |parts| == 1 then parts[0]
    else parts[0] + " " + JoinWithSpace(parts[1..])
  }

  /** Reference form of the join: every part followed by one space. */
  function Suffixed(parts: seq<string>): string
  {
    if |parts| == 0 then "" else parts[0] + " " + Suffixed(parts[1..])
  }

  function TotalLength(parts: seq<string>): nat
  {
    if |parts| == 0 then 0 else |parts[0]| + TotalLength(parts[1..])
  }

  /** The join is the suffixed form without its final space: one separator between neighbours, none at the ends. */
  lemma {:induction false} JoinIsSuffixedWithoutLastSpace(parts: seq<string>)
    requires |parts| > 0
    ensures JoinWithSpace(parts) + " " == Suffixed(parts)
  {
    if |parts| > 1 {
      JoinIsSuffixedWithoutLastSpace(parts[1..]);
      calc {
        JoinWithSpace(parts) + " ";
        parts[0] + " " + JoinWithSpace(parts[1..]) + " ";
        parts[0] + " " + Suffixed(parts[1..]);
      }
    } else {
      assert parts[1..] == [];
    }
  }

  /** Nothing is trimmed or added: the texts' lengths plus one space per gap. */
  lemma {:induction false} JoinLength(parts: seq<string>)
    requires |parts| > 0
    ensures |JoinWithSpace(parts)| == TotalLength(parts) + |parts| - 1
  {
    if |parts| > 1 {
      JoinLength(parts[1..]);
    }
  }

  /** Joining two non-empty lists puts exactly one space between their joins. */
  lemma {:induction false} JoinAppend(front: seq<string>, back: seq<string>)
    requires |front| > 0 && |back| > 0
    ensures JoinWithSpace(front + back) == JoinWithSpace(front) + " " + JoinWithSpace(back)
  {
    if |front| == 1 {
      assert (front + back)[1..] == back;
    } else {
      assert (front + back)[1..] == front[1..] + back;
      JoinAppend(front[1..], back);
    }
  }

  /** ASCII lower-casing of one character. */
  function LowerChar(ch: char): char
  {
    if 'A' <= ch <= 'Z' then (ch as int + 32) as char else ch
  }

  /** ASCII lower-casing: only upper-case letters change, each to its lower-case partner. */
  function AsciiLower(s: string): (r: string)
    ensures |r| == |s|
    ensures forall i :: 0 <= i < |r| ==> !('A' <= r[i] <= 'Z')
    ensures forall i :: 0 <= i < |r| ==>
      r[i] == s[i] || ('A' <= s[i] <= 'Z' && r[i] as int == s[i] as int + 32)
  {
    seq(|s|, i requires 0 <= i < |s| => LowerChar(s[i]))
  }

  /** The requested format is "text" up to case. */
  predicate IsTextFormat(format: string)
  {
    AsciiLower(format) == "text"
  }

  /** Exactly the sixteen spellings of "text" in any mix of cases select the text format. */
  lemma TextFormatSpellings(format: string)
    ensures IsTextFormat(format) <==>
      |format| == 4 && forall i :: 0 <= i < 4 ==> format[i] == "text"[i] || format[i] == "TEXT"[i]
  {
  }

  /** The response body for a fetched track, as the endpoint builds it. */
  function Shape(videoId: string, track: Track, snippets: seq<Snippet>, includeTimestamps: bool, format: string)
    : map<string, Json>
  {
    var fullText := JoinWithSpace(Texts(snippets));
    if IsTextFormat(format) then
      map["video_id" := JStr(videoId), "transcript" := JStr(fullText), "format" := JStr("text")]
    else
      var response := map["video_id" := JStr(videoId), "transcript" := JStr(fullText),
                           "language" := JStr(track.languageCode), "generated" := JBool(track.isGenerated),
                           "format" := JStr("json")];
      if includeTimestamps then response["segments" := JList(ToRecords(snippets))] else response
  }

  /**
   * A text-format response has exactly the keys video_id, transcript and
   * format, with format "text" and the joined texts as transcript.
   */
  lemma TextShape(videoId: string, track: Track, snippets: seq<Snippet>, includeTimestamps: bool, format: string)
    requires IsTextFormat(format)
    ensures var r := Shape(videoId, track, snippets, includeTimestamps, format);
      && r.Keys == {"video_id", "transcript", "format"}
      && r["video_id"] == JStr(videoId)
      && r["transcript"] == JStr(JoinWithSpace(Texts(snippets)))
      && r["format"] == JStr("text")
  {
  }

  /**
   * Any other format gives a JSON-format response carrying the track's
   * language and generated flag; segments are present exactly when
   * timestamps were asked for, and then are the records of all snippets.
   */
  lemma JsonShape(videoId: string, track: Track, snippets: seq<Snippet>, includeTimestamps: bool, format: string)
    requires !IsTextFormat(format)
    ensures var r := Shape(videoId, track, snippets, includeTimestamps, format);
      && r.Keys == {"video_id", "transcript", "language", "generated", "format"}
                   + (if includeTimestamps then {"segments"} else {})
      && r["video_id"] == JStr(videoId)
      && r["transcript"] == JStr(JoinWithSpace(Texts(snippets)))
      && r["language"] == JStr(track.languageCode)
      && r["generated"] == JBool(track.isGenerated)
      && r["format"] == JStr("json")
      && ("segments" in r <==> includeTimestamps)
      && (includeTimestamps ==> r["segments"] == JList(ToRecords(snippets)))
  {
  }
}
