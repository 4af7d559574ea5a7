/** The per-session transcript log of the voice agent: an append-only list
    of entries, a projection to the elder's final utterances, and a
    speaker-labelled rendering of the whole conversation. Wall-clock
    timestamps are not part of the model. */
module Transcript {
  import opened Wrappers
  import opened Strings
  import opened Seqs

  /** One utterance; `speakerType` is `"user"` for the elder, anything
      else (in practice `"agent"`) for the AI. */
  datatype TranscriptEntry = TranscriptEntry(speakerType: string, text: string, isFinal: bool)

  /** Session-level data kept for one room. */
  datatype SessionUserdata = SessionUserdata(wardId: string, callId: string, transcripts: seq<TranscriptEntry>)

  const UserSpeaker: string := "user"
  const UserLabel: string := "어르신"
  const AgentLabel: string := "AI"
  const LabelSeparator: string := ": "
  const LineSeparator: char := '\n'

  /** `SessionUserdata.add_transcript`: records one more utterance, final
      unless stated otherwise. */
  function AddTranscript(u: SessionUserdata, speakerType: string, text: string, isFinal: bool := true): (u': SessionUserdata)
    ensures |u'.transcripts| == |u.transcripts| + 1
    ensures u'.transcripts[..|u.transcripts|] == u.transcripts
    ensures u'.transcripts[|u.transcripts|].speakerType == speakerType
    ensures u'.transcripts[|u.transcripts|].text == text
    ensures u'.transcripts[|u.transcripts|].isFinal == isFinal
    ensures u'.wardId == u.wardId && u'.callId == u.callId
  {
    u.(transcripts := u.transcripts + [TranscriptEntry(speakerType, text, isFinal)])
  }

  predicate IsUserFinal(e: TranscriptEntry)
  {
    e.speakerType == UserSpeaker && e.isFinal
  }

  predicate IsFinal(e: TranscriptEntry)
  {
    e.isFinal
  }

  function TextOf(e: TranscriptEntry): string
  {
    e.text
  }

  /** The texts of the elder's final utterances, in order. */
  function UserTranscripts(ts: seq<TranscriptEntry>): (texts: seq<string>)
    ensures |texts| <= |ts|
  {
    MapSeq(Filter(ts, IsUserFinal), TextOf)
  }

  /** The label shown before a line: the elder is addressed as 어르신,
      every other speaker is shown as AI. */
  function SpeakerLabel(speakerType: string): (tag: string)
    ensures tag == UserLabel <==> speakerType == UserSpeaker
    ensures tag == UserLabel || tag == AgentLabel
  {
    if speakerType == UserSpeaker then UserLabel else AgentLabel
  }

  /** One rendered line: label, `": "`, text. */
  function FormatLine(e: TranscriptEntry): string
  {
    SpeakerLabel(e.speakerType) + LabelSeparator + e.text
  }

  /** The rendered lines of the final entries, in order. */
  function Lines(ts: seq<TranscriptEntry>): (lines: seq<string>)
    ensures |lines| <= |ts|
  {
    MapSeq(Filter(ts, IsFinal), FormatLine)
  }

  /** The whole conversation as text, one line per final entry. */
  function FullTranscript(ts: seq<TranscriptEntry>): string
  {
    Join(Lines(ts), [LineSeparator])
  }

  /** Splits a rendered line back into its label and text at the first `:`,
      provided a space follows it. */
  function ParseLine(line: string): Option<(string, string)>
  {
    if ':' in line then
      var i := IndexOf(line, ':');
      if i + 1 < |line| && line[i + 1] == ' ' then Some((line[..i], line[i + 2..])) else None
    else
      None
  }

  /** A rendered line determines its speaker label and its text. */
  lemma ParseFormatLine(e: TranscriptEntry)
    ensures ParseLine(FormatLine(e)) == Some((SpeakerLabel(e.speakerType), e.text))
  {
    var tag := SpeakerLabel(e.speakerType);
    assert ':' !in tag;
    var line := FormatLine(e);
    assert line == tag + [':'] + ([' '] + e.text);
    IndexOfAfterPrefix(tag, ':', [' '] + e.text);
    assert line[..|tag|] == tag;
    assert line[|tag| + 2..] == e.text;
  }

  /** Adding an entry extends the elder's texts by its text exactly when it
      is a final utterance of the elder, and leaves them unchanged otherwise. */
  lemma AddTranscriptUserTranscripts(u: SessionUserdata, speakerType: string, text: string, isFinal: bool)
    ensures UserTranscripts(AddTranscript(u, speakerType, text, isFinal).transcripts)
         == UserTranscripts(u.transcripts)
            + (if speakerType == UserSpeaker && isFinal then [text] else [])
  {
    var e := TranscriptEntry(speakerType, text, isFinal);
    FilterAppend(u.transcripts, [e], IsUserFinal);
    MapSeqAppend(Filter(u.transcripts, IsUserFinal), Filter([e], IsUserFinal), TextOf);
  }

  /** The elder's texts are exactly the texts at the positions holding a
      final utterance of the elder, in increasing position order. */
  lemma UserTranscriptsByPosition(ts: seq<TranscriptEntry>)
    ensures |UserTranscripts(ts)| == |IndicesWhere(ts, IsUserFinal)|
    ensures forall k :: 0 <= k < |UserTranscripts(ts)| ==>
              UserTranscripts(ts)[k] == ts[IndicesWhere(ts, IsUserFinal)[k]].text
  {
    FilterByIndices(ts, IsUserFinal);
  }

  /** The rendered lines are the formatted final entries, in position order. */
  lemma LinesByPosition(ts: seq<TranscriptEntry>)
    ensures |Lines(ts)| == |IndicesWhere(ts, IsFinal)|
    ensures forall k :: 0 <= k < |Lines(ts)| ==>
              Lines(ts)[k] == FormatLine(ts[IndicesWhere(ts, IsFinal)[k]])
  {
    FilterByIndices(ts, IsFinal);
  }

  /** Lines of a concatenation are the concatenated lines. */
  lemma LinesAppend(a: seq<TranscriptEntry>, b: seq<TranscriptEntry>)
    ensures Lines(a + b) == Lines(a) + Lines(b)
  {
    FilterAppend(a, b, IsFinal);
    MapSeqAppend(Filter(a, IsFinal), Filter(b, IsFinal), FormatLine);
  }

  /** The transcript is empty exactly when no entry is final. */
  lemma FullTranscriptEmpty(ts: seq<TranscriptEntry>)
    ensures FullTranscript(ts) == "" <==> forall i :: 0 <= i < |ts| ==> !ts[i].isFinal
  {
    FilterNone(ts, IsFinal);
    var lines := Lines(ts);
    if |lines| > 0 {
      JoinStartsWithHead(lines, [LineSeparator]);
      assert |lines[0]| >= |LabelSeparator|;
    }
  }

  /** Appending an entry to a log appends its line after a newline, or makes
      it the only line; a non-final entry leaves the rendering unchanged. */
  lemma FullTranscriptSnoc(ts: seq<TranscriptEntry>, e: TranscriptEntry)
    ensures FullTranscript(ts + [e])
         == if !e.isFinal then FullTranscript(ts)
            else if FullTranscript(ts) == "" then FormatLine(e)
            else FullTranscript(ts) + [LineSeparator] + FormatLine(e)
  {
    LinesAppend(ts, [e]);
    if e.isFinal {
      assert Lines([e]) == [FormatLine(e)];
      JoinAppend(Lines(ts), FormatLine(e), [LineSeparator]);
      FullTranscriptEmpty(ts);
      FilterNone(ts, IsFinal);
    } else {
      assert Lines([e]) == [];
      assert Lines(ts) + [] == Lines(ts);
    }
  }

  /** Recording an utterance through `AddTranscript` extends the rendered
      conversation by that utterance's line when, and only when, it is final. */
  lemma AddTranscriptFullTranscript(u: SessionUserdata, speakerType: string, text: string, isFinal: bool)
    ensures (var before := FullTranscript(u.transcripts);
             var line := FormatLine(TranscriptEntry(speakerType, text, isFinal));
             FullTranscript(AddTranscript(u, speakerType, text, isFinal).transcripts)
             == if !isFinal then before
                else if before == "" then line
                else before + [LineSeparator] + line)
  {
    FullTranscriptSnoc(u.transcripts, TranscriptEntry(speakerType, text, isFinal));
  }

  /** When no final text contains a newline, splitting the transcript at
      newlines recovers its lines one by one. */
  lemma SplitFullTranscript(ts: seq<TranscriptEntry>)
    requires exists i :: 0 <= i < |ts| && ts[i].isFinal
    requires forall i :: 0 <= i < |ts| && ts[i].isFinal ==> LineSeparator !in ts[i].text
    ensures Split(FullTranscript(ts), LineSeparator) == Lines(ts)
  {
    var i :| 0 <= i < |ts| && ts[i].isFinal;
    assert ts[i] in Filter(ts, IsFinal);
    var lines := Lines(ts);
    forall k | 0 <= k < |lines|
      ensures LineSeparator !in lines[k]
    {
      var e := Filter(ts, IsFinal)[k];
      assert e in ts && e.isFinal;
      assert LineSeparator !in SpeakerLabel(e.speakerType);
      assert lines[k] == SpeakerLabel(e.speakerType) + LabelSeparator + e.text;
    }
    SplitJoin(lines, LineSeparator);
  }

  /** `SessionUserdata.get_full_transcript` as a loop: collect the lines of
      the final entries in one pass, then join them with newlines. */
  method GetFullTranscript(u: SessionUserdata) returns (s: string)
    ensures s == FullTranscript(u.transcripts)
  {
    var ts := u.transcripts;
    var lines: seq<string> := [];
    var i := 0;
    while i < |ts|
      invariant 0 <= i <= |ts|
      invariant lines == Lines(ts[..i])
    {
      var t := ts[i];
      assert ts[..i + 1] == ts[..i] + [t];
      LinesAppend(ts[..i], [t]);
      if t.isFinal {
        var speaker := if t.speakerType == UserSpeaker then UserLabel else AgentLabel;
        lines := lines + [speaker + LabelSeparator + t.text];
      }
      i := i + 1;
    }
    assert ts[..|ts|] == ts;
    s := Join(lines, [LineSeparator]);
  }
}
