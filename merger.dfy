/**
 * The Markdown timeline report: clock formatting, the fixed-order report
 * builder, and the synthesis call with its fallback to that report.
 */
module Merger {
  import opened Wrappers
  import opened Text
  import opened Clock
  import opened DataModel

  // ---------------------------------------------------------------------------
  // Clock formatting
  // ---------------------------------------------------------------------------

  /** Hours, minutes and seconds read back from a formatted clock. */
  datatype Hms = Hms(hours: int, minutes: int, seconds: int)

  /**
   * MM:SS, or HH:MM:SS when the hour count is positive; each field at least
   * two digits. Hours are seconds // 3600, minutes (seconds % 3600) // 60 and
   * seconds int(seconds % 60), with Python's floor division and remainder.
   */
  function FormatTimestamp(seconds: real): (r: string)
    ensures |r| >= 5 && r[|r| - 3] == ':'
    ensures Div3600(seconds) > 0 <==> |r| > 5
    ensures Div3600(seconds) > 0 ==> r[|r| - 6] == ':'
  {
    HoursMinutesSeconds(seconds);
    var h := Div3600(seconds);
    var m := Div60(Mod3600(seconds));
    var s := Mod60(seconds).Floor;
    if h > 0 then Pad2(h) + ":" + Pad2(m) + ":" + Pad2(s) else Pad2(m) + ":" + Pad2(s)
  }

  /** Read a clock back: the last two digits, the two before the colon, and whatever leads. */
  function ParseTimestamp(t: string): Hms
    requires |t| >= 5
  {
    Hms(if |t| > 5 then Value(t[..|t| - 6]) else 0, Value(t[|t| - 5..|t| - 3]), Value(t[|t| - 2..]))
  }

  /**
   * The clock shows the hours (when positive), the minutes within the hour
   * and the seconds within the minute; for a non-negative time they add up
   * to its whole seconds.
   */
  lemma FormatTimestampRoundTrip(x: real)
    ensures var c := ParseTimestamp(FormatTimestamp(x));
      && c == Hms(if Div3600(x) > 0 then Div3600(x) else 0, Div60(Mod3600(x)), Mod60(x).Floor)
      && 0 <= c.minutes < 60 && 0 <= c.seconds < 60
      && (x >= 0.0 ==> c.hours * 3600 + c.minutes * 60 + c.seconds == x.Floor)
  {
    HoursMinutesSeconds(x);
    var h := Div3600(x);
    var m: nat := Div60(Mod3600(x));
    var s: nat := Mod60(x).Floor;
    var r := FormatTimestamp(x);
    if h > 0 {
      assert r == Pad2(h) + ":" + Pad2(m) + ":" + Pad2(s);
      ParseLong(h, m, s, r);
    } else {
      assert r == Pad2(m) + ":" + Pad2(s);
      ParseShort(m, s, r);
    }
  }

  /** An HH:MM:SS clock reads back as its three fields. */
  lemma ParseLong(h: nat, m: nat, s: nat, r: string)
    requires m < 60 && s < 60 && r == Pad2(h) + ":" + Pad2(m) + ":" + Pad2(s)
    ensures |r| > 5 && ParseTimestamp(r) == Hms(h, m, s)
  {
    ClockFields(Pad2(h), Pad2(m), Pad2(s));
  }

  /** An MM:SS clock reads back as no hours and its two fields. */
  lemma ParseShort(m: nat, s: nat, r: string)
    requires m < 60 && s < 60 && r == Pad2(m) + ":" + Pad2(s)
    ensures |r| == 5 && ParseTimestamp(r) == Hms(0, m, s)
  {
    ShortClockFields(Pad2(m), Pad2(s));
  }

  /** The fields of an HH:MM:SS string sit at fixed distances from its end. */
  lemma ClockFields(hh: string, mm: string, ss: string)
    requires |mm| == 2 && |ss| == 2
    ensures var r := hh + ":" + mm + ":" + ss;
      && |r| == |hh| + 6 && r[|r| - 2..] == ss && r[|r| - 5..|r| - 3] == mm && r[..|r| - 6] == hh
  {
    var r := hh + ":" + mm + ":" + ss;
    assert r[|r| - 2..] == ss;
    assert r[|r| - 5..|r| - 3] == mm;
    assert r[..|r| - 6] == hh;
  }

  /** The fields of an MM:SS string. */
  lemma ShortClockFields(mm: string, ss: string)
    requires |mm| == 2 && |ss| == 2
    ensures var r := mm + ":" + ss; |r| == 5 && r[3..] == ss && r[..2] == mm
  {
    var r := mm + ":" + ss;
    assert r[3..] == ss;
    assert r[..2] == mm;
  }

  // ---------------------------------------------------------------------------
  // Report pieces
  // ---------------------------------------------------------------------------

  /** Python's "c" * n: n copies, none when n is not positive. */
  function Repeat(c: char, n: int): (r: string)
    ensures |r| == if n > 0 then n else 0
    ensures forall k :: 0 <= k < |r| ==> r[k] == c
    decreases n
  {
    if n <= 0 then "" else [c] + Repeat(c, n - 1)
  }

  const Star: char := '\U{2B50}'

  /** The confidence rating: min(5, int(confidence * 5)) stars. */
  function Stars(confidence: real): string
  {
    var n := Trunc(confidence * 5.0);
    Repeat(Star, if n < 5 then n else 5)
  }

  /** The rating never exceeds five stars; for a confidence in [0, 1] it is floor(5 * confidence). */
  lemma StarsBound(confidence: real)
    ensures var r := Stars(confidence);
      && |r| <= 5
      && (forall k :: 0 <= k < |r| ==> r[k] == Star)
      && (0.0 <= confidence <= 1.0 ==> |r| == (confidence * 5.0).Floor)
  {
  }

  /** Python's f"{x:.2f}", rounding half up on the exact value. */
  function Fixed2(x: real): string
    decreases if x < 0.0 then 1 else 0
  {
    if x < 0.0 then "-" + Fixed2(-x)
    else
      var n := (x * 100.0 + 0.5).Floor;
      assert n >= 0;
      Digits(n / 100) + "." + Pad2(n % 100)
  }

  const Title: string := "# \U{1F3AC} Video Analysis Report\n"
  const Separator: string := "\n---\n"
  const VisualHeading: string := "## \U{1F4F9} Visual Analysis\n"
  const VisualClose: string := "\n\n---\n"
  const AudioHeading: string := "## \U{1F3A4} Audio Transcription\n"
  const NoTranscription: string := "*No transcription available*\n"

  /** The head lines: title, duration, number of utterances, rule. */
  function HeadLines(segments: nat, duration: real): seq<string>
  {
    [ Title,
      "**Duration:** " + FormatTimestamp(duration) + "\n",
      "**Total Transcript Segments:** " + Digits(segments) + "\n",
      Separator ]
  }

  /** "start - end", each as a clock. */
  function TimeRange(t: Transcript): string
  {
    FormatTimestamp(t.start) + " - " + FormatTimestamp(t.end)
  }

  /** The three lines of the subsection for the i-th utterance. */
  function SubsectionLines(i: nat, t: Transcript): seq<string>
  {
    [ "### [" + TimeRange(t) + "] Segment " + Digits(i) + "\n",
      "**Confidence:** " + Stars(t.confidence) + " (" + Fixed2(t.confidence) + ")\n\n",
      t.text + "\n\n" ]
  }

  /** One subsection per utterance, in input order, numbered from one. */
  function Subsections(ts: seq<Transcript>): (r: seq<seq<string>>)
    ensures |r| == |ts|
  {
    seq(|ts|, k requires 0 <= k < |ts| => SubsectionLines(k + 1, ts[k]))
  }

  /** Groups of lines laid end to end, as the loop appends them. */
  function Flatten(groups: seq<seq<string>>): seq<string>
  {
    if groups == [] then [] else Flatten(groups[..|groups| - 1]) + groups[|groups| - 1]
  }

  /** The list of lines the report is joined from. */
  function ReportLines(visualAnalysis: string, ts: seq<Transcript>, duration: real): seq<string>
  {
    HeadLines(|ts|, duration) + [VisualHeading, visualAnalysis, VisualClose, AudioHeading]
    + if ts == [] then [NoTranscription] else Flatten(Subsections(ts))
  }

  /** The report: its lines joined with nothing between them. */
  function Report(visualAnalysis: string, ts: seq<Transcript>, duration: real): string
  {
    Concat(ReportLines(visualAnalysis, ts, duration))
  }

  /** One loop step: append the three lines of the subsection for the i-th utterance. */
  method AppendSubsection(markdown: seq<string>, i: nat, t: Transcript) returns (extended: seq<string>)
    ensures extended == markdown + SubsectionLines(i, t)
  {
    var timeRange := TimeRange(t);
    var confidenceStars := Stars(t.confidence);
    var heading := "### [" + timeRange + "] Segment " + Digits(i) + "\n";
    var rating := "**Confidence:** " + confidenceStars + " (" + Fixed2(t.confidence) + ")\n\n";
    var body := t.text + "\n\n";
    extended := markdown + [heading];
    extended := extended + [rating];
    extended := extended + [body];
    assert extended == markdown + [heading, rating, body];
  }

  /** The head of the report, appended line by line up to the audio heading. */
  method ReportHead(visualAnalysis: string, segments: nat, duration: real) returns (markdown: seq<string>)
    ensures markdown == HeadLines(segments, duration) + [VisualHeading, visualAnalysis, VisualClose, AudioHeading]
  {
    var durationLine := "**Duration:** " + FormatTimestamp(duration) + "\n";
    var countLine := "**Total Transcript Segments:** " + Digits(segments) + "\n";
    markdown := [];
    markdown := markdown + [Title];
    markdown := markdown + [durationLine];
    markdown := markdown + [countLine];
    markdown := markdown + [Separator];
    markdown := markdown + [VisualHeading];
    markdown := markdown + [visualAnalysis];
    markdown := markdown + [VisualClose];
    markdown := markdown + [AudioHeading];
    assert markdown == [Title, durationLine, countLine, Separator] + [VisualHeading, visualAnalysis, VisualClose, AudioHeading];
  }

  /** Appending the next group keeps the lines equal to the head and the groups so far. */
  lemma FlattenStep(head: seq<string>, groups: seq<seq<string>>, i: nat, before: seq<string>, after: seq<string>)
    requires i < |groups|
    requires before == head + Flatten(groups[..i]) && after == before + groups[i]
    ensures after == head + Flatten(groups[..i + 1])
  {
    var prefix := groups[..i + 1];
    assert prefix[..i] == groups[..i] && prefix[i] == groups[i];
    assert Flatten(prefix) == Flatten(groups[..i]) + groups[i];
  }

  /** The loop over the utterances: one subsection each, in input order, numbered from one. */
  method AppendSubsections(markdown: seq<string>, transcripts: seq<Transcript>) returns (extended: seq<string>)
    ensures extended == markdown + Flatten(Subsections(transcripts))
  {
    ghost var groups := Subsections(transcripts);
    extended := markdown;
    var i := 0;
    assert groups[..0] == [];
    while i < |transcripts|
      invariant 0 <= i <= |transcripts|
      invariant extended == markdown + Flatten(groups[..i])
    {
      ghost var before := extended;
      extended := AppendSubsection(extended, i + 1, transcripts[i]);
      assert groups[i] == SubsectionLines(i + 1, transcripts[i]);
      FlattenStep(markdown, groups, i, before, extended);
      i := i + 1;
    }
    assert groups[..i] == groups;
  }

  /** The report is built line by line: the head, then one subsection per utterance. */
  method MergeTimeline(visualAnalysis: string, transcripts: seq<Transcript>, videoDuration: real) returns (report: string)
    ensures report == Report(visualAnalysis, transcripts, videoDuration)
  {
    var markdown := ReportHead(visualAnalysis, |transcripts|, videoDuration);
    if transcripts == [] {
      markdown := markdown + [NoTranscription];
    } else {
      markdown := AppendSubsections(markdown, transcripts);
    }
    report := Concat(markdown);
  }

  // ---------------------------------------------------------------------------
  // The report's layout
  // ---------------------------------------------------------------------------

  /** The lines of some groups, joined. */
  function JoinedGroups(groups: seq<seq<string>>): string
  {
    Concat(Flatten(groups))
  }

  lemma {:induction false} FlattenAppend(a: seq<seq<string>>, b: seq<seq<string>>)
    ensures Flatten(a + b) == Flatten(a) + Flatten(b)
    decreases |b|
  {
    if b == [] {
      assert a + b == a;
    } else {
      assert (a + b)[..|a + b| - 1] == a + b[..|b| - 1];
      FlattenAppend(a, b[..|b| - 1]);
    }
  }

  /** A group in front of others: its lines come first. */
  lemma FlattenCons(g: seq<string>, after: seq<seq<string>>)
    ensures Flatten([g] + after) == g + Flatten(after)
  {
    FlattenAppend([g], after);
    assert [g][..0] == [] && Flatten([g]) == Flatten([]) + g;
  }

  /**
   * The joined subsections in order: those before the k-th, the k-th, then
   * those after it.
   */
  lemma GroupAt(groups: seq<seq<string>>, k: nat)
    requires k < |groups|
    ensures JoinedGroups(groups)
      == JoinedGroups(groups[..k]) + Concat(groups[k]) + JoinedGroups(groups[k + 1..])
  {
    var before, g, after := groups[..k], groups[k], groups[k + 1..];
    var fb, fa := Flatten(before), Flatten(after);
    assert groups == before + ([g] + after);
    FlattenAppend(before, [g] + after);
    FlattenCons(g, after);
    assert Flatten(groups) == fb + (g + fa);
    ConcatAppend(fb, g + fa);
    ConcatAppend(g, fa);
    assert Concat(fb) + (Concat(g) + Concat(fa)) == Concat(fb) + Concat(g) + Concat(fa);
  }

  /** Python's "".join of four strings. */
  lemma Concat4(a: string, b: string, c: string, d: string)
    ensures Concat([a, b, c, d]) == a + b + c + d
  {
    assert [d][1..] == [] && Concat([d]) == d + "";
    assert [c, d][1..] == [d] && Concat([c, d]) == c + Concat([d]);
    assert [b, c, d][1..] == [c, d] && Concat([b, c, d]) == b + Concat([c, d]);
    assert [a, b, c, d][1..] == [b, c, d] && Concat([a, b, c, d]) == a + Concat([b, c, d]);
  }

  lemma Layout(head: seq<string>, a: string, b: string, c: string, d: string, tail: seq<string>)
    ensures Concat(head + [a, b, c, d] + tail) == Concat(head) + a + b + c + d + Concat(tail)
  {
    assert head + [a, b, c, d] + tail == head + ([a, b, c, d] + tail);
    ConcatAppend(head, [a, b, c, d] + tail);
    ConcatAppend([a, b, c, d], tail);
    Concat4(a, b, c, d);
  }

  /**
   * The report in its fixed order: the head with the duration and the number
   * of utterances, the visual section holding the visual analysis verbatim,
   * then the audio heading followed by the no-transcription marker when there
   * are no utterances, or by one subsection per utterance in order.
   */
  lemma ReportSections(visualAnalysis: string, ts: seq<Transcript>, duration: real)
    ensures Report(visualAnalysis, ts, duration)
      == Concat(HeadLines(|ts|, duration)) + VisualHeading + visualAnalysis + VisualClose + AudioHeading
         + if ts == [] then NoTranscription else JoinedGroups(Subsections(ts))
  {
    if ts == [] {
      assert [NoTranscription][1..] == [];
      Layout(HeadLines(|ts|, duration), VisualHeading, visualAnalysis, VisualClose, AudioHeading, [NoTranscription]);
    } else {
      Layout(HeadLines(|ts|, duration), VisualHeading, visualAnalysis, VisualClose, AudioHeading, Flatten(Subsections(ts)));
    }
  }

  lemma SliceOfMiddle(h: string, v: string, rest: string)
    ensures |h| + |v| <= |h + v + rest| && (h + v + rest)[|h|..|h| + |v|] == v
  {
  }

  /** The visual analysis appears verbatim right after the head and the visual heading. */
  lemma VisualVerbatim(visualAnalysis: string, ts: seq<Transcript>, duration: real)
    ensures var start := |Concat(HeadLines(|ts|, duration))| + |VisualHeading|;
      var r := Report(visualAnalysis, ts, duration);
      start + |visualAnalysis| <= |r| && r[start..start + |visualAnalysis|] == visualAnalysis
  {
    ReportSections(visualAnalysis, ts, duration);
    var h := Concat(HeadLines(|ts|, duration)) + VisualHeading;
    var audio := if ts == [] then NoTranscription else JoinedGroups(Subsections(ts));
    Regroup5(h, visualAnalysis, VisualClose, AudioHeading, audio);
    SliceOfMiddle(h, visualAnalysis, VisualClose + AudioHeading + audio);
  }

  /** Regrouping five appended strings, kept apart from the costly context of its caller. */
  lemma Regroup5(h: string, v: string, a: string, b: string, c: string)
    ensures h + v + a + b + c == h + v + (a + b + c)
  {
  }

  /** The k-th subsection of the report is the k-th utterance's, numbered k + 1. */
  lemma SubsectionAt(visualAnalysis: string, ts: seq<Transcript>, duration: real, k: nat)
    requires k < |ts|
    ensures Report(visualAnalysis, ts, duration)
      == Concat(HeadLines(|ts|, duration)) + VisualHeading + visualAnalysis + VisualClose + AudioHeading
         + (JoinedGroups(Subsections(ts)[..k]) + Concat(SubsectionLines(k + 1, ts[k])) + JoinedGroups(Subsections(ts)[k + 1..]))
  {
    ReportSections(visualAnalysis, ts, duration);
    var groups := Subsections(ts);
    GroupAt(groups, k);
    assert groups[k] == SubsectionLines(k + 1, ts[k]);
  }

  // ---------------------------------------------------------------------------
  // The synthesis call
  // ---------------------------------------------------------------------------

  /** The utterances as prompt text: one "[MM:SS] text" line each. */
  function TranscriptText(ts: seq<Transcript>): string
  {
    Join("\n", seq(|ts|, k requires 0 <= k < |ts| => "[" + FormatTimestamp(ts[k].start) + "] " + ts[k].text))
  }

  /** The prompt text is empty exactly when there are no utterances. */
  lemma TranscriptTextEmpty(ts: seq<Transcript>)
    ensures TranscriptText(ts) == "" <==> ts == []
  {
    if ts != [] {
      var lines := seq(|ts|, k requires 0 <= k < |ts| => "[" + FormatTimestamp(ts[k].start) + "] " + ts[k].text);
      assert lines[0][0] == '[';
      if |lines| > 1 {
        assert Join("\n", lines) == lines[0] + "\n" + Join("\n", lines[1..]);
      }
      assert Join("\n", lines)[0] == '[';
    }
  }

  /** The synthesis request: the model, the two analyses as the prompt holds them, the limits. */
  datatype SynthesisRequest = SynthesisRequest(
    modelId: string,
    visualAnalysis: string,
    audioTranscription: string,
    maxTokens: nat,
    temperature: real)

  /** Why no report came back. */
  datatype ReportError = ClientUnavailable

  /**
   * The unified report. `clientAvailable` is whether the model client could
   * be created (its failure propagates); `reply` is the model's text, or None
   * when the call or the reading of its reply raises, in which case the
   * plain timeline report is returned instead.
   */
  method CreateUnifiedReport(visualAnalysis: string, transcripts: seq<Transcript>, videoClip: VideoClip,
                             audioClip: AudioClip, modelId: string, clientAvailable: bool, reply: Option<string>)
    returns (request: Option<SynthesisRequest>, report: Result<string, ReportError>)
    ensures !clientAvailable ==> request == None && report == Failure(ClientUnavailable)
    ensures clientAvailable ==> report.Success?
    ensures clientAvailable ==> request.Some? && request.value.visualAnalysis == visualAnalysis
    ensures clientAvailable ==>
      request.value.audioTranscription == if transcripts == [] then "No audio transcription available" else TranscriptText(transcripts)
    ensures clientAvailable && reply.Some? ==> report.value == reply.value
    ensures clientAvailable && reply.None? ==> report.value == Report(visualAnalysis, transcripts, videoClip.end)
  {
    if !clientAvailable {
      return None, Failure(ClientUnavailable);
    }
    var transcriptText := TranscriptText(transcripts);
    TranscriptTextEmpty(transcripts);
    var audioPart := if transcriptText != "" then transcriptText else "No audio transcription available";
    request := Some(SynthesisRequest(modelId, visualAnalysis, audioPart, 4096, 0.7));
    if reply.Some? {
      report := Success(reply.value);
    } else {
      var fallback := MergeTimeline(visualAnalysis, transcripts, videoClip.end);
      report := Success(fallback);
    }
  }
}
