/**
 * Speech transcription of one audio clip: the job request, the status poll,
 * and the grouping of the recogniser's word-level items into utterances.
 */
module Audio {
  import opened Wrappers
  import opened Text
  import opened Polling
  import opened DataModel

  /** One entry of the recogniser's item list. */
  datatype Item =
    | Word(content: string, startTime: real, endTime: real, confidence: real)  // a "pronunciation" item
    | Punct(content: string)                                                   // a "punctuation" item
    | Other                                                                    // any other item type

  /** A segment closes once it holds this many words. */
  const MaxWords: nat := 10

  /** The punctuation marks that close a segment. */
  predicate EndsSentence(mark: string)
  {
    mark == "." || mark == "!" || mark == "?"
  }

  /** A buffered word together with the punctuation marks glued onto it, in arrival order. */
  datatype Entry = Entry(word: string, startTime: real, endTime: real, confidence: real, marks: seq<string>)

  /** The buffer string the source keeps for an entry: the word with its marks appended. */
  function EntryText(e: Entry): string
  {
    e.word + Concat(e.marks)
  }

  function Texts(entries: seq<Entry>): (r: seq<string>)
    ensures |r| == |entries|
    ensures forall k :: 0 <= k < |r| ==> r[k] == EntryText(entries[k])
  {
    seq(|entries|, k requires 0 <= k < |entries| => EntryText(entries[k]))
  }

  /** Why a segment was closed. */
  datatype Closer = WordLimit | SentenceEnd | EndOfStream

  datatype Segment = Segment(entries: seq<Entry>, closer: Closer)

  /** Append a punctuation mark to the last buffered word. */
  function Glue(buf: seq<Entry>, mark: string): (r: seq<Entry>)
    requires buf != []
    ensures |r| == |buf| && r[..|r| - 1] == buf[..|buf| - 1]
    ensures r[|r| - 1] == buf[|buf| - 1].(marks := buf[|buf| - 1].marks + [mark])
  {
    var last := buf[|buf| - 1];
    buf[..|buf| - 1] + [last.(marks := last.marks + [mark])]
  }

  /** What one item does to the buffer: possibly close a segment, and the buffer after it. */
  datatype StepResult = StepResult(closed: Option<Segment>, buf: seq<Entry>)

  /**
   * The grouping rule for one item: a word closes the buffer when it is the
   * tenth; a sentence-ending mark closes it; any mark glues onto the last word,
   * and is dropped when nothing is buffered; other items change nothing.
   */
  function Step(item: Item, buf: seq<Entry>): (r: StepResult)
    ensures r.closed.Some? ==> r.closed.value.entries != []
  {
    match item
    case Word(w, s, e, c) =>
      var b := buf + [Entry(w, s, e, c, [])];
      if |b| >= MaxWords then StepResult(Some(Segment(b, WordLimit)), []) else StepResult(None, b)
    case Punct(p) =>
      if buf == [] then StepResult(None, buf)
      else
        var b := Glue(buf, p);
        if EndsSentence(p) then StepResult(Some(Segment(b, SentenceEnd)), []) else StepResult(None, b)
    case Other => StepResult(None, buf)
  }

  function Closed(r: StepResult): (segs: seq<Segment>)
  {
    if r.closed.Some? then [r.closed.value] else []
  }

  /** The words still open at the end of the stream form a last segment. */
  function Flush(buf: seq<Entry>): seq<Segment>
  {
    if buf == [] then [] else [Segment(buf, EndOfStream)]
  }

  /** The segments produced from a buffer of open words and the items still to come. */
  function Scan(items: seq<Item>, buf: seq<Entry>): (segs: seq<Segment>)
    ensures forall k :: 0 <= k < |segs| ==> segs[k].entries != []
    decreases |items|
  {
    if items == [] then Flush(buf)
    else
      var r := Step(items[0], buf);
      Closed(r) + Scan(items[1..], r.buf)
  }

  function Segments(items: seq<Item>): seq<Segment>
  {
    Scan(items, [])
  }

  /** The utterance a segment becomes, with times shifted by the clip's start. */
  function ToTranscript(seg: Segment, offset: real): Transcript
    requires seg.entries != []
  {
    var first := seg.entries[0];
    var last := seg.entries[|seg.entries| - 1];
    Transcript(
      Join(" ", Texts(seg.entries)),
      offset + first.startTime,
      offset + last.endTime,
      if seg.closer == WordLimit then last.confidence else 1.0)
  }

  /** One utterance per segment, in order. */
  function ToTranscripts(segs: seq<Segment>, offset: real): (ts: seq<Transcript>)
    requires forall k :: 0 <= k < |segs| ==> segs[k].entries != []
    ensures |ts| == |segs|
  {
    seq(|segs|, k requires 0 <= k < |segs| => ToTranscript(segs[k], offset))
  }

  /** Scanning from position i is the step at i followed by scanning from i + 1. */
  lemma ScanAt(items: seq<Item>, i: nat, buf: seq<Entry>)
    requires i < |items|
    ensures var r := Step(items[i], buf); Scan(items[i..], buf) == Closed(r) + Scan(items[i + 1..], r.buf)
  {
    assert items[i..][0] == items[i] && items[i..][1..] == items[i + 1..];
  }

  /** The segments closed so far plus the scan of the rest, advanced by one item. */
  lemma ScanAdvance(items: seq<Item>, i: nat, done: seq<Segment>, buf: seq<Entry>)
    requires i < |items|
    ensures var r := Step(items[i], buf);
      done + Scan(items[i..], buf) == (done + Closed(r)) + Scan(items[i + 1..], r.buf)
  {
    ScanAt(items, i, buf);
  }

  /** The buffer string after gluing a mark: the mark appended to the last word's string. */
  lemma GlueText(buf: seq<Entry>, mark: string)
    requires buf != []
    ensures var t := Texts(buf); Texts(Glue(buf, mark)) == t[..|t| - 1] + [t[|t| - 1] + mark]
  {
    var g := Glue(buf, mark);
    var t := Texts(buf);
    var r := t[..|t| - 1] + [t[|t| - 1] + mark];
    ConcatAppend(buf[|buf| - 1].marks, [mark]);
    assert EntryText(g[|g| - 1]) == t[|t| - 1] + mark;
    forall k | 0 <= k < |r| ensures Texts(g)[k] == r[k] {
      if k < |t| - 1 {
        assert g[k] == buf[k];
      }
    }
  }

  /** Closing one more segment appends its utterance and keeps every segment non-empty. */
  lemma ClosedGrows(closed: seq<Segment>, seg: Segment, offset: real, ts: seq<Transcript>)
    requires forall k :: 0 <= k < |closed| ==> closed[k].entries != []
    requires seg.entries != [] && ts == ToTranscripts(closed, offset)
    ensures forall k :: 0 <= k < |closed + [seg]| ==> (closed + [seg])[k].entries != []
    ensures ts + [ToTranscript(seg, offset)] == ToTranscripts(closed + [seg], offset)
  {
    var grown := ToTranscripts(closed + [seg], offset);
    forall k | 0 <= k < |grown|
      ensures grown[k] == (ts + [ToTranscript(seg, offset)])[k]
    {
      if k < |closed| {
        assert (closed + [seg])[k] == closed[k];
      }
    }
  }

  /**
   * The loop's variables agree with the buffered entries and the closed
   * segments: the buffered strings, the first start (None when the buffer is
   * empty), the last end, and the utterances of the closed segments.
   */
  ghost predicate Agree(currentText: seq<string>, currentStart: Option<real>, currentEnd: Option<real>,
                        transcripts: seq<Transcript>, open: seq<Entry>, closed: seq<Segment>, offset: real)
  {
    && currentText == Texts(open)
    && (open == [] <==> currentStart == None)
    && (open != [] ==> currentStart == Some(open[0].startTime) && currentEnd == Some(open[|open| - 1].endTime))
    && (forall k :: 0 <= k < |closed| ==> closed[k].entries != [])
    && transcripts == ToTranscripts(closed, offset)
  }

  /** Emitting the utterance the variables describe and emptying the buffer keeps them in agreement. */
  lemma AgreeAfterClose(currentText: seq<string>, currentStart: Option<real>, currentEnd: Option<real>,
                        transcripts: seq<Transcript>, open: seq<Entry>, closed: seq<Segment>, offset: real,
                        closer: Closer, t: Transcript)
    requires Agree(currentText, currentStart, currentEnd, transcripts, open, closed, offset) && open != []
    requires t == Transcript(Join(" ", currentText), offset + currentStart.value, offset + currentEnd.value,
                             if closer == WordLimit then open[|open| - 1].confidence else 1.0)
    ensures Agree([], None, currentEnd, transcripts + [t], [], closed + [Segment(open, closer)], offset)
  {
    var seg := Segment(open, closer);
    assert t == ToTranscript(seg, offset);
    ClosedGrows(closed, seg, offset, transcripts);
  }

  /**
   * The state of the grouping loop: the buffered word strings, the start of the
   * first buffered word, the end of the last one, and the utterances so far.
   */
  class SegmentBuffer {
    const offset: real
    var currentText: seq<string>
    var currentStart: Option<real>
    var currentEnd: Option<real>
    var transcripts: seq<Transcript>
    // the buffered words with their glued marks, and the segments closed so far
    ghost var open: seq<Entry>
    ghost var closed: seq<Segment>

    /** The source's variables agree with the ghost entries and segments. */
    ghost predicate Tracks()
      reads this
    {
      Agree(currentText, currentStart, currentEnd, transcripts, open, closed, offset)
    }

    /** Between items the buffer holds fewer words than the limit. */
    ghost predicate Valid()
      reads this
    {
      Tracks() && |open| < MaxWords
    }

    constructor (offset: real)
      ensures Valid() && this.offset == offset && open == [] && closed == []
    {
      this.offset := offset;
      currentText, currentStart, currentEnd, transcripts := [], None, None, [];
      open, closed := [], [];
    }

    /** Emit the buffer as an utterance with the given confidence and empty it. */
    method Close(closer: Closer, confidence: real)
      requires Tracks() && open != []
      requires confidence == if closer == WordLimit then open[|open| - 1].confidence else 1.0
      modifies this
      ensures Valid() && open == [] && closed == old(closed) + [Segment(old(open), closer)]
      ensures currentEnd == old(currentEnd)
    {
      var t := Transcript(Join(" ", currentText), offset + currentStart.value, offset + currentEnd.value, confidence);
      AgreeAfterClose(currentText, currentStart, currentEnd, transcripts, open, closed, offset, closer, t);
      transcripts, closed := transcripts + [t], closed + [Segment(open, closer)];
      currentText, currentStart, open := [], None, [];
    }

    /** A pronunciation item: buffer the word, closing at the tenth. */
    method AddWord(word: string, startTime: real, endTime: real, confidence: real)
      requires Valid()
      modifies this
      ensures Valid()
      ensures var r := Step(Word(word, startTime, endTime, confidence), old(open));
        open == r.buf && closed == old(closed) + Closed(r)
    {
      if currentStart == None {
        currentStart := Some(startTime);
      }
      currentText := currentText + [word];
      currentEnd := Some(endTime);
      open := open + [Entry(word, startTime, endTime, confidence, [])];
      assert EntryText(open[|open| - 1]) == word;
      assert currentText == Texts(open);
      if |currentText| >= MaxWords {
        Close(WordLimit, confidence);
      }
    }

    /** A punctuation item: glue it onto the last word, closing at a sentence end. */
    method AddPunct(mark: string)
      requires Valid()
      modifies this
      ensures Valid()
      ensures var r := Step(Punct(mark), old(open));
        open == r.buf && closed == old(closed) + Closed(r)
    {
      if currentText != [] {
        GlueText(open, mark);
        currentText := currentText[..|currentText| - 1] + [currentText[|currentText| - 1] + mark];
        open := Glue(open, mark);
        if EndsSentence(mark) {
          Close(SentenceEnd, 1.0);
        }
      }
    }

    /** One item of the recogniser's list, dispatched on its type. */
    method Feed(item: Item)
      requires Valid()
      modifies this
      ensures Valid()
      ensures var r := Step(item, old(open)); open == r.buf && closed == old(closed) + Closed(r)
    {
      match item {
      case Word(word, startTime, endTime, confidence) =>
        AddWord(word, startTime, endTime, confidence);
      case Punct(mark) =>
        AddPunct(mark);
      case Other =>
      }
    }

    /** The end of the item list: the remaining words form a last utterance. */
    method Finish()
      requires Valid()
      modifies this
      ensures Valid() && open == [] && closed == old(closed) + Flush(old(open))
    {
      if currentText != [] {
        Close(EndOfStream, 1.0);
      }
    }
  }

  /** The grouping loop of the transcription call, item by item over a fresh buffer. */
  method SegmentItems(items: seq<Item>, offset: real) returns (transcripts: seq<Transcript>)
    ensures transcripts == ToTranscripts(Segments(items), offset)
  {
    var buffer := new SegmentBuffer(offset);
    var i := 0;
    assert items[0..] == items;
    while i < |items|
      invariant 0 <= i <= |items|
      invariant buffer.Valid() && buffer.offset == offset
      invariant buffer.closed + Scan(items[i..], buffer.open) == Segments(items)
    {
      ScanAdvance(items, i, buffer.closed, buffer.open);
      buffer.Feed(items[i]);
      i := i + 1;
    }
    assert items[i..] == [];
    buffer.Finish();
    transcripts := buffer.transcripts;
  }

  // ---------------------------------------------------------------------------
  // Properties of the grouping rule
  // ---------------------------------------------------------------------------

  /** The bare words of some entries, without their marks. */
  function Words(es: seq<Entry>): (ws: seq<string>)
    ensures |ws| == |es|
    ensures forall k :: 0 <= k < |es| ==> ws[k] == es[k].word
  {
    seq(|es|, k requires 0 <= k < |es| => es[k].word)
  }

  /** The bare words of the segments, in order. */
  function SegmentWords(segs: seq<Segment>): seq<string>
  {
    if segs == [] then [] else Words(segs[0].entries) + SegmentWords(segs[1..])
  }

  /** The contents of the pronunciation items, in order. */
  function Spoken(items: seq<Item>): seq<string>
  {
    if items == [] then []
    else (if items[0].Word? then [items[0].content] else []) + Spoken(items[1..])
  }

  lemma {:induction false} SegmentWordsAppend(a: seq<Segment>, b: seq<Segment>)
    ensures SegmentWords(a + b) == SegmentWords(a) + SegmentWords(b)
    decreases |a|
  {
    if a == [] {
      assert a + b == b;
    } else {
      assert (a + b)[1..] == a[1..] + b;
      SegmentWordsAppend(a[1..], b);
    }
  }

  /** The words of one item on its own: its content for a word, nothing otherwise. */
  lemma SpokenOne(item: Item)
    ensures Spoken([item]) == if item.Word? then [item.content] else []
  {
    assert [item][1..] == [];
  }

  /** A word step keeps every word: the new word ends the buffer or the closed segment. */
  lemma StepWordsWord(item: Item, buf: seq<Entry>)
    requires item.Word?
    ensures var r := Step(item, buf); SegmentWords(Closed(r)) + Words(r.buf) == Words(buf) + [item.content]
  {
    var r := Step(item, buf);
    var b := buf + [Entry(item.content, item.startTime, item.endTime, item.confidence, [])];
    assert Words(b) == Words(buf) + [item.content];
    if |b| >= MaxWords {
      assert SegmentWords(Closed(r)) == Words(b) + SegmentWords([]);
    }
  }

  /** A punctuation step keeps every word: glueing changes marks only. */
  lemma StepWordsPunct(item: Item, buf: seq<Entry>)
    requires item.Punct?
    ensures var r := Step(item, buf); SegmentWords(Closed(r)) + Words(r.buf) == Words(buf)
  {
    var r := Step(item, buf);
    if buf != [] {
      var g := Glue(buf, item.content);
      assert Words(g) == Words(buf);
      if EndsSentence(item.content) {
        assert SegmentWords(Closed(r)) == Words(g) + SegmentWords([]);
      }
    }
  }

  /** One step neither loses nor invents a word. */
  lemma StepWords(item: Item, buf: seq<Entry>)
    ensures var r := Step(item, buf); SegmentWords(Closed(r)) + Words(r.buf) == Words(buf) + Spoken([item])
  {
    SpokenOne(item);
    if item.Word? {
      StepWordsWord(item, buf);
    } else if item.Punct? {
      StepWordsPunct(item, buf);
    }
  }

  lemma SpokenCons(items: seq<Item>)
    requires items != []
    ensures Spoken(items) == Spoken([items[0]]) + Spoken(items[1..])
  {
    assert [items[0]][1..] == [];
  }

  /** Moving a common tail across an equality of appends, kept apart from the costly context of its caller. */
  lemma Regroup(c: seq<string>, w: seq<string>, t: seq<string>, b: seq<string>, h: seq<string>)
    requires c + w == b + h
    ensures c + (w + t) == b + (h + t)
  {
    calc {
      c + (w + t);
      (c + w) + t;
      (b + h) + t;
      b + (h + t);
    }
  }

  /** The inductive step of ScanWords, given its claim for the rest of the items. */
  lemma ScanWordsStep(items: seq<Item>, buf: seq<Entry>)
    requires items != []
    requires var r := Step(items[0], buf);
      SegmentWords(Scan(items[1..], r.buf)) == Words(r.buf) + Spoken(items[1..])
    ensures SegmentWords(Scan(items, buf)) == Words(buf) + Spoken(items)
  {
    var r := Step(items[0], buf);
    ScanAt(items, 0, buf);
    assert items[0..] == items;
    SegmentWordsAppend(Closed(r), Scan(items[1..], r.buf));
    StepWords(items[0], buf);
    SpokenCons(items);
    Regroup(SegmentWords(Closed(r)), Words(r.buf), Spoken(items[1..]), Words(buf), Spoken([items[0]]));
  }

  lemma {:induction false} ScanWords(items: seq<Item>, buf: seq<Entry>)
    ensures SegmentWords(Scan(items, buf)) == Words(buf) + Spoken(items)
    decreases |items|
  {
    if items == [] {
      if buf != [] {
        assert SegmentWords(Flush(buf)) == Words(buf) + SegmentWords([]);
      }
    } else {
      ScanWords(items[1..], Step(items[0], buf).buf);
      ScanWordsStep(items, buf);
    }
  }

  /**
   * Word conservation: the segments' words, in order, are exactly the
   * pronunciation items of the input, each used once.
   */
  lemma WordConservation(items: seq<Item>)
    ensures SegmentWords(Segments(items)) == Spoken(items)
  {
    ScanWords(items, []);
    assert Words([]) + Spoken(items) == Spoken(items);
  }

  /** No mark glued onto these entries ends a sentence. */
  predicate NoSentenceEnd(es: seq<Entry>)
  {
    forall k, j :: 0 <= k < |es| && 0 <= j < |es[k].marks| ==> !EndsSentence(es[k].marks[j])
  }

  /**
   * The shape of a closed segment: one to ten words; exactly ten when, and
   * only when, it was closed by the word count, in which case its tenth word
   * carries no mark; a segment closed by a sentence end has that mark last,
   * and no other mark of it ends a sentence.
   */
  predicate WellFormed(seg: Segment)
  {
    var es := seg.entries;
    && 1 <= |es| <= MaxWords
    && (|es| == MaxWords <==> seg.closer == WordLimit)
    && (seg.closer == WordLimit ==> es[|es| - 1].marks == [])
    && if seg.closer == SentenceEnd then
         var last := es[|es| - 1];
         && last.marks != []
         && EndsSentence(last.marks[|last.marks| - 1])
         && NoSentenceEnd(es[..|es| - 1] + [last.(marks := last.marks[..|last.marks| - 1])])
       else NoSentenceEnd(es)
  }

  /** Every segment is well formed, and only the last can be the end-of-stream flush. */
  predicate AllWellFormed(segs: seq<Segment>)
  {
    forall k :: 0 <= k < |segs| ==> WellFormed(segs[k]) && (segs[k].closer == EndOfStream ==> k == |segs| - 1)
  }

  /** Appending an unmarked word keeps the buffer free of sentence ends. */
  lemma AppendWordShape(buf: seq<Entry>, x: Entry)
    requires NoSentenceEnd(buf) && x.marks == []
    ensures NoSentenceEnd(buf + [x])
  {
    var b := buf + [x];
    forall k, j | 0 <= k < |b| && 0 <= j < |b[k].marks| ensures !EndsSentence(b[k].marks[j]) {
      assert b[k] == buf[k];
    }
  }

  /** Gluing a mark that ends no sentence keeps the buffer free of sentence ends. */
  lemma GlueShape(buf: seq<Entry>, p: string)
    requires buf != [] && NoSentenceEnd(buf) && !EndsSentence(p)
    ensures NoSentenceEnd(Glue(buf, p))
  {
    var g := Glue(buf, p);
    forall k, j | 0 <= k < |g| && 0 <= j < |g[k].marks| ensures !EndsSentence(g[k].marks[j]) {
      if k < |g| - 1 {
        assert g[k] == g[..|g| - 1][k] == buf[k];
      } else if j < |buf[k].marks| {
        assert g[k].marks[j] == buf[k].marks[j];
      }
    }
  }

  /** Removing the last glued mark gives back the buffer it was glued onto. */
  lemma GlueUndo(buf: seq<Entry>, p: string)
    requires buf != []
    ensures var g := Glue(buf, p); var last := g[|g| - 1];
      last.marks != [] && last.marks[|last.marks| - 1] == p
      && g[..|g| - 1] + [last.(marks := last.marks[..|last.marks| - 1])] == buf
  {
    var g := Glue(buf, p);
    var last := g[|g| - 1];
    assert last.marks[..|last.marks| - 1] == buf[|buf| - 1].marks;
  }

  lemma StepShape(item: Item, buf: seq<Entry>)
    requires |buf| < MaxWords && NoSentenceEnd(buf)
    ensures var r := Step(item, buf);
      && |r.buf| < MaxWords && NoSentenceEnd(r.buf)
      && (r.closed.Some? ==> WellFormed(r.closed.value) && r.closed.value.closer != EndOfStream)
  {
    match item
    case Word(w, s, e, c) =>
      AppendWordShape(buf, Entry(w, s, e, c, []));
    case Punct(p) =>
      if buf != [] {
        GlueUndo(buf, p);
        if !EndsSentence(p) {
          GlueShape(buf, p);
        }
      }
    case Other =>
  }

  lemma {:induction false} ScanShape(items: seq<Item>, buf: seq<Entry>)
    requires |buf| < MaxWords && NoSentenceEnd(buf)
    ensures AllWellFormed(Scan(items, buf))
    decreases |items|
  {
    if items == [] {
      if buf != [] {
        assert WellFormed(Segment(buf, EndOfStream));
      }
    } else {
      var r := Step(items[0], buf);
      StepShape(items[0], buf);
      ScanShape(items[1..], r.buf);
      var segs := Scan(items, buf);
      var c := Closed(r);
      var rest := Scan(items[1..], r.buf);
      assert segs == c + rest;
      forall k | 0 <= k < |segs| ensures WellFormed(segs[k]) && (segs[k].closer == EndOfStream ==> k == |segs| - 1) {
        if k < |c| {
          assert segs[k] == r.closed.value;
        } else {
          assert segs[k] == rest[k - |c|];
          assert WellFormed(rest[k - |c|]);
        }
      }
    }
  }

  /**
   * Every segment holds between one and ten words, ten exactly when the word
   * count closed it; only the last segment can be the end-of-stream flush.
   */
  lemma SegmentShapes(items: seq<Item>)
    ensures AllWellFormed(Segments(items))
  {
    ScanShape(items, []);
  }

  /**
   * The k-th utterance: its text is the words of its segment, marks glued on,
   * joined by spaces; its times are the first word's start and the last word's
   * end shifted by the clip start; its confidence is the tenth word's when it
   * holds ten words, and 1.0 otherwise.
   */
  lemma UtteranceAt(items: seq<Item>, offset: real, k: nat)
    requires k < |Segments(items)|
    ensures var seg := Segments(items)[k]; var es := seg.entries; var t := ToTranscripts(Segments(items), offset)[k];
      && 1 <= |es| <= MaxWords
      && t.text == Join(" ", Texts(es))
      && t.start == offset + es[0].startTime
      && t.end == offset + es[|es| - 1].endTime
      && t.confidence == if |es| == MaxWords then es[MaxWords - 1].confidence else 1.0
  {
    SegmentShapes(items);
  }

  /** A mark arriving while nothing is buffered is dropped. */
  lemma LeadingMarkDropped(mark: string, items: seq<Item>)
    ensures Segments([Punct(mark)] + items) == Segments(items)
  {
    assert ([Punct(mark)] + items)[1..] == items;
  }

  /** The sizes of the segments, in order. */
  function Sizes(segs: seq<Segment>): (sizes: seq<nat>)
    ensures |sizes| == |segs|
  {
    if segs == [] then [] else [|segs[0].entries|] + Sizes(segs[1..])
  }

  /** n words cut into groups of ten, the remainder last. */
  function ChunkSizes(n: nat): seq<nat>
  {
    if n == 0 then [] else if n <= MaxWords then [n] else [MaxWords] + ChunkSizes(n - MaxWords)
  }

  lemma ChunkSizesFull(n: nat)
    requires n >= MaxWords
    ensures ChunkSizes(n) == [MaxWords] + ChunkSizes(n - MaxWords)
  {
  }

  predicate AllWords(items: seq<Item>)
  {
    forall k :: 0 <= k < |items| ==> items[k].Word?
  }

  /** A word either fills the buffer, closing a full segment, or grows it by one. */
  lemma WordStepSizes(item: Item, buf: seq<Entry>, rest: seq<Segment>)
    requires item.Word? && |buf| < MaxWords
    ensures var r := Step(item, buf);
      && (|buf| + 1 == MaxWords ==> r.buf == [] && Sizes(Closed(r) + rest) == [MaxWords] + Sizes(rest))
      && (|buf| + 1 < MaxWords ==> |r.buf| == |buf| + 1 && Closed(r) + rest == rest)
  {
    var r := Step(item, buf);
    if |buf| + 1 == MaxWords {
      var seg := r.closed.value;
      assert Closed(r) + rest == [seg] + rest;
      assert ([seg] + rest)[1..] == rest;
    }
  }

  lemma {:induction false} ScanPlainWords(items: seq<Item>, buf: seq<Entry>)
    requires AllWords(items) && |buf| < MaxWords
    ensures Sizes(Scan(items, buf)) == ChunkSizes(|buf| + |items|)
    decreases |items|
  {
    if items != [] {
      assert items[0].Word?;
      var r := Step(items[0], buf);
      var rest := Scan(items[1..], r.buf);
      assert Scan(items, buf) == Closed(r) + rest;
      assert AllWords(items[1..]);
      ScanPlainWords(items[1..], r.buf);
      WordStepSizes(items[0], buf, rest);
      if |buf| + 1 == MaxWords {
        ChunkSizesFull(|buf| + |items|);
      }
    }
  }

  /** A stream of n plain words is cut into groups of ten, the remainder last. */
  lemma PlainWords(items: seq<Item>)
    requires AllWords(items)
    ensures Sizes(Segments(items)) == ChunkSizes(|items|)
  {
    var none: seq<Entry> := [];
    ScanPlainWords(items, none);
    assert |none| + |items| == |items|;
  }

  /** Twenty-five plain words give segments of 10, 10 and 5 words. */
  lemma TwentyFiveWords(items: seq<Item>)
    requires AllWords(items) && |items| == 25
    ensures Sizes(Segments(items)) == [10, 10, 5]
  {
    PlainWords(items);
    assert ChunkSizes(5) == [5];
  }

  /** The utterance of a two-word segment. */
  lemma TwoWordUtterance(a: Entry, b: Entry, ta: string, tb: string, closer: Closer, offset: real)
    requires EntryText(a) == ta && EntryText(b) == tb && closer != WordLimit
    ensures ToTranscripts([Segment([a, b], closer)], offset)
      == [Transcript(ta + " " + tb, offset + a.startTime, offset + b.endTime, 1.0)]
  {
    var t := Texts([a, b]);
    assert t == [ta, tb];
    assert t[1..] == [tb];
    assert Join(" ", t) == ta + " " + tb;
  }

  /** A word that does not fill the buffer is appended to it. */
  lemma ScanWord(w: string, s: real, e: real, c: real, rest: seq<Item>, buf: seq<Entry>, next: seq<Entry>)
    requires |buf| + 1 < MaxWords && next == buf + [Entry(w, s, e, c, [])]
    ensures Scan([Word(w, s, e, c)] + rest, buf) == Scan(rest, next)
  {
    assert ([Word(w, s, e, c)] + rest)[1..] == rest;
  }

  /** A mark that does not end a sentence is glued onto the last buffered word. */
  lemma ScanComma(p: string, rest: seq<Item>, buf: seq<Entry>, glued: seq<Entry>)
    requires buf != [] && !EndsSentence(p) && glued == Glue(buf, p)
    ensures Scan([Punct(p)] + rest, buf) == Scan(rest, glued)
  {
    assert ([Punct(p)] + rest)[1..] == rest;
  }

  /** Gluing a mark onto a buffer touches only its last word. */
  lemma GlueLast(head: seq<Entry>, x: Entry, p: string, buf: seq<Entry>, marks: seq<string>)
    requires buf == head + [x] && marks == x.marks + [p]
    ensures Glue(buf, p) == head + [x.(marks := marks)]
  {
    assert buf[..|head|] == head;
  }

  /** A sentence-ending mark as the last item closes the buffer with the mark glued on. */
  lemma ScanFinalStop(p: string, buf: seq<Entry>, glued: seq<Entry>)
    requires buf != [] && EndsSentence(p) && glued == Glue(buf, p)
    ensures Scan([Punct(p)], buf) == [Segment(glued, SentenceEnd)]
  {
    assert [Punct(p)][1..] == [];
  }

  lemma HelloWorldSegments(a: Entry, b0: Entry)
    requires a == Entry("Hello", a.startTime, a.endTime, a.confidence, [])
    requires b0 == Entry("world", b0.startTime, b0.endTime, b0.confidence, [])
    ensures Segments([Word("Hello", a.startTime, a.endTime, a.confidence), Word("world", b0.startTime, b0.endTime, b0.confidence), Punct(".")])
      == [Segment([a, b0.(marks := ["."])], SentenceEnd)]
  {
    var wa := Word("Hello", a.startTime, a.endTime, a.confidence);
    var wb := Word("world", b0.startTime, b0.endTime, b0.confidence);
    var stop := [Punct(".")];
    var rest := [wb] + stop;
    assert [wa, wb, Punct(".")] == [wa] + rest;
    ScanWord("Hello", a.startTime, a.endTime, a.confidence, rest, [], [a]);
    ScanWord("world", b0.startTime, b0.endTime, b0.confidence, stop, [a], [a, b0]);
    GlueLast([a], b0, ".", [a, b0], ["."]);
    ScanFinalStop(".", [a, b0], [a] + [b0.(marks := ["."])]);
    assert [a] + [b0.(marks := ["."])] == [a, b0.(marks := ["."])];
  }

  /** ["Hello", "world", "."] is one utterance "Hello world." with confidence 1.0. */
  lemma HelloWorld(s1: real, e1: real, c1: real, s2: real, e2: real, c2: real, offset: real)
    ensures ToTranscripts(Segments([Word("Hello", s1, e1, c1), Word("world", s2, e2, c2), Punct(".")]), offset)
      == [Transcript("Hello world.", offset + s1, offset + e2, 1.0)]
  {
    var a := Entry("Hello", s1, e1, c1, []);
    var b := Entry("world", s2, e2, c2, ["."]);
    HelloWorldSegments(a, b.(marks := []));
    assert Concat(["."]) == "." + Concat([]);
    assert EntryText(a) == "Hello" + "" == "Hello";
    assert EntryText(b) == "world.";
    TwoWordUtterance(a, b, "Hello", "world.", SentenceEnd, offset);
    assert "Hello" + " " + "world." == "Hello world.";
  }

  /** The final "." of the comma example: it glues onto the last word and closes the segment. */
  lemma CommaStop(a: Entry, b1: Entry, stop: seq<Item>)
    requires b1.marks == [","] && stop == [Punct(".")]
    ensures Scan(stop, [a, b1]) == [Segment([a, b1.(marks := [",", "."])], SentenceEnd)]
  {
    var b := b1.(marks := [",", "."]);
    assert [a, b1] == [a] + [b1];
    GlueLast([a], b1, ".", [a, b1], [",", "."]);
    ScanFinalStop(".", [a, b1], [a] + [b]);
    assert [a] + [b] == [a, b];
  }

  /** The trailing "," "." of the comma example: both glue onto the last word, the stop closes. */
  lemma CommaTail(a: Entry, b0: Entry, tail: seq<Item>)
    requires b0.marks == [] && tail == [Punct(","), Punct(".")]
    ensures Scan(tail, [a, b0]) == [Segment([a, b0.(marks := [",", "."])], SentenceEnd)]
  {
    var b1 := b0.(marks := [","]);
    var stop := tail[1..];
    assert tail == [Punct(",")] + stop;
    GlueLast([a], b0, ",", [a, b0], [","]);
    ScanComma(",", stop, [a, b0], [a] + [b1]);
    assert [a] + [b1] == [a, b1];
    CommaStop(a, b1, stop);
  }

  /** The leading word "," of the comma example: the comma glues onto the only open word. */
  lemma CommaOpen(a0: Entry, mid: seq<Item>, none: seq<Entry>)
    requires a0.marks == [] && none == []
    ensures Scan([Word(a0.word, a0.startTime, a0.endTime, a0.confidence), Punct(",")] + mid, none)
      == Scan(mid, [a0.(marks := [","])])
  {
    var wa := Word(a0.word, a0.startTime, a0.endTime, a0.confidence);
    var a := a0.(marks := [","]);
    var rest := [Punct(",")] + mid;
    assert [wa, Punct(",")] + mid == [wa] + rest;
    ScanWord(a0.word, a0.startTime, a0.endTime, a0.confidence, rest, none, [a0]);
    GlueLast(none, a0, ",", [a0], [","]);
    ScanComma(",", mid, [a0], none + [a]);
    assert none + [a] == [a];
  }

  /** The leading word "," word of the comma example: two open words, the comma on the first. */
  lemma CommaHead(a0: Entry, b0: Entry, tail: seq<Item>)
    requires a0.marks == [] && b0.marks == []
    ensures Scan([Word(a0.word, a0.startTime, a0.endTime, a0.confidence), Punct(","), Word(b0.word, b0.startTime, b0.endTime, b0.confidence)] + tail, [])
      == Scan(tail, [a0.(marks := [","]), b0])
  {
    var wa := Word(a0.word, a0.startTime, a0.endTime, a0.confidence);
    var wb := Word(b0.word, b0.startTime, b0.endTime, b0.confidence);
    var a := a0.(marks := [","]);
    var mid := [wb] + tail;
    assert [wa, Punct(","), wb] + tail == [wa, Punct(",")] + mid;
    CommaOpen(a0, mid, []);
    ScanWord(b0.word, b0.startTime, b0.endTime, b0.confidence, tail, [a], [a, b0]);
  }

  lemma CommaSegments(a0: Entry, b0: Entry)
    requires a0 == Entry("Hello", a0.startTime, a0.endTime, a0.confidence, [])
    requires b0 == Entry("world", b0.startTime, b0.endTime, b0.confidence, [])
    ensures Segments([Word("Hello", a0.startTime, a0.endTime, a0.confidence), Punct(","), Word("world", b0.startTime, b0.endTime, b0.confidence), Punct(","), Punct(".")])
      == [Segment([a0.(marks := [","]), b0.(marks := [",", "."])], SentenceEnd)]
  {
    var tail := [Punct(","), Punct(".")];
    CommaHead(a0, b0, tail);
    assert [Word("Hello", a0.startTime, a0.endTime, a0.confidence), Punct(","), Word("world", b0.startTime, b0.endTime, b0.confidence)] + tail
      == [Word("Hello", a0.startTime, a0.endTime, a0.confidence), Punct(","), Word("world", b0.startTime, b0.endTime, b0.confidence), Punct(","), Punct(".")];
    CommaTail(a0.(marks := [","]), b0, tail);
  }

  /**
   * Every mark is glued onto the word before it, so "Hello" "," "world" ","
   * "." becomes the single utterance "Hello, world,.".
   */
  lemma CommasAreGlued(s1: real, e1: real, c1: real, s2: real, e2: real, c2: real, offset: real)
    ensures ToTranscripts(Segments([Word("Hello", s1, e1, c1), Punct(","), Word("world", s2, e2, c2), Punct(","), Punct(".")]), offset)
      == [Transcript("Hello, world,.", offset + s1, offset + e2, 1.0)]
  {
    var a := Entry("Hello", s1, e1, c1, [","]);
    var b := Entry("world", s2, e2, c2, [",", "."]);
    CommaSegments(a.(marks := []), b.(marks := []));
    assert Concat([","]) == "," + Concat([]);
    assert Concat([",", "."]) == "," + Concat(["."]);
    assert Concat(["."]) == "." + Concat([]);
    assert EntryText(a) == "Hello,";
    assert EntryText(b) == "world,.";
    TwoWordUtterance(a, b, "Hello,", "world,.", SentenceEnd, offset);
    assert "Hello," + " " + "world,." == "Hello, world,.";
  }

  // ---------------------------------------------------------------------------
  // The transcription call
  // ---------------------------------------------------------------------------

  /**
   * One answer of the status poll: the job status it reports, or None when
   * the status request raises (the whole call then returns no utterances).
   */
  type StatusAnswer = Option<string>

  /** The answers on which the transcription poll stops. */
  const JobTerminal: set<StatusAnswer> := {Some("COMPLETED"), Some("FAILED"), None}

  /** Whether the first answer that stops the poll reports COMPLETED. */
  predicate JobCompleted(answers: seq<StatusAnswer>)
  {
    var k := FirstIn(answers, JobTerminal);
    k < |answers| && answers[k] == Some("COMPLETED")
  }

  /** Whether the poll ends because a status request raises. */
  predicate JobRaised(answers: seq<StatusAnswer>)
  {
    var k := FirstIn(answers, JobTerminal);
    k < |answers| && answers[k] == None
  }

  /**
   * The status poll: read answers in order until one reports COMPLETED or
   * FAILED or the request raises. The source polls forever otherwise, so
   * some answer must stop the poll.
   */
  method PollTranscriptionJob(answers: seq<StatusAnswer>) returns (completed: bool, polls: nat)
    requires Reaches(answers, JobTerminal)
    ensures polls == FirstIn(answers, JobTerminal) + 1 && polls <= |answers|
    ensures completed <==> answers[polls - 1] == Some("COMPLETED")
    ensures !completed ==> answers[polls - 1] == Some("FAILED") || answers[polls - 1] == None
  {
    ReachesFirstIn(answers, JobTerminal);
    var i := 0;
    while answers[i].Some? && answers[i].value != "COMPLETED" && answers[i].value != "FAILED"
      invariant 0 <= i <= FirstIn(answers, JobTerminal) < |answers|
      decreases |answers| - i
    {
      i := i + 1;
    }
    completed := answers[i] == Some("COMPLETED");
    polls := i + 1;
  }

  /** The recogniser's job request. */
  datatype TranscriptionRequest = TranscriptionRequest(
    jobName: string,
    mediaUri: string,
    mediaFormat: string,
    languageCode: string,
    showSpeakerLabels: bool,
    maxSpeakerLabels: nat)

  /** str.replace("/", "_") */
  function Slashless(key: string): (r: string)
    ensures |r| == |key| && forall k :: 0 <= k < |r| ==> r[k] == (if key[k] == '/' then '_' else key[k])
  {
    seq(|key|, k requires 0 <= k < |key| => if key[k] == '/' then '_' else key[k])
  }

  /** The job name: the current Unix time in whole seconds and the slash-free key. */
  function JobName(now: nat, key: string): string
  {
    "transcribe_" + Digits(now) + "_" + Slashless(key)
  }

  /** A job name never holds a "/", whatever the key. */
  lemma {:induction false} JobNameSlashFree(now: nat, key: string)
    ensures var name := JobName(now, key);
      forall k :: 0 <= k < |name| ==> name[k] != '/'
  {
    var name := JobName(now, key);
    var d := Digits(now);
    assert name == ("transcribe_" + d + "_") + Slashless(key);
    forall k | 0 <= k < |name|
      ensures name[k] != '/'
    {
      if k >= 12 + |d| {
        assert name[k] == Slashless(key)[k - 12 - |d|];
      } else if 11 <= k < 11 + |d| {
        assert name[k] == d[k - 11];
      }
    }
  }

  /**
   * Transcribe the first audio file of a clip. The remote calls are inputs:
   * `now` is the clock, `startFails` whether starting the job raises,
   * `answers` the poll answers in order, and `download` the items of the
   * result document, or None when fetching or parsing it raises. A failed
   * start, a FAILED job, a status request that raises and a failed download
   * all yield no utterances.
   */
  method TranscribeAudioS3(clip: AudioClip, bucketName: string, languageCode: string, now: nat,
                           startFails: bool, answers: seq<StatusAnswer>, download: Option<seq<Item>>)
    returns (request: Option<TranscriptionRequest>, transcripts: seq<Transcript>)
    requires clip.audioData != [] && !startFails ==> Reaches(answers, JobTerminal)
    ensures clip.audioData == [] <==> request == None
    ensures clip.audioData == [] ==> transcripts == []
    ensures clip.audioData != [] ==>
      var key := clip.audioData[0];
      request == Some(TranscriptionRequest(JobName(now, key), "s3://" + bucketName + "/" + key, "mp3", languageCode, true, 10))
    ensures transcripts != [] ==> !startFails && JobCompleted(answers) && download.Some?
    ensures JobRaised(answers) ==> transcripts == []
    ensures clip.audioData != [] && !startFails && JobCompleted(answers) && download.Some? ==>
      transcripts == ToTranscripts(Segments(download.value), clip.start)
  {
    if clip.audioData == [] {
      return None, [];
    }
    var key := clip.audioData[0];
    request := Some(TranscriptionRequest(JobName(now, key), "s3://" + bucketName + "/" + key, "mp3", languageCode, true, 10));
    if startFails {
      return request, [];
    }
    var completed, _ := PollTranscriptionJob(answers);
    if !completed || download.None? {
      return request, [];
    }
    transcripts := SegmentItems(download.value, clip.start);
    if transcripts != [] {
      assert JobCompleted(answers);
    }
  }
}
