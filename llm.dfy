/**
 * The visual-analysis prompt: a per-clip frame quota, a prefix of each clip's
 * keyframes, a hard cap on the total, one timestamp per frame, and the
 * content blocks the model receives (an opening text, a label and an image
 * per frame, a closing text).
 */
module Llm {
  import opened Wrappers
  import opened Clock
  import opened DataModel

  // ---------------------------------------------------------------------------
  // Python slicing and the frame budget
  // ---------------------------------------------------------------------------

  /** The length of Python's s[:stop] for a list of length n (a negative stop counts from the end). */
  function PrefixLength(n: nat, stop: int): (k: nat)
    ensures k <= n
    ensures 0 <= stop ==> k == if stop < n then stop else n
    ensures stop < 0 ==> k == if n + stop > 0 then n + stop else 0
  {
    if stop >= 0 then (if stop < n then stop else n)
    else if n + stop > 0 then n + stop else 0
  }

  /** Python's s[:stop]. */
  function Prefix<T>(s: seq<T>, stop: int): (r: seq<T>)
    ensures |r| == PrefixLength(|s|, stop)
    ensures r == s[..|r|]
  {
    s[..PrefixLength(|s|, stop)]
  }

  /** The per-clip quota: max_frames // len(clips), or max_frames when there are no clips. */
  function Quota(clips: nat, maxFrames: int): int
  {
    if clips > 0 then maxFrames / clips else maxFrames
  }

  /** The quota of a non-negative budget is non-negative and spends at most the budget. */
  lemma QuotaWithinBudget(clips: nat, maxFrames: int)
    requires clips > 0 && maxFrames >= 0
    ensures 0 <= Quota(clips, maxFrames) && Quota(clips, maxFrames) * clips <= maxFrames
  {
    var q := maxFrames / clips;
    assert maxFrames == q * clips + maxFrames % clips;
  }

  // ---------------------------------------------------------------------------
  // Frames and their times
  // ---------------------------------------------------------------------------

  /** One selected keyframe: its storage key and its time in seconds. */
  datatype Frame = Frame(key: string, time: real)

  /** Stored timestamps are used only when present, non-empty and one per keyframe. */
  predicate UsesStoredTimes(clip: VideoClip)
  {
    clip.timestamps.Some? && |clip.timestamps.value| > 0 && |clip.timestamps.value| == |clip.keyframes|
  }

  /** n times from start, step apart: start + idx * step for idx in range(n). */
  function Spaced(start: real, step: real, n: nat): (times: seq<real>)
    ensures |times| == n
  {
    if n == 0 then [] else Spaced(start, step, n - 1) + [start + (n - 1) as real * step]
  }

  lemma {:induction false} SpacedAt(start: real, step: real, n: nat)
    ensures forall k :: 0 <= k < n ==> Spaced(start, step, n)[k] == start + k as real * step
  {
    if n > 0 {
      SpacedAt(start, step, n - 1);
    }
  }

  /**
   * The times of a clip's selected frames: the stored ones cut to the quota,
   * or n times spaced (end - start) / n apart from the clip's start (all at
   * the start when n <= 1).
   */
  function FrameTimes(clip: VideoClip, quota: int): (times: seq<real>)
    ensures |times| == PrefixLength(|clip.keyframes|, quota)
  {
    if UsesStoredTimes(clip) then Prefix(clip.timestamps.value, quota)
    else
      var n := PrefixLength(|clip.keyframes|, quota);
      Spaced(clip.start, if n > 1 then (clip.end - clip.start) / n as real else 0.0, n)
  }

  /** Python's zip() of a list of keys and a list of times of the same length. */
  function Zip(keys: seq<string>, times: seq<real>): (frames: seq<Frame>)
    requires |keys| == |times|
    ensures |frames| == |keys|
  {
    if keys == [] then [] else [Frame(keys[0], times[0])] + Zip(keys[1..], times[1..])
  }

  lemma {:induction false} ZipAt(keys: seq<string>, times: seq<real>)
    requires |keys| == |times|
    ensures forall k :: 0 <= k < |keys| ==> Zip(keys, times)[k] == Frame(keys[k], times[k])
  {
    if keys != [] {
      ZipAt(keys[1..], times[1..]);
    }
  }

  /** The selected keyframes of a clip paired with their times. */
  function ClipFrames(clip: VideoClip, quota: int): (frames: seq<Frame>)
    ensures |frames| == PrefixLength(|clip.keyframes|, quota)
  {
    Zip(Prefix(clip.keyframes, quota), FrameTimes(clip, quota))
  }

  /** k steps of d / n, for k below n, stay within [0, d). */
  lemma StepsWithin(k: nat, n: nat, d: real)
    requires k < n && 0.0 < d
    ensures 0.0 <= k as real * (d / n as real) < d
  {
    var step := d / n as real;
    assert step * n as real == d;
    assert 0.0 < step;
    assert (n - 1 - k) as real * step >= 0.0;
    assert k as real * step == (n - 1) as real * step - (n - 1 - k) as real * step;
    assert (n - 1) as real * step == d - step;
  }

  /** Consecutive spaced times differ by one step. */
  lemma StepApart(start: real, step: real, k: nat)
    ensures (start + (k + 1) as real * step) - (start + k as real * step) == step
  {
  }

  /** Spaced times start at the start, lie one step apart, and all sit at the start for a zero step. */
  lemma SpacedSteps(start: real, step: real, n: nat)
    ensures var times := Spaced(start, step, n);
      && (n > 0 ==> times[0] == start)
      && (forall k :: 0 <= k < n - 1 ==> times[k + 1] - times[k] == step)
      && (step == 0.0 ==> forall k :: 0 <= k < n ==> times[k] == start)
  {
    var times := Spaced(start, step, n);
    SpacedAt(start, step, n);
    forall k | 0 <= k < n - 1 ensures times[k + 1] - times[k] == step {
      StepApart(start, step, k);
    }
  }

  /**
   * Without usable stored timestamps the frames start at the clip's start and
   * are spaced (end - start) / n apart, or all sit at the start when n <= 1.
   */
  lemma FallbackTimes(clip: VideoClip, quota: int)
    requires !UsesStoredTimes(clip)
    ensures var times := FrameTimes(clip, quota);
      var n := |times|;
      && (n > 0 ==> times[0] == clip.start)
      && (n > 1 ==> forall k :: 0 <= k < n - 1 ==> times[k + 1] - times[k] == (clip.end - clip.start) / n as real)
      && (n <= 1 ==> forall k :: 0 <= k < n ==> times[k] == clip.start)
  {
    var times := FrameTimes(clip, quota);
    var n := |times|;
    var step := if n > 1 then (clip.end - clip.start) / n as real else 0.0;
    assert times == Spaced(clip.start, step, n);
    SpacedSteps(clip.start, step, n);
  }

  /** Without usable stored timestamps, the frames of a clip of positive length lie within it. */
  lemma FallbackTimesWithinClip(clip: VideoClip, quota: int)
    requires !UsesStoredTimes(clip) && clip.start < clip.end
    ensures var times := FrameTimes(clip, quota);
      forall k :: 0 <= k < |times| ==> clip.start <= times[k] < clip.end
  {
    var times := FrameTimes(clip, quota);
    var n := |times|;
    var d := clip.end - clip.start;
    var step := if n > 1 then d / n as real else 0.0;
    assert times == Spaced(clip.start, step, n);
    SpacedAt(clip.start, step, n);
    forall k | 0 <= k < n ensures clip.start <= times[k] < clip.end {
      if n > 1 {
        StepsWithin(k, n, d);
      }
    }
  }

  /**
   * With usable stored timestamps the frames carry the first stored times, in
   * order, cut to the quota; otherwise the stored timestamps play no part and
   * the times are those of a clip without any.
   */
  lemma StoredTimes(clip: VideoClip, quota: int)
    ensures var times := FrameTimes(clip, quota);
      && |times| == PrefixLength(|clip.keyframes|, quota)
      && (UsesStoredTimes(clip) ==> forall k :: 0 <= k < |times| ==> times[k] == clip.timestamps.value[k])
      && (!UsesStoredTimes(clip) ==> times == FrameTimes(clip.(timestamps := None), quota))
  {
  }

  // ---------------------------------------------------------------------------
  // Which frames are sent
  // ---------------------------------------------------------------------------

  /** The selected frames of each clip, clip by clip. */
  function ClipGroups(clips: seq<VideoClip>, quota: int): (groups: seq<seq<Frame>>)
    ensures |groups| == |clips|
  {
    if clips == [] then [] else [ClipFrames(clips[0], quota)] + ClipGroups(clips[1..], quota)
  }

  lemma {:induction false} ClipGroupAt(clips: seq<VideoClip>, quota: int, k: nat)
    requires k < |clips|
    ensures ClipGroups(clips, quota)[k] == ClipFrames(clips[k], quota)
  {
    if k > 0 {
      ClipGroupAt(clips[1..], quota, k - 1);
    }
  }

  /**
   * How many of a clip's n frames are sent when `total` were sent before:
   * the frames are sent one by one and the loop stops right after the total
   * reaches max_frames, so at least one goes out if there is one.
   */
  function Taken(n: nat, total: int, maxFrames: int): (k: nat)
    ensures k <= n
    ensures n > 0 ==> k > 0
    ensures k < n ==> total + k >= maxFrames
  {
    if n == 0 then 0
    else if maxFrames - total <= 1 then 1
    else if n < maxFrames - total then n
    else maxFrames - total
  }

  /**
   * The frames sent from the clips from the c-th on, when `total` were sent
   * before: each clip sends its taken frames, and the loop ends once the
   * total reaches max_frames.
   */
  function Sent(groups: seq<seq<Frame>>, c: nat, maxFrames: int, total: int): seq<Frame>
    decreases |groups| - c
  {
    if c >= |groups| then []
    else
      var taken := groups[c][..Taken(|groups[c]|, total, maxFrames)];
      if total + |taken| >= maxFrames then taken
      else taken + Sent(groups, c + 1, maxFrames, total + |taken|)
  }

  /** All the frames of the clips from the c-th on, in order. */
  function AllFrames(groups: seq<seq<Frame>>, c: nat): seq<Frame>
    decreases |groups| - c
  {
    if c >= |groups| then [] else groups[c] + AllFrames(groups, c + 1)
  }

  /** The frames of a prompt for these clips and this budget. */
  function PromptFrames(clips: seq<VideoClip>, maxFrames: int): seq<Frame>
  {
    Sent(ClipGroups(clips, Quota(|clips|, maxFrames)), 0, maxFrames, 0)
  }

  /**
   * While the budget is not spent, the frames sent are exactly the first
   * ones of all the clips' selected frames, up to what is left of the budget.
   */
  lemma {:induction false} SentIsPrefix(groups: seq<seq<Frame>>, c: nat, maxFrames: int, total: int)
    requires total < maxFrames
    ensures var all := AllFrames(groups, c);
      Sent(groups, c, maxFrames, total) == all[..if |all| < maxFrames - total then |all| else maxFrames - total]
    decreases |groups| - c
  {
    if c < |groups| {
      var frames := groups[c];
      var k := Taken(|frames|, total, maxFrames);
      var all := AllFrames(groups, c);
      var rest := AllFrames(groups, c + 1);
      assert all == frames + rest;
      if total + k >= maxFrames {
        assert k == maxFrames - total || frames == [];
        assert all[..k] == frames[..k];
      } else {
        assert k == |frames|;
        SentIsPrefix(groups, c + 1, maxFrames, total + k);
        var m := if |rest| < maxFrames - total - k then |rest| else maxFrames - total - k;
        assert all[..k + m] == frames + rest[..m];
      }
    }
  }

  /** Groups of at most `bound` frames each hold at most bound times their number. */
  lemma {:induction false} AllFramesBound(groups: seq<seq<Frame>>, c: nat, bound: nat)
    requires c <= |groups|
    requires forall k :: 0 <= k < |groups| ==> |groups[k]| <= bound
    ensures |AllFrames(groups, c)| <= bound * (|groups| - c)
    decreases |groups| - c
  {
    if c < |groups| {
      AllFramesBound(groups, c + 1, bound);
      assert bound * (|groups| - c) == bound * (|groups| - (c + 1)) + bound;
    }
  }

  /**
   * With a non-negative budget the hard cap never binds: every selected frame
   * of every clip is sent, and their number is at most max_frames.
   */
  lemma BudgetRespected(clips: seq<VideoClip>, maxFrames: int)
    requires maxFrames >= 0
    ensures PromptFrames(clips, maxFrames) == AllFrames(ClipGroups(clips, Quota(|clips|, maxFrames)), 0)
    ensures |PromptFrames(clips, maxFrames)| <= maxFrames
  {
    var q := Quota(|clips|, maxFrames);
    var groups := ClipGroups(clips, q);
    if clips != [] {
      QuotaWithinBudget(|clips|, maxFrames);
      forall k | 0 <= k < |groups| ensures |groups[k]| <= q {
        ClipGroupAt(clips, q, k);
      }
      AllFramesBound(groups, 0, q);
      if maxFrames == 0 {
        assert groups[0] == [];
      } else {
        SentIsPrefix(groups, 0, maxFrames, 0);
      }
    }
  }

  /**
   * Each clip contributes a prefix of its keyframes, at most the quota of them
   * when the quota is not negative.
   */
  lemma ClipContribution(clip: VideoClip, quota: int)
    ensures var frames := ClipFrames(clip, quota);
      && (forall k :: 0 <= k < |frames| ==> frames[k] == Frame(clip.keyframes[k], FrameTimes(clip, quota)[k]))
      && |frames| <= |clip.keyframes|
      && (quota >= 0 ==> |frames| <= quota)
  {
    ZipAt(Prefix(clip.keyframes, quota), FrameTimes(clip, quota));
  }

  // ---------------------------------------------------------------------------
  // Content blocks
  // ---------------------------------------------------------------------------

  const Bucket: string := "s3://aws-hack-bucket/"
  const ImageFormat: string := "jpeg"

  /** The content blocks; the prose of the two text blocks is not modelled. */
  datatype Block =
    | Opening
    | FrameLabel(minutes: int, seconds: int, time: real)
    | Image(format: string, uri: string)
    | Closing

  /** The label of a frame: int(t // 60) minutes and int(t % 60) seconds. */
  function Label(f: Frame): Block
  {
    FrameLabel(Div60(f.time), Mod60(f.time).Floor, f.time)
  }

  /** The image of a frame, read from the bucket under its key. */
  function FrameImage(f: Frame): Block
  {
    Image(ImageFormat, Bucket + f.key)
  }

  /** A label and an image per frame, appended frame after frame. */
  function Blocks(frames: seq<Frame>): seq<Block>
  {
    if frames == [] then []
    else Blocks(frames[..|frames| - 1]) + [Label(frames[|frames| - 1]), FrameImage(frames[|frames| - 1])]
  }

  /** The label of a frame at a non-negative time shows its whole minutes and seconds. */
  lemma LabelClock(f: Frame)
    requires f.time >= 0.0
    ensures var l := Label(f);
      0 <= l.seconds < 60 && l.minutes * 60 + l.seconds == f.time.Floor
  {
    MinutesSeconds(f.time);
  }

  /** Why a prompt cannot be built, or the analysis cannot be returned. */
  datatype LlmError =
    | NoFrames      // indexing the first frame time of an empty list
    | WrongType     // neither a clip nor a list of clips
    | CallFailed    // the model call or the reading of its reply raised

  /** The prompt: the opening, the frames' blocks, the closing; no frame is an error. */
  function Prompt(clips: seq<VideoClip>, maxFrames: int): Result<seq<Block>, LlmError>
  {
    var frames := PromptFrames(clips, maxFrames);
    if frames == [] then Failure(NoFrames) else Success([Opening] + Blocks(frames) + [Closing])
  }

  /**
   * A negative budget: the first clip's frame (if its selection has one)
   * already reaches the budget, so at most one frame is sent, and none, which
   * makes the prompt fail, exactly when the first clip selects no keyframe.
   */
  lemma NegativeBudget(clips: seq<VideoClip>, maxFrames: int)
    requires maxFrames < 0
    ensures |PromptFrames(clips, maxFrames)| <= 1
    ensures Prompt(clips, maxFrames) == Failure(NoFrames)
      <==> clips == [] || PrefixLength(|clips[0].keyframes|, Quota(|clips|, maxFrames)) == 0
  {
    var groups := ClipGroups(clips, Quota(|clips|, maxFrames));
    if clips != [] {
      ClipGroupAt(clips, Quota(|clips|, maxFrames), 0);
      var n := |groups[0]|;
      assert Taken(n, 0, maxFrames) == if n == 0 then 0 else 1;
      assert PromptFrames(clips, maxFrames) == groups[0][..Taken(n, 0, maxFrames)];
    }
  }

  lemma {:induction false} BlocksAt(frames: seq<Frame>)
    ensures |Blocks(frames)| == 2 * |frames|
    ensures forall k :: 0 <= k < |frames| ==>
      Blocks(frames)[2 * k] == Label(frames[k]) && Blocks(frames)[2 * k + 1] == FrameImage(frames[k])
    decreases |frames|
  {
    if frames != [] {
      var init := frames[..|frames| - 1];
      BlocksAt(init);
      forall k | 0 <= k < |init| ensures frames[k] == init[k] { }
    }
  }

  /**
   * The content is one opening block, a label and an image per frame in clip
   * order, then one closing block; it is returned exactly when some frame is sent.
   */
  lemma PromptLayout(clips: seq<VideoClip>, maxFrames: int)
    ensures var frames := PromptFrames(clips, maxFrames);
      match Prompt(clips, maxFrames)
      case Failure(e) => e == NoFrames && frames == []
      case Success(content) =>
        && frames != []
        && |content| == 2 + 2 * |frames|
        && content[0] == Opening && content[|content| - 1] == Closing
        && forall k :: 0 <= k < |frames| ==>
             content[2 * k + 1] == Label(frames[k])
             && content[2 * k + 2] == Image(ImageFormat, Bucket + frames[k].key)
  {
    var frames := PromptFrames(clips, maxFrames);
    BlocksAt(frames);
  }

  // ---------------------------------------------------------------------------
  // Building the prompt
  // ---------------------------------------------------------------------------

  /** The times of some frames, in order, as the loop records them. */
  function Times(frames: seq<Frame>): (times: seq<real>)
    ensures |times| == |frames|
  {
    if frames == [] then [] else Times(frames[..|frames| - 1]) + [frames[|frames| - 1].time]
  }

  /** One more frame extends the content by its label and image, and the times by its time. */
  lemma BlocksStep(head: seq<Block>, times: seq<real>, frames: seq<Frame>, f: Frame)
    ensures head + Blocks(frames) + [Label(f), FrameImage(f)] == head + Blocks(frames + [f])
    ensures times + Times(frames) + [f.time] == times + Times(frames + [f])
  {
    assert (frames + [f])[..|frames|] == frames;
  }

  /** The blocks and times of two runs of frames are those of the runs joined. */
  lemma {:induction false} BlocksJoin(a: seq<Frame>, b: seq<Frame>)
    ensures Blocks(a) + Blocks(b) == Blocks(a + b)
    decreases |b|
  {
    if b == [] {
      assert a + b == a;
    } else {
      var init, f := b[..|b| - 1], b[|b| - 1];
      var pair := [Label(f), FrameImage(f)];
      BlocksJoin(a, init);
      assert (a + b)[..|a + b| - 1] == a + init;
      assert Blocks(a + b) == Blocks(a + init) + pair;
      assert Blocks(b) == Blocks(init) + pair;
      assert Blocks(a) + (Blocks(init) + pair) == (Blocks(a) + Blocks(init)) + pair;
    }
  }

  lemma {:induction false} TimesJoin(a: seq<Frame>, b: seq<Frame>)
    ensures Times(a) + Times(b) == Times(a + b)
    decreases |b|
  {
    if b == [] {
      assert a + b == a;
    } else {
      var init, f := b[..|b| - 1], b[|b| - 1];
      TimesJoin(a, init);
      assert (a + b)[..|a + b| - 1] == a + init;
      assert Times(a + b) == Times(a + init) + [f.time];
      assert Times(b) == Times(init) + [f.time];
      assert Times(a) + (Times(init) + [f.time]) == (Times(a) + Times(init)) + [f.time];
    }
  }

  lemma BlocksAppend(head: seq<Block>, a: seq<Frame>, b: seq<Frame>)
    ensures head + Blocks(a) + Blocks(b) == head + Blocks(a + b)
  {
    BlocksJoin(a, b);
    assert head + Blocks(a) + Blocks(b) == head + (Blocks(a) + Blocks(b));
  }

  /** The prompt for the frames a run has sent. */
  lemma PromptOf(clips: seq<VideoClip>, maxFrames: int, frames: seq<Frame>)
    requires frames == PromptFrames(clips, maxFrames)
    ensures Prompt(clips, maxFrames) == if frames == [] then Failure(NoFrames) else Success([Opening] + Blocks(frames) + [Closing])
  {
  }

  /**
   * One clip's step of the outer loop: its taken frames are sent, and either
   * the budget is reached or the later clips send the rest.
   */
  lemma SentAdvance(groups: seq<seq<Frame>>, c: nat, maxFrames: int, total: int, sent: seq<Frame>, target: seq<Frame>,
                     taken: seq<Frame>, next: int)
    requires c < |groups| && sent + Sent(groups, c, maxFrames, total) == target
    requires taken == groups[c][..Taken(|groups[c]|, total, maxFrames)] && next == total + |taken|
    ensures next >= maxFrames ==> sent + taken == target
    ensures next < maxFrames ==> (sent + taken) + Sent(groups, c + 1, maxFrames, next) == target
  {
    if next < maxFrames {
      var later := Sent(groups, c + 1, maxFrames, next);
      assert Sent(groups, c, maxFrames, total) == taken + later;
      assert sent + (taken + later) == (sent + taken) + later;
      assert (sent + taken) + later == target;
    } else {
      assert Sent(groups, c, maxFrames, total) == taken;
    }
  }

  /** Frames sent without reaching the budget are all among the taken ones. */
  lemma TakenAtLeast(n: nat, total: int, maxFrames: int, j: nat)
    requires j <= n && (j > 0 ==> total + j < maxFrames)
    ensures j <= Taken(n, total, maxFrames)
  {
  }

  /** The frame that brings the count to the budget is the last one taken. */
  lemma TakenAtBreak(n: nat, total: int, maxFrames: int, j: nat)
    requires 0 < j <= n && total + j >= maxFrames && (j > 1 ==> total + j - 1 < maxFrames)
    ensures Taken(n, total, maxFrames) == j
  {
  }

  /** One frame of the inner loop: record its time, append its label and its image, count it. */
  method SendFrame(content: seq<Block>, frameTimestamps: seq<real>, totalFrames: int, frameKey: string, frameTime: real)
    returns (content': seq<Block>, frameTimestamps': seq<real>, totalFrames': int)
    ensures content' == content + [Label(Frame(frameKey, frameTime)), FrameImage(Frame(frameKey, frameTime))]
    ensures frameTimestamps' == frameTimestamps + [frameTime]
    ensures totalFrames' == totalFrames + 1
  {
    frameTimestamps' := frameTimestamps + [frameTime];
    var minutes := Div60(frameTime);
    var seconds := Mod60(frameTime).Floor;
    content' := content + [FrameLabel(minutes, seconds, frameTime)];
    content' := content' + [Image(ImageFormat, Bucket + frameKey)];
    totalFrames' := totalFrames + 1;
  }

  /**
   * The inner loop over one clip's frames: send frame after frame, stopping
   * once the count reaches max_frames.
   */
  method SendClipFrames(content: seq<Block>, frameTimestamps: seq<real>, totalFrames: int, frames: seq<Frame>, maxFrames: int)
    returns (content': seq<Block>, frameTimestamps': seq<real>, totalFrames': int)
    ensures var taken := frames[..Taken(|frames|, totalFrames, maxFrames)];
      && content' == content + Blocks(taken)
      && frameTimestamps' == frameTimestamps + Times(taken)
      && totalFrames' == totalFrames + |taken|
  {
    content', frameTimestamps', totalFrames' := content, frameTimestamps, totalFrames;
    ghost var sofar: seq<Frame> := [];
    assert content + Blocks(sofar) == content && frameTimestamps + Times(sofar) == frameTimestamps;
    var idx := 0;
    ghost var k := Taken(|frames|, totalFrames, maxFrames);
    while idx < |frames|
      invariant 0 <= idx <= k
      invariant idx > 0 ==> totalFrames + idx < maxFrames
      invariant sofar == frames[..idx]
      invariant content' == content + Blocks(sofar)
      invariant frameTimestamps' == frameTimestamps + Times(sofar)
      invariant totalFrames' == totalFrames + idx
    {
      ghost var f := frames[idx];
      content', frameTimestamps', totalFrames' := SendFrame(content', frameTimestamps', totalFrames', frames[idx].key, frames[idx].time);
      BlocksStep(content, frameTimestamps, sofar, f);
      assert frames[..idx + 1] == sofar + [f];
      sofar := sofar + [f];
      if totalFrames' >= maxFrames {
        TakenAtBreak(|frames|, totalFrames, maxFrames, idx + 1);
        idx := idx + 1;
        break;
      }
      TakenAtLeast(|frames|, totalFrames, maxFrames, idx + 1);
      idx := idx + 1;
    }
    assert idx == k;
  }

  /**
   * The prompt for these clips: the quota per clip, a prefix of each clip's
   * keyframes with their times, stopping at max_frames; no frame at all
   * fails on reading the first frame time.
   */
  method CreateImagesPrompt(videoClips: seq<VideoClip>, maxFrames: int) returns (result: Result<seq<Block>, LlmError>)
    ensures result == Prompt(videoClips, maxFrames)
  {
    var content := [Opening];
    var totalFrames := 0;
    var framesPerClip := Quota(|videoClips|, maxFrames);
    var frameTimestamps: seq<real> := [];
    ghost var sent: seq<Frame> := [];
    ghost var groups := ClipGroups(videoClips, framesPerClip);
    ghost var target := Sent(groups, 0, maxFrames, 0);
    assert target == PromptFrames(videoClips, maxFrames);
    var c := 0;
    while c < |videoClips|
      invariant 0 <= c <= |videoClips|
      invariant sent + Sent(groups, c, maxFrames, totalFrames) == target
      invariant content == [Opening] + Blocks(sent)
      invariant |frameTimestamps| == |sent| == totalFrames
    {
      var frames := ClipFrames(videoClips[c], framesPerClip);
      ClipGroupAt(videoClips, framesPerClip, c);
      ghost var taken := frames[..Taken(|frames|, totalFrames, maxFrames)];
      ghost var before := totalFrames;
      if |frames| > 0 {
        content, frameTimestamps, totalFrames := SendClipFrames(content, frameTimestamps, totalFrames, frames, maxFrames);
      } else {
        assert taken == [] && sent + taken == sent;
      }
      SentAdvance(groups, c, maxFrames, before, sent, target, taken, totalFrames);
      BlocksAppend([Opening], sent, taken);
      sent := sent + taken;
      if totalFrames >= maxFrames {
        break;
      }
      c := c + 1;
    }
    assert sent == target;
    PromptOf(videoClips, maxFrames, sent);
    content := content + [Closing];
    if |frameTimestamps| == 0 {
      return Failure(NoFrames);
    }
    return Success(content);
  }

  // ---------------------------------------------------------------------------
  // The analysis call
  // ---------------------------------------------------------------------------

  /** What may be passed as the clips: one clip, a list of clips, or something else. */
  datatype ClipsArgument = OneClip(clip: VideoClip) | ClipList(clips: seq<VideoClip>) | OtherValue


  /** The request sent to the model: its id, one user message's content, the inference limits. */
  datatype AnalysisRequest = AnalysisRequest(modelId: string, content: seq<Block>, maxTokens: nat, temperature: real)

  /**
   * The visual analysis. A single clip is wrapped into a one-element list and
   * anything else is a type error; `reply` is the text of the model's first
   * content block, or None when the call raises.
   */
  method AnalyseImages(videoClips: ClipsArgument, modelId: string, maxFrames: int, reply: Option<string>)
    returns (request: Option<AnalysisRequest>, result: Result<string, LlmError>)
    ensures videoClips.OtherValue? ==> request == None && result == Failure(WrongType)
    ensures !videoClips.OtherValue? ==>
      var clips := if videoClips.OneClip? then [videoClips.clip] else videoClips.clips;
      match Prompt(clips, maxFrames)
      case Failure(e) => request == None && result == Failure(e)
      case Success(content) =>
        && request == Some(AnalysisRequest(modelId, content, 4000, 0.3))
        && result == if reply.Some? then Success(reply.value) else Failure(CallFailed)
  {
    var clips: seq<VideoClip>;
    match videoClips {
      case OneClip(clip) => clips := [clip];
      case ClipList(list) => clips := list;
      case OtherValue => return None, Failure(WrongType);
    }
    var content := CreateImagesPrompt(clips, maxFrames);
    if content.Failure? {
      return None, Failure(content.error);
    }
    request := Some(AnalysisRequest(modelId, content.value, 4000, 0.3));
    if reply.Some? {
      result := Success(reply.value);
    } else {
      result := Failure(CallFailed);
    }
  }
}
