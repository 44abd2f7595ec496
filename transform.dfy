/**
 * Per-cut processing: the keyframe paths saved for a cut, the storage keys its
 * uploads use, waiting on those uploads, and the in-order report over all cuts.
 */
module Transform {
  import opened Wrappers
  import opened Text
  import opened DataModel

  /** The bucket every upload goes to. */
  const UploadBucket: string := "aws-hack-bucket"

  // ---------------------------------------------------------------------------
  // Storage keys
  // ---------------------------------------------------------------------------

  /** The key of keyframe i of a cut: "keyframes/<cut id>_<i>.jpg". */
  function KeyframeKey(cutId: string, i: nat): string
  {
    "keyframes/" + cutId + "_" + Digits(i) + ".jpg"
  }

  /** The key of a cut's audio: "audio/<cut id>.mp3". */
  function AudioKey(cutId: string): string
  {
    "audio/" + cutId + ".mp3"
  }

  /** The keyframe number a key names for the given cut, when it is a keyframe key of that cut. */
  function KeyframeIndex(cutId: string, key: string): Option<nat>
  {
    var prefix := "keyframes/" + cutId + "_";
    if |key| > |prefix| + 4 && key[..|prefix|] == prefix && key[|key| - 4..] == ".jpg"
       && AllDigits(key[|prefix|..|key| - 4])
    then Some(Value(key[|prefix|..|key| - 4]))
    else None
  }

  /** A keyframe key gives back its number. */
  lemma KeyframeKeyRoundTrip(cutId: string, i: nat)
    ensures KeyframeIndex(cutId, KeyframeKey(cutId, i)) == Some(i)
  {
    var prefix := "keyframes/" + cutId + "_";
    var key := KeyframeKey(cutId, i);
    assert key == prefix + Digits(i) + ".jpg";
    assert key[..|prefix|] == prefix;
    assert key[|key| - 4..] == ".jpg";
    assert key[|prefix|..|key| - 4] == Digits(i);
    ValueOfDigits(i);
  }

  /** Keyframes of one cut are stored under pairwise distinct keys. */
  lemma KeyframeKeysDistinct(cutId: string, i: nat, j: nat)
    requires i != j
    ensures KeyframeKey(cutId, i) != KeyframeKey(cutId, j)
  {
    KeyframeKeyRoundTrip(cutId, i);
    KeyframeKeyRoundTrip(cutId, j);
  }

  /** No audio key is a keyframe key, whatever the cuts. */
  lemma AudioKeyNotKeyframe(cutId: string, other: string, i: nat)
    ensures AudioKey(cutId) != KeyframeKey(other, i)
  {
    assert AudioKey(cutId)[0] == 'a';
    assert KeyframeKey(other, i)[0] == 'k';
  }

  /** The position of the first "_" in a string, or its length when there is none. */
  function UnderscoreAt(s: string): (k: nat)
    ensures k <= |s|
  {
    if s == [] || s[0] == '_' then 0 else 1 + UnderscoreAt(s[1..])
  }

  lemma {:induction false} UnderscoreAfterDigits(a: string, b: string)
    requires AllDigits(a)
    ensures UnderscoreAt(a + "_" + b) == |a|
    decreases |a|
  {
    var s := a + "_" + b;
    if a != [] {
      assert s[0] == a[0] && s[1..] == a[1..] + "_" + b;
      UnderscoreAfterDigits(a[1..], b);
    }
  }

  /** Two runs of digits each followed by "_" split a string at the same place. */
  lemma DigitsThenUnderscore(a: string, b: string, c: string, d: string)
    requires AllDigits(a) && AllDigits(c) && a + "_" + b == c + "_" + d
    ensures a == c && b == d
  {
    var s := a + "_" + b;
    UnderscoreAfterDigits(a, b);
    UnderscoreAfterDigits(c, d);
    assert a == s[..|a|] == c;
    assert b == s[|a| + 1..] == d;
  }

  /** The keyframe key of a shot-detection cut, regrouped around its digits. */
  lemma ShotKeyShape(m: nat, i: nat)
    ensures KeyframeKey("cut_" + Digits(m), i) == "keyframes/cut_" + (Digits(m) + "_" + Digits(i)) + ".jpg"
  {
  }

  /** Equal strings with the same prefix and suffix have the same middle. */
  lemma SameMiddle(p: string, u: string, v: string, sfx: string)
    requires p + u + sfx == p + v + sfx
    ensures u == v
  {
    var x := p + u + sfx;
    assert u == x[|p|..|x| - |sfx|];
    assert v == (p + v + sfx)[|p|..|x| - |sfx|];
  }

  /**
   * Among cuts named "cut_<n>" by shot detection, a keyframe key determines
   * both the shot number and the keyframe number, so no two keyframes of
   * any cuts share a key.
   */
  lemma KeyframeKeysAcrossCuts(m: nat, n: nat, i: nat, j: nat)
    requires KeyframeKey("cut_" + Digits(m), i) == KeyframeKey("cut_" + Digits(n), j)
    ensures m == n && i == j
  {
    ShotKeyShape(m, i);
    ShotKeyShape(n, j);
    SameMiddle("keyframes/cut_", Digits(m) + "_" + Digits(i), Digits(n) + "_" + Digits(j), ".jpg");
    DigitsThenUnderscore(Digits(m), Digits(i), Digits(n), Digits(j));
    ValueOfDigits(m);
    ValueOfDigits(n);
    ValueOfDigits(i);
    ValueOfDigits(j);
  }

  // ---------------------------------------------------------------------------
  // Keyframe paths
  // ---------------------------------------------------------------------------

  /** Python's os.path.join(a, b) on POSIX: an absolute b replaces a; otherwise "/" separates them when needed. */
  function PathJoin(a: string, b: string): (path: string)
  {
    if |b| > 0 && b[0] == '/' then b
    else if a == [] || a[|a| - 1] == '/' then a + b
    else a + "/" + b
  }

  /** A joined path ends with the part joined on, and a relative part keeps the directory in front. */
  lemma PathJoinParts(a: string, b: string)
    ensures var path := PathJoin(a, b);
      && |b| <= |path| && path[|path| - |b|..] == b
      && (!(|b| > 0 && b[0] == '/') ==> |a| <= |path| && path[..|a|] == a)
  {
    var path := PathJoin(a, b);
    if !(|b| > 0 && b[0] == '/') {
      if a == [] || a[|a| - 1] == '/' {
        assert path == a + b;
      } else {
        assert path == a + ("/" + b);
      }
    }
  }

  /** One saved-image list, each path joined onto the output directory. */
  function JoinEach(dir: string, paths: seq<string>): (joined: seq<string>)
    ensures |joined| == |paths|
  {
    if paths == [] then [] else JoinEach(dir, paths[..|paths| - 1]) + [PathJoin(dir, paths[|paths| - 1])]
  }

  /** The total number of saved paths. */
  function PathCount(groups: seq<seq<string>>): nat
  {
    if groups == [] then 0 else PathCount(groups[..|groups| - 1]) + |groups[|groups| - 1]|
  }

  /** All saved-image lists, scene by scene, joined onto the directory and laid end to end. */
  function JoinAll(dir: string, groups: seq<seq<string>>): (joined: seq<string>)
    ensures |joined| == PathCount(groups)
  {
    if groups == [] then [] else JoinAll(dir, groups[..|groups| - 1]) + JoinEach(dir, groups[|groups| - 1])
  }

  /**
   * The keyframe paths of a time window: none when no scene was found,
   * otherwise every saved path joined onto the directory, sorted.
   */
  function ExtractedFrames(dir: string, sceneCount: nat, savedImages: seq<seq<string>>): seq<string>
  {
    if sceneCount == 0 then [] else SortStrings(JoinAll(dir, savedImages))
  }

  /**
   * The extracted paths are sorted, hold every saved path joined onto the
   * directory exactly as often as it was saved, and are the only list that does.
   */
  lemma ExtractedFramesSorted(dir: string, sceneCount: nat, savedImages: seq<seq<string>>, other: seq<string>)
    requires sceneCount > 0
    ensures var frames := ExtractedFrames(dir, sceneCount, savedImages);
      && Sorted(frames)
      && multiset(frames) == multiset(JoinAll(dir, savedImages))
      && |frames| == PathCount(savedImages)
      && (Sorted(other) && multiset(other) == multiset(JoinAll(dir, savedImages)) ==> other == frames)
  {
    var frames := ExtractedFrames(dir, sceneCount, savedImages);
    SortStringsSorted(JoinAll(dir, savedImages));
    if Sorted(other) && multiset(other) == multiset(JoinAll(dir, savedImages)) {
      SortedUnique(other, frames);
    }
  }

  /** One more path of the current list. */
  lemma JoinEachStep(dir: string, paths: seq<string>, r: nat, before: seq<string>, after: seq<string>)
    requires r < |paths|
    requires before == JoinEach(dir, paths[..r]) && after == before + [PathJoin(dir, paths[r])]
    ensures after == JoinEach(dir, paths[..r + 1])
  {
    assert paths[..r + 1][..r] == paths[..r];
  }

  /** One more finished list. */
  lemma JoinAllStep(dir: string, groups: seq<seq<string>>, g: nat, joined: seq<string>)
    requires g < |groups|
    requires joined == JoinAll(dir, groups[..g]) + JoinEach(dir, groups[g])
    ensures joined == JoinAll(dir, groups[..g + 1])
  {
    assert groups[..g + 1][..g] == groups[..g];
  }

  /**
   * Saving the first frame of each detected scene and collecting the paths.
   * The detector's results are inputs: the number of scenes found in the
   * window, and the saved image paths per scene, relative to the directory.
   */
  method ExtractContentAwareFrames(outputDir: string, sceneCount: nat, savedImages: seq<seq<string>>)
    returns (paths: seq<string>)
    ensures paths == ExtractedFrames(outputDir, sceneCount, savedImages)
    ensures sceneCount == 0 ==> paths == []
    ensures sceneCount > 0 ==> Sorted(paths) && |paths| == PathCount(savedImages)
  {
    if sceneCount == 0 {
      return [];
    }
    var allPaths: seq<string> := [];
    for g := 0 to |savedImages|
      invariant allPaths == JoinAll(outputDir, savedImages[..g])
    {
      var pathList := savedImages[g];
      ghost var done := allPaths;
      assert pathList[..0] == [];
      for r := 0 to |pathList|
        invariant allPaths == done + JoinEach(outputDir, pathList[..r])
      {
        var fullPath := PathJoin(outputDir, pathList[r]);
        ghost var before := JoinEach(outputDir, pathList[..r]);
        assert (done + before) + [fullPath] == done + (before + [fullPath]);
        allPaths := allPaths + [fullPath];
        JoinEachStep(outputDir, pathList, r, before, before + [fullPath]);
      }
      assert pathList[..|pathList|] == pathList;
      JoinAllStep(outputDir, savedImages, g, allPaths);
    }
    assert savedImages[..|savedImages|] == savedImages;
    paths := SortStrings(allPaths);
    ExtractedFramesSorted(outputDir, sceneCount, savedImages, paths);
  }

  // ---------------------------------------------------------------------------
  // One cut
  // ---------------------------------------------------------------------------

  /** The part of the source video a cut covers: where to start and for how long. */
  datatype ExtractionWindow = ExtractionWindow(videoPath: string, startTime: real, duration: real)

  function CutWindow(cut: VideoCut): ExtractionWindow
  {
    ExtractionWindow(cut.localSourceVideo, cut.start, cut.end - cut.start)
  }

  /** The window starts at the cut's start and ends at its end, in the local copy of the video. */
  lemma CutWindowSpansCut(cut: VideoCut)
    ensures var w := CutWindow(cut);
      w.videoPath == cut.localSourceVideo && w.startTime == cut.start && w.startTime + w.duration == cut.end
      && (cut.start <= cut.end ==> w.duration >= 0.0)
  {
  }

  /** One upload task: a keyframe file, or the cut's audio bytes. */
  datatype Upload = FileUpload(localPath: string, bucket: string, key: string) | AudioUpload(bucket: string, key: string)

  /** The uploads of a cut in submission order: keyframe i under key i, then the audio. */
  function UploadPlan(cutId: string, files: seq<string>): (tasks: seq<Upload>)
    ensures |tasks| == |files| + 1
  {
    seq(|files|, k requires 0 <= k < |files| => FileUpload(files[k], UploadBucket, KeyframeKey(cutId, k)))
    + [AudioUpload(UploadBucket, AudioKey(cutId))]
  }

  /** Every upload of a cut goes to its own key. */
  lemma UploadKeysDistinct(cutId: string, files: seq<string>, i: nat, j: nat)
    requires i < j < |files| + 1
    ensures UploadPlan(cutId, files)[i].key != UploadPlan(cutId, files)[j].key
  {
    var tasks := UploadPlan(cutId, files);
    if j < |files| {
      KeyframeKeysDistinct(cutId, i, j);
    } else {
      AudioKeyNotKeyframe(cutId, cutId, i);
    }
  }

  /** The error the first failing upload raises, in submission order; None when every upload succeeds. */
  function FirstFailure(tasks: seq<Upload>, failures: map<string, string>): (error: Option<string>)
    ensures error.None? <==> forall k :: 0 <= k < |tasks| ==> tasks[k].key !in failures
  {
    if tasks == [] then None
    else if tasks[0].key in failures then Some(failures[tasks[0].key])
    else
      var rest := FirstFailure(tasks[1..], failures);
      assert forall k :: 1 <= k < |tasks| ==> tasks[k] == tasks[1..][k - 1];
      rest
  }

  /**
   * What the environment does for one cut: the temporary directory it gets,
   * the detector's results in its window, whether audio extraction raises,
   * and the message each failing upload key raises with.
   */
  datatype CutEnvironment = CutEnvironment(
    tempDir: string,
    sceneCount: nat,
    savedImages: seq<seq<string>>,
    audioError: Option<string>,
    failures: map<string, string>)

  /** The keyframe files a cut yields in its environment. */
  function CutFrames(cut: VideoCut, env: CutEnvironment): seq<string>
  {
    ExtractedFrames(PathJoin(env.tempDir, "keyframes"), env.sceneCount, env.savedImages)
  }

  /** The error processing a cut raises, or None. */
  function CutError(cut: VideoCut, env: CutEnvironment): Option<string>
  {
    if env.audioError.Some? then env.audioError
    else FirstFailure(UploadPlan(cut.cutId, CutFrames(cut, env)), env.failures)
  }

  /** Submit the uploads of a cut, keyframes first, audio last. */
  method SubmitUploads(cutId: string, keyframeFiles: seq<string>) returns (tasks: seq<Upload>)
    ensures tasks == UploadPlan(cutId, keyframeFiles)
  {
    tasks := [];
    for idx := 0 to |keyframeFiles|
      invariant |tasks| == idx
      invariant forall k :: 0 <= k < idx ==> tasks[k] == FileUpload(keyframeFiles[k], UploadBucket, KeyframeKey(cutId, k))
    {
      tasks := tasks + [FileUpload(keyframeFiles[idx], UploadBucket, KeyframeKey(cutId, idx))];
    }
    tasks := tasks + [AudioUpload(UploadBucket, AudioKey(cutId))];
  }

  /** Wait for the uploads in submission order; the first failing one raises. */
  method AwaitUploads(tasks: seq<Upload>, failures: map<string, string>) returns (awaited: nat, error: Option<string>)
    ensures error == FirstFailure(tasks, failures)
    ensures 0 < awaited <= |tasks| || tasks == []
    ensures error.None? ==> awaited == |tasks|
    ensures error.Some? ==> tasks[awaited - 1].key in failures && error == Some(failures[tasks[awaited - 1].key])
  {
    awaited := 0;
    while awaited < |tasks|
      invariant awaited <= |tasks|
      invariant FirstFailure(tasks[awaited..], failures) == FirstFailure(tasks, failures)
    {
      var key := tasks[awaited].key;
      assert tasks[awaited..][1..] == tasks[awaited + 1..];
      awaited := awaited + 1;
      if key in failures {
        return awaited, Some(failures[key]);
      }
    }
    assert tasks[awaited..] == [];
    error := None;
  }

  /**
   * Process one cut: extract its keyframes and its audio over the cut's
   * window, submit one upload per keyframe and one for the audio, and wait
   * for all of them.
   */
  method ProcessSingleCut(cut: VideoCut, env: CutEnvironment)
    returns (window: ExtractionWindow, tasks: seq<Upload>, awaited: nat, error: Option<string>)
    ensures window == CutWindow(cut)
    ensures error == CutError(cut, env)
    ensures env.audioError.Some? ==> tasks == [] && awaited == 0
    ensures env.audioError.None? ==>
      && tasks == UploadPlan(cut.cutId, CutFrames(cut, env))
      && |tasks| == |CutFrames(cut, env)| + 1
      && (error.None? ==> awaited == |tasks|)
  {
    var startTime := cut.start;
    var duration := cut.end - cut.start;
    window := ExtractionWindow(cut.localSourceVideo, startTime, duration);
    var keyframesDir := PathJoin(env.tempDir, "keyframes");
    var keyframeFiles := ExtractContentAwareFrames(keyframesDir, env.sceneCount, env.savedImages);
    if env.audioError.Some? {
      return window, [], 0, env.audioError;
    }
    tasks := SubmitUploads(cut.cutId, keyframeFiles);
    awaited, error := AwaitUploads(tasks, env.failures);
  }

  // ---------------------------------------------------------------------------
  // All cuts
  // ---------------------------------------------------------------------------

  /** The line reported for a cut: done, numbered from one out of the total, or failed with the error. */
  datatype CutReport = Completed(number: nat, total: nat, cutId: string) | Failed(number: nat, cutId: string, error: string)

  /** The report for cut i. */
  function ReportFor(i: nat, total: nat, cut: VideoCut, error: Option<string>): CutReport
  {
    if error.None? then Completed(i + 1, total, cut.cutId) else Failed(i + 1, cut.cutId, error.value)
  }

  /** Submit every cut: the outcome of each, in submission order. */
  method RunCuts(videoCuts: seq<VideoCut>, envs: seq<CutEnvironment>) returns (outcomes: seq<Option<string>>)
    requires |envs| == |videoCuts|
    ensures |outcomes| == |videoCuts|
    ensures forall k :: 0 <= k < |videoCuts| ==> outcomes[k] == CutError(videoCuts[k], envs[k])
  {
    outcomes := [];
    for c := 0 to |videoCuts|
      invariant |outcomes| == c
      invariant forall k :: 0 <= k < c ==> outcomes[k] == CutError(videoCuts[k], envs[k])
    {
      var _, _, _, error := ProcessSingleCut(videoCuts[c], envs[c]);
      outcomes := outcomes + [error];
    }
  }

  /** Wait for the outcomes in index order and report each, whether it succeeded or raised. */
  method ReportOutcomes(videoCuts: seq<VideoCut>, outcomes: seq<Option<string>>) returns (reports: seq<CutReport>)
    requires |outcomes| == |videoCuts|
    ensures |reports| == |videoCuts|
    ensures forall k :: 0 <= k < |videoCuts| ==> reports[k] == ReportFor(k, |videoCuts|, videoCuts[k], outcomes[k])
  {
    reports := [];
    for i := 0 to |outcomes|
      invariant |reports| == i
      invariant forall k :: 0 <= k < i ==> reports[k] == ReportFor(k, |videoCuts|, videoCuts[k], outcomes[k])
    {
      if outcomes[i].None? {
        reports := reports + [Completed(i + 1, |videoCuts|, videoCuts[i].cutId)];
      } else {
        reports := reports + [Failed(i + 1, videoCuts[i].cutId, outcomes[i].value)];
      }
    }
  }

  /**
   * Process every cut and report on each in submission order. A cut that
   * raises is reported as failed and the later cuts are still reported.
   */
  method Separator(videoCuts: seq<VideoCut>, envs: seq<CutEnvironment>) returns (reports: seq<CutReport>)
    requires |envs| == |videoCuts|
    ensures |reports| == |videoCuts|
    ensures forall i :: 0 <= i < |videoCuts| ==>
      reports[i] == ReportFor(i, |videoCuts|, videoCuts[i], CutError(videoCuts[i], envs[i]))
  {
    var outcomes := RunCuts(videoCuts, envs);
    reports := ReportOutcomes(videoCuts, outcomes);
  }

  /** Each cut is reported under its own number and id, failed exactly when processing it raised. */
  lemma ReportsInOrder(videoCuts: seq<VideoCut>, envs: seq<CutEnvironment>, i: nat)
    requires |envs| == |videoCuts| && i < |videoCuts|
    ensures var r := ReportFor(i, |videoCuts|, videoCuts[i], CutError(videoCuts[i], envs[i]));
      && r.number == i + 1 && r.cutId == videoCuts[i].cutId
      && (r.Failed? <==> CutError(videoCuts[i], envs[i]).Some?)
      && (r.Completed? ==> r.total == |videoCuts|)
  {
  }
}
