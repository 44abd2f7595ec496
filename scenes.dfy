/**
 * Shot detection: polling the detection job until it finishes, and turning
 * the shot segments it reports into video cuts.
 */
module Scenes {
  import opened Wrappers
  import opened Text
  import opened Polling
  import opened DataModel

  /** One shot segment as the detection service reports it; times in milliseconds. */
  datatype ShotSegment = ShotSegment(index: nat, startMillis: int, endMillis: int, startFrame: int, endFrame: int)

  /** One answer of the job-status call: the status, the failure reason, the segments found. */
  datatype DetectionResponse = DetectionResponse(jobStatus: string, failureReason: string, segments: seq<ShotSegment>)

  /** The statuses on which the poll stops. */
  const DetectionTerminal: set<string> := {"SUCCEEDED", "FAILED"}

  /** The object the detection job analyses, and its local copy. */
  const SourceVideo: string := "videos/demo.mp4"
  const LocalSourceVideo: string := "demo.mp4"

  /** The job statuses of a run of responses, in order. */
  function Statuses(responses: seq<DetectionResponse>): (statuses: seq<string>)
    ensures |statuses| == |responses|
  {
    seq(|responses|, k requires 0 <= k < |responses| => responses[k].jobStatus)
  }

  /**
   * The status poll: read responses in order; a SUCCEEDED response is
   * returned, a FAILED one raises with its reason, any other is polled again.
   * The source polls forever when no response is terminal, so some must be.
   */
  method PollResults(responses: seq<DetectionResponse>) returns (result: Result<DetectionResponse, string>, polls: nat)
    requires Reaches(Statuses(responses), DetectionTerminal)
    ensures polls == FirstIn(Statuses(responses), DetectionTerminal) + 1 && polls <= |responses|
    ensures forall k :: 0 <= k < polls - 1 ==> responses[k].jobStatus != "SUCCEEDED" && responses[k].jobStatus != "FAILED"
    ensures responses[polls - 1].jobStatus == "SUCCEEDED" ==> result == Success(responses[polls - 1])
    ensures responses[polls - 1].jobStatus != "SUCCEEDED" ==>
      responses[polls - 1].jobStatus == "FAILED" && result == Failure(responses[polls - 1].failureReason)
  {
    var statuses := Statuses(responses);
    ReachesFirstIn(statuses, DetectionTerminal);
    forall k | 0 <= k < FirstIn(statuses, DetectionTerminal)
      ensures responses[k].jobStatus !in DetectionTerminal
    {
      assert statuses[k] == responses[k].jobStatus;
    }
    var i := 0;
    while true
      invariant 0 <= i <= FirstIn(statuses, DetectionTerminal) < |responses|
      decreases FirstIn(statuses, DetectionTerminal) - i
    {
      var response := responses[i];
      assert statuses[i] == response.jobStatus;
      if response.jobStatus == "SUCCEEDED" {
        result := Success(response);
        break;
      } else if response.jobStatus == "FAILED" {
        return Failure(response.failureReason), i + 1;
      }
      i := i + 1;
    }
    polls := i + 1;
  }

  /** The cut for one shot segment: id "cut_<index>", times in seconds, frame numbers copied. */
  function SegmentToCut(seg: ShotSegment): VideoCut
  {
    VideoCut(
      "cut_" + Digits(seg.index),
      seg.startMillis as real / 1000.0,
      seg.endMillis as real / 1000.0,
      seg.startFrame,
      seg.endFrame,
      SourceVideo,
      LocalSourceVideo)
  }

  /** One cut per segment, in segment order. */
  function CutsOf(segments: seq<ShotSegment>): (cuts: seq<VideoCut>)
    ensures |cuts| == |segments|
  {
    seq(|segments|, k requires 0 <= k < |segments| => SegmentToCut(segments[k]))
  }

  /**
   * The segment a cut was made from, read back from the cut: the index from
   * the digits after "cut_", the times back in milliseconds.
   */
  function CutToSegment(cut: VideoCut): (seg: Option<ShotSegment>)
  {
    var id := cut.cutId;
    if |id| > 4 && id[..4] == "cut_" && AllDigits(id[4..]) then
      Some(ShotSegment(Value(id[4..]), (cut.start * 1000.0).Floor, (cut.end * 1000.0).Floor, cut.startFrame, cut.endFrame))
    else None
  }

  /** A cut determines the segment it was made from. */
  lemma CutRoundTrip(seg: ShotSegment)
    ensures CutToSegment(SegmentToCut(seg)) == Some(seg)
  {
    var id := "cut_" + Digits(seg.index);
    assert id[..4] == "cut_" && id[4..] == Digits(seg.index);
    ValueOfDigits(seg.index);
  }

  /** Segments with distinct shot indices become cuts with distinct ids. */
  lemma CutIdsDistinct(segments: seq<ShotSegment>, i: nat, j: nat)
    requires i < j < |segments| && segments[i].index != segments[j].index
    ensures CutsOf(segments)[i].cutId != CutsOf(segments)[j].cutId
  {
    CutRoundTrip(segments[i]);
    CutRoundTrip(segments[j]);
  }

  /**
   * The cuts of a run of segments: one per segment, in segment order, each
   * naming its shot and the analysed video, with its times the segment's
   * milliseconds divided by 1000, and each giving back its segment.
   */
  lemma CutsInOrder(segments: seq<ShotSegment>, k: nat)
    requires k < |segments|
    ensures var cut := CutsOf(segments)[k];
      && cut.cutId == "cut_" + Digits(segments[k].index)
      && cut.sourceVideo == SourceVideo && cut.localSourceVideo == LocalSourceVideo
      && cut.start == segments[k].startMillis as real / 1000.0
      && cut.end == segments[k].endMillis as real / 1000.0
      && CutToSegment(cut) == Some(segments[k])
  {
    CutRoundTrip(segments[k]);
  }

  /**
   * Poll the job, then map the segments of the successful response to cuts;
   * a failed job raises with the service's failure reason.
   */
  method GetSceneDetectionResults(responses: seq<DetectionResponse>) returns (cuts: Result<seq<VideoCut>, string>)
    requires Reaches(Statuses(responses), DetectionTerminal)
    ensures var k := FirstIn(Statuses(responses), DetectionTerminal);
      && k < |responses|
      && (responses[k].jobStatus == "SUCCEEDED" ==> cuts == Success(CutsOf(responses[k].segments)))
      && (responses[k].jobStatus != "SUCCEEDED" ==> cuts == Failure(responses[k].failureReason))
  {
    var res, _ := PollResults(responses);
    match res
    case Failure(reason) =>
      cuts := Failure(reason);
    case Success(response) =>
      var output := response.segments;
      cuts := Success(CutsOf(output));
  }
}
