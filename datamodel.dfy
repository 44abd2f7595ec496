/** The records the pipeline passes between its stages. Times are seconds. */
module DataModel {
  import opened Wrappers

  /** One continuous shot of the source video. */
  datatype VideoCut = VideoCut(
    cutId: string,
    start: real,
    end: real,
    startFrame: int,
    endFrame: int,
    sourceVideo: string,
    localSourceVideo: string)

  /** The audio of a cut: storage keys of its audio files. */
  datatype AudioClip = AudioClip(audioData: seq<string>, start: real, end: real, sourceCut: VideoCut)

  /** The keyframes of a clip, as storage keys, with optional per-keyframe timestamps. */
  datatype VideoClip = VideoClip(
    start: real,
    end: real,
    keyframes: seq<string>,
    timestamps: Option<seq<real>>,
    sourceCut: Option<VideoCut>)

  /** One utterance of spoken text. */
  datatype Transcript = Transcript(text: string, start: real, end: real, confidence: real)
}
