# vidcrawl core, modelled in Dafny

vidcrawl turns a video into a Markdown report. Shot detection cuts the video
into `VideoCut`s. Each cut yields keyframes and an audio track, which are
uploaded to a storage bucket. The audio is transcribed into `Transcript`
utterances, and the keyframes are sent to a vision model. The two analyses are
then merged into one report.

This project models the deterministic logic between those remote calls:

- `audio.dfy`: the transcription call. It covers the empty-input guard, the
  job-status poll (including a status request that raises) and the catch-all
  error return. Above all it covers the
  loop that groups the recogniser's word-level items into utterances. That
  loop is the `SegmentBuffer` class, whose fields are the source's loop
  variables; ghost state records the segments those variables stand for.
- `merger.dfy`: clock formatting, and the report builder that appends lines
  in a fixed order. It also covers the synthesis call, which falls back to
  the plain report when the model call fails.
- `llm.dfy`: the visual-analysis prompt. It covers the per-clip frame quota,
  the keyframe prefixes, the hard cap on frames, the fallback timestamps and
  the content-block layout. It also covers how the clip argument is
  normalised.
- `scenes.dfy`: the detection-status poll, and the mapping from shot segments
  to cuts.
- `transform.dfy`: the storage keys of a cut's uploads, and the flattened,
  sorted keyframe paths. It also covers waiting on the uploads, and reporting
  the outcome of every cut in submission order.
- `datamodel.dfy`: the records `VideoCut`, `AudioClip`, `VideoClip` and
  `Transcript`.
- `common.dfy`: shared helpers.
  - `Option` and `Result`.
  - Decimal digits and zero padding, string joins, and a lexicographic
    insertion sort that stands in for Python's `sorted`.
  - Python's floor division and remainder on `real` times.
  - The "first terminal status" of a status poll.

Times are Python floats. They are modelled as exact `real`s. Python's `int(x)`
truncates toward zero and is modelled as such (`Clock.Trunc`); for the
non-negative times of the clock formatting this is the floor. Remote calls
appear as parameters:

- the transcription status answers (a status, or none when the request
  raises) and the downloaded items;
- the detection responses;
- the model's reply, or its absence when the call raises;
- the detector's saved images;
- the upload failures.

Every loop that polls forever in the source is given a precondition: some
response in the input is terminal.

The grouping loop glues every punctuation mark onto the word before it, so
the items "Hello" "," "world" "," "." make the utterance "Hello, world,."
(`Audio.CommasAreGlued`).

## Model

| member | source | states |
|---|---|---|
| Audio.Step | vidcrawl/core/_audio.py:104-144 | one item of the grouping rule: a closed segment is never empty |
| Audio.Scan | vidcrawl/core/_audio.py:104-155 | every segment produced from an item stream holds at least one word |
| Audio.ScanAt | vidcrawl/core/_audio.py:104 | grouping from item i is the step at i followed by grouping from i + 1 |
| Audio.GlueText | vidcrawl/core/_audio.py:132 | after gluing, the buffered strings are the old ones with the mark appended to the last |
| Audio.ClosedGrows | vidcrawl/core/_audio.py:119-127 | closing a segment appends exactly its utterance to the list so far |
| Audio.AgreeAfterClose | vidcrawl/core/_audio.py:119-128 | emitting the utterance the loop variables describe, then emptying the buffer, keeps the variables in agreement with the segments |
| Audio.SegmentBuffer.constructor | vidcrawl/core/_audio.py:94-102 | the loop starts with an empty buffer and no utterances |
| Audio.SegmentBuffer.Close | vidcrawl/core/_audio.py:118-128 | emitting the buffer appends the utterance of the buffered words, with the given closer, and empties the buffer |
| Audio.SegmentBuffer.AddWord | vidcrawl/core/_audio.py:105-128 | a pronunciation item changes the buffer and closed segments exactly as the grouping rule says: append, then close at ten words with the word's confidence |
| Audio.SegmentBuffer.AddPunct | vidcrawl/core/_audio.py:130-144 | a punctuation item glues onto the last word, closes on . ! ? with confidence 1.0, and is dropped when the buffer is empty |
| Audio.SegmentBuffer.Feed | vidcrawl/core/_audio.py:104-144 | one item of any type updates the state as the grouping rule's step; other item types change nothing |
| Audio.SegmentBuffer.Finish | vidcrawl/core/_audio.py:146-155 | words left at the end of the stream form one last utterance with confidence 1.0 |
| Audio.SegmentItems | vidcrawl/core/_audio.py:94-155 | the loop's utterances are exactly those of the grouping rule applied to the whole item stream |
| Audio.StepWords | vidcrawl/core/_audio.py:104-144 | one step neither loses nor invents a word |
| Audio.ScanWords | vidcrawl/core/_audio.py:104-155 | from any buffer, the segments' words are the buffered words followed by the spoken words |
| Audio.WordConservation | vidcrawl/core/_audio.py:104-155 | the segments' words, in order, are exactly the pronunciation contents of the input, each used once |
| Audio.AppendWordShape | vidcrawl/core/_audio.py:114 | appending a fresh word keeps the buffer free of sentence ends |
| Audio.GlueShape | vidcrawl/core/_audio.py:132-134 | gluing a mark that ends no sentence keeps the buffer free of sentence ends |
| Audio.GlueUndo | vidcrawl/core/_audio.py:132 | removing the last glued mark restores the buffer |
| Audio.StepShape | vidcrawl/core/_audio.py:104-144 | a step from a short, open buffer closes only well-formed segments and leaves a short, open buffer |
| Audio.ScanShape | vidcrawl/core/_audio.py:104-155 | every segment is well formed: one to ten words; ten exactly when the word count closed it; a sentence end only as the last mark |
| Audio.SegmentShapes | vidcrawl/core/_audio.py:111-155 | the whole stream's segments are well formed, and only the last can be the end-of-stream flush |
| Audio.UtteranceAt | vidcrawl/core/_audio.py:111-155 | the k-th utterance: the words with their marks, joined by spaces; first start and last end shifted by the clip start; the tenth word's confidence when it was closed by the word count, 1.0 otherwise |
| Audio.LeadingMarkDropped | vidcrawl/core/_audio.py:130 | a mark arriving with nothing buffered is dropped |
| Audio.ChunkSizesFull | vidcrawl/core/_audio.py:118 | ten or more plain words start with a full group of ten |
| Audio.ScanPlainWords | vidcrawl/core/_audio.py:111-128 | plain words are cut into groups of ten, the remainder last |
| Audio.PlainWords | vidcrawl/core/_audio.py:111-155 | a stream of n plain words gives segment sizes of ten, ten, …, the remainder |
| Audio.TwentyFiveWords | vidcrawl/core/_audio.py:118-155 | 25 plain words give segments of 10, 10 and 5 words |
| Audio.TwoWordUtterance | vidcrawl/core/_audio.py:135-141 | a two-word segment closed by punctuation or the flush becomes "a b" with confidence 1.0 |
| Audio.ScanWord | vidcrawl/core/_audio.py:114 | a word that does not fill the buffer is appended to it |
| Audio.ScanComma | vidcrawl/core/_audio.py:130-132 | a mark that ends no sentence only glues |
| Audio.GlueLast | vidcrawl/core/_audio.py:132 | gluing touches only the last buffered word |
| Audio.ScanFinalStop | vidcrawl/core/_audio.py:134-144 | a final sentence-ending mark closes the buffer with the mark glued on |
| Audio.HelloWorldSegments | vidcrawl/core/_audio.py:104-144 | "Hello" "world" "." is one segment closed by the stop |
| Audio.HelloWorld | vidcrawl/core/_audio.py:104-144 | "Hello" "world" "." is the utterance "Hello world." with confidence 1.0 |
| Audio.CommaTail | vidcrawl/core/_audio.py:130-144 | a comma then a stop both glue onto the last word, and the stop closes |
| Audio.CommaHead | vidcrawl/core/_audio.py:104-132 | word, comma, word leaves two open words with the comma on the first |
| Audio.CommaSegments | vidcrawl/core/_audio.py:104-144 | "Hello" "," "world" "," "." is one segment |
| Audio.CommasAreGlued | vidcrawl/core/_audio.py:104-144 | "Hello" "," "world" "," "." is the utterance "Hello, world,." with confidence 1.0 |
| Audio.PollTranscriptionJob | vidcrawl/core/_audio.py:70-82 | the poll stops at the first answer that is COMPLETED or FAILED or a raised request; it reports completion exactly when that answer is COMPLETED |
| Audio.TranscribeAudioS3 | vidcrawl/core/_audio.py:26-174 | no audio gives no utterances and no job; a failed start, a FAILED job, a status request that raises or a failed download gives no utterances; otherwise the utterances of the downloaded items |
| Audio.JobNameSlashFree | vidcrawl/core/_audio.py:51 | the job name holds no "/", whatever the audio key |
| Merger.FormatTimestamp | vidcrawl/_merger.py:25-33 | HH:MM:SS exactly when the hour count is positive, MM:SS otherwise |
| Merger.FormatTimestampRoundTrip | vidcrawl/_merger.py:25-33 | the clock reads back as the hours, the minutes and the seconds; minutes and seconds are in 0..59; for a non-negative time, h*3600 + m*60 + s is its whole seconds |
| Merger.ParseLong | vidcrawl/_merger.py:31-32 | an HH:MM:SS clock reads back as its hours, minutes and seconds |
| Merger.ParseShort | vidcrawl/_merger.py:33 | an MM:SS clock reads back as no hours, and its minutes and seconds |
| Merger.Repeat | vidcrawl/_merger.py:73 | "c" * n is n copies of c, none for n not positive |
| Merger.StarsBound | vidcrawl/_merger.py:73 | at most five stars; floor(5 * confidence) of them for a confidence in [0, 1] |
| Merger.Subsections | vidcrawl/_merger.py:71-79 | one subsection per utterance |
| Merger.AppendSubsection | vidcrawl/_merger.py:72-79 | one loop step appends the utterance's heading, rating and text lines |
| Merger.ReportHead | vidcrawl/_merger.py:52-66 | the head, duration, count, rule, visual section and audio heading, in that order |
| Merger.FlattenStep | vidcrawl/_merger.py:71-79 | appending the next subsection extends the lines by that subsection |
| Merger.AppendSubsections | vidcrawl/_merger.py:71-79 | the loop appends every utterance's subsection, in order, numbered from one |
| Merger.MergeTimeline | vidcrawl/_merger.py:36-81 | the report built line by line is the report function's, so identical inputs give identical reports |
| Merger.FlattenAppend | vidcrawl/_merger.py:71-79 | subsection lines of appended groups are the appended lines |
| Merger.GroupAt | vidcrawl/_merger.py:71-81 | the joined subsections are those before the k-th, the k-th, then those after |
| Merger.ReportSections | vidcrawl/_merger.py:52-81 | the report is head, visual heading, the analysis verbatim, rule, audio heading, then the no-transcription marker or the subsections |
| Merger.VisualVerbatim | vidcrawl/_merger.py:61-63 | the visual analysis appears verbatim right after the head and the visual heading |
| Merger.SubsectionAt | vidcrawl/_merger.py:71-79 | the k-th subsection is the k-th utterance's, numbered k + 1 |
| Merger.TranscriptTextEmpty | vidcrawl/_merger.py:111-123 | the prompt's transcript text is empty exactly when there are no utterances |
| Merger.CreateUnifiedReport | vidcrawl/_merger.py:84-162 | a client failure propagates; otherwise the request holds the visual analysis, and the transcript text or the no-audio text; the reply is returned, or the timeline report over the clip's end when the call fails |
| Llm.QuotaWithinBudget | vidcrawl/core/_llm.py:44-46 | the per-clip quota is non-negative and spends at most the budget over all clips |
| Llm.Spaced | vidcrawl/core/_llm.py:64-67 | n spaced times |
| Llm.SpacedAt | vidcrawl/core/_llm.py:64-67 | time idx is start + idx * step |
| Llm.FrameTimes | vidcrawl/core/_llm.py:55-67 | one time per selected keyframe |
| Llm.ZipAt | vidcrawl/core/_llm.py:70-72 | zip pairs the k-th key with the k-th time |
| Llm.ClipFrames | vidcrawl/core/_llm.py:53-72 | one frame per selected keyframe |
| Llm.StepsWithin | vidcrawl/core/_llm.py:61-66 | k steps of d/n, for k below n, stay within [0, d) |
| Llm.FallbackTimes | vidcrawl/core/_llm.py:58-67 | without usable stored times, frame idx is at start + idx*(end-start)/n when n > 1, at start otherwise |
| Llm.FallbackTimesWithinClip | vidcrawl/core/_llm.py:58-67 | fallback times of a clip of positive length lie in [start, end) |
| Llm.StoredTimes | vidcrawl/core/_llm.py:53-57 | as many times as selected keyframes; usable stored times (present, non-empty, one per keyframe) are the first stored times in order; otherwise the stored times play no part |
| Llm.ClipGroupAt | vidcrawl/core/_llm.py:51-72 | clip k's group is its selected frames |
| Llm.Taken | vidcrawl/core/_llm.py:94-98 | the frames sent from one clip: at least one if it has any, and fewer than all only when the total reached max_frames |
| Llm.SentIsPrefix | vidcrawl/core/_llm.py:51-101 | below the budget, the frames sent are the first of all the clips' selected frames, up to what is left of the budget |
| Llm.AllFramesBound | vidcrawl/core/_llm.py:53 | groups of at most q frames hold at most q times their number |
| Llm.BudgetRespected | vidcrawl/core/_llm.py:94-101 | with a non-negative budget every selected frame is sent, and the total never exceeds max_frames |
| Llm.NegativeBudget | vidcrawl/core/_llm.py:43-115 | with a negative budget at most one frame is sent; the prompt fails for lack of frames exactly when there are no clips or the first clip selects no keyframe |
| Llm.ClipContribution | vidcrawl/core/_llm.py:53 | each clip contributes a prefix of its keyframes, at most the quota of them |
| Llm.LabelClock | vidcrawl/core/_llm.py:76-77 | a label shows the frame's whole minutes and seconds, seconds in 0..59 |
| Llm.BlocksAt | vidcrawl/core/_llm.py:79-93 | frame k gives block 2k, its label, and block 2k+1, its image |
| Llm.PromptLayout | vidcrawl/core/_llm.py:27-115 | the content is the opening, then a label and an image "s3://aws-hack-bucket/" + key per frame in clip order, then the closing, so its length is 2 + 2 * frames; no frame is an error |
| Llm.BlocksStep | vidcrawl/core/_llm.py:73-93 | one frame adds its label and image to the content and its time to the timestamps |
| Llm.BlocksJoin | vidcrawl/core/_llm.py:79-93 | the blocks of joined frame runs are the joined blocks |
| Llm.TimesJoin | vidcrawl/core/_llm.py:73 | the times of joined frame runs are the joined times |
| Llm.PromptOf | vidcrawl/core/_llm.py:104-115 | the prompt is a failure exactly when no frame is sent |
| Llm.SentAdvance | vidcrawl/core/_llm.py:51-101 | one clip's step sends its taken frames, then either the budget is reached or the later clips send the rest |
| Llm.TakenAtLeast | vidcrawl/core/_llm.py:94-98 | frames sent without reaching the budget are among the taken ones |
| Llm.TakenAtBreak | vidcrawl/core/_llm.py:96-98 | the frame that brings the count to the budget is the last one taken |
| Llm.SendFrame | vidcrawl/core/_llm.py:73-94 | one frame: its time recorded, its label and image appended, the count incremented |
| Llm.SendClipFrames | vidcrawl/core/_llm.py:69-98 | the inner loop sends exactly the taken prefix of the clip's frames |
| Llm.CreateImagesPrompt | vidcrawl/core/_llm.py:18-115 | the nested loops build exactly the prompt function's content, or fail when no frame is sent |
| Llm.AnalyseImages | vidcrawl/core/_llm.py:118-157 | a single clip is wrapped into a list, anything else is a type error; the request carries the prompt, 4000 tokens and temperature 0.3; the reply is returned |
| Scenes.Statuses | vidcrawl/core/_scenes.py:41-43 | one status per response |
| Scenes.PollResults | vidcrawl/core/_scenes.py:39-48 | the poll stops at the first SUCCEEDED or FAILED response, returning it on SUCCEEDED and raising its reason on FAILED; earlier statuses are neither |
| Scenes.CutsOf | vidcrawl/core/_scenes.py:67-78 | one cut per segment |
| Scenes.CutRoundTrip | vidcrawl/core/_scenes.py:67-75 | a cut gives back its segment: the index from "cut_<index>", the milliseconds from the seconds, the frames copied |
| Scenes.CutIdsDistinct | vidcrawl/core/_scenes.py:69 | segments with distinct shot indices give distinct cut ids |
| Scenes.CutsInOrder | vidcrawl/core/_scenes.py:67-78 | cut k is "cut_" + the index of segment k, names "videos/demo.mp4" and "demo.mp4", starts and ends at the segment's milliseconds divided by 1000, and gives back segment k |
| Scenes.GetSceneDetectionResults | vidcrawl/core/_scenes.py:51-79 | on SUCCEEDED, the cuts of the segments in order; on FAILED, the failure reason |
| Transform.KeyframeKeyRoundTrip | vidcrawl/core/_transform.py:125 | a keyframe key gives back its number |
| Transform.KeyframeKeysDistinct | vidcrawl/core/_transform.py:120-127 | keyframe keys within a cut are pairwise distinct |
| Transform.AudioKeyNotKeyframe | vidcrawl/core/_transform.py:125-134 | no audio key equals any keyframe key |
| Transform.UnderscoreAfterDigits | vidcrawl/core/_transform.py:125 | the first "_" after a run of digits is right after it |
| Transform.DigitsThenUnderscore | vidcrawl/core/_transform.py:125 | two digit runs each followed by "_" split a key at the same place |
| Transform.KeyframeKeysAcrossCuts | vidcrawl/core/_transform.py:125 | for cuts named by shot detection, a keyframe key determines both the shot and the keyframe number |
| Transform.PathJoinParts | vidcrawl/core/_transform.py:77 | a joined path ends with the relative part and keeps the directory in front |
| Transform.JoinEach | vidcrawl/core/_transform.py:76-78 | one joined path per saved path |
| Transform.JoinAll | vidcrawl/core/_transform.py:74-78 | as many joined paths as were saved |
| Transform.ExtractedFramesSorted | vidcrawl/core/_transform.py:74-80 | the result is sorted, is a permutation of every joined saved path, and is the only sorted such list |
| Transform.JoinEachStep | vidcrawl/core/_transform.py:76-78 | one more path of the current list |
| Transform.JoinAllStep | vidcrawl/core/_transform.py:75-78 | one more finished list |
| Transform.ExtractContentAwareFrames | vidcrawl/core/_transform.py:58-84 | the nested loops and the sort give the sorted joined paths, as many as were saved; no scene gives [] |
| Transform.CutWindowSpansCut | vidcrawl/core/_transform.py:89-110 | extraction starts at the cut's start and lasts end - start, over the local copy |
| Transform.UploadPlan | vidcrawl/core/_transform.py:116-136 | one upload per keyframe plus the audio |
| Transform.UploadKeysDistinct | vidcrawl/core/_transform.py:120-136 | every upload of a cut goes to its own key |
| Transform.FirstFailure | vidcrawl/core/_transform.py:139-140 | no error exactly when no upload fails |
| Transform.SubmitUploads | vidcrawl/core/_transform.py:116-136 | the keyframe uploads in order, then the audio upload |
| Transform.AwaitUploads | vidcrawl/core/_transform.py:139-140 | waiting in order raises the first failure; with none, every upload is awaited |
| Transform.ProcessSingleCut | vidcrawl/core/_transform.py:87-143 | the window spans the cut; an audio failure submits nothing; otherwise keyframes + 1 uploads, all awaited on success |
| Transform.RunCuts | vidcrawl/core/_transform.py:151-153 | every cut is processed, and its outcome is the error its processing raises or none |
| Transform.ReportOutcomes | vidcrawl/core/_transform.py:156-163 | outcomes are read in index order, and each is reported as done or failed, under its number |
| Transform.Separator | vidcrawl/core/_transform.py:146-165 | one report per cut in index order: done with its number out of the total, or failed with its error; later cuts are still reported |
| Transform.ReportsInOrder | vidcrawl/core/_transform.py:156-163 | cut i is reported under number i + 1 and its own id, failed exactly when processing it raised |
| Text.Digits | vidcrawl/core/_scenes.py:69 | an integer's decimal form is non-empty and all digits |
| Text.ValueOfDigits | vidcrawl/core/_scenes.py:69 | a decimal form reads back as its number |
| Text.DigitsInjective | vidcrawl/core/_transform.py:125 | distinct numbers have distinct decimal forms |
| Text.Pad2 | vidcrawl/_merger.py:31-33 | the :02d field is at least two digits and reads back as its value |
| Text.ConcatAppend | vidcrawl/_merger.py:81 | joining appended lists is appending the joins |
| Text.LexLeTotal | vidcrawl/core/_transform.py:80 | string order is total |
| Text.LexLeTransitive | vidcrawl/core/_transform.py:80 | string order is transitive |
| Text.LexLeAntisymmetric | vidcrawl/core/_transform.py:80 | strings ordered both ways are equal |
| Text.InsertSorted | vidcrawl/core/_transform.py:80 | inserting into a sorted list keeps it sorted |
| Text.SortedUnique | vidcrawl/core/_transform.py:80 | two sorted permutations of one list are equal |
| Text.SortStrings | vidcrawl/core/_transform.py:80 | sorted() returns a permutation of its input |
| Text.SortStringsSorted | vidcrawl/core/_transform.py:80 | sorted() returns a list in ascending order |
| Clock.Mod60 | vidcrawl/_merger.py:29 | the remainder of x by 60 is in [0, 60) |
| Clock.Mod3600 | vidcrawl/_merger.py:28 | the remainder of x by 3600 is in [0, 3600) |
| Clock.MinutesSeconds | vidcrawl/core/_llm.py:76-77 | for a non-negative time, 60 * minutes + seconds is its whole seconds |
| Clock.HoursMinutesSeconds | vidcrawl/_merger.py:27-29 | for a non-negative time, 3600 * hours + 60 * minutes + seconds is its whole seconds, with minutes and seconds below 60 |
| Polling.FirstIn | vidcrawl/core/_scenes.py:40-47 | the first terminal position: no earlier status is terminal |
| Polling.ReachesFirstIn | vidcrawl/core/_audio.py:71-82 | when some status is terminal, the first terminal position is inside the list and its status is terminal |

## Left out

- Remote services and I/O are not modelled.
  - These are Transcribe, Rekognition, Bedrock and S3.
  - The same goes for ffmpeg, PySceneDetect and the transcript download.
  - Their results are parameters of the model.
  - `get_aws_client`, `save_report` and `vidcrawl/core/_s3.py` are not part of this model.
- `start_scene_detection` is not modelled: it only sends a constant request.
- The transcription job is never deleted in the model, either after success
  or on error. The deletion's failures are swallowed anyway.
- The clock is a parameter (`now`) of the job name. Sleeping between polls
  is left out.
- All `print` output is left out.
- Concurrency is left out.
  - The thread pools in `process_single_cut` and `separator` are modelled as
    sequential loops.
  - Each cut's outcome depends only on its own environment, so completion
    order cannot change what is reported, and it is not represented.
  - After an upload fails, the executor still waits on the remaining uploads
    before the error propagates. The model stops at the first failure.
- Temporary directories and their cleanup are left out. The directory is a
  parameter.
- Extraction failures other than the audio step are not separately modelled.
- The scene detector's choice of frames is an input: the number of scenes,
  and the saved paths per scene in the order of its result dictionary.
- Float rendering is not reproduced exactly.
  - `Merger.Fixed2` rounds half up on the exact value.
  - The `.1f` frame label is represented by the raw time it shows.
  - Emoji are code points.
- Prompt prose is not modelled. The opening and closing text blocks are
  placeholders in the block sequence.
- Audio.PollTranscriptionJob, Scenes.PollResults, Scenes.GetSceneDetectionResults, Audio.TranscribeAudioS3: require some answer to stop the poll, because the source polls forever otherwise.
- Llm.BudgetRespected: the cap on the total is proved for max_frames >= 0 only. With a negative budget the source may exceed it: it sends at most one frame, and none (so the no-frame failure) when the first clip selects no keyframe (`Llm.NegativeBudget`).
- Scenes.ShotSegment: the shot index is a natural number. The service's index is never negative.
