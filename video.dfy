/**
 * `video_denoise_inference(video_path)`: check the input, upload the video,
 * and on status 200 save the returned stream and a small audit record. The
 * success body is the video itself, so only the status is checked.
 */
module VideoInference {
  import opened Wrappers
  import opened Paths
  import opened Naming
  import opened Records

  const VideoEndpoint := "/api/video_denoise"

  /** `os.path.isfile(video_path) and video_path.lower().endswith('.mp4')`. */
  predicate ValidVideoInput(videoPath: string, w: World)
  {
    w.isFile(videoPath) && IsMp4Name(videoPath)
  }

  /** The one multipart part: field `video`, declared basename, type `video/mp4`. */
  function VideoPart(videoPath: string): Part
  {
    Part("video", Basename(videoPath), videoPath, Some("video/mp4"))
  }

  function VideoDenoiseInference(videoPath: string, w: World): Run
  {
    if !ValidVideoInput(videoPath, w) then
      Run(Failure(InvalidVideoFile), NoEffects, None)
    else if !w.canOpen(videoPath) then
      Run(Failure(Raised), NoEffects, None)
    else
      var sent := Effects([videoPath], [Post(VideoEndpoint, [VideoPart(videoPath)])], [videoPath], [], [], []);
      match w.upload
      case PostRaised => Run(Failure(Raised), sent, None)
      case Response(status, _) =>
        if status != 200 then
          Run(Failure(UploadFailed(status)), sent, None)
        else
          var stem := Stem(Basename(videoPath));
          var output := DenoisedVideoPath(stem, w.timestamp);
          var resultFile := VideoResultPath(stem, w.timestamp);
          Run(Success, sent.(writes := [output, resultFile]),
              Some(Saved(resultFile, VideoRecord(videoPath, output, w.timestamp))))
  }

  /** Every run writes an audit record exactly when it returns `True`, as its last write. */
  lemma VideoAuditDiscipline(videoPath: string, w: World)
    ensures AuditOnlyOnSuccess(VideoDenoiseInference(videoPath, w))
    ensures Returned(VideoDenoiseInference(videoPath, w)).Some?
  {
  }

  /**
   * A path that is not a regular file, or does not end in ".mp4" in any
   * letter case, is rejected before anything is opened or sent.
   */
  lemma VideoRejectsInput(videoPath: string, w: World)
    ensures !ValidVideoInput(videoPath, w) <==>
      VideoDenoiseInference(videoPath, w).outcome == Failure(InvalidVideoFile)
    ensures !ValidVideoInput(videoPath, w) ==>
      VideoDenoiseInference(videoPath, w).effects == NoEffects
  {
  }

  /** The extension test ignores letter case: "clip.MP4" and "clip.Mp4" pass like "clip.mp4". */
  lemma {:induction false} Mp4TestIgnoresCase(stem: string, ext: string)
    requires |ext| == 4 && ext[0] == '.'
    requires LowerChar(ext[1]) == 'm' && LowerChar(ext[2]) == 'p' && ext[3] == '4'
    ensures IsMp4Name(stem + ext)
  {
    var s := Lower(stem + ext);
    assert s[|s| - 4..] == [s[|s| - 4], s[|s| - 3], s[|s| - 2], s[|s| - 1]];
  }

  /**
   * A non-200 status fails whatever the body holds (it is only parsed for the
   * message), and nothing is written under `results/videos/`.
   */
  lemma VideoStatusFailure(videoPath: string, w: World)
    requires ValidVideoInput(videoPath, w) && w.canOpen(videoPath)
    requires w.upload.Response? && w.upload.status != 200
    ensures VideoDenoiseInference(videoPath, w).outcome == Failure(UploadFailed(w.upload.status))
    ensures VideoDenoiseInference(videoPath, w).effects.writes == []
    ensures VideoDenoiseInference(videoPath, w).audit == None
  {
  }

  /**
   * With status 200 the call succeeds even if the body is not JSON, and
   * writes exactly the denoised video and then its record, both named after
   * the video's stem and the timestamp.
   */
  lemma VideoSuccessWrites(videoPath: string, w: World)
    requires ValidVideoInput(videoPath, w) && w.canOpen(videoPath)
    requires w.upload.Response? && w.upload.status == 200
    ensures var r := VideoDenoiseInference(videoPath, w);
      var stem := Stem(Basename(videoPath));
      && r.outcome == Success
      && r.effects.writes == [DenoisedVideoPath(stem, w.timestamp), VideoResultPath(stem, w.timestamp)]
      && r.audit == Some(Saved(VideoResultPath(stem, w.timestamp),
                               VideoRecord(videoPath, DenoisedVideoPath(stem, w.timestamp), w.timestamp)))
      && |r.effects.posts| == 1 && r.effects.closes == r.effects.opens
  {
  }

  /** The call returns `True` exactly when the input is valid, it opens and the POST answers 200. */
  lemma VideoSucceedsIff(videoPath: string, w: World)
    ensures VideoDenoiseInference(videoPath, w).outcome == Success <==>
      ValidVideoInput(videoPath, w) && w.canOpen(videoPath) && w.upload.Response? && w.upload.status == 200
  {
  }
}
