/**
 * `single_f32_inference(image_path)`: upload one image, check the response,
 * fetch the processed artifact, copy the original and write the audit record.
 */
module SingleInference {
  import opened Wrappers
  import opened Json
  import opened Paths
  import opened Naming
  import opened Records

  const SingleEndpoint := "/api/f32_inference"

  /** The one multipart part: field `image`, a file object, so requests declares its basename. */
  function SinglePart(imagePath: string): Part
  {
    Part("image", Basename(imagePath), imagePath, None)
  }

  /**
   * `print(f"... {confidence:.2f}")` raises unless the confidence is a number;
   * it is only reached when `inference_result` is a dict.
   */
  predicate ConfidencePrintable(result: map<string, Json>)
  {
    var inference := Get(result, "inference_result", JObj(map[]));
    !inference.JObj? || FormatsAsFixed(Get(inference.fields, "confidence", JNum(0.0)))
  }

  /** The whole workflow; the `with open` block closes the handle before the status is read. */
  function SingleF32Inference(imagePath: string, w: World): Run
  {
    if !w.canOpen(imagePath) then
      Run(Failure(Raised), NoEffects, None)
    else
      var sent := Effects([imagePath], [Post(SingleEndpoint, [SinglePart(imagePath)])], [imagePath], [], [], []);
      match w.upload
      case PostRaised => Run(Failure(Raised), sent, None)
      case Response(status, body) =>
        match CheckResponse(status, body)
        case Rejected(reason) => Run(Failure(reason), sent, None)
        case Accepted(result) =>
          if !ConfidencePrintable(result) then Run(Failure(Raised), sent, None)
          else SaveSingle(imagePath, result, sent, w)
  }

  /**
   * Everything after the response checks: fetch the processed image when the
   * response names one, copy the original, write the audit record.
   */
  function SaveSingle(imagePath: string, result: map<string, Json>, sent: Effects, w: World): Run
  {
    var ts := w.timestamp;
    var stem := Stem(Basename(imagePath));
    var wants := HasTruthy(result, "processed_image_url");
    var gets := if wants then [result["processed_image_url"]] else [];
    if wants && w.fetch(0).GetRaised? then
      Run(Failure(Raised), sent.(gets := gets), None)
    else
      var processedPath := ProcessedImagePath(stem, ts);
      var saved := wants && w.fetch(0) == Fetched(200);
      var copyPath := OriginalCopyPath(stem, ts);
      var resultFile := SingleResultPath(stem, ts);
      var artifacts := (if saved then [processedPath] else []) + (if w.copyOk(0) then [copyPath] else []);
      var record := SingleRecord(imagePath, copyPath, JObj(result),
                                 SingleFiles(copyPath, if saved then Some(processedPath) else None, resultFile));
      Run(Success,
          sent.(gets := gets, copies := [Copy(imagePath, copyPath, w.copyOk(0))], writes := artifacts + [resultFile]),
          Some(Saved(resultFile, record)))
  }

  /** Every run writes an audit record exactly when it returns `True`, as its last write. */
  lemma SingleAuditDiscipline(imagePath: string, w: World)
    ensures AuditOnlyOnSuccess(SingleF32Inference(imagePath, w))
    ensures Returned(SingleF32Inference(imagePath, w)).Some?
  {
    var r := SingleF32Inference(imagePath, w);
    if !w.canOpen(imagePath) || w.upload.PostRaised? {
      assert r.outcome == Failure(Raised) && r.audit == None;
      assert Returned(r) == Some(false);
    } else {
      var c := CheckResponse(w.upload.status, w.upload.body);
      var sent := Effects([imagePath], [Post(SingleEndpoint, [SinglePart(imagePath)])], [imagePath], [], [], []);
      if c.Rejected? {
        assert r == Run(Failure(c.reason), sent, None);
        assert Returned(r) == Some(false);
      } else if !ConfidencePrintable(c.fields) {
        assert r == Run(Failure(Raised), sent, None);
        assert Returned(r) == Some(false);
      } else {
        assert r == SaveSingle(imagePath, c.fields, sent, w);
        SaveSingleAudit(imagePath, c.fields, sent, w);
      }
    }
  }

  /** The part after the response checks keeps the audit discipline, whatever the GET does. */
  lemma SaveSingleAudit(imagePath: string, result: map<string, Json>, sent: Effects, w: World)
    ensures AuditOnlyOnSuccess(SaveSingle(imagePath, result, sent, w))
    ensures Returned(SaveSingle(imagePath, result, sent, w)).Some?
  {
  }

  /** An image that cannot be opened fails before any network call. */
  lemma SingleUnopenable(imagePath: string, w: World)
    requires !w.canOpen(imagePath)
    ensures SingleF32Inference(imagePath, w) == Run(Failure(Raised), NoEffects, None)
  {
  }

  /**
   * Whatever the POST does, exactly one POST is issued and the handle opened
   * for it is closed.
   */
  lemma SingleHandleClosed(imagePath: string, w: World)
    requires w.canOpen(imagePath)
    ensures var fx := SingleF32Inference(imagePath, w).effects;
      fx.opens == [imagePath] && fx.closes == [imagePath] && |fx.posts| == 1
  {
    var r := SingleF32Inference(imagePath, w);
    var sent := Effects([imagePath], [Post(SingleEndpoint, [SinglePart(imagePath)])], [imagePath], [], [], []);
    if w.upload.PostRaised? {
      assert r.effects == sent;
    } else {
      var c := CheckResponse(w.upload.status, w.upload.body);
      if c.Rejected? || !ConfidencePrintable(c.fields) {
        assert r.effects == sent;
      } else {
        assert r == SaveSingle(imagePath, c.fields, sent, w);
        SaveSingleKeepsSent(imagePath, c.fields, sent, w);
      }
    }
  }

  /** The part after the response checks opens, posts and closes nothing more. */
  lemma SaveSingleKeepsSent(imagePath: string, result: map<string, Json>, sent: Effects, w: World)
    ensures var fx := SaveSingle(imagePath, result, sent, w).effects;
      fx.opens == sent.opens && fx.posts == sent.posts && fx.closes == sent.closes
  {
  }

  /**
   * The three response checks are distinct failures, and none of them fetches,
   * copies or writes anything.
   */
  lemma SingleResponseFailures(imagePath: string, w: World)
    requires w.canOpen(imagePath) && w.upload.Response?
    ensures var r := SingleF32Inference(imagePath, w);
      var u := w.upload;
      && (u.status != 200 ==> r.outcome == Failure(UploadFailed(u.status)))
      && (u.status == 200 && u.body.NotJson? ==> r.outcome == Failure(InvalidJson))
      && (u.status == 200 && u.body.Decoded? && !u.body.value.JObj? ==> r.outcome == Failure(NotADict))
      && (u.status != 200 || u.body.NotJson? || !u.body.value.JObj? ==>
            r.effects.gets == [] && r.effects.copies == [] && r.effects.writes == [] && r.audit == None)
  {
  }

  /**
   * On success the record names the original-copy path whether or not the
   * copy worked, names the processed image exactly when the URL was truthy and
   * its GET answered 200, and is saved under the single-result name.
   */
  lemma SingleSuccessRecord(imagePath: string, w: World)
    requires SingleF32Inference(imagePath, w).outcome == Success
    ensures var r := SingleF32Inference(imagePath, w);
      var result := w.upload.body.value.fields;
      var stem := Stem(Basename(imagePath));
      var ts := w.timestamp;
      && w.upload == Response(200, Decoded(JObj(result)))
      && r.audit.Some?
      && r.audit.value.path == SingleResultPath(stem, ts)
      && r.audit.value.record.SingleRecord?
      && r.audit.value.record.originalImage == imagePath
      && r.audit.value.record.originalCopy == OriginalCopyPath(stem, ts)
      && r.audit.value.record.files.originalCopy == OriginalCopyPath(stem, ts)
      && r.audit.value.record.files.resultJson == SingleResultPath(stem, ts)
      && r.audit.value.record.serverResponse == JObj(result)
      && (r.audit.value.record.files.processedImage.Some? <==>
            HasTruthy(result, "processed_image_url") && w.fetch(0) == Fetched(200))
      && (r.audit.value.record.files.processedImage.Some? ==>
            r.audit.value.record.files.processedImage.value == ProcessedImagePath(stem, ts))
      && |r.effects.gets| <= 1
      && (OriginalCopyPath(stem, ts) in r.effects.writes <==> w.copyOk(0))
  {
    var c := CheckResponse(w.upload.status, w.upload.body);
    var sent := Effects([imagePath], [Post(SingleEndpoint, [SinglePart(imagePath)])], [imagePath], [], [], []);
    assert SingleF32Inference(imagePath, w) == SaveSingle(imagePath, c.fields, sent, w);
    SavedSingleRecord(imagePath, c.fields, sent, w);
  }

  /** What `SingleSuccessRecord` states, for the part of the call after the response checks. */
  lemma SavedSingleRecord(imagePath: string, result: map<string, Json>, sent: Effects, w: World)
    requires SaveSingle(imagePath, result, sent, w).outcome == Success
    ensures var r := SaveSingle(imagePath, result, sent, w);
      var stem := Stem(Basename(imagePath));
      var ts := w.timestamp;
      && r.audit.Some?
      && r.audit.value.path == SingleResultPath(stem, ts)
      && r.audit.value.record == SingleRecord(imagePath, OriginalCopyPath(stem, ts), JObj(result),
           SingleFiles(OriginalCopyPath(stem, ts), r.audit.value.record.files.processedImage, SingleResultPath(stem, ts)))
      && (r.audit.value.record.files.processedImage.Some? <==>
            HasTruthy(result, "processed_image_url") && w.fetch(0) == Fetched(200))
      && (r.audit.value.record.files.processedImage.Some? ==>
            r.audit.value.record.files.processedImage.value == ProcessedImagePath(stem, ts))
      && |r.effects.gets| <= 1
      && r.effects.copies == [Copy(imagePath, OriginalCopyPath(stem, ts), w.copyOk(0))]
      && r.effects.writes ==
           (if HasTruthy(result, "processed_image_url") && w.fetch(0) == Fetched(200)
            then [ProcessedImagePath(stem, ts)] else [])
           + (if w.copyOk(0) then [OriginalCopyPath(stem, ts)] else [])
           + [SingleResultPath(stem, ts)]
      && (OriginalCopyPath(stem, ts) in r.effects.writes <==> w.copyOk(0))
  {
    var stem := Stem(Basename(imagePath));
    FamiliesDisjoint(stem, stem, w.timestamp, w.timestamp);
  }

  /**
   * A well-formed response without a truthy `processed_image_url` still
   * succeeds: nothing is fetched and the record's processed image is null.
   */
  lemma SingleWithoutProcessedUrl(imagePath: string, w: World, result: map<string, Json>)
    requires w.canOpen(imagePath)
    requires w.upload == Response(200, Decoded(JObj(result)))
    requires ConfidencePrintable(result) && !HasTruthy(result, "processed_image_url")
    ensures var r := SingleF32Inference(imagePath, w);
      && r.outcome == Success
      && r.effects.gets == []
      && r.audit.Some? && r.audit.value.record.SingleRecord?
      && r.audit.value.record.files.processedImage == None
  {
  }

  /**
   * A dict `inference_result` whose `confidence` is not a number makes the
   * progress message raise, so the call returns `False` with no record.
   */
  lemma SingleBadConfidence(imagePath: string, w: World, result: map<string, Json>)
    requires w.canOpen(imagePath)
    requires w.upload == Response(200, Decoded(JObj(result)))
    requires !ConfidencePrintable(result)
    ensures SingleF32Inference(imagePath, w).outcome == Failure(Raised)
    ensures SingleF32Inference(imagePath, w).effects.writes == []
  {
  }

  /**
   * The call returns `True` exactly when the image opens, the POST returns a
   * 200 dict, the confidence can be printed and the GET (if any) does not
   * raise; neither the copy nor the GET's status matters.
   */
  lemma SingleSucceedsIff(imagePath: string, w: World)
    ensures SingleF32Inference(imagePath, w).outcome == Success <==>
      && w.canOpen(imagePath)
      && w.upload.Response?
      && CheckResponse(w.upload.status, w.upload.body).Accepted?
      && var result := CheckResponse(w.upload.status, w.upload.body).fields;
         && ConfidencePrintable(result)
         && !(HasTruthy(result, "processed_image_url") && w.fetch(0).GetRaised?)
  {
  }

  /** A failed copy of the original never turns a `True` into a `False`. */
  lemma SingleSuccessIgnoresCopy(imagePath: string, w: World, copyOk: nat -> bool)
    ensures SingleF32Inference(imagePath, w).outcome == Success <==>
            SingleF32Inference(imagePath, w.(copyOk := copyOk)).outcome == Success
  {
    SingleSucceedsIff(imagePath, w);
    SingleSucceedsIff(imagePath, w.(copyOk := copyOk));
  }
}
