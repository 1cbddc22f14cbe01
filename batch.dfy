/**
 * `multiple_f32_inference(folder_path)`: collect the folder's image files,
 * upload them all in one multipart POST, check the response, reconcile every
 * server result with the uploaded files, and write one batch audit record.
 *
 * `os.listdir` runs outside the `try`, so a listing that fails lets its
 * exception escape (`listing == None`); every later exception is caught and
 * the call returns `False`.
 */
module BatchInference {
  import opened Wrappers
  import opened Json
  import opened Paths
  import opened Naming
  import opened Records
  import opened ImageFilter
  import opened Reconcile

  const BatchEndpoint := "/api/f32_inference_multiple"

  /** `('images', (os.path.basename(image_path), <handle>, 'image/jpeg'))`. */
  function UploadPart(imagePath: string): Part
  {
    Part("images", Basename(imagePath), imagePath, Some("image/jpeg"))
  }

  /** The `files` list for the given image paths, in order. */
  function UploadParts(imageFiles: seq<string>): seq<Part>
  {
    seq(|imageFiles|, k requires 0 <= k < |imageFiles| => UploadPart(imageFiles[k]))
  }

  /** Appending a file appends its part. */
  lemma UploadPartsSnoc(imageFiles: seq<string>, f: string)
    ensures UploadParts(imageFiles + [f]) == UploadParts(imageFiles) + [UploadPart(f)]
  {
    var l := imageFiles + [f];
    assert forall k :: 0 <= k < |imageFiles| ==> l[k] == imageFiles[k];
  }

  /** The index of the first file from `k` on that `open` refuses, or `|imageFiles|`. */
  function OpenableFrom(imageFiles: seq<string>, canOpen: string -> bool, k: nat): (n: nat)
    requires k <= |imageFiles|
    ensures k <= n <= |imageFiles|
    decreases |imageFiles| - k
  {
    if k == |imageFiles| || !canOpen(imageFiles[k]) then k
    else OpenableFrom(imageFiles, canOpen, k + 1)
  }

  /** How many of the files open before the first `open` that raises. */
  function OpenablePrefix(imageFiles: seq<string>, canOpen: string -> bool): nat
  {
    OpenableFrom(imageFiles, canOpen, 0)
  }

  /**
   * The prefix is exactly the files before the first one `open` refuses:
   * every file before it opens, and the file at it (if any) does not.
   */
  lemma {:induction false} OpenableFromSpec(imageFiles: seq<string>, canOpen: string -> bool, k: nat)
    requires k <= |imageFiles|
    ensures var n := OpenableFrom(imageFiles, canOpen, k);
      && (forall j :: k <= j < n ==> canOpen(imageFiles[j]))
      && (n < |imageFiles| ==> !canOpen(imageFiles[n]))
    decreases |imageFiles| - k
  {
    if k < |imageFiles| && canOpen(imageFiles[k]) {
      OpenableFromSpec(imageFiles, canOpen, k + 1);
    }
  }

  /** `OpenableFromSpec` from the first file. */
  lemma OpenablePrefixSpec(imageFiles: seq<string>, canOpen: string -> bool)
    ensures var n := OpenablePrefix(imageFiles, canOpen);
      && n <= |imageFiles|
      && (forall j :: 0 <= j < n ==> canOpen(imageFiles[j]))
      && (n < |imageFiles| ==> !canOpen(imageFiles[n]))
  {
    OpenableFromSpec(imageFiles, canOpen, 0);
  }

  /**
   * What `for i, file_result in enumerate(result.get('results', []))`
   * iterates over. A list gives its elements. An empty string or dict gives
   * nothing. A non-empty string or dict yields strings, which raise at their
   * first `.get`, and any other value is not iterable: both end the call
   * before anything is fetched (`None`).
   */
  function ResultItems(v: Json): Option<seq<Json>>
  {
    match v
    case JArr(elems) => Some(elems)
    case JStr(s) => if s == "" then Some([]) else None
    case JObj(fields) => if fields == map[] then Some([]) else None
    case _ => None
  }

  /**
   * A non-empty string or dict as `results` behaves exactly like a list whose
   * first element is a string, which is what Python's iteration yields for
   * it (characters, or keys): the call ends at that element's `.get` with
   * nothing fetched, copied or written.
   */
  lemma ResultsIteratedAsStrings(folderPath: string, imageFiles: seq<string>, result: map<string, Json>,
                                 sent: Effects, w: World, first: string, rest: seq<Json>)
    requires var v := Get(result, "results", JArr([]));
      (v.JStr? && v.s != "") || (v.JObj? && v.fields != map[])
    requires sent.gets == [] && sent.copies == [] && sent.writes == []
    ensures SaveBatch(folderPath, imageFiles, result, sent, w)
         == SaveBatch(folderPath, imageFiles, result["results" := JArr([JStr(first)] + rest)], sent, w)
  {
    StringFirstRaises(first, rest, imageFiles, w);
    var listed := result["results" := JArr([JStr(first)] + rest)];
    assert Get(listed, "results", JArr([])) == JArr([JStr(first)] + rest);
  }

  /** The whole workflow, given what `os.listdir` returned (`None` when it raised). */
  function BatchRun(folderPath: string, listing: Option<seq<Entry>>, w: World): Run
  {
    match listing
    case None => Run(Propagated, NoEffects, None)
    case Some(entries) =>
      var imageFiles := ImageFiles(folderPath, entries);
      if imageFiles == [] then Run(Failure(NoImagesFound), NoEffects, None)
      else
        var n := OpenablePrefix(imageFiles, w.canOpen);
        if n < |imageFiles| then Run(Failure(Raised), NoEffects.(opens := imageFiles[..n]), None)
        else
          var post := Post(BatchEndpoint, UploadParts(imageFiles));
          match w.upload
          case PostRaised => Run(Failure(Raised), NoEffects.(opens := imageFiles, posts := [post]), None)
          case Response(status, body) =>
            var sent := Effects(imageFiles, [post], imageFiles, [], [], []);
            match CheckResponse(status, body)
            case Rejected(reason) => Run(Failure(reason), sent, None)
            case Accepted(result) => SaveBatch(folderPath, imageFiles, result, sent, w)
  }

  /** Everything after the response checks: the per-result loop and the batch record. */
  function SaveBatch(folderPath: string, imageFiles: seq<string>, result: map<string, Json>,
                     sent: Effects, w: World): Run
  {
    match ResultItems(Get(result, "results", JArr([])))
    case None => Run(Failure(Raised), sent, None)
    case Some(items) =>
      var p := Process(items, imageFiles, w);
      var fx := sent.(gets := p.gets, copies := p.copies, writes := p.writes);
      if p.raised then Run(Failure(Raised), fx, None)
      else
        var resultFile := BatchResultPath(NormBasename(folderPath), w.timestamp);
        Run(Success, fx.(writes := p.writes + [resultFile]),
            Some(Saved(resultFile, BatchRecord(folderPath, |p.records|, w.timestamp, p.records))))
  }

  // ---------------------------------------------------------------------------
  // The imperative workflow
  // ---------------------------------------------------------------------------

  /**
   * The loop of lines 134-136: open each image in turn and append its part;
   * `allOpen` is false when an `open` raised, and then `opens` are the files
   * opened before it, whose handles stay open.
   */
  method OpenForUpload(imageFiles: seq<string>, w: World) returns (parts: seq<Part>, opens: seq<string>, allOpen: bool)
    ensures allOpen <==> OpenablePrefix(imageFiles, w.canOpen) == |imageFiles|
    ensures opens == imageFiles[..OpenablePrefix(imageFiles, w.canOpen)]
    ensures allOpen ==> parts == UploadParts(imageFiles)
  {
    parts := [];
    opens := [];
    var k := 0;
    while k < |imageFiles|
      invariant 0 <= k <= |imageFiles|
      invariant OpenableFrom(imageFiles, w.canOpen, k) == OpenablePrefix(imageFiles, w.canOpen)
      invariant opens == imageFiles[..k]
      invariant parts == UploadParts(opens)
    {
      if !w.canOpen(imageFiles[k]) {
        return parts, opens, false;
      }
      assert imageFiles[..k + 1] == imageFiles[..k] + [imageFiles[k]];
      UploadPartsSnoc(opens, imageFiles[k]);
      opens := opens + [imageFiles[k]];
      parts := parts + [UploadPart(imageFiles[k])];
      k := k + 1;
    }
    assert imageFiles[..k] == imageFiles;
    allOpen := true;
  }

  /** The loop of lines 140-141: close every part's handle, in order. */
  method CloseHandles(parts: seq<Part>) returns (closes: seq<string>)
    ensures |closes| == |parts|
    ensures forall k :: 0 <= k < |parts| ==> closes[k] == parts[k].source
  {
    closes := [];
    for k := 0 to |parts|
      invariant |closes| == k
      invariant forall j :: 0 <= j < k ==> closes[j] == parts[j].source
    {
      closes := closes + [parts[k].source];
    }
  }

  /** The parts built for a list of files close exactly those files. */
  lemma UploadPartSources(imageFiles: seq<string>, closes: seq<string>)
    requires |closes| == |UploadParts(imageFiles)|
    requires forall k :: 0 <= k < |closes| ==> closes[k] == UploadParts(imageFiles)[k].source
    ensures closes == imageFiles
  {
  }

  /** `multiple_f32_inference` step by step; it performs what `BatchRun` describes. */
  method MultipleF32Inference(folderPath: string, listing: Option<seq<Entry>>, w: World) returns (r: Run)
    ensures r == BatchRun(folderPath, listing, w)
  {
    if listing.None? {
      return Run(Propagated, NoEffects, None);
    }
    var imageFiles := CollectImageFiles(folderPath, listing.value);
    if |imageFiles| == 0 {
      return Run(Failure(NoImagesFound), NoEffects, None);
    }
    var files, opens, allOpen := OpenForUpload(imageFiles, w);
    if !allOpen {
      return Run(Failure(Raised), NoEffects.(opens := opens), None);
    }
    var post := Post(BatchEndpoint, files);
    if w.upload.PostRaised? {
      return Run(Failure(Raised), NoEffects.(opens := opens, posts := [post]), None);
    }
    var closes := CloseHandles(files);
    UploadPartSources(imageFiles, closes);
    assert opens == imageFiles;
    var sent := Effects(opens, [post], closes, [], [], []);
    var checked := CheckResponse(w.upload.status, w.upload.body);
    if checked.Rejected? {
      return Run(Failure(checked.reason), sent, None);
    }
    r := FinishBatch(folderPath, imageFiles, checked.fields, sent, w);
  }

  /** Lines 156-238 once the response is a dict: loop over its results, then save the record. */
  method FinishBatch(folderPath: string, imageFiles: seq<string>, result: map<string, Json>,
                     sent: Effects, w: World) returns (r: Run)
    ensures r == SaveBatch(folderPath, imageFiles, result, sent, w)
  {
    var items := ResultItems(Get(result, "results", JArr([])));
    if items.None? {
      return Run(Failure(Raised), sent, None);
    }
    var p := ReconcileResults(items.value, imageFiles, w);
    var fx := sent.(gets := p.gets, copies := p.copies, writes := p.writes);
    if p.raised {
      return Run(Failure(Raised), fx, None);
    }
    var folderName := NormBasename(folderPath);
    var resultFile := BatchResultPath(folderName, w.timestamp);
    var saveData := BatchRecord(folderPath, |p.records|, w.timestamp, p.records);
    r := Run(Success, fx.(writes := p.writes + [resultFile]), Some(Saved(resultFile, saveData)));
  }

  // ---------------------------------------------------------------------------
  // Properties
  // ---------------------------------------------------------------------------

  /**
   * A call that returns writes an audit record exactly when it returns `True`,
   * as its last write; only a failing `os.listdir` makes it not return.
   */
  lemma BatchAuditDiscipline(folderPath: string, listing: Option<seq<Entry>>, w: World)
    ensures AuditOnlyOnSuccess(BatchRun(folderPath, listing, w))
    ensures Returned(BatchRun(folderPath, listing, w)).Some? <==> listing.Some?
  {
    var r := BatchRun(folderPath, listing, w);
    if listing.None? {
      assert r == Run(Propagated, NoEffects, None);
    } else {
      var imageFiles := ImageFiles(folderPath, listing.value);
      if imageFiles == [] || OpenablePrefix(imageFiles, w.canOpen) < |imageFiles| || w.upload.PostRaised? {
        assert r.audit == None && r.outcome.Failure?;
      } else {
        var c := CheckResponse(w.upload.status, w.upload.body);
        var post := Post(BatchEndpoint, UploadParts(imageFiles));
        var sent := Effects(imageFiles, [post], imageFiles, [], [], []);
        if c.Rejected? {
          assert r == Run(Failure(c.reason), sent, None);
        } else {
          assert r == SaveBatch(folderPath, imageFiles, c.fields, sent, w);
          SaveBatchAudit(folderPath, imageFiles, c.fields, sent, w);
        }
      }
    }
  }

  /** The part after the response checks keeps the audit discipline and always returns. */
  lemma SaveBatchAudit(folderPath: string, imageFiles: seq<string>, result: map<string, Json>, sent: Effects, w: World)
    ensures AuditOnlyOnSuccess(SaveBatch(folderPath, imageFiles, result, sent, w))
    ensures Returned(SaveBatch(folderPath, imageFiles, result, sent, w)).Some?
  {
  }

  /** A folder without a selected image file fails before anything is opened or sent. */
  lemma BatchNoImages(folderPath: string, entries: seq<Entry>, w: World)
    requires forall i :: 0 <= i < |entries| ==> !Selected(entries[i])
    ensures BatchRun(folderPath, Some(entries), w) == Run(Failure(NoImagesFound), NoEffects, None)
  {
    NoImagesIff(folderPath, entries);
  }

  /** A folder with at least one selected image file always gets past the emptiness check. */
  lemma BatchSomeImages(folderPath: string, entries: seq<Entry>, w: World, i: nat)
    requires i < |entries| && Selected(entries[i])
    ensures BatchRun(folderPath, Some(entries), w).outcome != Failure(NoImagesFound)
  {
    NoImagesIff(folderPath, entries);
  }

  /**
   * The handles: when an `open` raises, the files opened before it are left
   * open and nothing is sent; when the POST raises, every handle is left open;
   * when it returns, every handle is closed in upload order, whatever the
   * status. The one POST carries one `images` part per file, in order.
   */
  lemma BatchHandles(folderPath: string, entries: seq<Entry>, w: World)
    requires ImageFiles(folderPath, entries) != []
    ensures var imageFiles := ImageFiles(folderPath, entries);
      var n := OpenablePrefix(imageFiles, w.canOpen);
      var fx := BatchRun(folderPath, Some(entries), w).effects;
      && fx.opens == imageFiles[..n]
      && (n < |imageFiles| ==> fx.posts == [] && fx.closes == [])
      && (n == |imageFiles| ==> fx.posts == [Post(BatchEndpoint, UploadParts(imageFiles))])
      && (n == |imageFiles| && w.upload.PostRaised? ==> fx.closes == [])
      && (n == |imageFiles| && w.upload.Response? ==> fx.closes == imageFiles)
  {
    var imageFiles := ImageFiles(folderPath, entries);
    assert imageFiles[..|imageFiles|] == imageFiles;
    if OpenablePrefix(imageFiles, w.canOpen) == |imageFiles| && w.upload.Response? {
      var c := CheckResponse(w.upload.status, w.upload.body);
      if c.Accepted? {
        var post := Post(BatchEndpoint, UploadParts(imageFiles));
        var sent := Effects(imageFiles, [post], imageFiles, [], [], []);
        assert BatchRun(folderPath, Some(entries), w) == SaveBatch(folderPath, imageFiles, c.fields, sent, w);
      }
    }
  }

  /** Each upload part names its file by basename with the JPEG content type. */
  lemma UploadPartsShape(imageFiles: seq<string>)
    ensures |UploadParts(imageFiles)| == |imageFiles|
    ensures forall k :: 0 <= k < |imageFiles| ==>
      var part := UploadParts(imageFiles)[k];
      part.field == "images" && part.source == imageFiles[k]
      && part.filename == Basename(imageFiles[k]) && part.contentType == Some("image/jpeg")
  {
  }

  /**
   * The three response checks are distinct failures after every handle was
   * closed, and none of them fetches, copies or writes anything.
   */
  lemma BatchResponseFailures(folderPath: string, entries: seq<Entry>, w: World)
    requires ImageFiles(folderPath, entries) != []
    requires OpenablePrefix(ImageFiles(folderPath, entries), w.canOpen) == |ImageFiles(folderPath, entries)|
    requires w.upload.Response?
    ensures var r := BatchRun(folderPath, Some(entries), w);
      var u := w.upload;
      && (u.status != 200 ==> r.outcome == Failure(UploadFailed(u.status)))
      && (u.status == 200 && u.body.NotJson? ==> r.outcome == Failure(InvalidJson))
      && (u.status == 200 && u.body.Decoded? && !u.body.value.JObj? ==> r.outcome == Failure(NotADict))
      && (u.status != 200 || u.body.NotJson? || !u.body.value.JObj? ==>
            r.effects.gets == [] && r.effects.copies == [] && r.effects.writes == [] && r.audit == None)
  {
  }

  /**
   * On success: the response was a dict with status 200, its `results`
   * iterated as `items`; the record is saved under the folder's normalised
   * basename, counts exactly one sub-record per result, in server order, each
   * the one its result's handling built; and at most one GET was issued per
   * result.
   */
  lemma BatchSuccessRecord(folderPath: string, entries: seq<Entry>, w: World)
    requires BatchRun(folderPath, Some(entries), w).outcome == Success
    ensures var r := BatchRun(folderPath, Some(entries), w);
      var imageFiles := ImageFiles(folderPath, entries);
      var result := w.upload.body.value.fields;
      var items := ResultItems(Get(result, "results", JArr([])));
      && w.upload == Response(200, Decoded(JObj(result)))
      && items.Some?
      && r.audit.Some?
      && r.audit.value.path == BatchResultPath(NormBasename(folderPath), w.timestamp)
      && r.audit.value.record.BatchRecord?
      && r.audit.value.record.folderPath == folderPath
      && r.audit.value.record.timestamp == w.timestamp
      && r.audit.value.record.totalImages == |r.audit.value.record.individualResults| == |items.value|
      && (forall i :: 0 <= i < |items.value| ==>
            ItemStep(i, items.value[i], imageFiles, w).record == Some(r.audit.value.record.individualResults[i]))
      && |r.effects.gets| <= |items.value|
  {
    var imageFiles := ImageFiles(folderPath, entries);
    var c := CheckResponse(w.upload.status, w.upload.body);
    var post := Post(BatchEndpoint, UploadParts(imageFiles));
    var sent := Effects(imageFiles, [post], imageFiles, [], [], []);
    assert BatchRun(folderPath, Some(entries), w) == SaveBatch(folderPath, imageFiles, c.fields, sent, w);
    var items := ResultItems(Get(c.fields, "results", JArr([]))).value;
    ProcessRecords(items, imageFiles, w);
    ProcessGets(items, imageFiles, w);
  }

  /**
   * The call returns `True` exactly when the folder has image files, all of
   * them open, the POST returns a 200 dict, its `results` can be iterated and
   * every result is `Recordable`. Nothing here depends on whether a result
   * matches a local file, whether a copy succeeds or what status a GET
   * returns: those are recorded, never fatal.
   */
  lemma BatchSucceedsIff(folderPath: string, entries: seq<Entry>, w: World)
    ensures BatchRun(folderPath, Some(entries), w).outcome == Success <==>
      var imageFiles := ImageFiles(folderPath, entries);
      && imageFiles != []
      && OpenablePrefix(imageFiles, w.canOpen) == |imageFiles|
      && w.upload.Response?
      && CheckResponse(w.upload.status, w.upload.body).Accepted?
      && ResultItems(Get(CheckResponse(w.upload.status, w.upload.body).fields, "results", JArr([]))).Some?
      && var items := ResultItems(Get(CheckResponse(w.upload.status, w.upload.body).fields, "results", JArr([]))).value;
         forall i :: 0 <= i < |items| ==> Recordable(i, items[i], w)
  {
    var imageFiles := ImageFiles(folderPath, entries);
    if imageFiles != [] && OpenablePrefix(imageFiles, w.canOpen) == |imageFiles| && w.upload.Response? {
      var c := CheckResponse(w.upload.status, w.upload.body);
      if c.Accepted? {
        var post := Post(BatchEndpoint, UploadParts(imageFiles));
        var sent := Effects(imageFiles, [post], imageFiles, [], [], []);
        assert BatchRun(folderPath, Some(entries), w) == SaveBatch(folderPath, imageFiles, c.fields, sent, w);
        var items := ResultItems(Get(c.fields, "results", JArr([])));
        if items.Some? {
          ProcessRaisedIff(items.value, imageFiles, w);
        }
      }
    }
  }

  /** Whether the batch returns `True` does not depend on any `shutil.copy2` succeeding. */
  lemma BatchSuccessIgnoresCopies(folderPath: string, entries: seq<Entry>, w: World, copyOk: nat -> bool)
    ensures BatchRun(folderPath, Some(entries), w).outcome == Success <==>
            BatchRun(folderPath, Some(entries), w.(copyOk := copyOk)).outcome == Success
  {
    BatchSucceedsIff(folderPath, entries, w);
    BatchSucceedsIff(folderPath, entries, w.(copyOk := copyOk));
  }
}
