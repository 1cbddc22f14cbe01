/**
 * The per-result loop of `multiple_f32_inference`: for each element of the
 * server's `results`, in server order, fetch the processed image when a URL
 * is given, find the first uploaded file with the same basename, copy it, and
 * append one sub-record to `batch_results`.
 */
module Reconcile {
  import opened Wrappers
  import opened Json
  import opened Paths
  import opened Naming
  import opened Records

  // ---------------------------------------------------------------------------
  // The first-match search (lines 195-199)
  // ---------------------------------------------------------------------------

  /** The first file whose basename equals `name` exactly, if any. */
  function FirstMatch(files: seq<string>, name: string): (r: Option<string>)
    ensures r.Some? ==> r.value in files
  {
    if |files| == 0 then None
    else if Basename(files[0]) == name then Some(files[0])
    else FirstMatch(files[1..], name)
  }

  /**
   * The search finds a file exactly when some file has that basename, and what
   * it finds is the first such file.
   */
  lemma {:induction false} FirstMatchCharacterised(files: seq<string>, name: string)
    ensures FirstMatch(files, name).Some? <==> exists k :: 0 <= k < |files| && Basename(files[k]) == name
    ensures FirstMatch(files, name).Some? ==>
      exists k :: 0 <= k < |files| && files[k] == FirstMatch(files, name).value && Basename(files[k]) == name
                  && forall j :: 0 <= j < k ==> Basename(files[j]) != name
  {
    if |files| > 0 && Basename(files[0]) != name {
      var tail := files[1..];
      FirstMatchCharacterised(tail, name);
      assert forall k :: 1 <= k < |files| ==> tail[k - 1] == files[k];
      if FirstMatch(tail, name).Some? {
        var k :| 0 <= k < |tail| && tail[k] == FirstMatch(tail, name).value && Basename(tail[k]) == name
                 && forall j :: 0 <= j < k ==> Basename(tail[j]) != name;
        assert files[k + 1] == FirstMatch(files, name).value && forall j :: 0 <= j < k + 1 ==> Basename(files[j]) != name;
      }
    }
  }

  /** The `for img_file in image_files: … break` search. */
  method FindOriginal(imageFiles: seq<string>, originalFilename: string) returns (found: Option<string>)
    ensures found == FirstMatch(imageFiles, originalFilename)
  {
    found := None;
    var k := 0;
    while k < |imageFiles|
      invariant 0 <= k <= |imageFiles|
      invariant found == None
      invariant FirstMatch(imageFiles, originalFilename) == FirstMatch(imageFiles[k..], originalFilename)
    {
      if Basename(imageFiles[k]) == originalFilename {
        found := Some(imageFiles[k]);
        break;
      }
      assert imageFiles[k..][1..] == imageFiles[k + 1..];
      k := k + 1;
    }
  }

  // ---------------------------------------------------------------------------
  // One server result (lines 162-221)
  // ---------------------------------------------------------------------------

  /**
   * What handling one result adds: its sub-record (None when handling it
   * raised, which ends the whole call), the GET it issued, the copy it
   * attempted and the files it wrote.
   */
  datatype Step = Step(record: Option<ItemRecord>, gets: seq<Json>, copies: seq<Copy>, writes: seq<string>)

  /** `file_result.get('original_filename', '')`. */
  function OriginalFilename(fields: map<string, Json>): Json
  {
    Get(fields, "original_filename", JStr(""))
  }

  /**
   * Handling the i-th result `item` against the uploaded `files`. A result
   * that is not a dict raises at its first `.get`; an `original_filename`
   * that is not a string raises in `splitext`; a GET that raises ends the
   * call after being issued.
   */
  function ItemStep(i: nat, item: Json, files: seq<string>, w: World): Step
  {
    if !item.JObj? || !OriginalFilename(item.fields).JStr? then
      Step(None, [], [], [])
    else
      var wants := HasTruthy(item.fields, "processed_image_url");
      var gets := if wants then [item.fields["processed_image_url"]] else [];
      if wants && w.fetch(i).GetRaised? then
        Step(None, gets, [], [])
      else
        SettleItem(i, item, OriginalFilename(item.fields).s, wants && w.fetch(i) == Fetched(200), gets, files, w)
  }

  /**
   * The rest of handling a result once its GET (if any) has returned:
   * `saved` is `processed_image_saved`, `gets` the GET already issued.
   */
  function SettleItem(i: nat, item: Json, name: string, saved: bool, gets: seq<Json>,
                      files: seq<string>, w: World): Step
  {
    var stem := Stem(name);
    var processedPath := ProcessedImagePath(stem, w.timestamp);
    var original := FirstMatch(files, name);
    var copyPath := if original.Some? && original.value != "" then Some(OriginalCopyPath(stem, w.timestamp)) else None;
    var copies := if copyPath.Some? then [Copy(original.value, copyPath.value, w.copyOk(i))] else [];
    var copied := if copyPath.Some? && w.copyOk(i) then [copyPath.value] else [];
    var processed := if saved then Some(processedPath) else None;
    Step(Some(ItemRecord(original, copyPath, item, ItemFiles(copyPath, processed))),
         gets, copies, (if saved then [processedPath] else []) + copied)
  }

  /** What one result contributes, and what holds of its sub-record. */
  lemma ItemStepFacts(i: nat, item: Json, files: seq<string>, w: World)
    ensures var st := ItemStep(i, item, files, w);
      && |st.gets| <= 1
      && (st.record.Some? <==>
            item.JObj? && OriginalFilename(item.fields).JStr?
            && !(HasTruthy(item.fields, "processed_image_url") && w.fetch(i).GetRaised?))
      && (st.record.Some? ==>
            var name := OriginalFilename(item.fields).s;
            var rec := st.record.value;
            && rec.serverResponse == item
            && rec.originalImage == FirstMatch(files, name)
            && rec.localFiles.originalCopy == rec.originalCopy
            && (rec.originalCopy.Some? <==> rec.originalImage.Some? && rec.originalImage.value != "")
            && (rec.originalCopy.Some? ==> rec.originalCopy.value == OriginalCopyPath(Stem(name), w.timestamp))
            && (rec.localFiles.processedImage.Some? <==>
                  HasTruthy(item.fields, "processed_image_url") && w.fetch(i) == Fetched(200))
            && (rec.localFiles.processedImage.Some? ==>
                  rec.localFiles.processedImage.value == ProcessedImagePath(Stem(name), w.timestamp))
            && (|st.gets| == 1 <==> HasTruthy(item.fields, "processed_image_url")))
  {
  }

  /**
   * Handling a result ends the call exactly when it is not a dict, its
   * `original_filename` is not a string, or the GET it issues raises; a
   * missing match, a failed copy or a non-200 GET do not.
   */
  predicate Recordable(i: nat, item: Json, w: World)
  {
    && item.JObj?
    && OriginalFilename(item.fields).JStr?
    && !(HasTruthy(item.fields, "processed_image_url") && w.fetch(i).GetRaised?)
  }

  /**
   * A dict result without `original_filename` is handled under the default
   * name "": it is recorded unless its GET raises, with no original image when
   * no uploaded file has an empty basename, and any processed image named
   * after the empty stem.
   */
  lemma ItemWithoutOriginalFilename(i: nat, item: Json, files: seq<string>, w: World)
    requires item.JObj? && "original_filename" !in item.fields
    requires forall k :: 0 <= k < |files| ==> Basename(files[k]) != ""
    ensures var st := ItemStep(i, item, files, w);
      && (st.record.Some? <==> !(HasTruthy(item.fields, "processed_image_url") && w.fetch(i).GetRaised?))
      && (st.record.Some? ==>
            && st.record.value.originalImage == None
            && st.record.value.originalCopy == None
            && (st.record.value.localFiles.processedImage.Some? ==>
                  st.record.value.localFiles.processedImage.value == ProcessedImagePath("", w.timestamp)))
  {
    assert OriginalFilename(item.fields) == JStr("");
    assert SplitExt("") == ("", "");
    FirstMatchCharacterised(files, "");
    ItemStepFacts(i, item, files, w);
  }

  /**
   * Reconciliation of a recorded result: its original image is the first
   * uploaded file whose basename is exactly `original_filename`; when no file
   * has that basename, both the original image and its copy are null and the
   * result is still recorded.
   */
  lemma ItemOriginal(i: nat, item: Json, files: seq<string>, w: World)
    requires ItemStep(i, item, files, w).record.Some?
    ensures var name := OriginalFilename(item.fields).s;
      var rec := ItemStep(i, item, files, w).record.value;
      && ((forall k :: 0 <= k < |files| ==> Basename(files[k]) != name) ==>
            rec.originalImage == None && rec.originalCopy == None && rec.localFiles.originalCopy == None)
      && (rec.originalImage.Some? ==>
            exists k :: 0 <= k < |files| && files[k] == rec.originalImage.value && Basename(files[k]) == name
                        && forall j :: 0 <= j < k ==> Basename(files[j]) != name)
  {
    var name := OriginalFilename(item.fields).s;
    FirstMatchCharacterised(files, name);
    var wants := HasTruthy(item.fields, "processed_image_url");
    var gets := if wants then [item.fields["processed_image_url"]] else [];
    assert ItemStep(i, item, files, w) == SettleItem(i, item, name, wants && w.fetch(i) == Fetched(200), gets, files, w);
  }

  // ---------------------------------------------------------------------------
  // The loop over all results
  // ---------------------------------------------------------------------------

  /** The accumulated state of the loop: `batch_results` and the effects so far. */
  datatype Progress = Progress(
    records: seq<ItemRecord>,
    gets: seq<Json>,
    copies: seq<Copy>,
    writes: seq<string>,
    raised: bool)

  /** Add one step to the state; a step without a record is the exception that ends the loop. */
  function Advance(p: Progress, st: Step): Progress
  {
    Progress(p.records + (if st.record.Some? then [st.record.value] else []),
             p.gets + st.gets, p.copies + st.copies, p.writes + st.writes, st.record.None?)
  }

  /** The state after handling `items` in order, stopping at the first that raises. */
  function Process(items: seq<Json>, files: seq<string>, w: World): Progress
  {
    if |items| == 0 then Progress([], [], [], [], false)
    else
      var prev := Process(items[..|items| - 1], files, w);
      if prev.raised then prev
      else Advance(prev, ItemStep(|items| - 1, items[|items| - 1], files, w))
  }

  /** Once raised, later results change nothing: the loop may stop there. */
  lemma {:induction false} ProcessStopsAtRaise(items: seq<Json>, files: seq<string>, w: World, k: nat)
    requires k <= |items| && Process(items[..k], files, w).raised
    ensures Process(items, files, w) == Process(items[..k], files, w)
    decreases |items| - k
  {
    if k < |items| {
      assert items[..k + 1][..k] == items[..k];
      ProcessStopsAtRaise(items, files, w, k + 1);
    } else {
      assert items[..k] == items;
    }
  }

  /**
   * When no result raises, there is exactly one sub-record per result, in
   * server order, each the record of that result's step.
   */
  lemma {:induction false} ProcessRecords(items: seq<Json>, files: seq<string>, w: World)
    requires !Process(items, files, w).raised
    ensures |Process(items, files, w).records| == |items|
    ensures forall i :: 0 <= i < |items| ==>
      ItemStep(i, items[i], files, w).record == Some(Process(items, files, w).records[i])
  {
    if |items| > 0 {
      var n := |items| - 1;
      var init := items[..n];
      var prev := Process(init, files, w);
      var st := ItemStep(n, items[n], files, w);
      assert !prev.raised;
      assert Process(items, files, w) == Advance(prev, st);
      assert st.record.Some?;
      var records := prev.records + [st.record.value];
      assert Process(items, files, w).records == records;
      ProcessRecords(init, files, w);
      forall i | 0 <= i < |items|
        ensures ItemStep(i, items[i], files, w).record == Some(records[i])
      {
        if i < n {
          assert items[i] == init[i];
        }
      }
    }
  }

  /** The loop ends early exactly when some result is not `Recordable`. */
  lemma {:induction false} ProcessRaisedIff(items: seq<Json>, files: seq<string>, w: World)
    ensures Process(items, files, w).raised <==> exists i :: 0 <= i < |items| && !Recordable(i, items[i], w)
  {
    if |items| > 0 {
      var n := |items| - 1;
      var init := items[..n];
      ProcessRaisedIff(init, files, w);
      ItemStepFacts(n, items[n], files, w);
      assert forall i :: 0 <= i < n ==> init[i] == items[i];
      if Process(init, files, w).raised {
        var i :| 0 <= i < n && !Recordable(i, init[i], w);
        assert !Recordable(i, items[i], w);
      }
    }
  }

  /** Results whose first element is a string raise at once, with nothing fetched, copied or written. */
  lemma StringFirstRaises(first: string, rest: seq<Json>, files: seq<string>, w: World)
    ensures Process([JStr(first)] + rest, files, w) == Progress([], [], [], [], true)
  {
    var items := [JStr(first)] + rest;
    assert items[..1] == [JStr(first)];
    assert [JStr(first)][..0] == [];
    assert Process(items[..1], files, w) == Progress([], [], [], [], true);
    ProcessStopsAtRaise(items, files, w, 1);
  }

  /** At most one GET is issued per result handled. */
  lemma {:induction false} ProcessGets(items: seq<Json>, files: seq<string>, w: World)
    ensures |Process(items, files, w).gets| <= |items|
  {
    if |items| > 0 {
      ProcessGets(items[..|items| - 1], files, w);
      ItemStepFacts(|items| - 1, items[|items| - 1], files, w);
    }
  }

  /**
   * The body of the loop of lines 162-221 for the i-th result, with its
   * `processed_image_saved` flag; `record == None` is the exception that ends
   * the call.
   */
  method HandleResult(i: nat, fileResult: Json, files: seq<string>, w: World) returns (st: Step)
    ensures st == ItemStep(i, fileResult, files, w)
  {
    if !fileResult.JObj? || !OriginalFilename(fileResult.fields).JStr? {
      return Step(None, [], [], []);
    }
    var originalFilename := OriginalFilename(fileResult.fields).s;
    var processedImageSaved := false;
    var gets := [];
    if HasTruthy(fileResult.fields, "processed_image_url") {
      gets := [fileResult.fields["processed_image_url"]];
      match w.fetch(i)
      case GetRaised =>
        return Step(None, gets, [], []);
      case Fetched(status) =>
        processedImageSaved := status == 200;
    }
    st := SaveItem(i, fileResult, originalFilename, processedImageSaved, gets, files, w);
  }

  /** Lines 195-221 of the loop body: the processed path, the original's copy, the sub-record. */
  method SaveItem(i: nat, fileResult: Json, originalFilename: string, processedImageSaved: bool,
                  gets: seq<Json>, files: seq<string>, w: World) returns (st: Step)
    ensures st == SettleItem(i, fileResult, originalFilename, processedImageSaved, gets, files, w)
  {
    var imageName := Stem(originalFilename);
    var processedImagePath := ProcessedImagePath(imageName, w.timestamp);
    var writes := if processedImageSaved then [processedImagePath] else [];
    var originalFilePath := FindOriginal(files, originalFilename);
    var originalCopyPath: Option<string> := None;
    var copies: seq<Copy> := [];
    if originalFilePath.Some? && originalFilePath.value != "" {
      var copyPath := OriginalCopyPath(imageName, w.timestamp);
      originalCopyPath := Some(copyPath);
      copies := [Copy(originalFilePath.value, copyPath, w.copyOk(i))];
      if w.copyOk(i) {
        writes := writes + [copyPath];
      }
    }
    var processed := if processedImageSaved then Some(processedImagePath) else None;
    var singleResult := ItemRecord(originalFilePath, originalCopyPath, fileResult, ItemFiles(originalCopyPath, processed));
    st := Step(Some(singleResult), gets, copies, writes);
  }

  /** The loop of lines 162-221, accumulating `batch_results` in place. */
  method ReconcileResults(items: seq<Json>, files: seq<string>, w: World) returns (p: Progress)
    ensures p == Process(items, files, w)
  {
    p := Progress([], [], [], [], false);
    var k := 0;
    while k < |items| && !p.raised
      invariant 0 <= k <= |items|
      invariant p == Process(items[..k], files, w)
    {
      assert items[..k + 1][..k] == items[..k];
      var st := HandleResult(k, items[k], files, w);
      p := Advance(p, st);
      k := k + 1;
    }
    if k < |items| {
      ProcessStopsAtRaise(items, files, w, k);
    } else {
      assert items[..k] == items;
    }
  }
}
