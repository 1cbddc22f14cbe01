# Upload workflows of the denoising client, in Dafny

This project models the decision layer of the three upload workflows in
`client/utils/tasks.py`:

- `single_f32_inference(image_path)` uploads one image, checks the response,
  fetches the processed image, copies the original and writes a JSON audit
  record.
- `multiple_f32_inference(folder_path)` collects the image files of a folder,
  uploads them in one multipart POST, and matches every server result with a
  local file. Each result gets a sub-record, and the call writes one batch
  audit record.
- `video_denoise_inference(video_path)` validates the input, uploads the
  video, and on status 200 saves the denoised video and a small record.

Every I/O answer is an input, a `World`:

- what `os.path.isfile` and `open` say of a path;
- what the single POST returns (it raises, or it gives a status and a body that
  is not JSON or decodes to a JSON value);
- what the artifact GET of the i-th result returns (it raises, or it gives a
  status);
- whether the i-th `shutil.copy2` succeeds;
- the timestamp string.

The folder listing is a separate input, `None` when `os.listdir` raises.

Each workflow is a function returning a `Run`. A `Run` holds the outcome
(`True`, `False` with its reason, or an exception that escapes), the effects
performed, and the audit record written, if any. The effects are kept as one
list per kind: the files opened, the POSTs with their multipart parts, the
handles closed, the URLs fetched, the copies attempted and the files written.
Each list is in the order performed; the order between kinds is not recorded.

The loops of the batch workflow are methods proved equal to those
functions:

- the filter loop;
- the loop that opens the upload handles;
- the close loop;
- the per-result loop with its `for … break` search.

The batch workflow itself is also a method, `MultipleF32Inference`, which
composes them.

Modules:

- `Wrappers` holds `Option`.
- `Json` holds JSON values, `dict.get` and truthiness.
- `Paths` holds `posixpath.basename`, `join`, `splitext`,
  `basename(normpath(…))`, `lower` and `endswith`.
- `Naming` holds the six output-path families.
- `Records` holds the oracles, effects, audit records and response checks.
- `ImageFilter`, `Reconcile` and `BatchInference` hold the batch workflow.
- `SingleInference` and `VideoInference` hold the other two workflows.

All source paths below are relative to the repository root.

## Model

| member | source | states |
|---|---|---|
| `Paths.Basename` | client/utils/tasks.py:58 | `os.path.basename` never returns a string containing '/' |
| `Paths.BasenameIsLastComponent` | client/utils/tasks.py:58 | the basename is the text after the last '/': a suffix of the path that is the whole path or follows a '/' |
| `Paths.Join` | client/utils/tasks.py:121 | definition: `os.path.join` of a folder and an entry name (an absolute name replaces the folder; a '/' is inserted unless the folder is empty or ends in one) |
| `Paths.BasenameOfName` | client/utils/tasks.py:197 | a name without '/' is its own basename |
| `Paths.BasenameOfJoin` | client/utils/tasks.py:121-126 | the basename of `os.path.join(folder, name)` is `name` for every listed name, so reconciliation by basename can find listed files |
| `Paths.SplitExt` | client/utils/tasks.py:123 | root + extension is the path; the extension is empty or one dot followed by no dot and no '/' |
| `Paths.NonDotInExists` | client/utils/tasks.py:123 | the recursive leading-dots test holds iff some character of the range is not a dot |
| `Paths.SplitExtCharacterised` | client/utils/tasks.py:123 | the extension is non-empty iff the last component has a dot preceded by a non-dot character of that component; then the root ends at the last dot |
| `Paths.SplitExtOfPlainName` | client/utils/tasks.py:123 | for a plain file name the extension starts at its last dot |
| `Paths.Stem` | client/utils/tasks.py:58 | definition: `os.path.splitext(p)[0]`, the name without its extension (also tasks.py:177 and 272) |
| `Paths.Lower` | client/utils/tasks.py:123 | lower-casing keeps the length of the string |
| `Paths.LowerOfLowercase` | client/utils/tasks.py:123 | lower-casing leaves a string without upper-case letters unchanged |
| `Paths.IsImageName` | client/utils/tasks.py:123-124 | definition: the lower-cased `splitext` extension is one of `.jpg`, `.jpeg`, `.png`, `.bmp`, `.tiff`, `.tif` |
| `Paths.IsMp4Name` | client/utils/tasks.py:258 | definition: the lower-cased path ends in `.mp4` |
| `Paths.EndsWith` | client/utils/tasks.py:258 | definition: `s.endswith(suffix)` |
| `Paths.Split` | client/utils/tasks.py:159 | `split` yields at least one piece, no piece contains the separator, and joining the pieces with the separator gives back the input |
| `Paths.Resolve` | client/utils/tasks.py:159 | `normpath`'s components come from the input and are never empty or "." |
| `Paths.ResolveCancels` | client/utils/tasks.py:159 | an ordinary component is kept by `normpath`, and a ".." right after it cancels it |
| `Paths.NormBasename` | client/utils/tasks.py:159 | the folder name used in the batch record never contains '/' |
| `Paths.NormBasenameOfChild` | client/utils/tasks.py:159 | the folder name of `p/c` is `c` for every ordinary last component `c` |
| `Paths.NormBasenameTrailingSlash` | client/utils/tasks.py:159 | `folder/` and `folder` give the same batch record name |
| `Paths.NormBasenameOfName` | client/utils/tasks.py:159 | a plain directory name is its own folder name |
| `Naming.Name` | client/utils/tasks.py:65 | definition: `f"{prefix}{name}_{timestamp}{suffix}"`, the shape of every output path |
| `Naming.ProcessedImagePath` | client/utils/tasks.py:65 | definition: `results/images/processed_{stem}_{ts}.png` (also tasks.py:184) |
| `Naming.OriginalCopyPath` | client/utils/tasks.py:76 | definition: `results/images/original_{stem}_{ts}.png` (also tasks.py:203) |
| `Naming.SingleResultPath` | client/utils/tasks.py:83 | definition: `results/result_{stem}_{ts}.json` |
| `Naming.BatchResultPath` | client/utils/tasks.py:223 | definition: `results/batch_result_{folder}_{ts}.json` |
| `Naming.DenoisedVideoPath` | client/utils/tasks.py:273 | definition: `results/videos/denoised_{stem}_{ts}.mp4` |
| `Naming.VideoResultPath` | client/utils/tasks.py:282 | definition: `results/video_result_{stem}_{ts}.json` |
| `Naming.NameOf` | client/utils/tasks.py:65 | the name part recovered from a path has the length the path leaves for it |
| `Naming.NameOfName` | client/utils/tasks.py:65 | round trip: the stem is recovered from every output path built with it |
| `Naming.NameOfParsed` | client/utils/tasks.py:76 | round trip the other way: a path of the family's shape is the path of its stem |
| `Naming.NameInjective` | client/utils/tasks.py:83 | for one timestamp, different stems give different output paths |
| `Naming.PrefixesKeepApart` | client/utils/tasks.py:184 | paths built with prefixes that differ at a common position differ |
| `Naming.FamiliesDisjoint` | client/utils/tasks.py:65-83 | the processed, original-copy, single-record, batch-record, denoised-video and video-record paths are pairwise distinct for all stems and timestamps |
| `Json.Get` | client/utils/tasks.py:176 | definition: `dict.get(key, default)`; what the default for `original_filename` does is stated by `Reconcile.ItemWithoutOriginalFilename` |
| `Json.Truthy` | client/utils/tasks.py:63 | definition: Python truthiness of a decoded JSON value (null, false, zero and empty strings, lists and dicts are false) |
| `Json.HasTruthy` | client/utils/tasks.py:182 | definition: `'key' in d and d['key']` |
| `Json.FormatsAsFixed` | client/utils/tasks.py:53 | definition: the values `format(v, '.2f')` accepts, numbers and booleans |
| `Records.CheckResponse` | client/utils/tasks.py:143-153 | definition: status 200, then the body decodes, then it is a dict, as three distinct rejections in that order; its outcomes are stated by `BatchResponseFailures`, `SingleResponseFailures` and the `…SucceedsIff` lemmas |
| `ImageFilter.Selected` | client/utils/tasks.py:122-124 | definition: the entry is a regular file and `IsImageName` holds of its name |
| `ImageFilter.ImageFiles` | client/utils/tasks.py:117-125 | definition: the `image_files` list, the joined paths of the selected entries in listing order |
| `ImageFilter.CollectImageFiles` | client/utils/tasks.py:120-125 | the filter loop computes exactly `ImageFiles` of the listing |
| `ImageFilter.Collect` | client/utils/tasks.py:120-125 | the collection never has more paths than the listing has entries |
| `ImageFilter.CollectMembership` | client/utils/tasks.py:120-125 | a path is collected iff it is the joined path of an accepted entry |
| `ImageFilter.CollectConcat` | client/utils/tasks.py:120-125 | collecting distributes over concatenation of listings |
| `ImageFilter.CollectSingle` | client/utils/tasks.py:120-125 | on one entry, the collection is that entry's joined path or nothing |
| `ImageFilter.ImageFilesMembership` | client/utils/tasks.py:117-125 | a path is in `image_files` iff it is the joined path of a regular file with one of the six lower-cased extensions |
| `ImageFilter.ImageFilesConcat` | client/utils/tasks.py:120-125 | `image_files` keeps listing order and is not sorted: it distributes over concatenation |
| `ImageFilter.NoImagesIff` | client/utils/tasks.py:127-129 | `image_files` is empty iff no entry is a regular file with an image extension |
| `ImageFilter.ExampleImages` | client/utils/tasks.py:117 | `a.png` and `b.jpg` are selected |
| `ImageFilter.TxtIsNotImageExtension` | client/utils/tasks.py:117 | `.txt` is not one of the image extensions |
| `ImageFilter.ExampleTxt` | client/utils/tasks.py:117-125 | `notes.txt` is not selected |
| `ImageFilter.ThreeEntries` | client/utils/tasks.py:120-125 | an unselected entry after two selected ones is dropped and the order is kept |
| `ImageFilter.UnselectedBetween` | client/utils/tasks.py:120-125 | an unselected entry between two selected ones is dropped and the order is kept |
| `ImageFilter.ThreeFileFolder` | client/utils/tasks.py:120-125 | listing `a.png`, `b.jpg`, `notes.txt` yields the two joined image paths in that order |
| `Reconcile.FirstMatch` | client/utils/tasks.py:195-199 | what the search finds is one of the uploaded files |
| `Reconcile.FirstMatchCharacterised` | client/utils/tasks.py:195-199 | a file is found iff some file has exactly that basename, and it is the first such file |
| `Reconcile.FindOriginal` | client/utils/tasks.py:195-199 | the `for … break` loop returns `FirstMatch` |
| `Reconcile.OriginalFilename` | client/utils/tasks.py:176 | definition: `file_result.get('original_filename', '')` |
| `Reconcile.ItemStep` | client/utils/tasks.py:162-221 | definition: handling one server result, with the exception cases (not a dict, non-string `original_filename`, a GET that raises) as a missing record |
| `Reconcile.SettleItem` | client/utils/tasks.py:195-221 | definition: the copy, the sub-record and the writes of one result once its GET has returned |
| `Reconcile.ItemStepFacts` | client/utils/tasks.py:162-221 | a result is recorded iff it is a dict with a string `original_filename` whose GET (if issued) did not raise. The record keeps the server response and puts the original copy in both places. The copy path is non-null iff an original was found and is not the empty path (the `if original_file_path:` test), and then it is `original_{stem}_{ts}.png`. The processed path is non-null iff the URL is truthy and the GET returned 200, and then it is `processed_{stem}_{ts}.png`. One GET is issued iff the URL is truthy |
| `Reconcile.ItemWithoutOriginalFilename` | client/utils/tasks.py:176-177 | a dict result without `original_filename` is handled under the name "": recorded unless its GET raises, with no original image when no uploaded file has an empty basename, and any processed image named after the empty stem |
| `Reconcile.ItemOriginal` | client/utils/tasks.py:195-203 | for a recorded result, the original image is the first file with that exact basename; with no such file, the original image and both copy fields are null (that such a result is recorded at all is `ItemStepFacts`) |
| `Reconcile.Process` | client/utils/tasks.py:162-221 | definition: the sub-records and effects after handling the results in order, stopping at the first exception |
| `Reconcile.ProcessStopsAtRaise` | client/utils/tasks.py:244-248 | once handling a result raises, later results change nothing |
| `Reconcile.ProcessRaisedIff` | client/utils/tasks.py:162-221 | the loop ends in an exception iff some result is not a dict, has a non-string `original_filename`, or has a GET that raises |
| `Reconcile.StringFirstRaises` | client/utils/tasks.py:162-165 | results whose first element is a string raise at once, with nothing fetched, copied or written |
| `Reconcile.ProcessRecords` | client/utils/tasks.py:162-221 | when no result raises, there is exactly one sub-record per result, in server order, each the record its own result's handling built |
| `Reconcile.ProcessGets` | client/utils/tasks.py:182-187 | at most one GET is issued per result |
| `Reconcile.HandleResult` | client/utils/tasks.py:164-221 | the loop body computes `ItemStep` for the result |
| `Reconcile.SaveItem` | client/utils/tasks.py:195-221 | the second half of the loop body computes `SettleItem` |
| `Reconcile.ReconcileResults` | client/utils/tasks.py:162-221 | the loop, which stops at the first exception, computes `Process` of the results |
| `BatchInference.UploadPart` | client/utils/tasks.py:136 | definition: the `('images', (basename, handle, 'image/jpeg'))` entry of one file |
| `BatchInference.UploadParts` | client/utils/tasks.py:134-136 | definition: the `files` list, one `UploadPart` per image file, in order |
| `BatchInference.UploadPartsSnoc` | client/utils/tasks.py:134-136 | appending a file appends its part |
| `BatchInference.OpenableFrom` | client/utils/tasks.py:135-136 | the first refused file at or after `k` lies between `k` and the end |
| `BatchInference.OpenableFromSpec` | client/utils/tasks.py:135-136 | every file from `k` up to the first refused one opens, and the refused one does not |
| `BatchInference.OpenablePrefixSpec` | client/utils/tasks.py:135-136 | the opened prefix is exactly the files before the first `open` that raises |
| `BatchInference.ResultItems` | client/utils/tasks.py:162 | definition: a list gives its elements, an empty string or dict gives none, anything else ends the call before any GET; `ResultsIteratedAsStrings` checks the string and dict case against Python's iteration |
| `BatchInference.ResultsIteratedAsStrings` | client/utils/tasks.py:162-165 | a non-empty string or dict as `results` gives the same run as a list whose first element is a string, which is what iterating it yields |
| `BatchInference.OpenForUpload` | client/utils/tasks.py:134-136 | the handles opened are the openable prefix. All open iff no `open` raises, and then the parts are one `images` part per file, in order |
| `BatchInference.CloseHandles` | client/utils/tasks.py:140-141 | the close loop closes every part's file, in order |
| `BatchInference.UploadPartSources` | client/utils/tasks.py:140-141 | closing the parts built for the image files closes exactly those files |
| `BatchInference.UploadPartsShape` | client/utils/tasks.py:136 | every part is field `images`, the file's basename, the file itself and type `image/jpeg` |
| `BatchInference.BatchRun` | client/utils/tasks.py:111-248 | definition: the whole batch workflow on the oracle answers |
| `BatchInference.SaveBatch` | client/utils/tasks.py:156-238 | definition: the batch workflow after the response checks |
| `BatchInference.MultipleF32Inference` | client/utils/tasks.py:111-248 | the step-by-step workflow performs exactly what `BatchRun` describes |
| `BatchInference.FinishBatch` | client/utils/tasks.py:156-238 | the part after the dict check performs exactly what `SaveBatch` describes |
| `BatchInference.BatchAuditDiscipline` | client/utils/tasks.py:234-238 | an audit record is written iff the call returns `True`, and it is the last write; the call fails to return only when `os.listdir` raises (given the assumption on `os.makedirs` and the first prints under Left out) |
| `BatchInference.SaveBatchAudit` | client/utils/tasks.py:223-238 | after the response checks, the audit discipline holds and the call returns |
| `BatchInference.BatchNoImages` | client/utils/tasks.py:127-129 | a folder without a qualifying entry returns `False` with no open, no POST and no write |
| `BatchInference.BatchSomeImages` | client/utils/tasks.py:127-129 | a folder with a qualifying entry never fails as empty |
| `BatchInference.BatchHandles` | client/utils/tasks.py:134-141 | when an `open` raises, the files opened before it stay open and nothing is posted. Otherwise one POST carries all parts. If the POST raises no handle is closed; if it returns every handle is closed, whatever the status |
| `BatchInference.BatchResponseFailures` | client/utils/tasks.py:143-153 | non-200, undecodable and non-dict responses are three distinct failures that fetch, copy and write nothing and leave no audit record |
| `BatchInference.BatchSuccessRecord` | client/utils/tasks.py:162-232 | on `True` the response was a 200 dict; the record is saved as `batch_result_{folder}_{ts}.json` and counts `total_images` as the number of results iterated, one sub-record each in server order, regardless of the number of files or the server's own count; at most one GET per result |
| `BatchInference.BatchSucceedsIff` | client/utils/tasks.py:111-248 | the call returns `True` iff the folder has image files, all open, the POST returns a 200 dict, `results` can be iterated and every result is a dict with a string `original_filename` whose GET does not raise; a missing match, a failed copy or a non-200 GET never fails the batch |
| `BatchInference.BatchSuccessIgnoresCopies` | client/utils/tasks.py:204-208 | whether the batch returns `True` does not depend on any copy of an original succeeding |
| `SingleInference.SinglePart` | client/utils/tasks.py:28-29 | definition: the one `image` part, the open file object itself |
| `SingleInference.ConfidencePrintable` | client/utils/tasks.py:50-53 | definition: a dict `inference_result` must hold a `confidence` that `:.2f` can format |
| `SingleInference.SingleF32Inference` | client/utils/tasks.py:21-110 | definition: the whole single-image workflow on the oracle answers |
| `SingleInference.SaveSingle` | client/utils/tasks.py:57-100 | definition: the single-image workflow after the response checks |
| `SingleInference.SingleAuditDiscipline` | client/utils/tasks.py:96-100 | an audit record is written iff the call returns `True`, as the last write; the call always returns (given the assumption on `os.makedirs` under Left out) |
| `SingleInference.SaveSingleAudit` | client/utils/tasks.py:57-100 | after the response checks, the audit discipline holds and the call returns |
| `SingleInference.SingleUnopenable` | client/utils/tasks.py:28 | an image that cannot be opened returns `False` with no effect |
| `SingleInference.SingleHandleClosed` | client/utils/tasks.py:28-30 | exactly one POST is issued and the `with` block closes the handle whatever the POST does |
| `SingleInference.SaveSingleKeepsSent` | client/utils/tasks.py:57-100 | after the response checks nothing more is opened, posted or closed |
| `SingleInference.SingleResponseFailures` | client/utils/tasks.py:32-42 | non-200, undecodable and non-dict responses are three distinct failures that fetch, copy and write nothing |
| `SingleInference.SingleSuccessRecord` | client/utils/tasks.py:57-100 | on `True`: status 200 and a dict. The record is saved as `result_{stem}_{ts}.json`, names the image, and names `original_{stem}_{ts}.png` as the copy even when the copy failed. Its processed image is non-null iff the URL is truthy and the GET returned 200; at most one GET |
| `SingleInference.SavedSingleRecord` | client/utils/tasks.py:60-100 | the record built after the checks, field by field; the one copy attempted; and the whole write list: the processed image if its GET returned 200, then the copy if it succeeded, then the result file |
| `SingleInference.SingleWithoutProcessedUrl` | client/utils/tasks.py:63 | a missing or falsy `processed_image_url` still returns `True`, with no GET and a null processed image |
| `SingleInference.SingleBadConfidence` | client/utils/tasks.py:50-53 | a dict `inference_result` whose `confidence` is not a number makes the call return `False` with no write |
| `SingleInference.SingleSucceedsIff` | client/utils/tasks.py:21-110 | the call returns `True` iff the image opens, the POST returns a 200 dict, the confidence can be printed and the GET (if any) does not raise; the copy and the GET's status play no part |
| `SingleInference.SingleSuccessIgnoresCopy` | client/utils/tasks.py:77-81 | a failed copy of the original never turns `True` into `False` |
| `VideoInference.VideoPart` | client/utils/tasks.py:264 | definition: the one `video` part with the basename and type `video/mp4` |
| `VideoInference.ValidVideoInput` | client/utils/tasks.py:258 | definition: `os.path.isfile(path)` and the `.mp4` test |
| `VideoInference.VideoDenoiseInference` | client/utils/tasks.py:250-308 | definition: the whole video workflow on the oracle answers |
| `VideoInference.VideoAuditDiscipline` | client/utils/tasks.py:290-294 | an audit record is written iff the call returns `True`, as the last write; the call always returns (given the assumption on `os.makedirs` and the print at tasks.py:259 under Left out) |
| `VideoInference.VideoRejectsInput` | client/utils/tasks.py:258-260 | the input is rejected as invalid iff it is not a regular file or does not end in `.mp4` in any case; then nothing is opened or posted |
| `VideoInference.Mp4TestIgnoresCase` | client/utils/tasks.py:258 | any letter case of `.mp4` passes the extension test |
| `VideoInference.VideoStatusFailure` | client/utils/tasks.py:296-302 | a non-200 status returns `False` whatever the body, writing nothing |
| `VideoInference.VideoSuccessWrites` | client/utils/tasks.py:269-294 | on 200 the call returns `True` (the body is not parsed) and writes exactly `videos/denoised_{stem}_{ts}.mp4` then `video_result_{stem}_{ts}.json`, the record naming the input, the output and the timestamp |
| `VideoInference.VideoSucceedsIff` | client/utils/tasks.py:250-308 | the call returns `True` iff the input is a regular `.mp4` file, it opens and the POST answers 200 |

Two behaviours of the code are easy to miss:

- `os.listdir` is called before the `try` of `multiple_f32_inference`, so a
  failing listing raises out of the call (`Propagated`) instead of returning
  `False`.
- A POST that raises in the batch workflow reaches the `except` without
  closing the handles opened for it (`BatchHandles`). A handle whose `open`
  is followed by a failing `open` is not closed by the code either.

## Left out

- HTTP transport and file contents are I/O. They are replaced by the oracle
  inputs above; the endpoint is kept as its path only, since host and port
  come from a configuration module that is not part of this model.
- `os.makedirs`, `json.dump` and console output are I/O with no oracle: the
  model assumes they succeed. The `os.makedirs` calls (tasks.py:23-24,
  114-115, 256) and the prints at tasks.py:128, 131 and 259 run outside
  the `try`, so a failure there would escape the call; the statements that a
  call "always returns" hold under this assumption only.
- Writing a downloaded image, the video or an audit file is assumed to
  succeed. A failing write would raise into the workflow's `except` and return
  `False`; only `shutil.copy2`, whose failure the code catches, is an oracle.
- `datetime.now()` is the `timestamp` input. The `upload_time` and
  `processed_time` fields of the records are not modelled.
- `Paths.Lower` folds only ASCII letters; Python's `str.lower` folds all of
  Unicode.
- JSON numbers are reals; Python's `int`, `float` and `bool` are not told
  apart beyond `bool` in truthiness. `Json.FormatsAsFixed` accepts every
  number, although `:.2f` raises `OverflowError` on an integer too large
  for a float.
- `BatchInference.ResultItems`: a non-empty string or dict as `results` is
  iterated by Python and raises at its first element's `.get`; it is modelled
  directly as raising, which has the same effects.
- Exceptions are not distinguished by type: every exception the workflows
  catch is `Raised`.
- `test_api`, `client/client.py`, `client/utils/tools.py` and the video clipper
  in `client/test_img/` are not part of this model.
