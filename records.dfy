/**
 * What the three upload workflows see of the outside world, what they do to
 * it, and the audit records they serialise.
 *
 * Everything the Python code obtains by I/O is an input here (a `World`):
 * what `os.path.isfile` and `open` answer, what the one POST returns, what
 * each artifact GET returns, whether each `shutil.copy2` succeeds, and the
 * timestamp string. A workflow returns a `Run`: how the call ended, the
 * effects it performed in order within each kind, and the audit record it
 * wrote (if any).
 */
module Records {
  import opened Wrappers
  import opened Json

  /** One entry of `os.listdir(folder)`, with what `os.path.isfile` says of it. */
  datatype Entry = Entry(name: string, isFile: bool)

  /** What the body of an upload response decodes to with `response.json()`. */
  datatype Body = NotJson | Decoded(value: Json)

  /** What `requests.post` does: raise, or return a status and a body. */
  datatype Upload = PostRaised | Response(status: int, body: Body)

  /** What `requests.get` on an artifact URL does: raise, or return a status. */
  datatype Fetch = GetRaised | Fetched(status: int)

  /**
   * The oracles. `fetch(i)` and `copyOk(i)` answer for the GET and the copy
   * made while handling the i-th server result (index 0 in the single-image
   * workflow, which has one result).
   */
  datatype World = World(
    isFile: string -> bool,
    canOpen: string -> bool,
    upload: Upload,
    fetch: nat -> Fetch,
    copyOk: nat -> bool,
    timestamp: string)

  /** One part of a multipart upload: form field, declared file name, local file, content type. */
  datatype Part = Part(field: string, filename: string, source: string, contentType: Option<string>)

  /** One POST: the endpoint path (host and port are configuration) and its parts. */
  datatype Post = Post(endpoint: string, parts: seq<Part>)

  /** One `shutil.copy2(source, target)` attempt and whether it succeeded. */
  datatype Copy = Copy(source: string, target: string, ok: bool)

  /**
   * Effects of one call: the local files opened for upload, the POSTs, the
   * files whose handle was closed, the artifact URLs fetched, the copies
   * attempted and the files written, each in the order performed.
   */
  datatype Effects = Effects(
    opens: seq<string>,
    posts: seq<Post>,
    closes: seq<string>,
    gets: seq<Json>,
    copies: seq<Copy>,
    writes: seq<string>)

  const NoEffects := Effects([], [], [], [], [], [])

  /** Why a call returned `False`; `Raised` is an exception caught by the workflow's own `except`. */
  datatype Reason = NoImagesFound | InvalidVideoFile | UploadFailed(status: int) | InvalidJson | NotADict | Raised

  /** `Success` returns `True`, `Failure` returns `False`, `Propagated` lets an exception escape. */
  datatype Outcome = Success | Failure(reason: Reason) | Propagated

  /** The `local_saved_files` block of a batch item. */
  datatype ItemFiles = ItemFiles(originalCopy: Option<string>, processedImage: Option<string>)

  /** One entry of a batch record's `individual_results` (its `upload_time` is not modelled). */
  datatype ItemRecord = ItemRecord(
    originalImage: Option<string>,
    originalCopy: Option<string>,
    serverResponse: Json,
    localFiles: ItemFiles)

  /** The `local_saved_files` block of a single-image record. */
  datatype SingleFiles = SingleFiles(originalCopy: string, processedImage: Option<string>, resultJson: string)

  /** The three audit records (their `upload_time`/`processed_time` are not modelled). */
  datatype Audit =
    | SingleRecord(originalImage: string, originalCopy: string, serverResponse: Json, files: SingleFiles)
    | BatchRecord(folderPath: string, totalImages: nat, timestamp: string, individualResults: seq<ItemRecord>)
    | VideoRecord(originalVideo: string, processedVideo: string, videoTimestamp: string)

  /** An audit record and the file it was serialised to. */
  datatype Saved = Saved(path: string, record: Audit)

  datatype Run = Run(outcome: Outcome, effects: Effects, audit: Option<Saved>)

  /** The result of the response checks every workflow that expects JSON makes. */
  datatype Checked = Rejected(reason: Reason) | Accepted(fields: map<string, Json>)

  /**
   * `if response.status_code == 200`, then `response.json()` inside a
   * `try … except json.JSONDecodeError`, then `isinstance(result, dict)`: three
   * distinct rejections, checked in that order.
   */
  function CheckResponse(status: int, body: Body): Checked
  {
    if status != 200 then Rejected(UploadFailed(status))
    else if body.NotJson? then Rejected(InvalidJson)
    else if !body.value.JObj? then Rejected(NotADict)
    else Accepted(body.value.fields)
  }

  /** The Python return value, when the call returns at all. */
  function Returned(r: Run): Option<bool>
  {
    match r.outcome
    case Success => Some(true)
    case Failure(_) => Some(false)
    case Propagated => None
  }

  /**
   * A run keeps the audit discipline: it has an audit record exactly when it
   * succeeds, and then the record is the last file written.
   */
  predicate AuditOnlyOnSuccess(r: Run)
  {
    && (r.audit.Some? <==> r.outcome == Success)
    && (r.audit.Some? ==>
          |r.effects.writes| > 0 && r.effects.writes[|r.effects.writes| - 1] == r.audit.value.path)
  }
}
