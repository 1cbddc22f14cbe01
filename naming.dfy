/**
 * The result store's naming scheme: every file the workflows write is
 * `<prefix><name>_<timestamp><suffix>` for one of six fixed prefixes and
 * suffixes.
 */
module Naming {
  import opened Wrappers

  /** `f"{prefix}{name}_{timestamp}{suffix}"`. */
  function Name(prefix: string, name: string, ts: string, suffix: string): string
  {
    prefix + name + "_" + ts + suffix
  }

  /**
   * The inverse of `Name` for a fixed prefix, timestamp and suffix: the name
   * part of `path`, or None when `path` is not of that shape.
   */
  function NameOf(prefix: string, ts: string, suffix: string, path: string): (r: Option<string>)
    ensures r.Some? ==> |r.value| + |prefix| + |ts| + |suffix| + 1 == |path|
  {
    var tail := "_" + ts + suffix;
    if |prefix| + |tail| <= |path| && path[..|prefix|] == prefix && path[|path| - |tail|..] == tail then
      Some(path[|prefix|..|path| - |tail|])
    else
      None
  }

  /** Round trip: the name is recovered from the path built with it. */
  lemma NameOfName(prefix: string, name: string, ts: string, suffix: string)
    ensures NameOf(prefix, ts, suffix, Name(prefix, name, ts, suffix)) == Some(name)
  {
    var path := Name(prefix, name, ts, suffix);
    var tail := "_" + ts + suffix;
    assert path == prefix + name + tail;
    assert path[..|prefix|] == prefix;
    assert path[|path| - |tail|..] == tail;
    assert path[|prefix|..|path| - |tail|] == name;
  }

  /** Round trip the other way: a path that parses is the path of its name. */
  lemma NameOfParsed(prefix: string, ts: string, suffix: string, path: string)
    requires NameOf(prefix, ts, suffix, path).Some?
    ensures Name(prefix, NameOf(prefix, ts, suffix, path).value, ts, suffix) == path
  {
    var tail := "_" + ts + suffix;
    var name := path[|prefix|..|path| - |tail|];
    assert path == path[..|prefix|] + name + path[|path| - |tail|..];
  }

  /** For a fixed timestamp, different names give different paths. */
  lemma NameInjective(prefix: string, n1: string, n2: string, ts: string, suffix: string)
    requires Name(prefix, n1, ts, suffix) == Name(prefix, n2, ts, suffix)
    ensures n1 == n2
  {
    NameOfName(prefix, n1, ts, suffix);
    NameOfName(prefix, n2, ts, suffix);
  }

  /** Two prefixes that differ at a common position never build the same path. */
  lemma PrefixesKeepApart(p1: string, p2: string, k: nat,
                          n1: string, t1: string, s1: string,
                          n2: string, t2: string, s2: string)
    requires k < |p1| && k < |p2| && p1[k] != p2[k]
    ensures Name(p1, n1, t1, s1) != Name(p2, n2, t2, s2)
  {
    assert Name(p1, n1, t1, s1)[k] == p1[k];
    assert Name(p2, n2, t2, s2)[k] == p2[k];
  }

  // ---------------------------------------------------------------------------
  // The six families of output files
  // ---------------------------------------------------------------------------

  const ProcessedPrefix := "results/images/processed_"
  const OriginalPrefix := "results/images/original_"
  const SingleResultPrefix := "results/result_"
  const BatchResultPrefix := "results/batch_result_"
  const DenoisedPrefix := "results/videos/denoised_"
  const VideoResultPrefix := "results/video_result_"

  /** The downloaded processed image. */
  function ProcessedImagePath(stem: string, ts: string): string
  {
    Name(ProcessedPrefix, stem, ts, ".png")
  }

  /** The local copy of an uploaded original (always with a `.png` suffix). */
  function OriginalCopyPath(stem: string, ts: string): string
  {
    Name(OriginalPrefix, stem, ts, ".png")
  }

  /** The audit record of a single-image call. */
  function SingleResultPath(stem: string, ts: string): string
  {
    Name(SingleResultPrefix, stem, ts, ".json")
  }

  /** The audit record of a batch call, named after the folder. */
  function BatchResultPath(folder: string, ts: string): string
  {
    Name(BatchResultPrefix, folder, ts, ".json")
  }

  /** The denoised video returned by the server. */
  function DenoisedVideoPath(stem: string, ts: string): string
  {
    Name(DenoisedPrefix, stem, ts, ".mp4")
  }

  /** The audit record of a video call. */
  function VideoResultPath(stem: string, ts: string): string
  {
    Name(VideoResultPrefix, stem, ts, ".json")
  }

  /**
   * The six families never share a path, whatever the names and timestamps:
   * a download never lands on a copy, and no audit record lands on an artifact.
   */
  lemma FamiliesDisjoint(a: string, b: string, t: string, u: string)
    ensures ProcessedImagePath(a, t) != OriginalCopyPath(b, u)
    ensures ProcessedImagePath(a, t) != SingleResultPath(b, u)
    ensures ProcessedImagePath(a, t) != BatchResultPath(b, u)
    ensures ProcessedImagePath(a, t) != DenoisedVideoPath(b, u)
    ensures ProcessedImagePath(a, t) != VideoResultPath(b, u)
    ensures OriginalCopyPath(a, t) != SingleResultPath(b, u)
    ensures OriginalCopyPath(a, t) != BatchResultPath(b, u)
    ensures OriginalCopyPath(a, t) != DenoisedVideoPath(b, u)
    ensures OriginalCopyPath(a, t) != VideoResultPath(b, u)
    ensures SingleResultPath(a, t) != BatchResultPath(b, u)
    ensures SingleResultPath(a, t) != DenoisedVideoPath(b, u)
    ensures SingleResultPath(a, t) != VideoResultPath(b, u)
    ensures BatchResultPath(a, t) != DenoisedVideoPath(b, u)
    ensures BatchResultPath(a, t) != VideoResultPath(b, u)
    ensures DenoisedVideoPath(a, t) != VideoResultPath(b, u)
  {
    PrefixesKeepApart(ProcessedPrefix, OriginalPrefix, 15, a, t, ".png", b, u, ".png");
    PrefixesKeepApart(ProcessedPrefix, SingleResultPrefix, 8, a, t, ".png", b, u, ".json");
    PrefixesKeepApart(ProcessedPrefix, BatchResultPrefix, 8, a, t, ".png", b, u, ".json");
    PrefixesKeepApart(ProcessedPrefix, DenoisedPrefix, 8, a, t, ".png", b, u, ".mp4");
    PrefixesKeepApart(ProcessedPrefix, VideoResultPrefix, 8, a, t, ".png", b, u, ".json");
    PrefixesKeepApart(OriginalPrefix, SingleResultPrefix, 8, a, t, ".png", b, u, ".json");
    PrefixesKeepApart(OriginalPrefix, BatchResultPrefix, 8, a, t, ".png", b, u, ".json");
    PrefixesKeepApart(OriginalPrefix, DenoisedPrefix, 8, a, t, ".png", b, u, ".mp4");
    PrefixesKeepApart(OriginalPrefix, VideoResultPrefix, 8, a, t, ".png", b, u, ".json");
    PrefixesKeepApart(SingleResultPrefix, BatchResultPrefix, 8, a, t, ".json", b, u, ".json");
    PrefixesKeepApart(SingleResultPrefix, DenoisedPrefix, 8, a, t, ".json", b, u, ".mp4");
    PrefixesKeepApart(SingleResultPrefix, VideoResultPrefix, 8, a, t, ".json", b, u, ".json");
    PrefixesKeepApart(BatchResultPrefix, DenoisedPrefix, 8, a, t, ".json", b, u, ".mp4");
    PrefixesKeepApart(BatchResultPrefix, VideoResultPrefix, 8, a, t, ".json", b, u, ".json");
    PrefixesKeepApart(DenoisedPrefix, VideoResultPrefix, 13, a, t, ".mp4", b, u, ".json");
  }
}
