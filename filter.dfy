/**
 * The image-file collection at the start of `multiple_f32_inference`: walk
 * the directory listing in order and keep the joined path of every regular
 * file whose lower-cased extension is one of the image extensions.
 */
module ImageFilter {
  import opened Paths
  import opened Records

  /** The test one listing entry must pass. */
  predicate Selected(e: Entry)
  {
    e.isFile && IsImageName(e.name)
  }

  /**
   * The joined paths of the entries that `keep` accepts, in listing order, by
   * recursion on the last entry.
   */
  function Collect(folder: string, listing: seq<Entry>, keep: Entry -> bool): (r: seq<string>)
    ensures |r| <= |listing|
  {
    if |listing| == 0 then []
    else
      var e := listing[|listing| - 1];
      Collect(folder, listing[..|listing| - 1], keep) + (if keep(e) then [Join(folder, e.name)] else [])
  }

  /** The `image_files` list for a listing. */
  function ImageFiles(folder: string, listing: seq<Entry>): seq<string>
  {
    Collect(folder, listing, Selected)
  }

  /** The loop of lines 120-125, appending to `image_files` in listing order. */
  method CollectImageFiles(folder: string, listing: seq<Entry>) returns (imageFiles: seq<string>)
    ensures imageFiles == ImageFiles(folder, listing)
  {
    imageFiles := [];
    var k := 0;
    while k < |listing|
      invariant 0 <= k <= |listing|
      invariant imageFiles == Collect(folder, listing[..k], Selected)
    {
      var filePath := Join(folder, listing[k].name);
      if listing[k].isFile {
        var fileExt := Lower(SplitExt(listing[k].name).1);
        if fileExt in ImageExtensions {
          imageFiles := imageFiles + [filePath];
        }
      }
      assert listing[..k + 1][..k] == listing[..k];
      k := k + 1;
    }
    assert listing[..k] == listing;
  }

  /** A path is collected exactly when it is the joined path of an accepted entry. */
  lemma {:induction false} CollectMembership(folder: string, listing: seq<Entry>, keep: Entry -> bool, p: string)
    ensures p in Collect(folder, listing, keep) <==>
      exists i :: 0 <= i < |listing| && keep(listing[i]) && p == Join(folder, listing[i].name)
  {
    if |listing| > 0 {
      var init := listing[..|listing| - 1];
      CollectMembership(folder, init, keep, p);
      if exists i :: 0 <= i < |init| && keep(init[i]) && p == Join(folder, init[i].name) {
        var i :| 0 <= i < |init| && keep(init[i]) && p == Join(folder, init[i].name);
        assert listing[i] == init[i];
      }
      if exists i :: 0 <= i < |listing| && keep(listing[i]) && p == Join(folder, listing[i].name) {
        var i :| 0 <= i < |listing| && keep(listing[i]) && p == Join(folder, listing[i].name);
        if i < |init| {
          assert init[i] == listing[i];
        }
      }
    }
  }

  /** The collection is a filter that keeps listing order: it distributes over concatenation. */
  lemma {:induction false} CollectConcat(folder: string, l1: seq<Entry>, l2: seq<Entry>, keep: Entry -> bool)
    ensures Collect(folder, l1 + l2, keep) == Collect(folder, l1, keep) + Collect(folder, l2, keep)
  {
    if |l2| == 0 {
      assert l1 + l2 == l1;
    } else {
      var init := l2[..|l2| - 1];
      CollectConcat(folder, l1, init, keep);
      assert (l1 + l2)[..|l1 + l2| - 1] == l1 + init;
      assert (l1 + l2)[|l1 + l2| - 1] == l2[|l2| - 1];
    }
  }

  /** On one entry the collection keeps that entry's path or nothing. */
  lemma CollectSingle(folder: string, e: Entry, keep: Entry -> bool)
    ensures Collect(folder, [e], keep) == if keep(e) then [Join(folder, e.name)] else []
  {
    assert [e][..0] == [];
  }

  /** An entry's path is in `image_files` exactly when the entry is a regular file with an image extension. */
  lemma ImageFilesMembership(folder: string, listing: seq<Entry>, p: string)
    ensures p in ImageFiles(folder, listing) <==>
      exists i :: 0 <= i < |listing| && Selected(listing[i]) && p == Join(folder, listing[i].name)
  {
    CollectMembership(folder, listing, Selected, p);
  }

  /** `image_files` keeps listing order: it distributes over concatenation of listings. */
  lemma ImageFilesConcat(folder: string, l1: seq<Entry>, l2: seq<Entry>)
    ensures ImageFiles(folder, l1 + l2) == ImageFiles(folder, l1) + ImageFiles(folder, l2)
    ensures |l2| == 1 ==>
      ImageFiles(folder, l2) == if Selected(l2[0]) then [Join(folder, l2[0].name)] else []
  {
    CollectConcat(folder, l1, l2, Selected);
    if |l2| == 1 {
      assert l2 == [l2[0]];
      CollectSingle(folder, l2[0], Selected);
    }
  }

  /** No network call is needed exactly when no entry is a selected image file. */
  lemma NoImagesIff(folder: string, listing: seq<Entry>)
    ensures ImageFiles(folder, listing) == [] <==> forall i :: 0 <= i < |listing| ==> !Selected(listing[i])
  {
    if ImageFiles(folder, listing) != [] {
      ImageFilesMembership(folder, listing, ImageFiles(folder, listing)[0]);
    } else {
      forall i | 0 <= i < |listing|
        ensures !Selected(listing[i])
      {
        ImageFilesMembership(folder, listing, Join(folder, listing[i].name));
      }
    }
  }

  /** `a.png` and `b.jpg` are selected image files. */
  lemma ExampleImages()
    ensures Selected(Entry("a.png", true)) && Selected(Entry("b.jpg", true))
  {
    SplitExtOfPlainName("a.png", 1);
    SplitExtOfPlainName("b.jpg", 1);
    LowerOfLowercase(".png");
    LowerOfLowercase(".jpg");
  }

  /** `.txt` is not an image extension. */
  lemma TxtIsNotImageExtension()
    ensures Lower(".txt") !in ImageExtensions
  {
    LowerOfLowercase(".txt");
    assert ".txt"[1] == 't' && ".txt"[2] == 'x';
    assert ".jpg"[1] == 'j' && ".jpeg"[1] == 'j' && ".png"[1] == 'p' && ".bmp"[1] == 'b';
    assert ".tiff"[2] == 'i' && ".tif"[2] == 'i';
  }

  /** `notes.txt` is not. */
  lemma ExampleTxt()
    ensures !Selected(Entry("notes.txt", true))
  {
    SplitExtOfPlainName("notes.txt", 5);
    assert SplitExt("notes.txt").1 == ".txt";
    TxtIsNotImageExtension();
  }

  /** Two selected entries followed by an unselected one: the unselected one is dropped, order kept. */
  lemma {:induction false} ThreeEntries(folder: string, a: Entry, b: Entry, n: Entry)
    requires Selected(a) && Selected(b) && !Selected(n)
    ensures ImageFiles(folder, [a, b, n]) == [Join(folder, a.name), Join(folder, b.name)]
  {
    ImageFilesConcat(folder, [a, b], [n]);
    ImageFilesConcat(folder, [a], [b]);
    ImageFilesConcat(folder, [], [a]);
    assert [a, b] + [n] == [a, b, n] && [a] + [b] == [a, b] && [] + [a] == [a];
  }

  /** An unselected entry between two selected ones is dropped, and the order is kept. */
  lemma {:induction false} UnselectedBetween(folder: string, a: Entry, n: Entry, b: Entry)
    requires Selected(a) && Selected(b) && !Selected(n)
    ensures ImageFiles(folder, [a, n, b]) == [Join(folder, a.name), Join(folder, b.name)]
  {
    ImageFilesConcat(folder, [a, n], [b]);
    ImageFilesConcat(folder, [a], [n]);
    ImageFilesConcat(folder, [], [a]);
    assert [a, n] + [b] == [a, n, b] && [a] + [n] == [a, n] && [] + [a] == [a];
  }

  /** The directory of `a.png`, `b.jpg` and `notes.txt` yields the two images, in that order. */
  lemma ThreeFileFolder(folder: string)
    ensures ImageFiles(folder, [Entry("a.png", true), Entry("b.jpg", true), Entry("notes.txt", true)])
         == [Join(folder, "a.png"), Join(folder, "b.jpg")]
  {
    ExampleImages();
    ExampleTxt();
    ThreeEntries(folder, Entry("a.png", true), Entry("b.jpg", true), Entry("notes.txt", true));
  }
}
