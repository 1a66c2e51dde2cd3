/** The list building of scan.js: keep the directory entries whose extension
    is on a fixed, case-sensitive list, sort them, and prefix each with its
    folder in the generated file list. Directory listings are inputs; whether
    a directory exists is a boolean input. */
module Scan {
  import opened JsText

  const Dot: CodeUnit := 0x2E

  /** '.jpg' '.jpeg' '.png' '.gif' '.webp' '.bmp' and their upper-case forms, in
      the order of scan.js:8. */
  const ImageExtensions: seq<JsString> := [
    [0x2E, 0x6A, 0x70, 0x67], [0x2E, 0x6A, 0x70, 0x65, 0x67], [0x2E, 0x70, 0x6E, 0x67],
    [0x2E, 0x67, 0x69, 0x66], [0x2E, 0x77, 0x65, 0x62, 0x70], [0x2E, 0x62, 0x6D, 0x70],
    [0x2E, 0x4A, 0x50, 0x47], [0x2E, 0x4A, 0x50, 0x45, 0x47], [0x2E, 0x50, 0x4E, 0x47],
    [0x2E, 0x47, 0x49, 0x46], [0x2E, 0x57, 0x45, 0x42, 0x50], [0x2E, 0x42, 0x4D, 0x50]]

  /** '.mp3' '.wav' '.ogg' '.m4a' '.flac' and their upper-case forms (scan.js:9). */
  const AudioExtensions: seq<JsString> := [
    [0x2E, 0x6D, 0x70, 0x33], [0x2E, 0x77, 0x61, 0x76], [0x2E, 0x6F, 0x67, 0x67],
    [0x2E, 0x6D, 0x34, 0x61], [0x2E, 0x66, 0x6C, 0x61, 0x63],
    [0x2E, 0x4D, 0x50, 0x33], [0x2E, 0x57, 0x41, 0x56], [0x2E, 0x4F, 0x47, 0x47],
    [0x2E, 0x4D, 0x34, 0x41], [0x2E, 0x46, 0x4C, 0x41, 0x43]]

  /** 'assets/photos/' */
  const PhotosFolder: JsString :=
    [0x61, 0x73, 0x73, 0x65, 0x74, 0x73, 0x2F, 0x70, 0x68, 0x6F, 0x74, 0x6F, 0x73, 0x2F]

  /** 'assets/music/' */
  const MusicFolder: JsString :=
    [0x61, 0x73, 0x73, 0x65, 0x74, 0x73, 0x2F, 0x6D, 0x75, 0x73, 0x69, 0x63, 0x2F]

  /** Index of the last '.', or -1 when there is none. */
  function LastDot(s: JsString): (r: int)
    ensures -1 <= r < |s|
    ensures r >= 0 ==> s[r] == Dot
    ensures forall k :: r < k < |s| ==> s[k] != Dot
  {
    if |s| == 0 then -1
    else if s[|s| - 1] == Dot then |s| - 1
    else LastDot(s[..|s| - 1])
  }

  /** Node's `path.extname` for a directory entry (a name without '/'): from
      the last '.' to the end, except that a name whose only dot leads it
      ('.hidden') and the name '..' have no extension. */
  function ExtName(name: JsString): (ext: JsString)
    ensures ext != [] ==> |ext| < |name| && ext == name[|name| - |ext|..] && ext[0] == Dot
    ensures forall k :: 1 <= k < |ext| ==> ext[k] != Dot
    ensures ext == [] <==> name == [Dot, Dot] || forall k :: 1 <= k < |name| ==> name[k] != Dot
  {
    var d := LastDot(name);
    if d <= 0 then []
    else if d == 1 && |name| == 2 && name[0] == Dot then []
    else name[d..]
  }

  /** The entries that the forEach loop of scan.js pushes, in listing order. */
  function Filter(entries: seq<JsString>, exts: seq<JsString>): (r: seq<JsString>)
    ensures multiset(r) <= multiset(entries)
    ensures forall x :: x in r <==> x in entries && ExtName(x) in exts
  {
    if entries == [] then []
    else
      var init, last := entries[..|entries| - 1], entries[|entries| - 1];
      assert entries == init + [last];
      Filter(init, exts) + (if ExtName(last) in exts then [last] else [])
  }

  /** The forEach loop: push every entry whose extension is on the list. */
  method CollectMatching(entries: seq<JsString>, exts: seq<JsString>) returns (kept: seq<JsString>)
    ensures kept == Filter(entries, exts)
  {
    kept := [];
    var i := 0;
    while i < |entries|
      invariant 0 <= i <= |entries|
      invariant kept == Filter(entries[..i], exts)
    {
      assert entries[..i + 1][..i] == entries[..i];
      if ExtName(entries[i]) in exts {
        kept := kept + [entries[i]];
      }
      i := i + 1;
    }
    assert entries[..i] == entries;
  }

  /** `Array.prototype.sort()` with no comparator, in place. The engine's
      algorithm is not fixed, but SortedPermutationUnique shows that every
      correct one leaves the same array. */
  method SortInPlace(a: array<JsString>)
    modifies a
    ensures Sorted(a[..])
    ensures multiset(a[..]) == old(multiset(a[..]))
  {
    var i := 0;
    while i < a.Length
      invariant 0 <= i <= a.Length
      invariant forall p, q :: 0 <= p < q < i ==> LexLe(a[p], a[q])
      invariant multiset(a[..]) == old(multiset(a[..]))
    {
      var j := i;
      while j > 0 && !LexLe(a[j - 1], a[j])
        invariant 0 <= j <= i
        invariant forall p, q :: 0 <= p < q <= i && q != j ==> LexLe(a[p], a[q])
        invariant forall q :: j < q <= i ==> LexLe(a[j], a[q])
        invariant multiset(a[..]) == old(multiset(a[..]))
      {
        LexLeTotal(a[j - 1], a[j]);
        a[j - 1], a[j] := a[j], a[j - 1];
        j := j - 1;
      }
      forall p, q | 0 <= p < q <= i ensures LexLe(a[p], a[q]) {
        if q == j && p < j - 1 {
          LexLeTransitive(a[p], a[j - 1], a[j]);
        }
      }
      i := i + 1;
    }
  }

  /** One directory: an empty list when it does not exist, otherwise its
      matching entries, sorted. */
  method ScanDirectory(present: bool, entries: seq<JsString>, exts: seq<JsString>) returns (list: seq<JsString>)
    ensures list == if present then Sort(Filter(entries, exts)) else []
    ensures Sorted(list)
    ensures multiset(list) <= multiset(entries)
    ensures forall x :: x in list <==> present && x in entries && ExtName(x) in exts
  {
    list := [];
    if present {
      var kept := CollectMatching(entries, exts);
      var a := new JsString[|kept|](i requires 0 <= i < |kept| => kept[i]);
      assert a[..] == kept;
      SortInPlace(a);
      list := a[..];
      SortSorted(kept);
      SortedPermutationUnique(list, Sort(kept));
      assert forall x :: x in list <==> x in multiset(kept);
    }
  }

  datatype FileList = FileList(photos: seq<JsString>, music: seq<JsString>)

  /** The `map` that puts the folder in front of every name. */
  function WithFolder(folder: JsString, files: seq<JsString>): (r: seq<JsString>)
    ensures |r| == |files|
    ensures forall i :: 0 <= i < |files| ==> r[i] == folder + files[i]
  {
    seq(|files|, i requires 0 <= i < |files| => folder + files[i])
  }

  /** Prefixing keeps a sorted list sorted. */
  lemma WithFolderSorted(folder: JsString, files: seq<JsString>)
    requires Sorted(files)
    ensures Sorted(WithFolder(folder, files))
  {
    var r := WithFolder(folder, files);
    forall i, j | 0 <= i < j < |r| ensures LexLe(r[i], r[j]) {
      LexLeCommonPrefix(folder, files[i], files[j]);
    }
  }

  /** The whole scan: two independent directory scans, then the folder prefixes
      of the generated list. */
  method GenerateFileList(photosExist: bool, photoEntries: seq<JsString>,
                          musicExists: bool, musicEntries: seq<JsString>)
    returns (list: FileList)
    ensures list.photos == WithFolder(PhotosFolder, if photosExist then Sort(Filter(photoEntries, ImageExtensions)) else [])
    ensures list.music == WithFolder(MusicFolder, if musicExists then Sort(Filter(musicEntries, AudioExtensions)) else [])
    ensures Sorted(list.photos) && Sorted(list.music)
  {
    var photos := ScanDirectory(photosExist, photoEntries, ImageExtensions);
    var music := ScanDirectory(musicExists, musicEntries, AudioExtensions);
    WithFolderSorted(PhotosFolder, photos);
    WithFolderSorted(MusicFolder, music);
    list := FileList(WithFolder(PhotosFolder, photos), WithFolder(MusicFolder, music));
  }

  /** No extension is on both lists. */
  lemma ExtensionListsDisjoint()
    ensures forall x :: x in ImageExtensions ==> x !in AudioExtensions
  {
    forall x | x in ImageExtensions ensures x !in AudioExtensions {
      var i :| 0 <= i < |ImageExtensions| && ImageExtensions[i] == x;
    }
  }

  /** A name kept as a photo is never one the music scan would keep, and the
      other way round. */
  lemma {:induction false} KindsNeverMix(entries: seq<JsString>, x: JsString)
    ensures x in Sort(Filter(entries, ImageExtensions)) ==> ExtName(x) !in AudioExtensions
    ensures x in Sort(Filter(entries, AudioExtensions)) ==> ExtName(x) !in ImageExtensions
  {
    ExtensionListsDisjoint();
    var photos := Filter(entries, ImageExtensions);
    var music := Filter(entries, AudioExtensions);
    assert x in Sort(photos) ==> x in multiset(photos);
    assert x in Sort(music) ==> x in multiset(music);
  }

  /** The extension of `stem + ext` is `ext` when `ext` is a dot followed by
      dot-free text and the stem is not empty (the name '..' excepted). */
  lemma ExtNameOfSuffix(stem: JsString, ext: JsString)
    requires |stem| > 0 && |ext| > 0 && ext[0] == Dot
    requires forall k :: 1 <= k < |ext| ==> ext[k] != Dot
    requires stem + ext != [Dot, Dot]
    ensures ExtName(stem + ext) == ext
  {
    var name := stem + ext;
    var e := ExtName(name);
    assert name[|stem|] == Dot;
    assert e != [];
    assert e == name[|stem|..] == ext;
  }

  /** Membership is exact: 'a.jpg' and 'a.JPG' are photos, 'a.Jpg' is not. */
  lemma CaseSensitiveExamples()
    ensures ExtName([0x61, 0x2E, 0x6A, 0x70, 0x67]) in ImageExtensions
    ensures ExtName([0x61, 0x2E, 0x4A, 0x50, 0x47]) in ImageExtensions
    ensures ExtName([0x61, 0x2E, 0x4A, 0x70, 0x67]) !in ImageExtensions
  {
    var stem: JsString := [0x61];
    ExtNameOfSuffix(stem, [0x2E, 0x6A, 0x70, 0x67]);
    ExtNameOfSuffix(stem, [0x2E, 0x4A, 0x50, 0x47]);
    ExtNameOfSuffix(stem, [0x2E, 0x4A, 0x70, 0x67]);
    assert stem + [0x2E, 0x6A, 0x70, 0x67] == [0x61, 0x2E, 0x6A, 0x70, 0x67];
    assert stem + [0x2E, 0x4A, 0x50, 0x47] == [0x61, 0x2E, 0x4A, 0x50, 0x47];
    assert stem + [0x2E, 0x4A, 0x70, 0x67] == [0x61, 0x2E, 0x4A, 0x70, 0x67];
  }

  /** A hidden file whose name is only a dot and an extension has none. */
  lemma LeadingDotIsNoExtension(ext: JsString)
    requires |ext| > 0 && ext[0] == Dot
    requires forall k :: 1 <= k < |ext| ==> ext[k] != Dot
    ensures ExtName(ext) == []
  {
  }
}
