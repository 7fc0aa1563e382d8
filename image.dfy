/** The `/image` route: where an attached image is stored (one folder per
    day) and the URL path the handler answers with. */
module Image {
  import opened Json
  import opened Decimal
  import opened DayKey
  import opened Upload

  /** multer's `destination`: `path.join('.', 'upload', 'attachedImage', dayformat)`,
      which drops the leading `.`. */
  function Destination(year: nat, month: nat, day: nat): string
  {
    "upload/" + AttachedImage + "/" + DayFormat(year, month, day)
  }

  /** The folder under `upload/` that holds attached images. */
  const AttachedImage := "attachedImage"

  /** The day folder is named by the same key as the rise/set cache, and
      that name reads back as the day of the upload. */
  lemma DestinationNamesTheDay(year: nat, month: nat, day: nat)
    requires IsCalendarDay(month, day)
    ensures var prefix := "upload/" + AttachedImage + "/";
      var dest := Destination(year, month, day);
      && |dest| >= |prefix| && dest[..|prefix|] == prefix
      && var key := dest[|prefix|..];
      && key == DayFormat(year, month, day)
      && |key| >= 4 && AllDigits(key) && ParseDayFormat(key) == (year, month, day)
      && (1000 <= year <= 9999 ==> |key| == 8)
  {
    var prefix := "upload/" + AttachedImage + "/";
    var key := DayFormat(year, month, day);
    assert Destination(year, month, day) == prefix + key;
    DayFormatRoundTrip(year, month, day);
    DayFormatLayout(year, month, day);
  }

  /** Where multer puts a file: its destination joined with its stored name. */
  function StoredPath(year: nat, month: nat, day: nat, timestamp: nat, original: string): string
  {
    Destination(year, month, day) + "/" + StoredFileName(timestamp, original)
  }

  /** `path.relative('./upload/', p)` for a path inside `upload/`. */
  function RelativeToUpload(p: string): string
    requires |p| >= 7 && p[..7] == "upload/"
  {
    p[7..]
  }

  /** `s.split('/')`: the pieces between the slashes, with an empty piece
      before a leading, after a trailing and between two adjacent slashes. */
  function Split(s: string): (parts: seq<string>)
    ensures |parts| == multiset(s)['/'] + 1
    ensures forall i :: 0 <= i < |parts| ==> '/' !in parts[i]
  {
    if s == [] then [""]
    else
      var c := s[|s| - 1];
      var parts := Split(s[..|s| - 1]);
      assert s == s[..|s| - 1] + [c];
      if c == '/' then parts + [""]
      else parts[..|parts| - 1] + [parts[|parts| - 1] + [c]]
  }

  /** What the `forEach` builds: `'/' + component` for each component in turn. */
  function Rooted(components: seq<string>): (path: string)
    ensures |path| >= |components|
    ensures components != [] ==> path[0] == '/'
  {
    if components == [] then ""
    else Rooted(components[..|components| - 1]) + "/" + components[|components| - 1]
  }

  /** The `imgPath` loop. */
  method ImgPath(components: seq<string>) returns (imgPath: string)
    ensures imgPath == Rooted(components)
  {
    imgPath := "";
    var i := 0;
    while i < |components|
      invariant 0 <= i <= |components|
      invariant imgPath == Rooted(components[..i])
    {
      assert components[..i + 1][..i] == components[..i];
      imgPath := imgPath + "/" + components[i];
      i := i + 1;
    }
    assert components[..|components|] == components;
  }

  /** Splitting a relative path at its slashes and putting '/' before each
      piece gives the path with one '/' in front: the URL path is the
      stored path relative to `upload/`, rooted. */
  lemma {:induction false} RootedSplit(rel: string)
    ensures Rooted(Split(rel)) == "/" + rel
  {
    if rel != [] {
      var init := rel[..|rel| - 1];
      var c := rel[|rel| - 1];
      var parts := Split(init);
      RootedSplit(init);
      assert rel == init + [c];
      if c == '/' {
        assert (parts + [""])[..|parts|] == parts;
      } else {
        var front := parts[..|parts| - 1];
        var last := parts[|parts| - 1];
        var split := front + [last + [c]];
        assert Split(rel) == split;
        assert split[..|split| - 1] == front;
        assert Rooted(split) == Rooted(front) + "/" + (last + [c]);
        assert Rooted(parts) == Rooted(front) + "/" + last;
        assert "/" + rel == Rooted(parts) + [c];
      }
    }
  }

  /** The URL path starts with '/', and when no component holds a '/' it
      has exactly one '/' per component. */
  lemma {:induction false} RootedSlashes(components: seq<string>)
    requires forall i :: 0 <= i < |components| ==> '/' !in components[i]
    ensures components != [] ==> |Rooted(components)| >= 1 && Rooted(components)[0] == '/'
    ensures multiset(Rooted(components))['/'] == |components|
  {
    if components != [] {
      var init := components[..|components| - 1];
      var last := components[|components| - 1];
      RootedSlashes(init);
      assert multiset(last)['/'] == 0;
      assert Rooted(components) == Rooted(init) + "/" + last;
      if init != [] {
        assert Rooted(components)[0] == Rooted(init)[0];
      }
    }
  }

  /** A text without '/' splits into itself alone. */
  lemma {:induction false} SplitWithoutSlash(s: string)
    requires '/' !in s
    ensures Split(s) == [s]
  {
    if s != [] {
      SplitWithoutSlash(s[..|s| - 1]);
      assert s[..|s| - 1] + [s[|s| - 1]] == s;
    }
  }

  /** Splitting `a/b` gives the pieces of `a` followed by those of `b`. */
  lemma {:induction false} SplitAtSlash(a: string, b: string)
    ensures Split(a + "/" + b) == Split(a) + Split(b)
  {
    if b == [] {
      SplitSnoc(a, '/');
      assert a + "/" + b == a + ['/'];
    } else {
      var init := b[..|b| - 1];
      var c := b[|b| - 1];
      var whole := a + "/" + b;
      SplitAtSlash(a, init);
      assert whole[..|whole| - 1] == a + "/" + init && whole[|whole| - 1] == c;
      SplitLast(whole);
      SplitLast(b);
      SnocLast(Split(a), Split(init), c);
    }
  }

  /** `Split` read from the end: one more character either starts a new
      piece (a '/') or extends the last one. */
  lemma SplitSnoc(s: string, c: char)
    ensures Split(s + [c]) == Extend(Split(s), c)
  {
    assert (s + [c])[..|s|] == s;
  }

  /** One more character on the parts of a text: a '/' opens a new empty
      piece, anything else extends the last piece. */
  function Extend(parts: seq<string>, c: char): seq<string>
    requires |parts| >= 1
  {
    if c == '/' then parts + [""] else parts[..|parts| - 1] + [parts[|parts| - 1] + [c]]
  }

  /** `Split` unfolded once on a non-empty text. */
  lemma SplitLast(s: string)
    requires s != []
    ensures Split(s) == Extend(Split(s[..|s| - 1]), s[|s| - 1])
  {
  }

  lemma SnocLast(front: seq<string>, back: seq<string>, c: char)
    requires |back| >= 1
    ensures Extend(front + back, c) == front + Extend(back, c)
  {
    var joined := front + back;
    assert joined[..|joined| - 1] == front + back[..|back| - 1];
  }

  /** Three pieces without '/', joined by '/', split back into those three,
      and the URL path puts a '/' before each. */
  lemma SplitThree(x: string, y: string, z: string)
    requires '/' !in x && '/' !in y && '/' !in z
    ensures Split(x + "/" + y + "/" + z) == [x, y, z]
    ensures Rooted([x, y, z]) == "/" + x + "/" + y + "/" + z
  {
    var xy := x + "/" + y;
    SplitWithoutSlash(x);
    SplitWithoutSlash(y);
    SplitWithoutSlash(z);
    SplitAtSlash(x, y);
    SplitAtSlash(xy, z);
    RootedThree(x, y, z);
  }

  lemma RootedThree(x: string, y: string, z: string)
    ensures Rooted([x, y, z]) == "/" + x + "/" + y + "/" + z
  {
    assert Rooted([x]) == "/" + x by { assert [x][..0] == []; }
    assert Rooted([x, y]) == Rooted([x]) + "/" + y by { assert [x, y][..1] == [x]; }
    assert Rooted([x, y, z]) == Rooted([x, y]) + "/" + z by { assert [x, y, z][..2] == [x, y]; }
  }

  lemma DigitsHaveNoSlash(s: string)
    requires AllDigits(s)
    ensures '/' !in s
  {
  }

  /** The day key and the stored name hold no '/'. */
  lemma StoredNamesHaveNoSlash(year: nat, month: nat, day: nat, timestamp: nat, original: string)
    requires '/' !in original
    ensures '/' !in DayFormat(year, month, day)
    ensures '/' !in StoredFileName(timestamp, original)
  {
    DigitsHaveNoSlash(Show(year));
    DigitsHaveNoSlash(Pad2(month));
    DigitsHaveNoSlash(Pad2(day));
    DigitsHaveNoSlash(Show(timestamp));
  }

  /** The URL path of a file stored under `upload/{folder}/{key}`. */
  lemma StoredUnderDayFolder(folder: string, key: string, stored: string)
    requires '/' !in folder && '/' !in key && '/' !in stored
    ensures var p := "upload/" + folder + "/" + key + "/" + stored;
      && |p| >= 7 && p[..7] == "upload/"
      && Split(RelativeToUpload(p)) == [folder, key, stored]
      && Rooted(Split(RelativeToUpload(p))) == "/" + folder + "/" + key + "/" + stored
  {
    var p := "upload/" + folder + "/" + key + "/" + stored;
    var rel := folder + "/" + key + "/" + stored;
    assert p == "upload/" + rel;
    assert RelativeToUpload(p) == rel;
    SplitThree(folder, key, stored);
  }

  /** For a stored image whose original name has no '/', the components are
      `attachedImage`, the day key and the stored name, and the URL path is
      those three, each after a '/'. */
  lemma UploadedImagePath(year: nat, month: nat, day: nat, timestamp: nat, original: string)
    requires '/' !in original
    ensures var p := StoredPath(year, month, day, timestamp, original);
      && |p| >= 7 && p[..7] == "upload/"
      && Split(RelativeToUpload(p)) == [AttachedImage, DayFormat(year, month, day), StoredFileName(timestamp, original)]
      && Rooted(Split(RelativeToUpload(p)))
           == "/" + AttachedImage + "/" + DayFormat(year, month, day) + "/" + StoredFileName(timestamp, original)
  {
    StoredNamesHaveNoSlash(year, month, day, timestamp, original);
    StoredUnderDayFolder(AttachedImage, DayFormat(year, month, day), StoredFileName(timestamp, original));
  }

  datatype ImageReply =
    | NotAttached             // 409 { error: 'PHOTO IS NOT ATTACHED', code: 1 }
    | ImageUploaded(imgPath: string)   // 200 { imgPath, success: true }
    | ImageServerError        // 500 { error: 'internal server error', code: 0 }

  /** POST `/`. `file` is `req.file.path` (`None` when no file came with
      the form) and `resized` whether resizing the stored image succeeds.
      Returns the paths handed to the resizer and the reply. */
  method UploadImage(file: Option<string>, resized: bool) returns (resizing: seq<string>, reply: ImageReply)
    requires file.Some? ==> |file.value| >= 7 && file.value[..7] == "upload/"
    ensures file.None? ==> resizing == [] && reply == NotAttached
    ensures file.Some? ==> resizing == [file.value]
    ensures file.Some? && !resized ==> reply == ImageServerError
    ensures file.Some? && resized ==> reply == ImageUploaded("/" + RelativeToUpload(file.value))
  {
    if file.None? {
      resizing, reply := [], NotAttached;
      return;
    }
    resizing := [file.value];
    if !resized {
      reply := ImageServerError;
      return;
    }
    var rel := RelativeToUpload(file.value);
    var imgPath := ImgPath(Split(rel));
    RootedSplit(rel);
    reply := ImageUploaded(imgPath);
  }
}
