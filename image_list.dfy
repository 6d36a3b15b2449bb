/** The browser's image list: which entries of a directory listing are shown
    as photos, and the paths they are opened by (`load_folder`). */
module ImageList {

  /** The suffixes a lower-cased file name must end with to be listed.
      A dot is not part of the test, and `gif` is deliberately absent. */
  const ImageExtensions: seq<string> := ["png", "jpg", "jpeg", "bmp", "heic"]

  /** ASCII lower-casing of one character. */
  function LowerChar(c: char): char {
    if 'A' <= c <= 'Z' then (c as int + 32) as char else c
  }

  /** Lower-cases a name character by character. */
  function Lower(s: string): string {
    seq(|s|, i requires 0 <= i < |s| => LowerChar(s[i]))
  }

  predicate EndsWith(s: string, suffix: string) {
    |suffix| <= |s| && s[|s| - |suffix|..] == suffix
  }

  /** The filter of the listing: the lower-cased name ends with one of the
      image extensions. */
  predicate IsImageName(name: string): (kept: bool)
    ensures kept ==> |name| >= 3 && Lower(name)[|name| - 1] in {'g', 'p', 'c'}
  {
    exists e :: e in ImageExtensions && EndsWith(Lower(name), e)
  }

  /** Joins a folder and a name the way POSIX `os.path.join` does for two
      components: an absolute name replaces the folder, and a separator is
      inserted only when the folder is non-empty and does not already end
      with one. */
  function Join(folder: string, name: string): (path: string)
    ensures EndsWith(path, name)
    ensures |name| > 0 && name[0] == '/' ==> path == name
    ensures !(|name| > 0 && name[0] == '/') ==> |path| >= |folder| && path[..|folder|] == folder
  {
    if |name| > 0 && name[0] == '/' then name
    else if folder == [] || folder[|folder| - 1] == '/' then folder + name
    else folder + "/" + name
  }

  /** What one listing entry contributes to the image list: its joined path
      when it passes the filter, nothing otherwise. */
  function Entry(folder: string, name: string): (paths: seq<string>)
    ensures |paths| <= 1
  {
    if IsImageName(name) then [Join(folder, name)] else []
  }

  /** The image list built from a directory listing: every listed name that
      passes the filter, joined to the folder, in listing order. */
  function ImageFiles(folder: string, listing: seq<string>): (files: seq<string>)
    ensures |files| <= |listing|
  {
    if listing == [] then []
    else Entry(folder, listing[0]) + ImageFiles(folder, listing[1..])
  }

  /** Dropping the head of a non-empty sequence commutes with appending. */
  lemma TailOfAppend<T>(a: seq<T>, b: seq<T>)
    requires a != []
    ensures (a + b)[0] == a[0] && (a + b)[1..] == a[1..] + b
  {
  }

  /** Concatenation is associative. */
  lemma AppendAssociates<T>(a: seq<T>, b: seq<T>, c: seq<T>)
    ensures a + (b + c) == (a + b) + c
  {
  }

  /** Listing order is preserved: the list for a concatenated listing is the
      concatenation of the lists. */
  lemma {:induction false} ImageFilesAppend(folder: string, a: seq<string>, b: seq<string>)
    ensures ImageFiles(folder, a + b) == ImageFiles(folder, a) + ImageFiles(folder, b)
  {
    if a == [] {
      assert a + b == b;
    } else {
      TailOfAppend(a, b);
      ImageFilesAppend(folder, a[1..], b);
      AppendAssociates(Entry(folder, a[0]), ImageFiles(folder, a[1..]), ImageFiles(folder, b));
    }
  }

  /** A single listing entry contributes its joined path exactly when it
      passes the filter. */
  lemma ImageFilesSingle(folder: string, name: string)
    ensures ImageFiles(folder, [name]) == if IsImageName(name) then [Join(folder, name)] else []
  {
    assert [name][1..] == [];
  }

  /** A path is in the image list if and only if it is the join of some
      listed name that passes the filter. */
  lemma {:induction false} ImageFilesMembership(folder: string, listing: seq<string>, path: string)
    ensures path in ImageFiles(folder, listing) <==>
      exists i :: 0 <= i < |listing| && IsImageName(listing[i]) && path == Join(folder, listing[i])
  {
    if listing != [] {
      ImageFilesMembership(folder, listing[1..], path);
      if exists i :: 0 <= i < |listing[1..]| && IsImageName(listing[1..][i]) && path == Join(folder, listing[1..][i]) {
        var i :| 0 <= i < |listing[1..]| && IsImageName(listing[1..][i]) && path == Join(folder, listing[1..][i]);
        assert listing[i + 1] == listing[1..][i];
      }
      if exists i :: 0 <= i < |listing| && IsImageName(listing[i]) && path == Join(folder, listing[i]) {
        var i :| 0 <= i < |listing| && IsImageName(listing[i]) && path == Join(folder, listing[i]);
        if i > 0 {
          assert listing[1..][i - 1] == listing[i];
        }
      }
    }
  }

  /** Lower-casing distributes over concatenation. */
  lemma LowerAppend(a: string, b: string)
    ensures Lower(a + b) == Lower(a) + Lower(b)
  {
  }

  /** Lower-casing twice is lower-casing once. */
  lemma LowerIdempotent(s: string)
    ensures Lower(Lower(s)) == Lower(s)
  {
  }

  /** The filter ignores case: a name passes exactly when its lower-cased
      form does. */
  lemma IsImageNameIgnoresCase(name: string)
    ensures IsImageName(name) <==> IsImageName(Lower(name))
  {
    LowerIdempotent(name);
  }

  /** No dot is required: whatever is written in front of a name that passes
      the filter, the longer name passes it too (so `xpng` is kept). */
  lemma IsImageNameAnyPrefix(prefix: string, name: string)
    requires IsImageName(name)
    ensures IsImageName(prefix + name)
  {
    var e :| e in ImageExtensions && EndsWith(Lower(name), e);
    LowerAppend(prefix, name);
    var l := Lower(prefix + name);
    assert l[|l| - |e|..] == Lower(name)[|Lower(name)| - |e|..];
    assert EndsWith(l, e);
  }

  /** A name whose lower-cased form ends with `gif` is never listed: no image
      extension ends with the letter `f`. */
  lemma GifIsExcluded(name: string)
    requires EndsWith(Lower(name), "gif")
    ensures !IsImageName(name)
  {
    var l := Lower(name);
    assert l[|l| - 1] == 'f' by {
      assert l[|l| - 3..][2] == "gif"[2];
    }
  }

  /** Case is ignored: an upper-case extension is listed. */
  lemma UpperCaseExtensionIsListed()
    ensures IsImageName("IMG.JPG")
  {
    var l := Lower("IMG.JPG");
    assert l[4..] == "jpg";
    assert EndsWith(l, "jpg");
  }

  /** No dot is needed: a bare `xpng` is listed. */
  lemma NameWithoutDotIsListed()
    ensures IsImageName("xpng")
  {
    var l := Lower("xpng");
    assert l[1..] == "png";
    assert EndsWith(l, "png");
  }

  /** A text file is not listed. */
  lemma TextFileIsNotListed()
    ensures !IsImageName("a.txt")
  {
  }
}
