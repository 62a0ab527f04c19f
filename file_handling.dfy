/**
 * image_editors/helpers/file_handling.py: the stem and extension of an
 * image's file name and the name of the file an edited image is saved to,
 * over the POSIX path functions they use (`os.path.basename`,
 * `os.path.splitext`, `os.path.join`).
 */
module FileHandling {
  import opened PyText

  /** `s.rfind(c)`: the index of the last `c` in `s`, or -1. */
  function RFind(s: string, c: char): (r: int)
    ensures -1 <= r < |s|
    ensures r >= 0 ==> s[r] == c
    ensures forall j :: r < j < |s| ==> s[j] != c
  {
    if |s| == 0 then -1
    else if s[|s| - 1] == c then |s| - 1
    else RFind(s[..|s| - 1], c)
  }

  /** `os.path.basename(p)`: what follows the last '/'. */
  function Basename(p: string): (r: string)
    ensures '/' !in r
    ensures exists k :: 0 <= k <= |p| && p == p[..k] + r
  {
    var k := RFind(p, '/') + 1;
    assert p == p[..k] + p[k..];
    p[k..]
  }

  /**
   * The base name is the whole path or starts just after a '/', and
   * having no '/' itself, it starts after the last one.
   */
  lemma BasenameFollowsLastSlash(p: string)
    ensures var r := Basename(p);
            |r| <= |p| && p == p[..|p| - |r|] + r && (|r| == |p| || p[|p| - |r| - 1] == '/')
  {
    var k := RFind(p, '/') + 1;
    assert Basename(p) == p[k..];
  }

  /**
   * `os.path.splitext(p)`: the extension is the part from the last '.' of
   * the last path component, unless that component is only dots before it
   * (so ".png" has no extension).
   */
  function SplitExt(p: string): (r: (string, string))
    ensures r.0 + r.1 == p
    ensures r.1 == "" || r.1[0] == '.'
    ensures forall i :: 0 < i < |r.1| ==> r.1[i] != '.' && r.1[i] != '/'
    ensures r.1 != "" ==> exists i :: 0 <= i < |r.0| && r.0[i] != '.'
  {
    var sep := RFind(p, '/');
    var dot := RFind(p, '.');
    if dot > sep && exists i :: sep + 1 <= i < dot && p[i] != '.' then
      assert p[..dot] + p[dot..] == p;
      (p[..dot], p[dot..])
    else
      (p, "")
  }

  /** `os.path.join(a, b)` for two components. */
  function PathJoin(a: string, b: string): (r: string)
    ensures |b| > 0 && b[0] == '/' ==> r == b
    ensures (|b| == 0 || b[0] != '/') && a != "" && a[|a| - 1] != '/' ==> r == a + "/" + b
    ensures (|b| == 0 || b[0] != '/') && (a == "" || a[|a| - 1] == '/') ==> r == a + b
  {
    if |b| > 0 && b[0] == '/' then b
    else if a == "" || a[|a| - 1] == '/' then a + b
    else a + "/" + b
  }

  /** `get_pure_filename_from_img`: the file name without folder nor extension. */
  function PureFilename(filename: string): string {
    SplitExt(Basename(filename)).0
  }

  /** `get_image_extension_from_img`: the extension of the file name, dot included. */
  function ImageExtension(filename: string): string {
    SplitExt(Basename(filename)).1
  }

  /** The file name `get_new_image_filename` puts inside the folder. */
  function NewBasename(filename: string, extension: string): string {
    if |extension| > 0 && extension[0] == '.' then filename + Lower(extension)
    else filename + "." + Lower(extension)
  }

  /** `get_new_image_filename(folder, filename, extension)`. */
  function NewImageFilename(folder: string, filename: string, extension: string): (r: string)
    ensures |r| >= |NewBasename(filename, extension)|
  {
    PathJoin(folder, NewBasename(filename, extension))
  }

  /** The stem and the extension put back together give the base name. */
  lemma StemAndExtensionRebuildBasename(filename: string)
    ensures PureFilename(filename) + ImageExtension(filename) == Basename(filename)
    ensures ImageExtension(filename) == "" || ImageExtension(filename)[0] == '.'
  {
  }

  /**
   * When the search ends at index `k` because `s[k] == c` and no later
   * character is `c`, `rfind` returns `k`.
   */
  lemma RFindIs(s: string, c: char, k: int)
    requires -1 <= k < |s|
    requires k >= 0 ==> s[k] == c
    requires forall j :: k < j < |s| ==> s[j] != c
    ensures RFind(s, c) == k
  {
  }

  /**
   * `splitext` inverts the concatenation of a stem with an extension: a stem
   * without '/' that is not only dots, and an extension that is a dot
   * followed by neither '.' nor '/'.
   */
  lemma SplitExtOfStemAndExtension(stem: string, ext: string)
    requires '/' !in stem
    requires exists i :: 0 <= i < |stem| && stem[i] != '.'
    requires IsExtension(ext)
    ensures SplitExt(stem + ext) == (stem, ext)
  {
    var p := stem + ext;
    RFindIs(p, '.', |stem|);
    forall j | -1 < j < |p| ensures p[j] != '/' {
      if j < |stem| {
        assert p[j] == stem[j];
      } else {
        assert p[j] == ext[j - |stem|];
      }
    }
    RFindIs(p, '/', -1);
    var i :| 0 <= i < |stem| && stem[i] != '.';
    assert p[i] != '.';
    assert p[..|stem|] == stem && p[|stem|..] == ext;
  }

  /** An extension as `splitext` returns it: a dot followed by neither '.' nor '/'. */
  predicate IsExtension(ext: string) {
    |ext| > 0 && ext[0] == '.' && forall i :: 0 < i < |ext| ==> ext[i] != '.' && ext[i] != '/'
  }

  /** The parts of a base name hold no '/', and a non-empty extension has its shape. */
  lemma BasenameParts(filename: string)
    ensures '/' !in PureFilename(filename) && '/' !in ImageExtension(filename)
    ensures ImageExtension(filename) != "" ==> IsExtension(ImageExtension(filename))
    ensures ImageExtension(filename) != "" ==>
              exists i :: 0 <= i < |PureFilename(filename)| && PureFilename(filename)[i] != '.'
  {
    var base := Basename(filename);
    var stem, ext := PureFilename(filename), ImageExtension(filename);
    assert stem + ext == base;
    assert forall i :: 0 <= i < |stem| ==> stem[i] == base[i];
    assert forall i :: 0 <= i < |ext| ==> ext[i] == base[|stem| + i];
  }

  /** Lower-casing keeps the shape of an extension. */
  lemma LowerKeepsExtension(ext: string)
    requires IsExtension(ext)
    ensures IsExtension(Lower(ext)) && '/' !in Lower(ext)
  {
    var lowered := Lower(ext);
    forall i | 0 < i < |lowered| ensures lowered[i] != '.' && lowered[i] != '/' {
      assert lowered[i] == LowerChar(ext[i]);
    }
    assert '/' !in ext by {
      assert forall i :: 0 <= i < |ext| ==> ext[i] != '/';
    }
    CaseKeepsNonLetter(ext, '/');
  }

  /**
   * The new file lies directly in the folder, under the given stem and the
   * lower-cased extension, a dot being inserted when the extension has none.
   */
  lemma NewImageFilenameShape(folder: string, filename: string, extension: string)
    requires folder != "" && folder[|folder| - 1] != '/'
    requires '/' !in filename && '/' !in extension
    ensures NewImageFilename(folder, filename, extension) == folder + "/" + NewBasename(filename, extension)
    ensures Basename(NewImageFilename(folder, filename, extension)) == NewBasename(filename, extension)
    ensures |extension| > 0 && extension[0] == '.' ==> NewBasename(filename, extension) == filename + Lower(extension)
    ensures (|extension| == 0 || extension[0] != '.') ==> NewBasename(filename, extension) == filename + "." + Lower(extension)
  {
    var name := NewBasename(filename, extension);
    CaseKeepsNonLetter(extension, '/');
    assert '/' !in name;
    if |name| > 0 {
      assert name[0] != '/';
    }
    var r := folder + "/" + name;
    RFindIs(r, '/', |folder|);
    assert r[|folder| + 1..] == name;
  }
}
