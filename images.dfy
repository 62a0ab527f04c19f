/**
 * The boundary with the image library. An image is known by its file name,
 * its declared format and its size; the pixel work (Pillow, rembg) is a
 * black box that the model only names: each editor hands it one `PixelCall`
 * and the environment says whether that call completes or raises.
 */
module Images {
  import opened Wrappers
  import opened PyText
  import opened JsonValues
  import opened FileHandling

  /** A decoded image: `img.filename`, `img.format` and `img.size`. */
  datatype Image = Image(filename: string, format: string, width: nat, height: nat)

  /** How the opaque pixel call (and the save that follows it) ends. */
  datatype BackendOutcome = Completes | RaisesValueOrTypeError | RaisesOtherError

  /** What the editors read from outside: the working directory and the backend's behaviour. */
  datatype Env = Env(cwd: string, backend: BackendOutcome)

  /** The `Image.FLIP_*` constants used by `transpose`. */
  datatype Transposition = FlipLeftRight | FlipTopBottom

  /** The `ImageFilter` kernels. */
  datatype Kernel =
    | Blur | Contour | Detail | EdgeEnhance | EdgeEnhanceMore
    | Emboss | FindEdges | Sharpen | Smooth | SmoothMore

  /** The `ImageEnhance` classes. */
  datatype Enhancer = Brightness | Contrast | Color | Sharpness

  datatype EnhanceStep = EnhanceStep(enhancer: Enhancer, factor: Json)

  /** The single library operation an editor performs. */
  datatype PixelCall =
    | ResizeTo(width: Json, height: Json)
    | CropBox(left: int, upper: int, right: int, lower: int)
    | RotateBy(angle: int)
    | TransposeBy(transposition: Transposition)
    | FilterWith(kernel: Kernel)
    | EnhanceChain(steps: seq<EnhanceStep>)   // each step applied to the previous step's result
    | ConvertToMode(mode: string)
    | RemoveBackground
    | SaveAndReopen                           // save under the target extension, open the saved file

  /**
   * An edited image: the call that produced it, the file it was saved to and
   * the `format` tag the editor set on it (`None` when the editor leaves the
   * library's own value).
   */
  datatype Artifact = Artifact(call: PixelCall, savedAs: string, format: Option<string>)

  /** `os.path.join(getcwd(), "temp")`. */
  function TempFolder(cwd: string): (r: string)
    ensures r != "" && r[|r| - 1] != '/'
  {
    PathJoin(cwd, "temp")
  }

  /**
   * The file every editor saves its result to: the input's stem and
   * extension under the temp folder.
   */
  function StagingPath(cwd: string, img: Image): string {
    NewImageFilename(TempFolder(cwd), PureFilename(img.filename), ImageExtension(img.filename))
  }

  /**
   * `ext.upper()[1:]`, with "JPG" renamed "JPEG": the `format` tag the
   * resizer and the cropper give their result.
   */
  function FormatTag(ext: string): (r: string)
    ensures r != "JPG"
    ensures forall i :: 0 <= i < |r| ==> !('a' <= r[i] <= 'z')
  {
    var upper := Upper(ext);
    var tag := if |upper| >= 1 then upper[1..] else "";
    if tag == "JPG" then "JPEG" else tag
  }

  /** The tag is the upper-cased extension without its dot, JPG becoming JPEG. */
  lemma FormatTagOfExtension(name: string)
    ensures FormatTag("." + name) == if Upper(name) == "JPG" then "JPEG" else Upper(name)
  {
    CaseOfConcat(".", name);
    assert Upper(".") == ".";
    assert (Upper(".") + Upper(name))[1..] == Upper(name);
  }

  /**
   * The staged file is in the temp folder and splits back into the input's
   * stem and its lower-cased extension.
   */
  lemma StagingPathKeepsStemAndExtension(cwd: string, img: Image)
    requires ImageExtension(img.filename) != ""
    ensures StagingPath(cwd, img)
         == TempFolder(cwd) + "/" + (PureFilename(img.filename) + Lower(ImageExtension(img.filename)))
    ensures SplitExt(Basename(StagingPath(cwd, img)))
         == (PureFilename(img.filename), Lower(ImageExtension(img.filename)))
  {
    StagingPathShape(cwd, img);
    StagingBasename(cwd, img);
    StagedNameSplits(img.filename);
  }

  /** The staged file lies directly in the temp folder, named by the stem and the lower-cased extension. */
  lemma StagingPathShape(cwd: string, img: Image)
    requires ImageExtension(img.filename) != ""
    ensures StagingPath(cwd, img)
         == TempFolder(cwd) + "/" + (PureFilename(img.filename) + Lower(ImageExtension(img.filename)))
  {
    var folder, stem, ext := TempFolder(cwd), PureFilename(img.filename), ImageExtension(img.filename);
    assert NewBasename(stem, ext) == stem + Lower(ext) by {
      BasenameParts(img.filename);
    }
    assert StagingPath(cwd, img) == folder + "/" + NewBasename(stem, ext) by {
      BasenameParts(img.filename);
      NewImageFilenameShape(folder, stem, ext);
    }
  }

  /** The base name of the staged file is the stem followed by the lower-cased extension. */
  lemma StagingBasename(cwd: string, img: Image)
    requires ImageExtension(img.filename) != ""
    ensures Basename(StagingPath(cwd, img)) == PureFilename(img.filename) + Lower(ImageExtension(img.filename))
  {
    var folder, stem, ext := TempFolder(cwd), PureFilename(img.filename), ImageExtension(img.filename);
    assert NewBasename(stem, ext) == stem + Lower(ext) by {
      BasenameParts(img.filename);
    }
    assert Basename(StagingPath(cwd, img)) == NewBasename(stem, ext) by {
      BasenameParts(img.filename);
      NewImageFilenameShape(folder, stem, ext);
    }
  }

  /** A stem followed by its lower-cased extension splits back into the two. */
  lemma StagedNameSplits(filename: string)
    requires ImageExtension(filename) != ""
    ensures SplitExt(PureFilename(filename) + Lower(ImageExtension(filename)))
         == (PureFilename(filename), Lower(ImageExtension(filename)))
  {
    BasenameParts(filename);
    LowerKeepsExtension(ImageExtension(filename));
    SplitExtOfStemAndExtension(PureFilename(filename), Lower(ImageExtension(filename)));
  }
}
