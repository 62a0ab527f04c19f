/**
 * image_editors/ImageConverter.py: the table of allowed file formats, the
 * format tests built on it, and conversion to another allowed format.
 */
module ImageConverter {
  import opened Wrappers
  import opened PyText
  import opened JsonValues
  import opened Errors
  import opened Images
  import opened FileHandling

  /** The keys of `FILE_FORMATS`, in their declaration order. */
  const FileFormatNames: seq<string> := ["BMP", "ICO", "JPG", "PNG"]

  /** `FILE_FORMATS[key]`: the extensions a format name stands for. */
  function FileFormatExtensions(key: string): (r: Option<seq<string>>)
    ensures r.Some? <==> key in FileFormatNames
  {
    if key == "BMP" then Some([".bmp"])
    else if key == "ICO" then Some([".ico"])
    else if key == "JPG" then Some([".jpg", ".jpeg"])
    else if key == "PNG" then Some([".png"])
    else None
  }

  /**
   * `is_img_of_type(img, type)`: the image's declared format, lower-cased
   * and dotted, is one of the extensions of `type.upper()`; an unknown type
   * (the KeyError the `try` swallows) gives false.
   */
  predicate IsImgOfType(format: string, typ: string) {
    var extensions := FileFormatExtensions(Upper(typ));
    extensions.Some? && "." + Lower(format) in extensions.value
  }

  /** `any(...)` over the format names: the image is of at least one allowed type. */
  predicate IsAllowedFormat(format: string) {
    exists i :: 0 <= i < |FileFormatNames| && IsImgOfType(format, FileFormatNames[i])
  }

  /**
   * `is_img_allowed(img)`: one test per format name collected in a list,
   * then whether any of them holds.
   */
  method IsImgAllowed(img: Image) returns (allowed: bool)
    ensures allowed == IsAllowedFormat(img.format)
  {
    var names := FileFormatNames;
    var possibilities: seq<bool> := [];
    var i := 0;
    while i < |names|
      invariant 0 <= i <= |names|
      invariant |possibilities| == i
      invariant forall j :: 0 <= j < i ==> possibilities[j] == IsImgOfType(img.format, names[j])
    {
      possibilities := possibilities + [IsImgOfType(img.format, names[i])];
      i := i + 1;
    }
    allowed := true in possibilities;
  }

  function UnauthorizedInputMessage(format: string): string {
    "Image of type " + Lower(format) + " is unauthorized."
  }

  function UnauthorizedTargetMessage(target: string): string {
    "Cannot convert to " + target + " because it is unauthorized."
  }

  function SameFormatMessage(target: string): string {
    "Cannot convert to " + target + " because input and output image formats are the same."
  }

  function ConversionFailedMessage(target: string): string {
    "An unknown error occurred while trying to convert image to the " + Upper(target) + " format."
  }

  /**
   * `convert(img, output_file_format)`: the image's own format must be
   * allowed, the target must name an allowed format in any case, and the two
   * must differ ignoring case. The converted copy is saved in the temp folder
   * under the input's stem with the target as extension, and tagged with the
   * target exactly as given. `output_file_format.upper()` raises
   * AttributeError on a non-string.
   */
  function Convert(img: Image, target: Json, env: Env): (r: Result<Artifact, Fault>)
    ensures !IsAllowedFormat(img.format) ==>
              r == Err(ImageFault(UnauthorizedImageFormat(UnauthorizedInputMessage(img.format))))
    ensures r.Ok? ==>
              IsAllowedFormat(img.format) && target.JStr? &&
              Upper(target.s) in FileFormatNames && Lower(target.s) != Lower(img.format) &&
              r.value.call == SaveAndReopen && r.value.format == Some(target.s)
  {
    if !IsAllowedFormat(img.format) then
      Err(ImageFault(UnauthorizedImageFormat(UnauthorizedInputMessage(img.format))))
    else if !target.JStr? then Err(AttributeFault)
    else if Upper(target.s) !in FileFormatNames then
      Err(ImageFault(UnauthorizedImageFormat(UnauthorizedTargetMessage(target.s))))
    else if Lower(target.s) == Lower(img.format) then
      Err(ImageFault(SameImageFormat(SameFormatMessage(target.s))))
    else if env.backend != Completes then
      Err(ImageFault(ImageConversion(ConversionFailedMessage(target.s))))
    else
      var converted := NewImageFilename(TempFolder(env.cwd), PureFilename(img.filename), target.s);
      Ok(Artifact(SaveAndReopen, converted, Some(target.s)))
  }

  /** The image is of the type whose extensions hold its lower-cased, dotted format. */
  lemma IsImgOfTypeExactly(format: string, typ: string)
    ensures IsImgOfType(format, typ) <==>
              (Upper(typ) == "BMP" && Lower(format) == "bmp") ||
              (Upper(typ) == "ICO" && Lower(format) == "ico") ||
              (Upper(typ) == "JPG" && (Lower(format) == "jpg" || Lower(format) == "jpeg")) ||
              (Upper(typ) == "PNG" && Lower(format) == "png")
  {
    var low := Lower(format);
    // a dotted name determines the name: drop the dot
    assert ("." + low)[1..] == low;
    assert ".bmp" == "." + "bmp" && ".ico" == "." + "ico" && ".jpg" == "." + "jpg";
    assert ".jpeg" == "." + "jpeg" && ".png" == "." + "png";
  }

  /**
   * The allowed formats are BMP, ICO, JPG (as "jpg" or "jpeg") and PNG,
   * in any case.
   */
  lemma AllowedFormats(format: string)
    ensures IsAllowedFormat(format) <==>
              Lower(format) in ["bmp", "ico", "jpg", "jpeg", "png"]
  {
    AllowedIsOneOfFour(format);
    OneOfFourExactly(format);
  }

  /** `is_img_allowed` tries the four format names. */
  lemma AllowedIsOneOfFour(format: string)
    ensures IsAllowedFormat(format) <==>
              IsImgOfType(format, "BMP") || IsImgOfType(format, "ICO") ||
              IsImgOfType(format, "JPG") || IsImgOfType(format, "PNG")
  {
    AnyOfFourNames(format, FileFormatNames);
  }

  /** The four format tests together accept exactly five lower-case names. */
  lemma OneOfFourExactly(format: string)
    ensures IsImgOfType(format, "BMP") || IsImgOfType(format, "ICO") ||
            IsImgOfType(format, "JPG") || IsImgOfType(format, "PNG") <==>
              Lower(format) in ["bmp", "ico", "jpg", "jpeg", "png"]
  {
    FormatTypesExactly(format);
    EitherOfFive(Lower(format), IsImgOfType(format, "BMP"), IsImgOfType(format, "ICO"),
                 IsImgOfType(format, "JPG"), IsImgOfType(format, "PNG"));
  }

  /** Four tests, each matching its own names, together match the union of the names. */
  lemma EitherOfFive(low: string, bmp: bool, ico: bool, jpg: bool, png: bool)
    requires bmp == (low == "bmp") && ico == (low == "ico")
    requires jpg == (low == "jpg" || low == "jpeg") && png == (low == "png")
    ensures bmp || ico || jpg || png <==> low in ["bmp", "ico", "jpg", "jpeg", "png"]
  {
  }

  /**
   * Each key of the table accepts exactly its own lower-case names:
   * BMP "bmp", ICO "ico", JPG "jpg" and "jpeg", PNG "png".
   */
  lemma FormatTypesExactly(format: string)
    ensures IsImgOfType(format, "BMP") <==> Lower(format) == "bmp"
    ensures IsImgOfType(format, "ICO") <==> Lower(format) == "ico"
    ensures IsImgOfType(format, "JPG") <==> Lower(format) == "jpg" || Lower(format) == "jpeg"
    ensures IsImgOfType(format, "PNG") <==> Lower(format) == "png"
  {
    assert Upper("BMP") == "BMP" && Upper("ICO") == "ICO" && Upper("JPG") == "JPG" && Upper("PNG") == "PNG";
    IsImgOfTypeExactly(format, "BMP");
    IsImgOfTypeExactly(format, "ICO");
    IsImgOfTypeExactly(format, "JPG");
    IsImgOfTypeExactly(format, "PNG");
  }

  /** `any` over four names is the disjunction of the four tests. */
  lemma AnyOfFourNames(format: string, names: seq<string>)
    requires |names| == 4
    ensures (exists i :: 0 <= i < |names| && IsImgOfType(format, names[i])) <==>
              IsImgOfType(format, names[0]) || IsImgOfType(format, names[1]) ||
              IsImgOfType(format, names[2]) || IsImgOfType(format, names[3])
  {
  }

  /** The format names are made of upper-case letters. */
  lemma FormatNamesAreLetters(name: string)
    requires name in FileFormatNames
    ensures |name| == 3 && forall j :: 0 <= j < |name| ==> 'A' <= name[j] <= 'Z'
  {
  }

  /**
   * The checks run in order: the input's format, then the target, then the
   * sameness of the two, then the library.
   */
  lemma ConvertChecksInOrder(img: Image, target: string, env: Env)
    requires IsAllowedFormat(img.format)
    ensures var r := Convert(img, JStr(target), env);
            (Upper(target) !in FileFormatNames ==>
               r == Err(ImageFault(UnauthorizedImageFormat(UnauthorizedTargetMessage(target))))) &&
            (Upper(target) in FileFormatNames && Lower(target) == Lower(img.format) ==>
               r == Err(ImageFault(SameImageFormat(SameFormatMessage(target))))) &&
            (Upper(target) in FileFormatNames && Lower(target) != Lower(img.format) && env.backend != Completes ==>
               r == Err(ImageFault(ImageConversion(ConversionFailedMessage(target)))))
  {
  }

  /**
   * A conversion of a string target succeeds exactly when both formats are
   * allowed, they differ ignoring case and the library completes.
   */
  lemma ConvertSucceedsExactly(img: Image, target: string, env: Env)
    ensures Convert(img, JStr(target), env).Ok? <==>
              IsAllowedFormat(img.format) && Upper(target) in FileFormatNames &&
              Lower(target) != Lower(img.format) && env.backend == Completes
  {
  }

  /**
   * The converted copy is saved directly in the temp folder, as the input's
   * stem, a dot and the lower-cased target.
   */
  lemma ConvertedFileName(img: Image, target: string, env: Env)
    requires Convert(img, JStr(target), env).Ok?
    ensures Convert(img, JStr(target), env).value.savedAs ==
            TempFolder(env.cwd) + "/" + (PureFilename(img.filename) + "." + Lower(target))
  {
    var stem := PureFilename(img.filename);
    assert Convert(img, JStr(target), env).value.savedAs == NewImageFilename(TempFolder(env.cwd), stem, target);
    BasenameParts(img.filename);
    FormatNameShape(target);
    NewImageFilenameShape(TempFolder(env.cwd), stem, target);
  }

  /** A string naming an allowed format is not empty and holds neither a dot nor a slash. */
  lemma FormatNameShape(target: string)
    requires Upper(target) in FileFormatNames
    ensures |target| > 0 && target[0] != '.' && '/' !in target
  {
    var u := Upper(target);
    FormatNamesAreLetters(u);
    forall i | 0 <= i < |target| ensures target[i] != '.' && target[i] != '/' {
      assert UpperChar(target[i]) == u[i];
    }
  }

  /**
   * The same-format test compares the strings ignoring case, not the formats
   * they name: a JPEG image converted to "JPG" is not refused.
   */
  lemma JpegToJpgIsNotSameFormat(img: Image, env: Env)
    requires Lower(img.format) == "jpeg" && env.backend == Completes
    ensures Convert(img, JStr("JPG"), env).Ok?
    ensures Convert(img, JStr("JPG"), env).value.format == Some("JPG")
  {
    FormatTypesExactly(img.format);
    AllowedIsOneOfFour(img.format);
    assert Lower("JPG") == "jpg" && Upper("JPG") == "JPG";
    ConvertSucceedsExactly(img, "JPG", env);
  }

  /** A PNG image converted to "png" is refused as the same format. */
  lemma PngToPngIsSameFormat(img: Image, env: Env)
    requires Lower(img.format) == "png"
    ensures Convert(img, JStr("png"), env) == Err(ImageFault(SameImageFormat(SameFormatMessage("png"))))
  {
    FormatTypesExactly(img.format);
    AllowedIsOneOfFour(img.format);
    assert Lower("png") == "png" && Upper("png") == "PNG";
    ConvertChecksInOrder(img, "png", env);
  }

  /** A PNG image converted to "ico" is tagged "ico". */
  lemma PngToIcoSucceeds(img: Image, env: Env)
    requires Lower(img.format) == "png" && env.backend == Completes
    ensures Convert(img, JStr("ico"), env).Ok?
    ensures Convert(img, JStr("ico"), env).value.format == Some("ico")
  {
    FormatTypesExactly(img.format);
    AllowedIsOneOfFour(img.format);
    assert Lower("ico") == "ico" && Upper("ico") == "ICO";
    ConvertSucceedsExactly(img, "ico", env);
  }
}
