/**
 * image_editors/ImageResizer.py: resizing to a given size, to a given width
 * or height keeping the aspect ratio, and by a percentage. The new size is
 * computed with truncating arithmetic and the result is tagged with the
 * input's extension as a format name.
 */
module ImageResizer {
  import opened Wrappers
  import opened JsonValues
  import opened Errors
  import opened Images
  import opened FileHandling

  const SizeParametersMessage := "Width and height parameters must be positive integers."
  const SizeParameterMessage := "Image size parameter must be an integer."
  const ResizingFailedMessage := "An unknown error occurred while trying to resize the image."

  function InvalidTypeMessage(dimparamType: Json): string {
    "The given image size parameter " + PyStr(dimparamType) + " is invalid."
  }

  /** The artifact of a completed resize to the given size. */
  function Resized(img: Image, width: Json, height: Json, env: Env): Artifact {
    Artifact(ResizeTo(width, height), StagingPath(env.cwd, img), Some(FormatTag(ImageExtension(img.filename))))
  }

  /**
   * `resize(img, width, height)`: the size goes to the library unchecked; a
   * ValueError or TypeError it raises means a bad size, anything else a
   * resizing failure.
   */
  function Resize(img: Image, width: Json, height: Json, env: Env): (r: Result<Artifact, Fault>)
    ensures r.Ok? <==> env.backend == Completes
    ensures r.Ok? ==> r.value.call == ResizeTo(width, height) &&
                      r.value.savedAs == StagingPath(env.cwd, img) &&
                      r.value.format == Some(FormatTag(ImageExtension(img.filename)))
    ensures env.backend == RaisesValueOrTypeError ==>
              r == Err(ImageFault(InvalidImageSizeParameter(SizeParametersMessage)))
    ensures env.backend == RaisesOtherError ==>
              r == Err(ImageFault(ImageResizing(ResizingFailedMessage)))
  {
    match env.backend
    case Completes => Ok(Resized(img, width, height, env))
    case RaisesValueOrTypeError => Err(ImageFault(InvalidImageSizeParameter(SizeParametersMessage)))
    case RaisesOtherError => Err(ImageFault(ImageResizing(ResizingFailedMessage)))
  }

  /** The size parameter checks shared by the keep-ratio and percentage resizes. */
  function PositiveSizeParameter(v: Json): (r: Result<nat, Fault>)
    ensures r.Ok? <==> IntValue(v).Some? && IntValue(v).value > 0
    ensures r.Ok? ==> r.value == IntValue(v).value
    ensures r.Err? ==> r.error == ImageFault(InvalidImageSizeParameter(SizeParameterMessage))
  {
    match IntValue(v)
    case None => Err(ImageFault(InvalidImageSizeParameter(SizeParameterMessage)))
    case Some(n) =>
      if n <= 0 then Err(ImageFault(InvalidImageSizeParameter(SizeParameterMessage)))
      else Ok(n)
  }

  /** Hands a computed size to the library; any failure is a resizing failure. */
  function ResizeComputed(img: Image, width: int, height: int, env: Env): (r: Result<Artifact, Fault>)
    ensures r.Ok? <==> env.backend == Completes
    ensures r.Ok? ==> r.value.call == ResizeTo(JInt(width), JInt(height)) &&
                      r.value.savedAs == StagingPath(env.cwd, img) &&
                      r.value.format == Some(FormatTag(ImageExtension(img.filename)))
    ensures r.Err? ==> r.error == ImageFault(ImageResizing(ResizingFailedMessage))
  {
    if env.backend == Completes then Ok(Resized(img, JInt(width), JInt(height), env))
    else Err(ImageFault(ImageResizing(ResizingFailedMessage)))
  }

  /**
   * `resize_keep_ratio(img, dimparam, dimparam_type="w")`: `dimparamType`
   * is `None` when the argument is omitted. "w" fixes the width, "h" the
   * height; the other side is scaled and truncated. A zero side of the
   * input makes the division raise ZeroDivisionError.
   */
  function ResizeKeepRatio(img: Image, dimparam: Json, dimparamType: Option<Json>, env: Env): (r: Result<Artifact, Fault>)
    ensures !(IntValue(dimparam).Some? && IntValue(dimparam).value > 0) ==>
              r == Err(ImageFault(InvalidImageSizeParameter(SizeParameterMessage)))
    ensures var flag := if dimparamType.Some? then dimparamType.value else JStr("w");
            var sized := IntValue(dimparam).Some? && IntValue(dimparam).value > 0;
            var divisible := (flag == JStr("w") && img.width > 0) || (flag == JStr("h") && img.height > 0);
            (r.Ok? <==> sized && divisible && env.backend == Completes) &&
            (sized && divisible && env.backend != Completes ==>
               r == Err(ImageFault(ImageResizing(ResizingFailedMessage)))) &&
            (sized && ((flag == JStr("w") && img.width == 0) || (flag == JStr("h") && img.height == 0)) ==>
               r == Err(OtherFault))
    ensures r.Ok? ==> r.value.call.ResizeTo? &&
                      r.value.savedAs == StagingPath(env.cwd, img) &&
                      r.value.format == Some(FormatTag(ImageExtension(img.filename)))
  {
    var flag := if dimparamType.Some? then dimparamType.value else JStr("w");
    var d :- PositiveSizeParameter(dimparam);
    if flag == JStr("w") then
      if img.width == 0 then Err(OtherFault)
      else ResizeComputed(img, d, (img.height * d) / img.width, env)
    else if flag == JStr("h") then
      if img.height == 0 then Err(OtherFault)
      else ResizeComputed(img, (img.width * d) / img.height, d, env)
    else Err(ImageFault(InvalidImageSizeParameterType(InvalidTypeMessage(flag))))
  }

  /**
   * `resize_by_percentage(img, percentage)`: each side scaled by the
   * percentage and truncated on its own.
   */
  function ResizeByPercentage(img: Image, percentage: Json, env: Env): (r: Result<Artifact, Fault>)
    ensures !(IntValue(percentage).Some? && IntValue(percentage).value > 0) ==>
              r == Err(ImageFault(InvalidImageSizeParameter(SizeParameterMessage)))
    ensures IntValue(percentage).Some? && IntValue(percentage).value > 0 ==>
              (r.Ok? <==> env.backend == Completes) &&
              (r.Err? ==> r.error == ImageFault(ImageResizing(ResizingFailedMessage)))
    ensures r.Ok? ==> r.value.call.ResizeTo? &&
                      r.value.savedAs == StagingPath(env.cwd, img) &&
                      r.value.format == Some(FormatTag(ImageExtension(img.filename)))
  {
    var p :- PositiveSizeParameter(percentage);
    ResizeComputed(img, (img.width * p) / 100, (img.height * p) / 100, env)
  }

  /** `n` is `a * b / c` truncated: the largest whole number of `c`s in `a * b`. */
  predicate IsTruncatedRatio(n: int, a: nat, b: nat, c: nat)
    requires c > 0
  {
    n * c <= a * b < (n + 1) * c
  }

  /** Truncation bounds for the division the resizer performs. */
  lemma TruncatedDivision(x: nat, c: nat)
    requires c > 0
    ensures (x / c) * c <= x < (x / c + 1) * c
  {
  }

  /** The quotient the resizer computes is the truncated ratio. */
  lemma TruncatedRatio(a: nat, b: nat, c: nat)
    requires c > 0
    ensures IsTruncatedRatio((a * b) / c, a, b, c)
  {
    TruncatedDivision(a * b, c);
  }

  /**
   * Keeping the width (the default): the new width is `dimparam` and the new
   * height is `height * dimparam / width`, truncated.
   */
  lemma KeepWidthSize(img: Image, d: nat, flag: Option<Json>, env: Env)
    requires d > 0 && img.width > 0 && env.backend == Completes
    requires flag.None? || flag == Some(JStr("w"))
    ensures var r := ResizeKeepRatio(img, JInt(d), flag, env);
            r.Ok? && r.value.call.width == JInt(d) && r.value.call.height.JInt? &&
            IsTruncatedRatio(r.value.call.height.i, img.height, d, img.width)
  {
    var h := (img.height * d) / img.width;
    TruncatedRatio(img.height, d, img.width);
    assert ResizeKeepRatio(img, JInt(d), flag, env).value.call == ResizeTo(JInt(d), JInt(h));
  }

  /** Keeping the height: the mirror image of keeping the width. */
  lemma KeepHeightSize(img: Image, d: nat, env: Env)
    requires d > 0 && img.height > 0 && env.backend == Completes
    ensures var r := ResizeKeepRatio(img, JInt(d), Some(JStr("h")), env);
            r.Ok? && r.value.call.height == JInt(d) && r.value.call.width.JInt? &&
            IsTruncatedRatio(r.value.call.width.i, img.width, d, img.height)
  {
    var w := (img.width * d) / img.height;
    TruncatedRatio(img.width, d, img.height);
    assert ResizeKeepRatio(img, JInt(d), Some(JStr("h")), env).value.call == ResizeTo(JInt(w), JInt(d));
  }

  /**
   * The flag is looked at only once the parameter is a positive integer;
   * a flag other than "w" and "h" is an invalid size parameter type.
   */
  lemma KeepRatioUnknownFlag(img: Image, dimparam: Json, flag: Json, env: Env)
    requires IntValue(dimparam).Some? && IntValue(dimparam).value > 0
    requires flag != JStr("w") && flag != JStr("h")
    ensures ResizeKeepRatio(img, dimparam, Some(flag), env) ==
            Err(ImageFault(InvalidImageSizeParameterType(InvalidTypeMessage(flag))))
  {
  }

  /** Each side is scaled by the percentage and truncated independently. */
  lemma PercentageSize(img: Image, p: nat, env: Env)
    requires p > 0 && env.backend == Completes
    ensures var r := ResizeByPercentage(img, JInt(p), env);
            r.Ok? && r.value.call.width.JInt? && r.value.call.height.JInt? &&
            IsTruncatedRatio(r.value.call.width.i, img.width, p, 100) &&
            IsTruncatedRatio(r.value.call.height.i, img.height, p, 100)
  {
    TruncatedRatio(img.width, p, 100);
    TruncatedRatio(img.height, p, 100);
  }

  /** Every resize tags its result with the upper-cased extension, JPG read as JPEG. */
  lemma ResizedFormatTag(img: Image, name: string, width: Json, height: Json, env: Env)
    requires ImageExtension(img.filename) == "." + name
    ensures Resized(img, width, height, env).format
         == Some(if PyText.Upper(name) == "JPG" then "JPEG" else PyText.Upper(name))
  {
    FormatTagOfExtension(name);
  }

  /** Worked example: 400x200 resized to height 100 keeping the ratio gives 200x100. */
  lemma KeepRatioExample(img: Image, env: Env)
    requires img.width == 400 && img.height == 200 && env.backend == Completes
    ensures ResizeKeepRatio(img, JInt(100), Some(JStr("h")), env).value.call == ResizeTo(JInt(200), JInt(100))
  {
    assert (img.width * 100) / img.height == 200;
  }

  /** Worked example: 50% of a 300 x 200 image is 150 x 100. */
  lemma HalfSizeExample(img: Image, env: Env)
    requires img.width == 300 && img.height == 200 && env.backend == Completes
    ensures ResizeByPercentage(img, JInt(50), env).value.call == ResizeTo(JInt(150), JInt(100))
  {
    assert (img.width * 50) / 100 == 150 && (img.height * 50) / 100 == 100;
  }

  /** Worked example: 33% of a 300 x 200 image truncates to 99 x 66. */
  lemma ThirdSizeExample(img: Image, env: Env)
    requires img.width == 300 && img.height == 200 && env.backend == Completes
    ensures ResizeByPercentage(img, JInt(33), env).value.call == ResizeTo(JInt(99), JInt(66))
  {
    assert (img.width * 33) / 100 == 99 && (img.height * 33) / 100 == 66;
  }
}
