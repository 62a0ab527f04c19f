/**
 * image_editors/ImageCropper.py: cropping to the box (x1, y1, x2, y2) after
 * a fixed sequence of coordinate checks.
 */
module ImageCropper {
  import opened Wrappers
  import opened JsonValues
  import opened Errors
  import opened Images
  import opened FileHandling

  const CoordinateTypeMessage := "Coordinates must be integers."
  const NegativeCoordinateMessage := "Coordinates must be positive integers."
  const RightNotGreaterMessage := "Right coordinate must be greater than left coordinate."
  const BottomNotGreaterMessage := "Bottom coordinate must be greater than top coordinate."
  const OutOfBoundsMessage := "The coordinates of the bottom-right point are out of bounds."
  const CroppingFailedMessage := "An unknown error occurred while trying to crop the image."

  /**
   * `get_bottom_right_coors(img)`: the coordinates of the last pixel,
   * `(width - 1, height - 1)`; a coordinate at most these is inside the image.
   */
  function GetBottomRightCoors(img: Image): (r: (int, int))
    ensures r.0 < img.width && r.1 < img.height
    ensures r.0 + 1 >= img.width && r.1 + 1 >= img.height
  {
    (img.width - 1, img.height - 1)
  }

  /** `crop_img(img, x1, y1, x2, y2)`. */
  function CropImg(img: Image, x1: Json, y1: Json, x2: Json, y2: Json, env: Env): (r: Result<Artifact, Fault>)
    ensures r.Ok? ==>
              r.value.call.CropBox? &&
              0 <= r.value.call.left < r.value.call.right < img.width &&
              0 <= r.value.call.upper < r.value.call.lower < img.height
    ensures r.Ok? ==>
              AllInts(x1, y1, x2, y2) &&
              r.value.call == CropBox(IntValue(x1).value, IntValue(y1).value, IntValue(x2).value, IntValue(y2).value) &&
              r.value.format == Some(FormatTag(ImageExtension(img.filename)))
  {
    if IntValue(x1).None? || IntValue(y1).None? || IntValue(x2).None? || IntValue(y2).None? then
      Err(ImageFault(InvalidCoordinateType(CoordinateTypeMessage)))
    else
      var left, upper, right, lower := IntValue(x1).value, IntValue(y1).value, IntValue(x2).value, IntValue(y2).value;
      if !(left >= 0 && upper >= 0 && right >= 0 && lower >= 0) then
        Err(ImageFault(InvalidCoordinate(NegativeCoordinateMessage)))
      else if !(right > left) then
        Err(ImageFault(InvalidCoordinate(RightNotGreaterMessage)))
      else if !(lower > upper) then
        Err(ImageFault(InvalidCoordinate(BottomNotGreaterMessage)))
      else
        var (rightLimit, bottomLimit) := GetBottomRightCoors(img);
        if !(right <= rightLimit && lower <= bottomLimit) then
          Err(ImageFault(InvalidCoordinate(OutOfBoundsMessage)))
        else if env.backend != Completes then
          Err(ImageFault(ImageCropping(CroppingFailedMessage)))
        else
          Ok(Artifact(CropBox(left, upper, right, lower), StagingPath(env.cwd, img),
                      Some(FormatTag(ImageExtension(img.filename)))))
  }

  /** The coordinates seen as integers, when all four are. */
  predicate AllInts(x1: Json, y1: Json, x2: Json, y2: Json) {
    IntValue(x1).Some? && IntValue(y1).Some? && IntValue(x2).Some? && IntValue(y2).Some?
  }

  /** A coordinate that is not an integer is reported first, whatever the others are. */
  lemma CoordinateTypeCheckedFirst(img: Image, x1: Json, y1: Json, x2: Json, y2: Json, env: Env)
    requires !AllInts(x1, y1, x2, y2)
    ensures CropImg(img, x1, y1, x2, y2, env) == Err(ImageFault(InvalidCoordinateType(CoordinateTypeMessage)))
  {
  }

  /**
   * The crop succeeds exactly when all coordinates are non-negative
   * integers, the box is non-empty (strictly: x2 > x1, y2 > y1), its
   * bottom-right corner is at most the last pixel, and the library
   * completes; every refusal on the coordinates is an InvalidCoordinate.
   */
  lemma CropSucceedsExactly(img: Image, x1: int, y1: int, x2: int, y2: int, env: Env)
    ensures CropImg(img, JInt(x1), JInt(y1), JInt(x2), JInt(y2), env).Ok? <==>
              0 <= x1 && 0 <= y1 && x2 > x1 && y2 > y1 &&
              x2 <= img.width - 1 && y2 <= img.height - 1 && env.backend == Completes
    ensures !(0 <= x1 && 0 <= y1 && x2 > x1 && y2 > y1 && x2 <= img.width - 1 && y2 <= img.height - 1) ==>
              var r := CropImg(img, JInt(x1), JInt(y1), JInt(x2), JInt(y2), env);
              r.Err? && r.error.ImageFault? && r.error.error.InvalidCoordinate?
    ensures (0 <= x1 && 0 <= y1 && x2 > x1 && y2 > y1 && x2 <= img.width - 1 && y2 <= img.height - 1 &&
             env.backend != Completes) ==>
              CropImg(img, JInt(x1), JInt(y1), JInt(x2), JInt(y2), env) ==
              Err(ImageFault(ImageCropping(CroppingFailedMessage)))
  {
  }

  /**
   * The coordinate checks run in a fixed order, each with its own message:
   * sign, then x2 > x1, then y2 > y1, then the bottom-right bound.
   */
  lemma CoordinateChecksInOrder(img: Image, x1: int, y1: int, x2: int, y2: int, env: Env)
    ensures var r := CropImg(img, JInt(x1), JInt(y1), JInt(x2), JInt(y2), env);
            (x1 < 0 || y1 < 0 || x2 < 0 || y2 < 0 ==>
               r == Err(ImageFault(InvalidCoordinate(NegativeCoordinateMessage)))) &&
            (0 <= x1 && 0 <= y1 && 0 <= x2 && 0 <= y2 && x2 <= x1 ==>
               r == Err(ImageFault(InvalidCoordinate(RightNotGreaterMessage)))) &&
            (0 <= x1 && 0 <= y1 && x2 > x1 && 0 <= y2 <= y1 ==>
               r == Err(ImageFault(InvalidCoordinate(BottomNotGreaterMessage)))) &&
            (0 <= x1 && 0 <= y1 && x2 > x1 && y2 > y1 && (x2 > img.width - 1 || y2 > img.height - 1) ==>
               r == Err(ImageFault(InvalidCoordinate(OutOfBoundsMessage))))
  {
  }

  /**
   * Because the bound is the last pixel and the box excludes its right and
   * bottom edges, a crop never keeps the last column nor the last row.
   */
  lemma CropNeverKeepsLastColumnOrRow(img: Image, x1: Json, y1: Json, x2: Json, y2: Json, env: Env)
    ensures var r := CropImg(img, x1, y1, x2, y2, env);
            r.Ok? ==> r.value.call.right - r.value.call.left < img.width &&
                      r.value.call.lower - r.value.call.upper < img.height &&
                      r.value.call.right <= img.width - 1 && r.value.call.lower <= img.height - 1
  {
  }

  /** Worked example: in a 640x480 image the box (0, 0, 639, 479) passes, x2 = 640 does not. */
  lemma CropExamples(img: Image, env: Env)
    requires img.width == 640 && img.height == 480 && env.backend == Completes
    ensures CropImg(img, JInt(0), JInt(0), JInt(639), JInt(479), env).Ok?
    ensures CropImg(img, JInt(0), JInt(0), JInt(640), JInt(479), env) ==
            Err(ImageFault(InvalidCoordinate(OutOfBoundsMessage)))
  {
  }
}
