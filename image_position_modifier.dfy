/**
 * image_editors/ImagePositionModifier.py: rotation by a whole number of
 * degrees in a chosen orientation, and horizontal or vertical flipping.
 */
module ImagePositionModifier {
  import opened Wrappers
  import opened PyText
  import opened JsonValues
  import opened Errors
  import opened Images

  /** `VALID_ORIENTATION_PARAMETERS`. */
  const ValidOrientations: seq<string> := ["CLOCKWISE", "ANTI_CLOCKWISE"]

  const DegreeMessage := "The rotation degree must be a positive integer between 0 and 360."
  const RotationFailedMessage := "An unknown error occurred while trying to rotate the image."
  const FlippingFailedMessage := "An unknown error occurred while trying to flip the image."

  /** `VALID_DIRECTIONS`: the transposition an upper-cased direction names. */
  function DirectionOf(name: string): Option<Transposition> {
    if name == "HORIZONTAL" then Some(FlipLeftRight)
    else if name == "VERTICAL" then Some(FlipTopBottom)
    else None
  }

  function Abs(n: int): nat {
    if n < 0 then -n else n
  }

  /**
   * `rotate_img(img, degrees, orientation="ANTI_CLOCKWISE")`: `orientation`
   * is `None` when the argument is omitted. The library turns positive
   * angles anti-clockwise, so a clockwise request negates the degrees.
   * `orientation.upper()` raises AttributeError on a non-string.
   */
  function RotateImg(img: Image, degrees: Json, orientation: Option<Json>, env: Env): (r: Result<Artifact, Fault>)
    ensures r.Ok? ==>
              IntValue(degrees).Some? && 0 <= IntValue(degrees).value <= 360 &&
              r.value.call.RotateBy? && Abs(r.value.call.angle) == IntValue(degrees).value
  {
    var given := if orientation.Some? then orientation.value else JStr("ANTI_CLOCKWISE");
    match IntValue(degrees)
    case None => Err(ImageFault(InvalidRotationDegree(DegreeMessage)))
    case Some(d) =>
      if d < 0 || Abs(d) > 360 then Err(ImageFault(InvalidRotationDegree(DegreeMessage)))
      else if !given.JStr? then Err(AttributeFault)
      else if Upper(given.s) !in ValidOrientations then
        Err(ImageFault(InvalidRotationOrientation(given.s + " is an invalid rotation orientation.")))
      else
        var angle := if Upper(given.s) == "CLOCKWISE" then -d else d;
        if env.backend != Completes then Err(ImageFault(ImagePositionModifying(RotationFailedMessage)))
        else Ok(Artifact(RotateBy(angle), StagingPath(env.cwd, img), None))
  }

  /** `flip_img(img, direction)`: HORIZONTAL or VERTICAL, in any case. */
  function FlipImg(img: Image, direction: Json, env: Env): (r: Result<Artifact, Fault>)
    ensures r.Ok? ==> direction.JStr? && DirectionOf(Upper(direction.s)).Some? &&
                      r.value.call == TransposeBy(DirectionOf(Upper(direction.s)).value)
  {
    if !direction.JStr? then Err(AttributeFault)
    else match DirectionOf(Upper(direction.s))
      case None => Err(ImageFault(InvalidFlippingDirection(direction.s + " is an invalid flipping direction.")))
      case Some(t) =>
        if env.backend != Completes then Err(ImageFault(ImagePositionModifying(FlippingFailedMessage)))
        else Ok(Artifact(TransposeBy(t), StagingPath(env.cwd, img), None))
  }

  /**
   * The degrees are checked before the orientation: a non-integer or a value
   * outside [0, 360] is refused whatever the orientation is, even one that
   * is not a string.
   */
  lemma DegreesCheckedFirst(img: Image, degrees: Json, orientation: Option<Json>, env: Env)
    requires IntValue(degrees).None? || IntValue(degrees).value < 0 || IntValue(degrees).value > 360
    ensures RotateImg(img, degrees, orientation, env) == Err(ImageFault(InvalidRotationDegree(DegreeMessage)))
  {
  }

  /**
   * For degrees in range, the orientation is accepted exactly when its
   * upper-case form is CLOCKWISE or ANTI_CLOCKWISE; the angle handed to the
   * library is the negated degrees for clockwise and the degrees otherwise.
   */
  lemma RotationAngle(img: Image, d: int, orientation: string, env: Env)
    requires 0 <= d <= 360 && env.backend == Completes
    ensures var r := RotateImg(img, JInt(d), Some(JStr(orientation)), env);
            (r.Ok? <==> Upper(orientation) == "CLOCKWISE" || Upper(orientation) == "ANTI_CLOCKWISE") &&
            (Upper(orientation) == "CLOCKWISE" ==> r.value.call == RotateBy(-d)) &&
            (Upper(orientation) == "ANTI_CLOCKWISE" ==> r.value.call == RotateBy(d)) &&
            (r.Err? ==> r == Err(ImageFault(InvalidRotationOrientation(orientation + " is an invalid rotation orientation."))))
  {
    var upper := Upper(orientation);
    ValidRotation(img, d, orientation, env);
    assert upper in ValidOrientations <==> upper == "CLOCKWISE" || upper == "ANTI_CLOCKWISE";
  }

  /** A rotation by a valid number of degrees, with a string orientation, when the library completes. */
  lemma ValidRotation(img: Image, d: int, orientation: string, env: Env)
    requires 0 <= d <= 360 && env.backend == Completes
    ensures RotateImg(img, JInt(d), Some(JStr(orientation)), env) ==
            if Upper(orientation) !in ValidOrientations then
              Err(ImageFault(InvalidRotationOrientation(orientation + " is an invalid rotation orientation.")))
            else
              Ok(Artifact(RotateBy(if Upper(orientation) == "CLOCKWISE" then -d else d), StagingPath(env.cwd, img), None))
  {
  }

  /** Orientation is case-insensitive: spellings with the same upper-case form rotate alike. */
  lemma OrientationIgnoresCase(img: Image, degrees: Json, o1: string, o2: string, env: Env)
    requires Lower(o1) == Lower(o2)
    requires Upper(o1) in ValidOrientations
    ensures RotateImg(img, degrees, Some(JStr(o1)), env) == RotateImg(img, degrees, Some(JStr(o2)), env)
  {
    CaseFoldsAgree(o1, o2);
  }

  /** Omitting the orientation is asking for ANTI_CLOCKWISE. */
  lemma DefaultOrientation(img: Image, degrees: Json, env: Env)
    ensures RotateImg(img, degrees, None, env) == RotateImg(img, degrees, Some(JStr("ANTI_CLOCKWISE")), env)
  {
  }

  /**
   * Flipping accepts exactly the directions whose upper-case form is
   * HORIZONTAL (left-right) or VERTICAL (top-bottom).
   */
  lemma FlipDirections(img: Image, direction: string, env: Env)
    requires env.backend == Completes
    ensures var r := FlipImg(img, JStr(direction), env);
            (r.Ok? <==> Upper(direction) == "HORIZONTAL" || Upper(direction) == "VERTICAL") &&
            (Upper(direction) == "HORIZONTAL" ==> r.value.call == TransposeBy(FlipLeftRight)) &&
            (Upper(direction) == "VERTICAL" ==> r.value.call == TransposeBy(FlipTopBottom)) &&
            (r.Err? ==> r == Err(ImageFault(InvalidFlippingDirection(direction + " is an invalid flipping direction."))))
  {
  }

  /** A library failure in either operation is an ImagePositionModifyingError. */
  lemma BackendFailures(img: Image, d: int, orientation: string, direction: string, env: Env)
    requires env.backend != Completes
    requires 0 <= d <= 360 && Upper(orientation) in ValidOrientations
    requires DirectionOf(Upper(direction)).Some?
    ensures RotateImg(img, JInt(d), Some(JStr(orientation)), env) ==
            Err(ImageFault(ImagePositionModifying(RotationFailedMessage)))
    ensures FlipImg(img, JStr(direction), env) ==
            Err(ImageFault(ImagePositionModifying(FlippingFailedMessage)))
  {
  }
}
