/**
 * helpers/server_helpers.py: the fixed two-level table of editing
 * operations. Categories contain operations; each operation takes either no
 * parameters (`None`) or a fixed tuple of parameter names. The string-keyed
 * functions are the ones the server calls; the `Category` and `Operation`
 * datatypes are the same table as a closed enumeration, and the lemmas below
 * show that the two agree.
 */
module ServerHelpers {
  import opened Wrappers

  /** `get_valid_action_types()`. */
  function ValidActionTypes(): (r: seq<string>)
    ensures |r| == 6
  {
    ["bgRemove", "convert", "crop", "filter", "posModify", "resize"]
  }

  /** `get_valid_actions_by_action_type(t)`; an unknown category yields a sentinel. */
  function ValidActionsByActionType(actionType: string): (r: seq<string>)
    ensures |r| >= 1
  {
    if actionType == "bgRemove" then ["bgRemove"]
    else if actionType == "convert" then ["convert"]
    else if actionType == "crop" then ["crop"]
    else if actionType == "filter" then ["filter", "transformBlackNWhite", "colorFilter"]
    else if actionType == "posModify" then ["rotate", "flip"]
    else if actionType == "resize" then ["resize", "resizeKeepRatio", "resizeByPercentage"]
    else ["Invalid Action Type"]
  }

  /** `get_valid_parameter_names_by_action(a)`; `None` means "takes no parameters". */
  function ValidParameterNamesByAction(action: string): (r: Option<seq<string>>)
    ensures r.Some? ==> |r.value| >= 1
  {
    if action == "bgRemove" || action == "transformBlackNWhite" then None
    else if action == "convert" then Some(["outputImageFormat"])
    else if action == "crop" then Some(["x1", "y1", "x2", "y2"])
    else if action == "filter" then Some(["filter"])
    else if action == "colorFilter" then Some(["brightness", "contrast", "saturation", "sharpness"])
    else if action == "rotate" then Some(["degrees", "orientation"])
    else if action == "flip" then Some(["direction"])
    else if action == "resize" then Some(["width", "height"])
    else if action == "resizeKeepRatio" then Some(["dimparam", "dimparamType"])
    else if action == "resizeByPercentage" then Some(["percentage"])
    else Some(["Invalid Action"])
  }

  datatype Category = BgRemoveCategory | ConvertCategory | CropCategory | FilterCategory | PosModifyCategory | ResizeCategory

  datatype Operation =
    | BgRemove | Convert | Crop
    | Filter | TransformBlackNWhite | ColorFilter
    | Rotate | Flip
    | Resize | ResizeKeepRatio | ResizeByPercentage

  function CategoryName(c: Category): string {
    match c
    case BgRemoveCategory => "bgRemove"
    case ConvertCategory => "convert"
    case CropCategory => "crop"
    case FilterCategory => "filter"
    case PosModifyCategory => "posModify"
    case ResizeCategory => "resize"
  }

  function OperationName(op: Operation): string {
    match op
    case BgRemove => "bgRemove"
    case Convert => "convert"
    case Crop => "crop"
    case Filter => "filter"
    case TransformBlackNWhite => "transformBlackNWhite"
    case ColorFilter => "colorFilter"
    case Rotate => "rotate"
    case Flip => "flip"
    case Resize => "resize"
    case ResizeKeepRatio => "resizeKeepRatio"
    case ResizeByPercentage => "resizeByPercentage"
  }

  /** The one category each operation belongs to. */
  function CategoryOf(op: Operation): Category {
    match op
    case BgRemove => BgRemoveCategory
    case Convert => ConvertCategory
    case Crop => CropCategory
    case Filter | TransformBlackNWhite | ColorFilter => FilterCategory
    case Rotate | Flip => PosModifyCategory
    case Resize | ResizeKeepRatio | ResizeByPercentage => ResizeCategory
  }

  /** Whether an operation takes parameters at all. */
  predicate TakesParameters(op: Operation) {
    op != BgRemove && op != TransformBlackNWhite
  }

  /** The operation a name denotes, if any: the string comparisons of the router. */
  function ParseOperation(name: string): (r: Option<Operation>)
    ensures r.Some? ==> OperationName(r.value) == name
  {
    if name == "bgRemove" then Some(BgRemove)
    else if name == "convert" then Some(Convert)
    else if name == "crop" then Some(Crop)
    else if name == "filter" then Some(Filter)
    else if name == "transformBlackNWhite" then Some(TransformBlackNWhite)
    else if name == "colorFilter" then Some(ColorFilter)
    else if name == "rotate" then Some(Rotate)
    else if name == "flip" then Some(Flip)
    else if name == "resize" then Some(Resize)
    else if name == "resizeKeepRatio" then Some(ResizeKeepRatio)
    else if name == "resizeByPercentage" then Some(ResizeByPercentage)
    else None
  }

  /** Names and operations are in one-to-one correspondence. */
  lemma ParseOperationName(op: Operation)
    ensures ParseOperation(OperationName(op)) == Some(op)
  {
  }

  /** There are exactly six categories, one per `Category`, without repetition. */
  lemma SixCategories()
    ensures forall i, j :: 0 <= i < j < |ValidActionTypes()| ==> ValidActionTypes()[i] != ValidActionTypes()[j]
    ensures forall t :: t in ValidActionTypes() <==> exists c :: CategoryName(c) == t
  {
    forall t | t in ValidActionTypes() ensures exists c :: CategoryName(c) == t {
      if t == "bgRemove" { assert CategoryName(BgRemoveCategory) == t; }
      else if t == "convert" { assert CategoryName(ConvertCategory) == t; }
      else if t == "crop" { assert CategoryName(CropCategory) == t; }
      else if t == "filter" { assert CategoryName(FilterCategory) == t; }
      else if t == "posModify" { assert CategoryName(PosModifyCategory) == t; }
      else { assert CategoryName(ResizeCategory) == t; }
    }
  }

  /**
   * Within a known category, the listed operations are exactly the
   * operations of that category: every operation appears under one category
   * and only there.
   */
  lemma OperationsPartitioned(actionType: string, action: string)
    requires actionType in ValidActionTypes()
    ensures action in ValidActionsByActionType(actionType)
        <==> ParseOperation(action).Some? && CategoryName(CategoryOf(ParseOperation(action).value)) == actionType
  {
  }

  /** No operation is listed under two categories. */
  lemma NoOperationInTwoCategories(t1: string, t2: string, action: string)
    requires t1 in ValidActionTypes() && t2 in ValidActionTypes()
    requires action in ValidActionsByActionType(t1) && action in ValidActionsByActionType(t2)
    ensures t1 == t2
  {
    OperationsPartitioned(t1, action);
    OperationsPartitioned(t2, action);
  }

  /**
   * An operation takes no parameters exactly when it is bgRemove or
   * transformBlackNWhite; every other operation has a real, non-empty,
   * duplicate-free tuple of names, never the "Invalid Action" sentinel.
   */
  lemma ParameterEntries(op: Operation)
    ensures ValidParameterNamesByAction(OperationName(op)).None? <==> !TakesParameters(op)
    ensures TakesParameters(op) ==>
              var names := ValidParameterNamesByAction(OperationName(op)).value;
              |names| >= 1 && names != ["Invalid Action"] &&
              forall i, j :: 0 <= i < j < |names| ==> names[i] != names[j]
  {
  }

  /** Unknown names get the sentinels. */
  lemma Sentinels(actionType: string, action: string)
    ensures actionType !in ValidActionTypes() ==> ValidActionsByActionType(actionType) == ["Invalid Action Type"]
    ensures ParseOperation(action).None? ==> ValidParameterNamesByAction(action) == Some(["Invalid Action"])
  {
  }
}
