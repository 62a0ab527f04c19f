/**
 * server.py: the part of the `/edit-img` route that reads the request's JSON
 * payload. The `action` field is checked by a fixed chain of guards, numeric
 * strings among the parameters are turned into integers, and exactly one
 * editor is called with the parameters it needs, by name. Every error an
 * editor raises leaves the server as a JSON error carrying the same message.
 */
module Server {
  import opened Wrappers
  import opened PyText
  import opened JsonValues
  import opened Errors
  import opened Images
  import opened ServerHelpers
  import ImageResizer
  import ImageCropper
  import ImagePositionModifier
  import ImageConverter
  import ImageFilterer
  import ImageBgRemover

  const ImageFormatAbsentMessage := "The JSON field: \"imageFormat\" for the Image Format is absent in this request"
  const OneCategoryMessage := "Only one category of image editting operations must be specified for the JSON \"action\" field."
  const OneOperationMessage := "Only one image editting operation must be specified per request."
  const PayloadMessage := "The given JSON payload does not contain proper data to edit the given image."
  const ParseMessage := "The given JSON data could not be parsed."

  function InvalidCategoryMessage(actionType: string): string {
    "The action category: \"" + actionType + "\" is invalid."
  }

  function InvalidActionMessage(action: string): string {
    "The action: \"" + action + "\" is invalid."
  }

  function NoArgumentsMessage(action: string): string {
    "The action: \"" + action + "\" requires no arguments for it to work."
  }

  function ArgumentsRequiredMessage(action: string): string {
    "The action: \"" + action + "\" requires arguments for it to work."
  }

  function WrongParametersMessage(action: string): string {
    "The action : \"" + action + "\" was provided with the wrong parameters for this request."
  }

  /**
   * `extract_image_format_from_request(image_data)`: the `imageFormat`
   * field, "PNG" when it is null. Indexing a payload that is not an object
   * raises a TypeError.
   */
  function ExtractImageFormat(data: Json): (r: Result<Json, Fault>)
    ensures !data.JObject? ==> r == Err(OtherFault)
    ensures data.JObject? && "imageFormat" !in data.fields ==> r == Err(JsonFault(ImageFormatAbsentMessage))
    ensures data.JObject? && "imageFormat" in data.fields ==>
              r.Ok? && r.value != JNull &&
              (data.fields["imageFormat"] == JNull ==> r.value == JStr("PNG")) &&
              (data.fields["imageFormat"] != JNull ==> r.value == data.fields["imageFormat"])
  {
    if !data.JObject? then Err(OtherFault)
    else if "imageFormat" !in data.fields then Err(JsonFault(ImageFormatAbsentMessage))
    else
      var format := data.fields["imageFormat"];
      Ok(if format == JNull then JStr("PNG") else format)
  }

  /** A map with a single key has no other key. */
  lemma SingleKey<V>(m: map<string, V>, k: string)
    requires |m| == 1 && k in m
    ensures m.Keys == {k}
  {
    var others := m.Keys - {k};
    assert m.Keys == others + {k};
    assert |m.Keys| == |others| + 1;
  }

  /** `tuple(d.keys())[0]` for a dictionary of one entry: its only key. */
  function SoleKey<V>(m: map<string, V>): (k: string)
    requires |m| == 1
    ensures k in m && m.Keys == {k}
  {
    assert exists k :: k in m by {
      assert m.Keys != {};
    }
    var k :| k in m;
    SingleKey(m, k);
    k
  }

  /** `set(names)`. */
  function NameSet(names: seq<string>): set<string> {
    set n | n in names
  }

  /** A request whose `action` field passed every guard. */
  datatype Validated = Validated(actionType: string, action: string, params: Json)

  /**
   * The guard chain of `get_editted_image` (server.py, lines 369-413), in
   * its order. A failed guard raises a JsonError with its own message; the
   * Python errors that the shape of the payload can provoke are kept apart:
   * a missing key (KeyError), `.keys()` on a non-object (AttributeError),
   * and indexing or `len` on a value that has none (TypeError).
   */
  function ValidateAction(data: Json): (r: Result<Validated, Fault>)
    ensures r.Ok? ==>
              r.value.actionType in ValidActionTypes() &&
              r.value.action in ValidActionsByActionType(r.value.actionType)
  {
    if !data.JObject? then Err(OtherFault)
    else if "action" !in data.fields then Err(KeyFault)
    else
      var actionDict := data.fields["action"];
      match PyLen(actionDict)
      case None => Err(OtherFault)
      case Some(categories) =>
        if categories != 1 then Err(JsonFault(OneCategoryMessage))
        else if !actionDict.JObject? then Err(AttributeFault)
        else
          var actionType := SoleKey(actionDict.fields);
          if actionType !in ValidActionTypes() then Err(JsonFault(InvalidCategoryMessage(actionType)))
          else ValidateCategory(actionType, actionDict.fields[actionType])
  }

  /**
   * The guards on the object a known category maps to (server.py, lines
   * 383-413): it names one operation of that category, with its parameters.
   */
  function ValidateCategory(actionType: string, specificDict: Json): (r: Result<Validated, Fault>)
    ensures r.Ok? ==> r.value.actionType == actionType && r.value.action in ValidActionsByActionType(actionType)
  {
    match PyLen(specificDict)
    case None => Err(OtherFault)
    case Some(operations) =>
      if operations != 1 then Err(JsonFault(OneOperationMessage))
      else if !specificDict.JObject? then Err(AttributeFault)
      else
        var action := SoleKey(specificDict.fields);
        if action !in ValidActionsByActionType(actionType) then Err(JsonFault(InvalidActionMessage(action)))
        else ValidateParameters(actionType, action, specificDict.fields[action])
  }

  /** The parameter guards (server.py, lines 400-413). */
  function ValidateParameters(actionType: string, action: string, params: Json): (r: Result<Validated, Fault>)
    ensures r.Ok? ==> r.value == Validated(actionType, action, params)
  {
    var noArguments := action == "bgRemove" || action == "transformBlackNWhite";
    if Truthy(params) && noArguments then Err(JsonFault(NoArgumentsMessage(action)))
    else if !Truthy(params) && !noArguments then Err(JsonFault(ArgumentsRequiredMessage(action)))
    else if !Truthy(params) then Ok(Validated(actionType, action, params))
    else if !params.JObject? then Err(AttributeFault)
    else match ValidParameterNamesByAction(action)
      case None => Err(OtherFault)
      case Some(names) =>
        if params.fields.Keys != NameSet(names) then Err(JsonFault(WrongParametersMessage(action)))
        else Ok(Validated(actionType, action, params))
  }

  /**
   * One parameter after the conversion loop: a string `isdigit()` accepts
   * becomes the integer `int()` reads from it; every other value stays.
   */
  function Coerce(v: Json): (r: Json)
    ensures r.JStr? ==> r == v
    ensures r != v ==> v.JStr? && IsDigitString(v.s) && r.JInt? && r.i >= 0
  {
    if v.JStr? && IsDigitString(v.s) then JInt(DigitsValue(v.s)) else v
  }

  /** Every parameter after the conversion loop. */
  function CoerceAll(params: map<string, Json>): (r: map<string, Json>)
    ensures r.Keys == params.Keys
  {
    map k | k in params :: Coerce(params[k])
  }

  /**
   * The loop of server.py, lines 416-421: each parameter whose value is a
   * digit string is rewritten to its integer, one key at a time. Which key
   * comes first makes no difference, since each step reads and writes only
   * its own key.
   */
  method CoerceDigitStrings(params: map<string, Json>) returns (coerced: map<string, Json>)
    ensures coerced == CoerceAll(params)
  {
    coerced := params;
    var pending := params.Keys;
    while pending != {}
      invariant pending <= params.Keys
      invariant coerced.Keys == params.Keys
      invariant forall k :: k in pending ==> coerced[k] == params[k]
      invariant forall k :: k in params && k !in pending ==> coerced[k] == Coerce(params[k])
      decreases pending
    {
      var key :| key in pending;
      var value := coerced[key];
      if value.JStr? && IsDigitString(value.s) {
        coerced := coerced[key := JInt(DigitsValue(value.s))];
      }
      pending := pending - {key};
    }
  }

  /**
   * The parameters as the editors receive them: converted when there are
   * any. The truthiness test only skips the empty object, which the
   * conversion would leave as it is, so every object is converted.
   */
  function CoercedParams(params: Json): (r: Json)
    ensures params.JObject? ==> r == JObject(CoerceAll(params.fields))
    ensures !params.JObject? ==> r == params
  {
    if Truthy(params) && params.JObject? then JObject(CoerceAll(params.fields)) else params
  }

  /**
   * `specific_action_params_dict[key]`: a KeyError when the key is absent,
   * a TypeError when the parameters are not an object.
   */
  function Arg(params: Json, key: string): (r: Result<Json, Fault>)
    ensures params.JObject? && key in params.fields ==> r == Ok(params.fields[key])
    ensures params.JObject? && key !in params.fields ==> r == Err(KeyFault)
    ensures !params.JObject? ==> r == Err(OtherFault)
  {
    if !params.JObject? then Err(OtherFault)
    else if key !in params.fields then Err(KeyFault)
    else Ok(params.fields[key])
  }

  /**
   * The parameter names each branch of the router (server.py, lines 425-456)
   * reads, in the order it passes the values to its editor.
   */
  function ArgumentNames(op: Operation): (names: seq<string>)
    ensures TakesParameters(op) <==> names != []
  {
    match op
    case BgRemove => []
    case Convert => ["outputImageFormat"]
    case Crop => ["x1", "y1", "x2", "y2"]
    case Filter => ["filter"]
    case ColorFilter => ["brightness", "contrast", "saturation", "sharpness"]
    case TransformBlackNWhite => []
    case Rotate => ["degrees", "orientation"]
    case Flip => ["direction"]
    case Resize => ["width", "height"]
    case ResizeKeepRatio => ["dimparam", "dimparamType"]
    case ResizeByPercentage => ["percentage"]
  }

  /** The lookups of one branch, left to right: the first one that fails stops the branch. */
  function Args(params: Json, names: seq<string>): (r: Result<seq<Json>, Fault>)
    ensures r.Ok? ==> |r.value| == |names|
    ensures r.Err? ==> r.error == KeyFault || r.error == OtherFault
  {
    if names == [] then Ok([])
    else
      var first :- Arg(params, names[0]);
      var rest :- Args(params, names[1..]);
      Ok([first] + rest)
  }

  /** The editor a branch of the router calls, with the values it passes. */
  datatype EditorCall =
    | RemoveBgCall
    | ConvertCall(target: Json)
    | CropCall(x1: Json, y1: Json, x2: Json, y2: Json)
    | FilterCall(filter: Json)
    | ColorFilterCall(brightness: Json, contrast: Json, saturation: Json, sharpness: Json)
    | BlackNWhiteCall
    | RotateCall(degrees: Json, orientation: Json)
    | FlipCall(direction: Json)
    | ResizeCall(width: Json, height: Json)
    | KeepRatioCall(dimparam: Json, dimparamType: Json)
    | PercentageCall(percentage: Json)

  /** The operation whose editor a call runs. */
  function CalledOperation(call: EditorCall): Operation {
    match call
    case RemoveBgCall => BgRemove
    case ConvertCall(_) => Convert
    case CropCall(_, _, _, _) => Crop
    case FilterCall(_) => Filter
    case ColorFilterCall(_, _, _, _) => ColorFilter
    case BlackNWhiteCall => TransformBlackNWhite
    case RotateCall(_, _) => Rotate
    case FlipCall(_) => Flip
    case ResizeCall(_, _) => Resize
    case KeepRatioCall(_, _) => ResizeKeepRatio
    case PercentageCall(_) => ResizeByPercentage
  }

  /** The values a call passes to its editor, in the order of its parameters. */
  function CallArguments(call: EditorCall): seq<Json> {
    match call
    case RemoveBgCall => []
    case ConvertCall(target) => [target]
    case CropCall(x1, y1, x2, y2) => [x1, y1, x2, y2]
    case FilterCall(filter) => [filter]
    case ColorFilterCall(brightness, contrast, saturation, sharpness) => [brightness, contrast, saturation, sharpness]
    case BlackNWhiteCall => []
    case RotateCall(degrees, orientation) => [degrees, orientation]
    case FlipCall(direction) => [direction]
    case ResizeCall(width, height) => [width, height]
    case KeepRatioCall(dimparam, dimparamType) => [dimparam, dimparamType]
    case PercentageCall(percentage) => [percentage]
  }

  /**
   * The call of an operation's branch, given the values its lookups found:
   * it runs that operation's editor and passes exactly those values, in
   * order.
   */
  function CallOf(op: Operation, args: seq<Json>): (r: EditorCall)
    requires |args| == |ArgumentNames(op)|
    ensures CalledOperation(r) == op
    ensures CallArguments(r) == args
  {
    match op
    case BgRemove => RemoveBgCall
    case Convert => ConvertCall(args[0])
    case Crop => CropCall(args[0], args[1], args[2], args[3])
    case Filter => FilterCall(args[0])
    case ColorFilter => ColorFilterCall(args[0], args[1], args[2], args[3])
    case TransformBlackNWhite => BlackNWhiteCall
    case Rotate => RotateCall(args[0], args[1])
    case Flip => FlipCall(args[0])
    case Resize => ResizeCall(args[0], args[1])
    case ResizeKeepRatio => KeepRatioCall(args[0], args[1])
    case ResizeByPercentage => PercentageCall(args[0])
  }

  /**
   * The if/elif chain of server.py, lines 425-456, up to the editor call: the
   * branch of the operation looks up its parameters by name.
   */
  function Route(op: Operation, params: Json): (r: Result<EditorCall, Fault>)
    ensures !TakesParameters(op) ==> r.Ok?
  {
    var args :- Args(params, ArgumentNames(op));
    Ok(CallOf(op, args))
  }

  /**
   * The editor call itself. An editor raises one of its own errors, an
   * AttributeError on a value of the wrong type, or another Python error;
   * never a KeyError or a JsonError.
   */
  function Run(img: Image, call: EditorCall, env: Env): (r: Result<Artifact, Fault>)
    ensures r.Err? ==> r.error.ImageFault? || r.error == AttributeFault || r.error == OtherFault
  {
    match call
    case RemoveBgCall => ImageBgRemover.RemoveBg(img, env)
    case ConvertCall(target) => ImageConverter.Convert(img, target, env)
    case CropCall(x1, y1, x2, y2) => ImageCropper.CropImg(img, x1, y1, x2, y2, env)
    case FilterCall(filter) => ImageFilterer.ApplyFilter(img, filter, env)
    case ColorFilterCall(brightness, contrast, saturation, sharpness) =>
      ImageFilterer.ApplyColorFilter(img, Some(brightness), Some(contrast), Some(saturation), Some(sharpness), env)
    case BlackNWhiteCall => ImageFilterer.TransformToBlackNWhite(img, env)
    case RotateCall(degrees, orientation) => ImagePositionModifier.RotateImg(img, degrees, Some(orientation), env)
    case FlipCall(direction) => ImagePositionModifier.FlipImg(img, direction, env)
    case ResizeCall(width, height) => ImageResizer.Resize(img, width, height, env)
    case KeepRatioCall(dimparam, dimparamType) => ImageResizer.ResizeKeepRatio(img, dimparam, Some(dimparamType), env)
    case PercentageCall(percentage) => ImageResizer.ResizeByPercentage(img, percentage, env)
  }

  /** One branch of the router: the lookups, then the editor. */
  function Dispatch(op: Operation, img: Image, params: Json, env: Env): (r: Result<Artifact, Fault>)
    ensures r.Err? && r.error == KeyFault ==> Route(op, params) == Err(KeyFault)
    ensures r.Err? && r.error.ImageFault? ==> Route(op, params).Ok?
  {
    var call :- Route(op, params);
    Run(img, call, env)
  }

  /**
   * The `except` clauses of `get_editted_image` and the catch-all of the
   * route: a KeyError and an AttributeError get fixed messages, an editor
   * error keeps its own, a JsonError passes through, and anything else is a
   * server failure.
   */
  function Wrap(f: Fault): (e: ServerError)
    ensures f.ImageFault? ==> e == JsonError(f.error.message)
    ensures f.JsonFault? ==> e == JsonError(f.message)
    ensures f == KeyFault ==> e == JsonError(PayloadMessage)
    ensures f == AttributeFault ==> e == JsonError(ParseMessage)
    ensures e == InternalError <==> f == OtherFault
  {
    match f
    case ImageFault(error) => JsonError(error.message)
    case JsonFault(message) => JsonError(message)
    case KeyFault => JsonError(PayloadMessage)
    case AttributeFault => JsonError(ParseMessage)
    case OtherFault => InternalError
  }

  /**
   * `get_editted_image(input_image, image_data)`: validation, conversion,
   * dispatch. An operation name that no branch recognises would fall into
   * `else: pass` and fail reading the unbound result (a server failure).
   */
  function EditedImage(img: Image, data: Json, env: Env): (r: Result<Artifact, ServerError>)
    ensures ValidateAction(data).Err? ==> r == Err(Wrap(ValidateAction(data).error))
  {
    match ValidateAction(data)
    case Err(f) => Err(Wrap(f))
    case Ok(v) =>
      match ParseOperation(v.action)
      case None => Err(InternalError)
      case Some(op) =>
        match Dispatch(op, img, CoercedParams(v.params), env)
        case Err(f) => Err(Wrap(f))
        case Ok(edited) => Ok(edited)
  }

  /** `get_editted_image`, with the conversion loop run in place on the parameters. */
  method GetEdittedImage(img: Image, data: Json, env: Env) returns (r: Result<Artifact, ServerError>)
    ensures r == EditedImage(img, data, env)
  {
    var validated := ValidateAction(data);
    if validated.Err? {
      return Err(Wrap(validated.error));
    }
    var v := validated.value;
    var params := v.params;
    if Truthy(params) && params.JObject? {
      var coerced := CoerceDigitStrings(params.fields);
      params := JObject(coerced);
    }
    assert params == CoercedParams(v.params);
    match ParseOperation(v.action) {
      case None =>
        r := Err(InternalError);
      case Some(op) =>
        var edited := Dispatch(op, img, params, env);
        r := if edited.Ok? then Ok(edited.value) else Err(Wrap(edited.error));
    }
  }
}
