/**
 * What the request handling of server.py promises: which payloads pass the
 * guards, which error each failed guard produces, what the conversion of
 * digit strings does, and that a valid request reaches exactly one editor,
 * whose errors keep their message.
 */
module ServerProperties {
  import opened Wrappers
  import opened PyText
  import opened JsonValues
  import opened Errors
  import opened Images
  import opened ServerHelpers
  import opened Server
  import ImageCropper
  import ImageResizer
  import ImagePositionModifier
  import ImageFilterer
  import ImageConverter

  /**
   * The operation `action`, named inside category `actionType`, with the
   * parameters `params`: it belongs to that category, it is given parameters
   * exactly when it takes some, and then exactly the names the registry
   * lists, in any order.
   */
  predicate WellFormedOperation(actionType: string, action: string, params: Json) {
    ParseOperation(action).Some? &&
    CategoryName(CategoryOf(ParseOperation(action).value)) == actionType &&
    (TakesParameters(ParseOperation(action).value) <==> Truthy(params)) &&
    (TakesParameters(ParseOperation(action).value) ==>
       params.JObject? && ValidParameterNamesByAction(action).Some? &&
       params.fields.Keys == NameSet(ValidParameterNamesByAction(action).value))
  }

  /** A category object naming exactly one well-formed operation. */
  predicate WellFormedCategory(actionType: string, operations: Json) {
    operations.JObject? && |operations.fields| == 1 &&
    forall action :: action in operations.fields ==> WellFormedOperation(actionType, action, operations.fields[action])
  }

  /** A payload whose `action` object names exactly one well-formed category. */
  predicate WellFormedRequest(data: Json) {
    data.JObject? && "action" in data.fields &&
    data.fields["action"].JObject? && |data.fields["action"].fields| == 1 &&
    forall actionType :: actionType in data.fields["action"].fields ==>
      WellFormedCategory(actionType, data.fields["action"].fields[actionType])
  }

  /**
   * Within a known category, the parameter guards accept exactly the
   * well-formed parameters of a listed operation.
   */
  lemma ParametersAcceptedExactly(actionType: string, action: string, params: Json)
    requires actionType in ValidActionTypes() && action in ValidActionsByActionType(actionType)
    ensures ValidateParameters(actionType, action, params).Ok? <==> WellFormedOperation(actionType, action, params)
  {
    OperationsPartitioned(actionType, action);
    var op := ParseOperation(action).value;
    ParameterEntries(op);
  }

  /**
   * Within a known category, the guards accept exactly an object naming one
   * well-formed operation of that category.
   */
  lemma CategoryAcceptedExactly(actionType: string, operations: Json)
    requires actionType in ValidActionTypes()
    ensures ValidateCategory(actionType, operations).Ok? <==> WellFormedCategory(actionType, operations)
  {
    if operations.JObject? && |operations.fields| == 1 {
      var action := SoleKey(operations.fields);
      var params := operations.fields[action];
      assert WellFormedCategory(actionType, operations) <==> WellFormedOperation(actionType, action, params);
      OperationsPartitioned(actionType, action);
      if action in ValidActionsByActionType(actionType) {
        ParametersAcceptedExactly(actionType, action, params);
      }
    }
  }

  /** A category object that is well formed names a category of the registry. */
  lemma WellFormedCategoryIsKnown(actionType: string, operations: Json)
    requires WellFormedCategory(actionType, operations)
    ensures actionType in ValidActionTypes()
  {
    var action := SoleKey(operations.fields);
    assert WellFormedOperation(actionType, action, operations.fields[action]);
    SixCategories();
  }

  /**
   * The guard chain accepts a payload exactly when it is well formed: one
   * known category holding one operation of that category with exactly its
   * parameters (or none, for the two operations that take none).
   */
  lemma ValidationAcceptsExactlyWellFormed(data: Json)
    ensures ValidateAction(data).Ok? <==> WellFormedRequest(data)
  {
    if data.JObject? && "action" in data.fields && data.fields["action"].JObject? &&
       |data.fields["action"].fields| == 1 {
      var outer := data.fields["action"].fields;
      var actionType := SoleKey(outer);
      var operations := outer[actionType];
      assert WellFormedRequest(data) <==> WellFormedCategory(actionType, operations);
      if actionType in ValidActionTypes() {
        assert ValidateAction(data) == ValidateCategory(actionType, operations);
        CategoryAcceptedExactly(actionType, operations);
      } else {
        assert ValidateAction(data).Err?;
        if WellFormedCategory(actionType, operations) {
          WellFormedCategoryIsKnown(actionType, operations);
        }
      }
    }
  }

  /** An `action` whose length is not one is refused, whatever it holds. */
  lemma CategoryCountMustBeOne(data: Json)
    requires data.JObject? && "action" in data.fields
    requires PyLen(data.fields["action"]).Some? && PyLen(data.fields["action"]).value != 1
    ensures ValidateAction(data) == Err(JsonFault(OneCategoryMessage))
  {
  }

  /** A category outside the registry's six is refused with its name. */
  lemma UnknownCategoryRejected(data: Json, actionType: string, operations: Json)
    requires data.JObject? && "action" in data.fields
    requires data.fields["action"] == JObject(map[actionType := operations])
    requires actionType !in ValidActionTypes()
    ensures ValidateAction(data) == Err(JsonFault(InvalidCategoryMessage(actionType)))
  {
    assert SoleKey(map[actionType := operations]) == actionType;
  }

  /** Inside a known category, an object whose length is not one is refused. */
  lemma OperationCountMustBeOne(data: Json, actionType: string, operations: Json)
    requires data.JObject? && "action" in data.fields
    requires data.fields["action"] == JObject(map[actionType := operations])
    requires actionType in ValidActionTypes()
    requires PyLen(operations).Some? && PyLen(operations).value != 1
    ensures ValidateAction(data) == Err(JsonFault(OneOperationMessage))
  {
    assert SoleKey(map[actionType := operations]) == actionType;
  }

  /**
   * An operation named under a category it does not belong to (or no
   * operation at all) is refused with its name, even when it exists under
   * another category.
   */
  lemma OperationOutsideItsCategoryRejected(data: Json, actionType: string, action: string, params: Json)
    requires data.JObject? && "action" in data.fields
    requires data.fields["action"] == JObject(map[actionType := JObject(map[action := params])])
    requires actionType in ValidActionTypes()
    requires !(ParseOperation(action).Some? && CategoryName(CategoryOf(ParseOperation(action).value)) == actionType)
    ensures ValidateAction(data) == Err(JsonFault(InvalidActionMessage(action)))
  {
    assert SoleKey(map[actionType := JObject(map[action := params])]) == actionType;
    assert SoleKey(map[action := params]) == action;
    OperationsPartitioned(actionType, action);
  }

  /** Worked example: `rotate` asked for under the `resize` category. */
  lemma RotateUnderResizeRejected(params: Json)
    ensures ValidateAction(JObject(map["action" := JObject(map["resize" := JObject(map["rotate" := params])])]))
         == Err(JsonFault(InvalidActionMessage("rotate")))
  {
    var data := JObject(map["action" := JObject(map["resize" := JObject(map["rotate" := params])])]);
    OperationOutsideItsCategoryRejected(data, "resize", "rotate", params);
  }

  /**
   * bgRemove and transformBlackNWhite refuse parameters that are truthy;
   * every other operation refuses parameters that are falsy (absent, null,
   * empty, zero).
   */
  lemma ParameterPresence(actionType: string, action: string, params: Json)
    ensures (action == "bgRemove" || action == "transformBlackNWhite") && Truthy(params) ==>
              ValidateParameters(actionType, action, params) == Err(JsonFault(NoArgumentsMessage(action)))
    ensures action != "bgRemove" && action != "transformBlackNWhite" && !Truthy(params) ==>
              ValidateParameters(actionType, action, params) == Err(JsonFault(ArgumentsRequiredMessage(action)))
  {
  }

  /**
   * For an operation that takes parameters, an object of parameters is
   * accepted exactly when its key set equals the set of required names; the
   * order of the names plays no part.
   */
  lemma ParameterNamesAsASet(op: Operation, actionType: string, params: map<string, Json>)
    requires TakesParameters(op) && params != map[]
    ensures var action := OperationName(op);
            var r := ValidateParameters(actionType, action, JObject(params));
            (r.Ok? <==> params.Keys == NameSet(ValidParameterNamesByAction(action).value)) &&
            (r.Err? ==> r == Err(JsonFault(WrongParametersMessage(action))))
  {
    ParameterEntries(op);
  }

  /**
   * The conversion changes exactly the strings made only of digits, and
   * turns each into the integer it spells; keys never change.
   */
  lemma CoercionChangesOnlyDigitStrings(params: map<string, Json>, key: string)
    requires key in params
    ensures CoerceAll(params).Keys == params.Keys
    ensures CoerceAll(params)[key] != params[key] <==> params[key].JStr? && IsDigitString(params[key].s)
    ensures params[key].JStr? && IsDigitString(params[key].s) ==>
              CoerceAll(params)[key] == JInt(DigitsValue(params[key].s))
  {
  }

  /** The decimal spelling of a natural number is converted back to that number. */
  lemma CoercionReadsDecimals(n: nat)
    ensures Coerce(JStr(NatToDecimal(n))) == JInt(n)
  {
    DecimalRoundTrip(n);
  }

  /** Converting twice is converting once. */
  lemma CoercionIdempotent(params: map<string, Json>)
    ensures CoerceAll(CoerceAll(params)) == CoerceAll(params)
  {
  }

  /**
   * Worked examples: leading zeros are read ("007" is 7); a sign, a blank or
   * a decimal point stops the conversion.
   */
  lemma CoercionExamples()
    ensures Coerce(JStr("007")) == JInt(7)
    ensures Coerce(JStr("-5")) == JStr("-5")
    ensures Coerce(JStr(" 5")) == JStr(" 5")
    ensures Coerce(JStr("2.5")) == JStr("2.5")
    ensures Coerce(JStr("")) == JStr("")
  {
    assert "007"[..2] == "00" && "00"[..1] == "0" && "0"[..0] == "";
    assert !IsDigit('-') && !IsDigit(' ') && !IsDigit('.');
    assert "-5"[0] == '-' && " 5"[0] == ' ' && "2.5"[1] == '.';
  }

  /**
   * On an object of parameters, the lookups succeed exactly when every name
   * is present, and then find each name's own value, in order; otherwise
   * they fail with a KeyError.
   */
  lemma {:induction false} ArgsByName(params: map<string, Json>, names: seq<string>)
    ensures var r := Args(JObject(params), names);
            (r.Ok? <==> forall i :: 0 <= i < |names| ==> names[i] in params) &&
            (r.Ok? ==> forall i :: 0 <= i < |names| ==> r.value[i] == params[names[i]]) &&
            (r.Err? ==> r.error == KeyFault)
  {
    if names != [] {
      ArgsByName(params, names[1..]);
      var r := Args(JObject(params), names);
      if r.Ok? {
        var rest := Args(JObject(params), names[1..]).value;
        assert r.value == [params[names[0]]] + rest;
        forall i | 0 < i < |names| ensures names[i] in params && r.value[i] == params[names[i]] {
          assert names[i] == names[1..][i - 1];
        }
      } else if names[0] in params {
        var i :| 0 <= i < |names[1..]| && names[1..][i] !in params;
        assert names[i + 1] !in params;
      }
    }
  }

  /**
   * The names each branch of the router reads are exactly the names the
   * registry requires of that operation, in the same order; the two
   * operations without parameters read none.
   */
  lemma RouterReadsRegisteredNames(op: Operation)
    ensures TakesParameters(op) ==> ValidParameterNamesByAction(OperationName(op)) == Some(ArgumentNames(op))
    ensures !TakesParameters(op) ==> ValidParameterNamesByAction(OperationName(op)) == None && ArgumentNames(op) == []
  {
  }

  /**
   * On an object of parameters, a branch of the router reaches its editor
   * exactly when every name it reads is present; otherwise it stops with a
   * KeyError.
   */
  lemma RouteNeedsEveryName(op: Operation, params: map<string, Json>)
    ensures Route(op, JObject(params)).Ok? <==>
              forall i :: 0 <= i < |ArgumentNames(op)| ==> ArgumentNames(op)[i] in params
    ensures Route(op, JObject(params)).Err? ==> Route(op, JObject(params)).error == KeyFault
  {
    ArgsByName(params, ArgumentNames(op));
  }

  /**
   * Given exactly the parameter names the registry requires, no lookup of
   * the router fails: the request reaches its editor.
   */
  lemma RouteFindsEveryParameter(op: Operation, params: map<string, Json>)
    requires TakesParameters(op)
    requires params.Keys == NameSet(ValidParameterNamesByAction(OperationName(op)).value)
    ensures Route(op, JObject(params)).Ok?
  {
    RouterReadsRegisteredNames(op);
    RouteNeedsEveryName(op, params);
  }

  /** Convert: the editor receives the target format by name. */
  lemma RouteConvert(params: map<string, Json>)
    requires "outputImageFormat" in params
    ensures Route(Convert, JObject(params)) == Ok(ConvertCall(params["outputImageFormat"]))
  {
    ArgsByName(params, ["outputImageFormat"]);
  }

  /** Crop: the editor receives the four coordinates by name, in the order x1, y1, x2, y2. */
  lemma RouteCrop(params: map<string, Json>)
    requires "x1" in params && "y1" in params && "x2" in params && "y2" in params
    ensures Route(Crop, JObject(params)) == Ok(CropCall(params["x1"], params["y1"], params["x2"], params["y2"]))
  {
    ArgsByName(params, ["x1", "y1", "x2", "y2"]);
  }

  /** Filter: the editor receives the filter name by name. */
  lemma RouteFilter(params: map<string, Json>)
    requires "filter" in params
    ensures Route(Filter, JObject(params)) == Ok(FilterCall(params["filter"]))
  {
    ArgsByName(params, ["filter"]);
  }

  /** ColorFilter: the editor receives its four factors by name, saturation included. */
  lemma RouteColorFilter(params: map<string, Json>)
    requires "brightness" in params && "contrast" in params && "saturation" in params && "sharpness" in params
    ensures Route(ColorFilter, JObject(params)) ==
            Ok(ColorFilterCall(params["brightness"], params["contrast"], params["saturation"], params["sharpness"]))
  {
    ArgsByName(params, ["brightness", "contrast", "saturation", "sharpness"]);
  }

  /** Rotate: the editor receives the degrees and the orientation by name. */
  lemma RouteRotate(params: map<string, Json>)
    requires "degrees" in params && "orientation" in params
    ensures Route(Rotate, JObject(params)) == Ok(RotateCall(params["degrees"], params["orientation"]))
  {
    ArgsByName(params, ["degrees", "orientation"]);
  }

  /** Flip: the editor receives the direction by name. */
  lemma RouteFlip(params: map<string, Json>)
    requires "direction" in params
    ensures Route(Flip, JObject(params)) == Ok(FlipCall(params["direction"]))
  {
    ArgsByName(params, ["direction"]);
  }

  /** Resize: the editor receives the width and the height by name. */
  lemma RouteResize(params: map<string, Json>)
    requires "width" in params && "height" in params
    ensures Route(Resize, JObject(params)) == Ok(ResizeCall(params["width"], params["height"]))
  {
    ArgsByName(params, ["width", "height"]);
  }

  /** ResizeKeepRatio: the editor receives the size and the flag by name. */
  lemma RouteKeepRatio(params: map<string, Json>)
    requires "dimparam" in params && "dimparamType" in params
    ensures Route(ResizeKeepRatio, JObject(params)) == Ok(KeepRatioCall(params["dimparam"], params["dimparamType"]))
  {
    ArgsByName(params, ["dimparam", "dimparamType"]);
  }

  /** ResizeByPercentage: the editor receives the percentage by name. */
  lemma RoutePercentage(params: map<string, Json>)
    requires "percentage" in params
    ensures Route(ResizeByPercentage, JObject(params)) == Ok(PercentageCall(params["percentage"]))
  {
    ArgsByName(params, ["percentage"]);
  }

  /**
   * Removing a background and turning to black and white read no parameter,
   * whatever the parameters are.
   */
  lemma RouteWithoutParameters(params: Json)
    ensures Route(BgRemove, params) == Ok(RemoveBgCall)
    ensures Route(TransformBlackNWhite, params) == Ok(BlackNWhiteCall)
  {
  }

  /**
   * A request that passes the guards names an operation of its category,
   * with parameters exactly when that operation takes some, and then
   * exactly the ones it needs.
   */
  lemma ValidatedOperation(data: Json)
    requires ValidateAction(data).Ok?
    ensures WellFormedOperation(ValidateAction(data).value.actionType, ValidateAction(data).value.action,
                                ValidateAction(data).value.params)
  {
    var actionDict := data.fields["action"];
    var actionType := SoleKey(actionDict.fields);
    assert ValidateAction(data) == ValidateCategory(actionType, actionDict.fields[actionType]);
    CategoryValidated(actionType, actionDict.fields[actionType]);
  }

  /** What the category-level guards let through is a well-formed operation of that category. */
  lemma CategoryValidated(actionType: string, operations: Json)
    requires actionType in ValidActionTypes()
    requires ValidateCategory(actionType, operations).Ok?
    ensures var v := ValidateCategory(actionType, operations).value;
            WellFormedOperation(actionType, v.action, v.params)
  {
    var action := SoleKey(operations.fields);
    ParametersAcceptedExactly(actionType, action, operations.fields[action]);
  }

  /**
   * A request that passes the guards names one of the eleven operations (so
   * the `else: pass` branch is never taken), is routed to that operation's
   * editor with the converted parameters, and never fails on a missing
   * parameter.
   */
  lemma ValidatedRequestReachesOneEditor(img: Image, data: Json, env: Env)
    requires ValidateAction(data).Ok?
    ensures var v := ValidateAction(data).value;
            ParseOperation(v.action).Some? &&
            var route := Route(ParseOperation(v.action).value, CoercedParams(v.params));
            route.Ok? &&
            var result := Run(img, route.value, env);
            (result.Ok? ==> EditedImage(img, data, env) == Ok(result.value)) &&
            (result.Err? ==> EditedImage(img, data, env) == Err(Wrap(result.error)))
  {
    var v := ValidateAction(data).value;
    ValidatedOperation(data);
    var op := ParseOperation(v.action).value;
    if TakesParameters(op) {
      RouteFindsEveryParameter(op, CoerceAll(v.params.fields));
    }
  }

  /** An error raised by an editor reaches the client as a JSON error with the identical message. */
  lemma EditorErrorsKeepTheirMessage(img: Image, data: Json, env: Env, e: ImageError)
    requires ValidateAction(data).Ok?
    requires ParseOperation(ValidateAction(data).value.action).Some?
    requires Dispatch(ParseOperation(ValidateAction(data).value.action).value, img,
                      CoercedParams(ValidateAction(data).value.params), env) == Err(ImageFault(e))
    ensures EditedImage(img, data, env) == Err(JsonError(e.message))
  {
  }

  /**
   * A server failure (rather than a JSON error) comes only from a Python
   * error the handler does not catch: in the guards (a payload or value
   * without indexing or `len`) or in an editor (a division by a zero side).
   */
  lemma InternalErrorSources(img: Image, data: Json, env: Env)
    requires EditedImage(img, data, env) == Err(InternalError)
    ensures ValidateAction(data) == Err(OtherFault) ||
            (ValidateAction(data).Ok? && ParseOperation(ValidateAction(data).value.action).Some? &&
             Dispatch(ParseOperation(ValidateAction(data).value.action).value, img,
                      CoercedParams(ValidateAction(data).value.params), env) == Err(OtherFault))
  {
    if ValidateAction(data).Ok? {
      ValidatedRequestReachesOneEditor(img, data, env);
    }
  }

  /** The documented crop payload. */
  function CropPayload(): Json {
    var params := map["x1" := JInt(90), "y1" := JInt(120), "x2" := JInt(250), "y2" := JInt(200)];
    JObject(map["action" := JObject(map["crop" := JObject(map["crop" := JObject(params)])])])
  }

  /** The crop payload from the route's documentation passes the guards. */
  lemma CropPayloadValidates()
    ensures ValidateAction(CropPayload()) ==
            Ok(Validated("crop", "crop", JObject(map["x1" := JInt(90), "y1" := JInt(120),
                                                     "x2" := JInt(250), "y2" := JInt(200)])))
  {
    var params := map["x1" := JInt(90), "y1" := JInt(120), "x2" := JInt(250), "y2" := JInt(200)];
    assert SoleKey(map["crop" := JObject(map["crop" := JObject(params)])]) == "crop";
    CropCategoryValidates(params);
  }

  /** Inside the crop category, one crop operation with its four coordinates passes. */
  lemma CropCategoryValidates(params: map<string, Json>)
    requires params.Keys == {"x1", "y1", "x2", "y2"}
    ensures ValidateCategory("crop", JObject(map["crop" := JObject(params)])) ==
            Ok(Validated("crop", "crop", JObject(params)))
  {
    assert SoleKey(map["crop" := JObject(params)]) == "crop";
    assert params.Keys == NameSet(["x1", "y1", "x2", "y2"]);
    assert "x1" in params;
  }
}
