/**
 * image_editors/ImageFilterer.py: a named convolution filter, a chain of
 * four colour enhancements, and conversion to black and white.
 */
module ImageFilterer {
  import opened Wrappers
  import opened PyText
  import opened JsonValues
  import opened Errors
  import opened Images

  /** The keys of `VALID_FILTERS`. */
  const ValidFilterNames: seq<string> :=
    ["BLUR", "CONTOUR", "DETAIL", "EDGE_ENHANCE", "EDGE_ENHANCE_MORE",
     "EMBOSS", "FIND_EDGES", "SHARPEN", "SMOOTH", "SMOOTH_MORE"]

  const InvalidColorMessage := "Color parameters must be numbers."
  const FilteringFailedMessage := "An unknown error occured while applying color filters to the image."

  /** `VALID_FILTERS[name]`: the kernel an upper-case filter name selects. */
  function KernelOf(name: string): (r: Option<Kernel>)
    ensures r.Some? <==> name in ValidFilterNames
  {
    if name == "BLUR" then Some(Blur)
    else if name == "CONTOUR" then Some(Contour)
    else if name == "DETAIL" then Some(Detail)
    else if name == "EDGE_ENHANCE" then Some(EdgeEnhance)
    else if name == "EDGE_ENHANCE_MORE" then Some(EdgeEnhanceMore)
    else if name == "EMBOSS" then Some(Emboss)
    else if name == "FIND_EDGES" then Some(FindEdges)
    else if name == "SHARPEN" then Some(Sharpen)
    else if name == "SMOOTH" then Some(Smooth)
    else if name == "SMOOTH_MORE" then Some(SmoothMore)
    else None
  }

  /** The `ImageFilter` constant's name, as the table spells it. */
  function KernelName(k: Kernel): string {
    match k
    case Blur => "BLUR"
    case Contour => "CONTOUR"
    case Detail => "DETAIL"
    case EdgeEnhance => "EDGE_ENHANCE"
    case EdgeEnhanceMore => "EDGE_ENHANCE_MORE"
    case Emboss => "EMBOSS"
    case FindEdges => "FIND_EDGES"
    case Sharpen => "SHARPEN"
    case Smooth => "SMOOTH"
    case SmoothMore => "SMOOTH_MORE"
  }

  /**
   * `apply_filter(img, filter)`: the name is looked up upper-cased;
   * `filter.upper()` raises AttributeError on a non-string.
   */
  function ApplyFilter(img: Image, filter: Json, env: Env): (r: Result<Artifact, Fault>)
    ensures r.Ok? ==> filter.JStr? && Upper(filter.s) in ValidFilterNames &&
                      r.value.call == FilterWith(KernelOf(Upper(filter.s)).value)
  {
    if !filter.JStr? then Err(AttributeFault)
    else match KernelOf(Upper(filter.s))
      case None => Err(ImageFault(InvalidFilter(filter.s + " is an invalid filter.")))
      case Some(k) =>
        if env.backend != Completes then Err(ImageFault(ImageColorFiltering(FilteringFailedMessage)))
        else Ok(Artifact(FilterWith(k), StagingPath(env.cwd, img), None))
  }

  /** `transform_to_black_n_white(img)`: conversion to the 8-bit grey mode "L". */
  function TransformToBlackNWhite(img: Image, env: Env): (r: Result<Artifact, Fault>)
    ensures r.Ok? <==> env.backend == Completes
    ensures r.Ok? ==> r.value.call == ConvertToMode("L") && r.value.savedAs == StagingPath(env.cwd, img)
    ensures r.Err? ==> r.error == ImageFault(ImageColorFiltering(FilteringFailedMessage))
  {
    if env.backend != Completes then Err(ImageFault(ImageColorFiltering(FilteringFailedMessage)))
    else Ok(Artifact(ConvertToMode("L"), StagingPath(env.cwd, img), None))
  }

  /** An omitted enhancement factor is 1.0, which leaves the image as it is. */
  function FactorOrDefault(factor: Option<Json>): Json {
    if factor.Some? then factor.value else JFloat(1.0)
  }

  /**
   * `apply_color_filter(img, brightness=1.0, contrast=1.0, saturation=1.0,
   * sharpness=1.0)`: `None` stands for an omitted argument. All four factors
   * must be ints or floats; they are then applied one after the other,
   * saturation through the Color enhancer.
   */
  function ApplyColorFilter(img: Image, brightness: Option<Json>, contrast: Option<Json>,
                            saturation: Option<Json>, sharpness: Option<Json>, env: Env): (r: Result<Artifact, Fault>)
    ensures r.Ok? ==> IsNumber(FactorOrDefault(brightness)) && IsNumber(FactorOrDefault(contrast)) &&
                      IsNumber(FactorOrDefault(saturation)) && IsNumber(FactorOrDefault(sharpness))
    ensures r.Ok? ==> r.value.call.EnhanceChain? && |r.value.call.steps| == 4
  {
    var b, c, s, sh := FactorOrDefault(brightness), FactorOrDefault(contrast),
                       FactorOrDefault(saturation), FactorOrDefault(sharpness);
    if !(IsNumber(b) && IsNumber(c) && IsNumber(s) && IsNumber(sh)) then
      Err(ImageFault(InvalidColorParameter(InvalidColorMessage)))
    else if env.backend != Completes then
      Err(ImageFault(ImageColorFiltering(FilteringFailedMessage)))
    else
      var steps := [EnhanceStep(Brightness, b), EnhanceStep(Contrast, c), EnhanceStep(Color, s), EnhanceStep(Sharpness, sh)];
      Ok(Artifact(EnhanceChain(steps), StagingPath(env.cwd, img), None))
  }

  /** Filter names and kernels are in one-to-one correspondence. */
  lemma KernelNames(k: Kernel, name: string)
    ensures KernelOf(KernelName(k)) == Some(k)
    ensures KernelOf(name) == Some(k) ==> KernelName(k) == name
    ensures KernelName(k) in ValidFilterNames
  {
  }

  /**
   * A string filter is accepted exactly when its upper-case form is one of
   * the ten names, and then selects that name's kernel; any other string is
   * an invalid filter.
   */
  lemma FilterNamesExactly(img: Image, filter: string, env: Env)
    requires env.backend == Completes
    ensures var r := ApplyFilter(img, JStr(filter), env);
            (r.Ok? <==> Upper(filter) in ValidFilterNames) &&
            (r.Ok? ==> KernelName(r.value.call.kernel) == Upper(filter)) &&
            (r.Err? ==> r == Err(ImageFault(InvalidFilter(filter + " is an invalid filter."))))
  {
    if Upper(filter) in ValidFilterNames {
      KernelNames(KernelOf(Upper(filter)).value, Upper(filter));
    }
  }

  /** Filter names are case-insensitive. */
  lemma FilterIgnoresCase(img: Image, f1: string, f2: string, env: Env)
    requires Lower(f1) == Lower(f2) && Upper(f1) in ValidFilterNames
    ensures ApplyFilter(img, JStr(f1), env) == ApplyFilter(img, JStr(f2), env)
  {
    CaseFoldsAgree(f1, f2);
  }

  /**
   * The colour filter succeeds exactly when all four factors are numbers and
   * the library completes; a factor that is not a number is refused whatever
   * the library would do.
   */
  lemma ColorParametersChecked(img: Image, b: Json, c: Json, s: Json, sh: Json, env: Env)
    ensures ApplyColorFilter(img, Some(b), Some(c), Some(s), Some(sh), env).Ok? <==>
              IsNumber(b) && IsNumber(c) && IsNumber(s) && IsNumber(sh) && env.backend == Completes
    ensures !(IsNumber(b) && IsNumber(c) && IsNumber(s) && IsNumber(sh)) ==>
              ApplyColorFilter(img, Some(b), Some(c), Some(s), Some(sh), env) ==
              Err(ImageFault(InvalidColorParameter(InvalidColorMessage)))
  {
  }

  /**
   * The enhancements run brightness, contrast, colour, sharpness, in that
   * order, each with its own factor.
   */
  lemma EnhancementOrder(img: Image, b: Json, c: Json, s: Json, sh: Json, env: Env)
    requires IsNumber(b) && IsNumber(c) && IsNumber(s) && IsNumber(sh) && env.backend == Completes
    ensures ApplyColorFilter(img, Some(b), Some(c), Some(s), Some(sh), env).Ok?
    ensures var steps := ApplyColorFilter(img, Some(b), Some(c), Some(s), Some(sh), env).value.call.steps;
            |steps| == 4 &&
            steps[0] == EnhanceStep(Brightness, b) && steps[1] == EnhanceStep(Contrast, c) &&
            steps[2] == EnhanceStep(Color, s) && steps[3] == EnhanceStep(Sharpness, sh)
  {
  }

  /** Every omitted factor is 1.0. */
  lemma DefaultFactors(img: Image, env: Env)
    ensures ApplyColorFilter(img, None, None, None, None, env) ==
            ApplyColorFilter(img, Some(JFloat(1.0)), Some(JFloat(1.0)), Some(JFloat(1.0)), Some(JFloat(1.0)), env)
  {
  }

  /** A library failure in any of the three operations is an ImageColorFilteringError. */
  lemma FilteringFailures(img: Image, filter: string, b: Json, c: Json, s: Json, sh: Json, env: Env)
    requires env.backend != Completes
    requires Upper(filter) in ValidFilterNames
    requires IsNumber(b) && IsNumber(c) && IsNumber(s) && IsNumber(sh)
    ensures ApplyFilter(img, JStr(filter), env) == Err(ImageFault(ImageColorFiltering(FilteringFailedMessage)))
    ensures ApplyColorFilter(img, Some(b), Some(c), Some(s), Some(sh), env) ==
            Err(ImageFault(ImageColorFiltering(FilteringFailedMessage)))
    ensures TransformToBlackNWhite(img, env) == Err(ImageFault(ImageColorFiltering(FilteringFailedMessage)))
  {
  }
}
