# ImageHacker back end: request validation, dispatch and editor checks

ImageHacker's back end receives an image and a JSON payload such as

    action: { "crop": { "crop": { x1: 90, y1: 120, x2: 250, y2: 200 } } }

and applies one editing operation to the image. This project models the
part of that service that decides what happens to a request:

- the operation registry (`helpers/server_helpers.py`): six categories,
  eleven operations, and the parameter names each operation requires;
- `get_editted_image` (`server.py`), in three parts:
  - a chain of guards on the shape of the `action` object;
  - the loop that turns digit strings among the parameters into integers;
  - the if/elif router that calls exactly one editor with its parameters
    looked up by name, and re-wraps every editor error as a `JsonError`
    with the same message;
- `extract_image_format_from_request`, whose format defaults to "PNG" when
  it is null;
- the six image editors: the order of their checks, the errors they raise,
  their size arithmetic, the output path they stage the result under, and
  the format tag of the result;
- the filename helpers (`image_editors/helpers/file_handling.py`),
  modelled on POSIX `os.path.basename`, `os.path.splitext` and
  `os.path.join`.

Pixel work (PIL, rembg) is a black box. An `Env` holds the working
directory and whether the library call completes, raises ValueError or
TypeError, or raises something else. An editor's success is an `Artifact`
with these parts:

- the pixel call it makes, such as `CropBox(x1, y1, x2, y2)`,
  `RotateBy(angle)` or `EnhanceChain(steps)`;
- the path the result is saved under;
- the format tag written on the result, if any.

Python values received as JSON are the `Json` datatype:
- Python truthiness and `len` are modelled on it;
- `isinstance(v, int)` holds for booleans too, as in Python.

The Python exceptions the handler distinguishes are the `Fault` datatype:
- `KeyError` and `AttributeError` are separate constructors;
- the seventeen editor exception classes are `ImageFault`;
- everything else, such as a `TypeError` from `len(None)` or a
  `ZeroDivisionError`, is `OtherFault`, which the route reports as a
  server failure.

Where the code does something one might not expect, the model follows the
code and a lemma states the behaviour:

- **The router has eleven branches.** Both `filter` and `colorFilter` are
  operations.
- **Rotation accepts 0 to 360 degrees only.** A negative angle such as -90 is
  refused. Clockwise rotation is requested with the orientation
  `CLOCKWISE` and is then passed to PIL as a negative angle
  (`ImagePositionModifier.RotationAngle`).
- **The same-format check compares strings, not formats.** A JPEG image
  converted to "JPG" is not refused
  (`ImageConverter.JpegToJpgIsNotSameFormat`).
- **A crop never keeps the last column or row.** `crop_img` demands
  `x2 <= width - 1` and `y2 <= height - 1`, and PIL's box is half-open
  (`ImageCropper.CropNeverKeepsLastColumnOrRow`).
- **The keep-ratio flag is "w" or "h".** Any other value is an
  InvalidImageSizeParameterTypeError; the flag is checked after the size.

## Model

| member | source | states |
|---|---|---|
| PyText.Lower | image_editors/ImageConverter.py:26 | `str.lower` keeps the length and lower-cases each ASCII letter, leaving every other character |
| PyText.Upper | image_editors/ImageConverter.py:30 | `str.upper` keeps the length and upper-cases each ASCII letter, leaving every other character |
| PyText.CaseFoldsAgree | image_editors/ImageConverter.py:55-59 | two strings are equal lower-cased exactly when they are equal upper-cased, so the upper-case lookups and the lower-case comparisons of the editors agree |
| PyText.LowerOfUpper | image_editors/ImageConverter.py:26-30 | lower-casing an upper-cased string is lower-casing it |
| PyText.CaseOfConcat | image_editors/helpers/file_handling.py:21 | case mapping distributes over concatenation |
| PyText.CaseKeepsNonLetter | image_editors/helpers/file_handling.py:21 | case mapping neither adds nor removes a character that is not a letter, such as '.' or '/' |
| PyText.NatToDecimal | image_editors/ImageResizer.py:91 | `str(n)` of a natural number is a non-empty digit string without a leading zero |
| PyText.IntToDecimal | image_editors/ImageResizer.py:91 | `str(i)` is non-empty and starts with '-' exactly when `i` is negative; what follows the sign is a digit string without a leading zero that reads back as the magnitude of `i` |
| PyText.IsDigitString | server.py:420 | `str.isdigit` on ASCII text: non-empty and only digits; NatToDecimal produces such strings and CoercionChangesOnlyDigitStrings converts exactly these |
| PyText.DigitsValue | server.py:421 | `int(s)` of a digit string, leading zeros allowed; DecimalRoundTrip shows it reads back what NatToDecimal writes, and CoercionExamples fixes "007" to 7 |
| PyText.DecimalRoundTrip | server.py:420-421 | `int()` reads back the number that `str()` wrote |
| JsonValues.PyLen | server.py:372 | `len` is the length of a string, a list or an object, is undefined (a TypeError) for every other value, and is zero exactly when the value is falsy |
| JsonValues.IntValue | image_editors/ImageCropper.py:25 | `isinstance(v, int)` holds exactly for integers and booleans; an integer stands for itself, `true` for 1 and `false` for 0 |
| JsonValues.Truthy | server.py:399-405 | Python truthiness: `None`, `False`, zero and empty strings, lists and objects are false; PyLen shows it agrees with `len` being zero, and ParameterPresence uses it for the parameter checks |
| JsonValues.IsNumber | image_editors/ImageFilterer.py:83-86 | `isinstance(v, float) or isinstance(v, int)`, booleans included; ColorParametersChecked shows the colour filter accepts exactly these |
| JsonValues.PyStr | image_editors/ImageResizer.py:91 | `str(v)` in an f-string: None, True and False by name, an integer by IntToDecimal, a string as itself; KeepRatioUnknownFlag puts it in the error message |
| FileHandling.Basename | image_editors/helpers/file_handling.py:11 | `os.path.basename` holds no '/' and is a suffix of the path; with BasenameFollowsLastSlash it is the whole path or starts right after a '/', so it is the part after the last '/' |
| FileHandling.BasenameFollowsLastSlash | image_editors/helpers/file_handling.py:11 | the base name is the whole path, or the character just before it is '/' |
| FileHandling.SplitExt | image_editors/helpers/file_handling.py:16 | `os.path.splitext`: stem and extension concatenate to the input; the extension is empty or a dot followed by no dot or slash; a non-empty extension follows a stem that is not all dots |
| FileHandling.PureFilename | image_editors/helpers/file_handling.py:9-11 | the stem of the base name; StemAndExtensionRebuildBasename and BasenameParts show it is the base name without its extension and holds no '/' |
| FileHandling.ImageExtension | image_editors/helpers/file_handling.py:13-16 | the extension of the base name, dot included; BasenameParts shows it is empty or a dot followed by neither '.' nor '/' |
| FileHandling.NewImageFilename | image_editors/helpers/file_handling.py:18-22 | the new path is at least as long as the name it ends with; NewImageFilenameShape states its exact shape |
| FileHandling.PathJoin | image_editors/helpers/file_handling.py:22 | `os.path.join` returns an absolute second part unchanged; otherwise it concatenates the two parts when the first is empty or ends with '/', and joins them with a single '/' in every other case |
| FileHandling.StemAndExtensionRebuildBasename | image_editors/helpers/file_handling.py:9-16 | the pure filename followed by the extension is the basename, and the extension is empty or starts with '.' |
| FileHandling.SplitExtOfStemAndExtension | image_editors/helpers/file_handling.py:11-16 | splitting a stem followed by an extension gives back the stem and the extension |
| FileHandling.BasenameParts | image_editors/helpers/file_handling.py:9-16 | neither the pure filename nor the extension holds '/', and a non-empty extension is a proper extension after a stem that is not all dots |
| FileHandling.LowerKeepsExtension | image_editors/helpers/file_handling.py:21 | lower-casing an extension keeps it an extension without '/' |
| FileHandling.NewImageFilenameShape | image_editors/helpers/file_handling.py:18-22 | the new file name is the folder, '/', then the name: the lower-cased extension is appended directly when it starts with '.', after an inserted '.' otherwise; its basename is that name |
| Images.TempFolder | image_editors/ImageResizer.py:21 | the temp folder path is non-empty and has no trailing '/' |
| Images.StagingPath | image_editors/ImageBgRemover.py:22-29 | the path every editor saves to; StagingPathShape, StagingBasename and StagingPathKeepsStemAndExtension state its shape |
| Images.FormatTag | image_editors/ImageResizer.py:28-29 | the format tag has no lower-case letter and is never "JPG"; FormatTagOfExtension states its value |
| Images.FormatTagOfExtension | image_editors/ImageResizer.py:28-29 | the format tag of an extension is its upper-cased name without the dot, with JPG mapped to JPEG |
| Images.StagingPathKeepsStemAndExtension | image_editors/ImageBgRemover.py:22-29 | the staging path is in the temp folder, named by the input's pure filename and lower-cased extension, and splits back into the two |
| Images.StagingPathShape | image_editors/ImageBgRemover.py:22-29 | for an input with an extension, the staged path is the temp folder, '/', the stem and the lower-cased extension |
| Images.StagingBasename | image_editors/ImageBgRemover.py:22-29 | for an input with an extension, the staged file's base name is the stem followed by the lower-cased extension |
| Images.StagedNameSplits | image_editors/ImageBgRemover.py:22-29 | the stem followed by the lower-cased extension splits back into the two |
| ServerHelpers.ParseOperation | server.py:425-456 | the operation a name denotes, if any, is the one whose name it is |
| ServerHelpers.ParseOperationName | server.py:425-456 | every operation's name is parsed back to that operation |
| ServerHelpers.ValidActionTypes | helpers/server_helpers.py:8-11 | six category names; SixCategories shows they are distinct and are the six categories |
| ServerHelpers.ValidActionsByActionType | helpers/server_helpers.py:13-35 | never empty; OperationsPartitioned, NoOperationInTwoCategories and Sentinels give its contents |
| ServerHelpers.ValidParameterNamesByAction | helpers/server_helpers.py:37-71 | a tuple of names is never empty; ParameterEntries and Sentinels give its contents |
| ServerHelpers.SixCategories | helpers/server_helpers.py:8-11 | there are six category names, without repetition, one per category |
| ServerHelpers.OperationsPartitioned | helpers/server_helpers.py:13-35 | within a known category, an action is listed exactly when it names an operation of that category |
| ServerHelpers.NoOperationInTwoCategories | helpers/server_helpers.py:16-32 | no action is listed under two categories |
| ServerHelpers.ParameterEntries | helpers/server_helpers.py:37-68 | an operation has no parameter entry exactly when it is bgRemove or transformBlackNWhite; every other operation has a non-empty, duplicate-free tuple of names that is not the sentinel |
| ServerHelpers.Sentinels | helpers/server_helpers.py:34-71 | an unknown category lists only "Invalid Action Type", and an unknown action requires only "Invalid Action" |
| ImageResizer.Resize | image_editors/ImageResizer.py:12-38 | resizing succeeds exactly when the library completes; a success asks for the given width and height, is saved under the staging path and tags the extension's format; a ValueError or TypeError is an InvalidImageSizeParameterError, anything else an ImageResizingError |
| ImageResizer.PositiveSizeParameter | image_editors/ImageResizer.py:46-50 | a size parameter is accepted exactly when it is an int greater than zero, and otherwise raises InvalidImageSizeParameterError |
| ImageResizer.ResizeComputed | image_editors/ImageResizer.py:65-74 | a computed size is passed on unchanged, saved under the staging path and tagged with the extension's format; any library failure is an ImageResizingError |
| ImageResizer.ResizeKeepRatio | image_editors/ImageResizer.py:40-91 | a size that is not a positive int is refused whatever the flag; with a valid size, it succeeds exactly when the flag ("w" when omitted) is "w" with a non-zero width or "h" with a non-zero height and the library completes; then a library failure is an ImageResizingError and a zero side a ZeroDivisionError; a success resizes, is saved under the staging path and tags the extension's format |
| ImageResizer.ResizeByPercentage | image_editors/ImageResizer.py:93-130 | a percentage that is not a positive int is refused; with a valid one, it succeeds exactly when the library completes and fails with ImageResizingError otherwise; a success resizes, is saved under the staging path and tags the extension's format |
| ImageResizer.TruncatedRatio | image_editors/ImageResizer.py:118-119 | the quotient computed is `a * b / c` truncated |
| ImageResizer.KeepWidthSize | image_editors/ImageResizer.py:62-70 | with flag "w" or no flag, the width is the given size and the height is `height * size / width` truncated |
| ImageResizer.KeepHeightSize | image_editors/ImageResizer.py:76-84 | with flag "h", the height is the given size and the width is `width * size / height` truncated |
| ImageResizer.KeepRatioUnknownFlag | image_editors/ImageResizer.py:90-91 | a valid size with a flag other than "w" and "h" raises InvalidImageSizeParameterTypeError naming the flag |
| ImageResizer.PercentageSize | image_editors/ImageResizer.py:118-126 | each side is the original side times the percentage over 100, truncated independently |
| ImageResizer.ResizedFormatTag | image_editors/ImageResizer.py:28-29 | a resized image is tagged with its upper-cased extension without the dot, JPG becoming JPEG |
| ImageResizer.KeepRatioExample | image_editors/ImageResizer.py:76-80 | 400 x 200 resized to height 100 becomes 200 x 100 |
| ImageResizer.HalfSizeExample | image_editors/ImageResizer.py:118-119 | 50% of 300 x 200 is 150 x 100 |
| ImageResizer.ThirdSizeExample | image_editors/ImageResizer.py:118-119 | 33% of 300 x 200 truncates to 99 x 66 |
| ImageCropper.GetBottomRightCoors | image_editors/ImageCropper.py:13-18 | the bottom-right coordinates are those of the last pixel, one less than the width and the height |
| ImageCropper.CropImg | image_editors/ImageCropper.py:21-73 | a successful crop uses the four int coordinates as its box, which has positive width and height and lies inside the image, and tags the extension's format |
| ImageCropper.CoordinateTypeCheckedFirst | image_editors/ImageCropper.py:25-28 | a coordinate that is not an int raises InvalidCoordinateTypeError before any other check |
| ImageCropper.CropSucceedsExactly | image_editors/ImageCropper.py:25-73 | integer coordinates crop exactly when they are non-negative, x2 > x1, y2 > y1, the corner is within (width-1, height-1) and the library completes; bad coordinates give InvalidCoordinateError and a library failure ImageCroppingError |
| ImageCropper.CoordinateChecksInOrder | image_editors/ImageCropper.py:31-53 | the negativity, right-left, bottom-top and bounds checks run in that order, each with its own message |
| ImageCropper.CropNeverKeepsLastColumnOrRow | image_editors/ImageCropper.py:49-65 | a successful crop box ends at most at width-1 and height-1 |
| ImageCropper.CropExamples | image_editors/ImageCropper.py:49-53 | on a 640 x 480 image the corner (639, 479) is accepted and (640, 479) is out of bounds |
| ImagePositionModifier.RotateImg | image_editors/ImagePositionModifier.py:22-61 | a successful rotation had int degrees in [0, 360] and turns by that many degrees, in one direction or the other |
| ImagePositionModifier.FlipImg | image_editors/ImagePositionModifier.py:63-87 | a successful flip had a string direction naming a table entry once upper-cased, and applies that entry's transposition |
| ImagePositionModifier.DegreesCheckedFirst | image_editors/ImagePositionModifier.py:30-35 | degrees that are not an int, or lie outside [0, 360], raise InvalidRotationDegreeError before the orientation is looked at |
| ImagePositionModifier.RotationAngle | image_editors/ImagePositionModifier.py:38-55 | the rotation succeeds exactly for the orientations CLOCKWISE and ANTI_CLOCKWISE in any case; clockwise passes `-degrees`, anticlockwise `degrees`; any other orientation raises InvalidRotationOrientationError naming it |
| ImagePositionModifier.ValidRotation | image_editors/ImagePositionModifier.py:23-57 | with an int in [0, 360], a string orientation and a completing library, the rotation is refused exactly when the upper-cased orientation is not valid, and otherwise turns by `-degrees` for CLOCKWISE and `degrees` otherwise, saved under the staging path with no format tag |
| ImagePositionModifier.OrientationIgnoresCase | image_editors/ImagePositionModifier.py:38-43 | orientations that differ only in case rotate alike |
| ImagePositionModifier.DefaultOrientation | image_editors/ImagePositionModifier.py:23 | an omitted orientation is ANTI_CLOCKWISE |
| ImagePositionModifier.FlipDirections | image_editors/ImagePositionModifier.py:64-81 | HORIZONTAL flips left-right and VERTICAL top-bottom, in any case; any other direction raises InvalidFlippingDirectionError naming it |
| ImagePositionModifier.BackendFailures | image_editors/ImagePositionModifier.py:54-87 | a library failure in a valid rotation or flip is an ImagePositionModifyingError with the operation's message |
| ImageConverter.FileFormatExtensions | image_editors/ImageConverter.py:15-20 | a key has extensions exactly when it is one of BMP, ICO, JPG, PNG |
| ImageConverter.IsImgOfType | image_editors/ImageConverter.py:22-32 | `is_img_of_type`; IsImgOfTypeExactly states which formats each type accepts |
| ImageConverter.IsImgAllowed | image_editors/ImageConverter.py:34-45 | the loop collecting one test per format name returns whether the image is of some allowed type |
| ImageConverter.IsImgOfTypeExactly | image_editors/ImageConverter.py:22-32 | an image is of a type exactly when that type upper-cased is a table key whose extensions hold the image's lower-cased, dotted format; unknown types give false |
| ImageConverter.AllowedFormats | image_editors/ImageConverter.py:15-45 | an image is allowed exactly when its format lower-cased is bmp, ico, jpg, jpeg or png |
| ImageConverter.AllowedIsOneOfFour | image_editors/ImageConverter.py:39-45 | being allowed is being of type BMP, ICO, JPG or PNG |
| ImageConverter.OneOfFourExactly | image_editors/ImageConverter.py:15-32 | the four type tests together accept exactly the five lower-case names |
| ImageConverter.FormatTypesExactly | image_editors/ImageConverter.py:15-32 | type BMP is the format "bmp", ICO "ico", JPG "jpg" or "jpeg", and PNG "png", in any case |
| ImageConverter.FormatNamesAreLetters | image_editors/ImageConverter.py:15-20 | the format names are three upper-case letters |
| ImageConverter.FormatNameShape | image_editors/ImageConverter.py:55 | a target accepted as a format name is non-empty and holds neither '.' nor '/' |
| ImageConverter.Convert | image_editors/ImageConverter.py:47-81 | a disallowed input format raises UnauthorizedImageFormatError naming it; a success had an allowed input, a string target naming a format in any case and different from the input format ignoring case, saves and reopens, and tags the target as given |
| ImageConverter.ConvertChecksInOrder | image_editors/ImageConverter.py:52-81 | after the input check: an unknown target is unauthorized, then a same-format target is refused, then a library failure is an ImageConversionError naming the target upper-cased |
| ImageConverter.ConvertSucceedsExactly | image_editors/ImageConverter.py:51-76 | a string target converts exactly when the input is allowed, the target names a format, the two differ ignoring case and the library completes |
| ImageConverter.ConvertedFileName | image_editors/ImageConverter.py:65-71 | the converted file is in the temp folder, named by the input's pure filename, '.', and the target lower-cased |
| ImageConverter.JpegToJpgIsNotSameFormat | image_editors/ImageConverter.py:59-60 | a JPEG image converted to "JPG" succeeds and is tagged "JPG" |
| ImageConverter.PngToPngIsSameFormat | image_editors/ImageConverter.py:59-60 | a PNG image converted to "png" raises SameImageFormatError |
| ImageConverter.PngToIcoSucceeds | image_editors/ImageConverter.py:75 | a PNG image converted to "ico" succeeds and is tagged "ico" |
| ImageFilterer.KernelOf | image_editors/ImageFilterer.py:15-26 | a name selects a kernel exactly when it is one of the ten table keys |
| ImageFilterer.ApplyFilter | image_editors/ImageFilterer.py:29-52 | a successful filter had a string name whose upper-case form is a key, and applies that key's kernel |
| ImageFilterer.TransformToBlackNWhite | image_editors/ImageFilterer.py:55-75 | black and white succeeds exactly when the library completes, converting to mode "L"; a failure is an ImageColorFilteringError |
| ImageFilterer.ApplyColorFilter | image_editors/ImageFilterer.py:78-121 | a successful colour filter had four numeric factors and applies a chain of four enhancements |
| ImageFilterer.KernelNames | image_editors/ImageFilterer.py:15-26 | names and kernels correspond one to one |
| ImageFilterer.FilterNamesExactly | image_editors/ImageFilterer.py:33-46 | a string filter succeeds exactly when its upper-case form is a key, selecting that key's kernel; otherwise InvalidFilterError names the filter |
| ImageFilterer.FilterIgnoresCase | image_editors/ImageFilterer.py:33-46 | filter names that differ only in case filter alike |
| ImageFilterer.ColorParametersChecked | image_editors/ImageFilterer.py:83-90 | the colour filter succeeds exactly when all four factors are ints or floats and the library completes; a non-number raises InvalidColorParameterError |
| ImageFilterer.EnhancementOrder | image_editors/ImageFilterer.py:104-114 | with four numeric factors and a completing library the filter succeeds, and the enhancements run brightness, contrast, colour (saturation), sharpness, each with its own factor |
| ImageFilterer.DefaultFactors | image_editors/ImageFilterer.py:79 | every omitted factor is 1.0 |
| ImageFilterer.FilteringFailures | image_editors/ImageFilterer.py:45-121 | a library failure in any of the three operations is an ImageColorFilteringError |
| ImageBgRemover.RemoveBg | image_editors/ImageBgRemover.py:14-38 | a non-PNG image raises UnauthorizedImageFormatError; a success removes the background and stages the result under the input's stem and extension |
| ImageBgRemover.OnlyPngImages | image_editors/ImageBgRemover.py:19-38 | removal succeeds exactly when the format is "png" in any case and the library completes; a library failure on a PNG is an ImageBgRemovalError |
| ImageBgRemover.DecidedByFormat | image_editors/ImageBgRemover.py:19-20 | images with the same format are accepted or refused alike, whatever their file names |
| ImageBgRemover.RemovedBackgroundFile | image_editors/ImageBgRemover.py:22-29 | the result file splits into the input's pure filename and lower-cased extension |
| Server.ExtractImageFormat | server.py:325-336 | the `imageFormat` field, "PNG" when null; a missing field is a JsonError with its message; a payload that is not an object is a TypeError |
| Server.SoleKey | server.py:376 | the first key of a one-entry object is its only key |
| Server.ValidateAction | server.py:369-413 | an accepted request names a category of the registry and an action listed under it |
| Server.ValidateCategory | server.py:383-413 | what a known category's guards accept is an action listed under that category |
| Server.ValidateParameters | server.py:397-413 | accepted parameters are passed on unchanged |
| Server.Coerce | server.py:418-421 | a value changes only when it is a digit string, and then becomes a non-negative int |
| Server.CoerceAll | server.py:416-421 | the conversion keeps the keys |
| Server.CoerceDigitStrings | server.py:416-421 | the loop rewriting one key at a time ends with every value converted |
| Server.CoercedParams | server.py:407-421 | every object of parameters is converted, an empty one included, and any other value is passed on as it is |
| Server.Arg | server.py:429 | a lookup finds the value of a present key, raises KeyError for a missing one and TypeError on a non-object |
| Server.ArgumentNames | server.py:425-456 | a branch reads parameters exactly when its operation takes some |
| Server.Args | server.py:429-456 | the lookups give one value per name, and can only fail with a KeyError or a TypeError |
| Server.CallOf | server.py:425-456 | the call built for an operation runs that operation's editor and passes exactly the looked-up values, in order |
| Server.Route | server.py:425-456 | bgRemove and transformBlackNWhite reach their editor whatever the parameters |
| Server.Run | server.py:425-456 | an editor fails only with one of its own errors, an AttributeError or another Python error; never a KeyError or a JsonError |
| Server.Dispatch | server.py:425-456 | a KeyError comes only from the parameter lookups, and an editor error only once every lookup has succeeded |
| Server.Wrap | server.py:461-469 | editor errors and JsonErrors keep their message, KeyError and AttributeError get fixed messages, and only other errors are server failures |
| Server.EditedImage | server.py:363-472 | a request the guards refuse fails with the wrapped guard error |
| Server.GetEdittedImage | server.py:363-472 | the handler, converting in place, gives the result of validation, conversion and dispatch |
| ServerProperties.ParametersAcceptedExactly | server.py:399-413 | within a known category, the parameter guards accept exactly the well-formed parameters of a listed operation |
| ServerProperties.CategoryAcceptedExactly | server.py:383-413 | within a known category, the guards accept exactly an object naming one well-formed operation of it |
| ServerProperties.CategoryValidated | server.py:383-413 | what the category guards accept is a well-formed operation of that category |
| ServerProperties.WellFormedCategoryIsKnown | server.py:379-380 | a well-formed category object is under a registered category name |
| ServerProperties.ValidationAcceptsExactlyWellFormed | server.py:369-413 | the guards accept a payload exactly when it is well formed: one known category holding one of its operations, with exactly its parameter names or none |
| ServerProperties.CategoryCountMustBeOne | server.py:372-373 | an `action` whose length is not one is refused with its message |
| ServerProperties.UnknownCategoryRejected | server.py:379-380 | a category outside the registry is refused, naming it |
| ServerProperties.OperationCountMustBeOne | server.py:386-387 | inside a known category, an object whose length is not one is refused |
| ServerProperties.OperationOutsideItsCategoryRejected | server.py:390-394 | an operation that does not belong to the named category is refused, naming it |
| ServerProperties.RotateUnderResizeRejected | server.py:393-394 | `rotate` under `resize` is refused |
| ServerProperties.ParameterPresence | server.py:400-405 | bgRemove and transformBlackNWhite refuse truthy parameters; every other operation refuses falsy ones |
| ServerProperties.ParameterNamesAsASet | server.py:408-413 | parameters are accepted exactly when their key set equals the set of required names, in any order; otherwise the wrong-parameters error names the action |
| ServerProperties.CoercionChangesOnlyDigitStrings | server.py:416-421 | the conversion keeps the keys and changes exactly the digit strings, each into the integer it spells |
| ServerProperties.CoercionReadsDecimals | server.py:420-421 | the decimal spelling of a natural number is converted to that number |
| ServerProperties.CoercionIdempotent | server.py:416-421 | converting twice is converting once |
| ServerProperties.CoercionExamples | server.py:420-421 | "007" becomes 7, while "-5", " 5", "2.5" and "" stay strings |
| ServerProperties.ArgsByName | server.py:429-456 | on an object, the lookups succeed exactly when every name is present, then find each name's value in order, and otherwise raise KeyError |
| ServerProperties.RouterReadsRegisteredNames | server.py:425-456 | every branch reads exactly the registry's parameter names for its operation, in the registry's order, and the two operations without parameters read none |
| ServerProperties.RouteNeedsEveryName | server.py:425-456 | a branch reaches its editor exactly when every name it reads is present; otherwise it raises KeyError |
| ServerProperties.RouteFindsEveryParameter | server.py:409-456 | given exactly the registry's names, no lookup of the router fails |
| ServerProperties.RouteConvert | server.py:428-429 | convert receives `outputImageFormat` |
| ServerProperties.RouteCrop | server.py:431-432 | crop receives `x1`, `y1`, `x2`, `y2` in that order |
| ServerProperties.RouteFilter | server.py:434-435 | filter receives `filter` |
| ServerProperties.RouteColorFilter | server.py:437-438 | colorFilter receives `brightness`, `contrast`, `saturation`, `sharpness` in that order |
| ServerProperties.RouteRotate | server.py:443-444 | rotate receives `degrees` and `orientation` |
| ServerProperties.RouteFlip | server.py:446-447 | flip receives `direction` |
| ServerProperties.RouteResize | server.py:449-450 | resize receives `width` and `height` |
| ServerProperties.RouteKeepRatio | server.py:452-453 | resizeKeepRatio receives `dimparam` and `dimparamType` |
| ServerProperties.RoutePercentage | server.py:455-456 | resizeByPercentage receives `percentage` |
| ServerProperties.RouteWithoutParameters | server.py:425-441 | bgRemove and transformBlackNWhite call their editors without reading any parameter |
| ServerProperties.ValidatedOperation | server.py:369-413 | an accepted request names an operation of its category, with parameters exactly when it takes some, and then exactly the required names |
| ServerProperties.ValidatedRequestReachesOneEditor | server.py:425-459 | an accepted request names one of the eleven operations (the `else: pass` branch is unreachable) and reaches that operation's editor with the converted parameters; the handler returns the editor's result, or its error wrapped |
| ServerProperties.EditorErrorsKeepTheirMessage | server.py:468-469 | an editor error reaches the client as a JsonError with the identical message |
| ServerProperties.InternalErrorSources | server.py:461-469 | a server failure comes only from an uncaught Python error in the guards or in the editor |
| ServerProperties.CropPayloadValidates | server.py:96-105 | the documented crop payload passes the guards as crop/crop with its four coordinates |
| ServerProperties.CropCategoryValidates | server.py:383-413 | inside the crop category, one crop operation with its four coordinate names passes |

## Left out

- The Flask routes, HTTP error handlers, `custom_response` and the image proxy. These are transport and network I/O.
- The `/edit-img` route itself, which calls `extract_image_format_from_request` outside its `try`. It also reads `editted_image.format.lower()`, and rotate, flip, filter, colour filter, black and white and background removal leave that format unset (`None` in the model).
- Base64 decoding and encoding, `BytesIO`, and the save/reopen of the input image. These are codec plumbing in foreign libraries.
- The PIL and rembg pixel operations. Each is a black box that completes or raises, and the model records which call with which arguments.
- The float values of the colour factors. Only their int-or-float check and the order of application are modelled.
- `get_unique_identifier`, `get_temp_filename` and `clear_out_folder`: randomness and file-system side effects. The working directory is an `Env` parameter.
- `tester.py`, which only opens and shows an image.
- ImageResizer.KeepWidthSize: the source computes `int(height * (dimparam / width))` with a float quotient, and the model uses exact truncating division. The float result can be one less at ordinary sizes. For a 100 x 100 image, a size of 29 and flag "w", the double product `100 * 0.29` is 28.999999999999996, so the source asks for height 28, while the model gives 29.
- ImageResizer.KeepHeightSize: the same float rounding applies to `int(width * (dimparam / height))`. The model's width can be one more than the source's.
- ImageResizer.ResizeKeepRatio: the sizes it passes are the exact truncated ratios, not the float expressions above.
- ImageResizer.ResizeByPercentage: `int(width * percentage / 100)` divides an exact integer product once. It differs from exact truncation only when the product is too large for a double.
- Server.Coerce: the model's `isdigit` accepts ASCII digits only. Python's `str.isdigit` also accepts other Unicode digits, such as superscripts and Arabic-Indic digits.
- PyText.Lower: ASCII-only case mapping. Python also maps non-ASCII letters.
- PyText.Upper: ASCII-only case mapping, for the same reason.
- JsonValues.PyStr: floats, lists and objects are rendered as a placeholder in error messages. Python's `repr` of those values is not modelled.
- Server.GetEdittedImage: the order in which the conversion loop visits keys is not modelled. Each step reads and writes only its own key, so the order does not matter.
- The printing of exceptions to standard output.
- The exception class files. Their classes are constructors of one error datatype.
