/**
 * image_editors/ImageBgRemover.py: background removal, allowed for PNG
 * images only.
 */
module ImageBgRemover {
  import opened Wrappers
  import opened PyText
  import opened Errors
  import opened Images
  import opened FileHandling
  import opened ImageConverter

  const OnlyPngMessage := "Only PNG image files can have their backgrounds removed."
  const RemovalFailedMessage := "An unknown error occurred while trying to remove the backround from the given image."

  /**
   * `remove_bg(img)`: the image's declared format must be of type "png";
   * the result is staged under the input's stem and extension.
   */
  function RemoveBg(img: Image, env: Env): (r: Result<Artifact, Fault>)
    ensures r.Ok? ==> IsImgOfType(img.format, "png") && r.value.call == RemoveBackground &&
                      r.value.savedAs == StagingPath(env.cwd, img)
    ensures !IsImgOfType(img.format, "png") ==> r == Err(ImageFault(UnauthorizedImageFormat(OnlyPngMessage)))
  {
    if !IsImgOfType(img.format, "png") then Err(ImageFault(UnauthorizedImageFormat(OnlyPngMessage)))
    else if env.backend != Completes then Err(ImageFault(ImageBgRemoval(RemovalFailedMessage)))
    else Ok(Artifact(RemoveBackground, StagingPath(env.cwd, img), None))
  }

  /**
   * Removal succeeds exactly for images whose format is "png" in any case
   * when the library completes; a PNG image the library fails on gives an
   * ImageBgRemovalError.
   */
  lemma OnlyPngImages(img: Image, env: Env)
    ensures RemoveBg(img, env).Ok? <==> Lower(img.format) == "png" && env.backend == Completes
    ensures Lower(img.format) == "png" && env.backend != Completes ==>
              RemoveBg(img, env) == Err(ImageFault(ImageBgRemoval(RemovalFailedMessage)))
  {
    assert Upper("png") == "PNG";
    IsImgOfTypeExactly(img.format, "png");
  }

  /**
   * The decision looks at the declared format, never at the file name: two
   * images with the same format are accepted or refused alike.
   */
  lemma DecidedByFormat(img1: Image, img2: Image, env: Env)
    requires img1.format == img2.format
    ensures RemoveBg(img1, env).Ok? == RemoveBg(img2, env).Ok?
    ensures RemoveBg(img1, env).Err? ==> RemoveBg(img1, env).error == RemoveBg(img2, env).error
  {
  }

  /**
   * The result is saved in the temp folder under the input's stem and its
   * lower-cased extension.
   */
  lemma RemovedBackgroundFile(img: Image, env: Env)
    requires RemoveBg(img, env).Ok? && ImageExtension(img.filename) != ""
    ensures SplitExt(Basename(RemoveBg(img, env).value.savedAs)) ==
            (PureFilename(img.filename), Lower(ImageExtension(img.filename)))
  {
    StagingPathKeepsStemAndExtension(env.cwd, img);
  }
}
