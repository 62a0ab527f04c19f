/**
 * The exception classes of image_editors/errors/image_errors.py and
 * errors/json_errors.py, each a plain carrier of a message, and the Python
 * exceptions the server's `try` block distinguishes.
 */
module Errors {

  /** One constructor per exception class raised by the image editors. */
  datatype ImageError =
    | UnauthorizedImageFormat(message: string)
    | SameImageFormat(message: string)
    | ImageConversion(message: string)
    | InvalidImageSizeParameter(message: string)
    | InvalidImageSizeParameterType(message: string)
    | ImageResizing(message: string)
    | ImageBgRemoval(message: string)
    | InvalidFilter(message: string)
    | InvalidColorParameter(message: string)
    | ImageColorFiltering(message: string)
    | InvalidRotationDegree(message: string)
    | InvalidRotationOrientation(message: string)
    | InvalidFlippingDirection(message: string)
    | ImagePositionModifying(message: string)
    | InvalidCoordinateType(message: string)
    | InvalidCoordinate(message: string)
    | ImageCropping(message: string)

  /** What a step of the request pipeline can raise. */
  datatype Fault =
    | ImageFault(error: ImageError)   // one of the editor exception classes
    | JsonFault(message: string)      // JsonError raised by the request validator
    | KeyFault                        // KeyError
    | AttributeFault                  // AttributeError, e.g. `.upper()` on a number
    | OtherFault                      // any other exception (TypeError, ZeroDivisionError, ...)

  /**
   * What leaves `get_editted_image`: a JsonError with a message (reported to
   * the client), or an exception it does not catch (an internal failure).
   */
  datatype ServerError = JsonError(message: string) | InternalError
}
