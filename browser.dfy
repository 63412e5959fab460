/**
 * Values that the browser hands to the frontend. Reading and decoding files,
 * drawing on a canvas, `fetch` and the blob URL store are not modelled; their
 * results arrive here as plain inputs.
 */
module Browser {
  import opened Wrappers
  import opened Text

  /** A picked or re-encoded image file and the size of its raster. */
  datatype ImageFile = ImageFile(name: string, mimeType: string, width: nat, height: nat)

  /**
   * How `resizeImage`'s browser steps went: the FileReader or the Image
   * failed (both reject with an event, which has no `message`), or the
   * image loaded and the encoder behind `canvas.toBlob` either can or cannot
   * encode a canvas that has pixels.
   */
  datatype ImageLoad = LoadFailed | Loaded(encodes: bool)

  /**
   * Whether `canvas.toBlob` passes a blob rather than `null`: a canvas with
   * a zero width or height has no pixels and always gives `null`.
   */
  predicate CanvasYieldsBlob(width: nat, height: nat, encodes: bool) {
    width > 0 && height > 0 && encodes
  }

  /**
   * What `response.json()` gave: it rejected, or the parsed value had no
   * `error` field, or it had a string one (possibly empty, hence falsy).
   */
  datatype JsonBody = Unparsable | Parsed(errorField: Option<string>)

  /**
   * What `fetch` gave: a rejection with its message, or a response with its
   * status and what each way of reading the body would yield.
   */
  datatype Response =
    | FetchRejected(message: string)
    | Answered(status: nat, json: JsonBody, text: string, blobType: string)

  /** `response.ok`: the status is in the range 200-299. */
  predicate IsOk(status: nat) {
    200 <= status <= 299
  }

  const BlobScheme := "blob:"

  /** `URL.createObjectURL`: a `blob:` URL around an identifier the browser chooses. */
  function ObjectUrl(id: string): (url: string)
    ensures StartsWith(url, BlobScheme)
  {
    StartsWithAppend(BlobScheme, id);
    BlobScheme + id
  }
}
