# Neural Style Transfer frontend: a verified model

The frontend of this style-transfer app lets a user pick a content photo and a
style image, shrinks both in the browser to fit 512 x 512, posts them to a
`/stylize` endpoint and shows the returned image. This project models its
logic in Dafny:

- `Resize` (resize.dfy) covers `resizeImage` in `frontend/src/App.jsx`. The
  image is scaled to fit its bounds in two steps, width first, then height,
  and each rescaled side is rounded with `Math.round`. The model computes
  that rounding on exact integers as `(2n + d) div 2d`, and a lemma ties the
  formula to `Math.round` of the source's `(max / side) * other` expression
  over the reals.
- `App` (app.dfy) covers `handleStylize` and the cleanup effect on
  `outputImage`. The class `App` has the three state fields `outputImage`,
  `loading` and `error`, plus two ghost fields:
  - `liveOutputs`: the output strings stored in `outputImage` and not yet
    passed to `revokeObjectURL`. Each is the created `blob:` URL with
    `#` and a timestamp appended, the string the shell keeps and revokes;
  - `effects`: the setter calls, the request and the revocations, in order.

  The invariant `Valid()` says the only live output string, if any, is the
  one in `outputImage`, so at most one is live. That is a statement about
  the stored strings. It means at most one live blob in the browser only if
  `revokeObjectURL` releases the blob when given the URL with its `#`
  fragment.
- `UploadForm` (upload_form.dfy) covers `UploadForm.jsx`: the four state
  fields, the two change handlers, the submit guard and the
  disabled-button condition.
- `Browser`, `Text` and `Wrappers` hold the values the browser supplies:
  - picked files with their raster size;
  - how decoding and canvas encoding went;
  - what `fetch` and the body readers returned;
  - the identifier `URL.createObjectURL` picks.

  They also hold the decimal rendering used in template literals, and
  Option/Result.

Browser effects appear only as parameters:
- FileReader, Image and canvas become an `ImageLoad`;
- `fetch`, `response.json()`, `response.text()` and `response.blob().type`
  become a `Response`;
- `URL.createObjectURL` becomes an opaque identifier;
- `Date.now()` becomes a `nat`.

`alert` becomes a returned flag, and the call to `onStylize` becomes a
returned `Submission`.

What the code does, and what the model follows, where a reader might expect
otherwise:
- The form never revokes a preview URL when a file is picked again
  (`UploadForm.ReselectKeepsOldPreview` shows the old one stays created).
- Submitting does not clear the selected files.
- `error` and `outputImage` are independent: after a success followed by a
  failure, both are set.
- A JSON body that parses and has no truthy `error` falls back to the
  status message. In that case the body text is not used
  (`App.ParsedJsonIgnoresText`).

## Model

| member | source | states |
|---|---|---|
| `Text.NatToString` | frontend/src/App.jsx:84 | the decimal text of a status or timestamp is all digits, non-empty, and has no leading zero unless the number is 0 |
| `Text.ParseNatToString` | frontend/src/App.jsx:84 | reading the decimal text back gives the original number |
| `Browser.ObjectUrl` | frontend/src/App.jsx:104 | a created object URL starts with `blob:` |
| `Resize.RoundedRatio` | frontend/src/App.jsx:25-29 | the rounded ratio r of n/d satisfies 2dr <= 2n + d < 2dr + 2d: nearest integer, halves upward |
| `Resize.RoundedRatioIsMathRound` | frontend/src/App.jsx:25-29 | the integer formula is `Math.round((a / c) * b)` taken over exact reals |
| `Resize.MathRoundUnique` | frontend/src/App.jsx:25-29 | `Math.round` has a single possible result for a given real |
| `Resize.Fitted` | frontend/src/App.jsx:24-31 | the width step, then the height step on the possibly rescaled height, each rounding the other side with `Math.round` |
| `Resize.FittedKeepsAspect` | frontend/src/App.jsx:24-31 | fitting keeps the aspect ratio up to rounding: twice the difference of the cross products of fitted and original sides is at most the original width plus height (a quarter of the perimeter for the difference itself), both ways |
| `Resize.OneStepAspect` | frontend/src/App.jsx:25 | one rescaling step moves the cross product by at most half the divisor, the side brought to its bound |
| `Resize.BothStepsAspect` | frontend/src/App.jsx:24-31 | when both steps run, the doubly rounded width stays within half the perimeter of the exact aspect |
| `Resize.ThinImageGivesEmptyCanvas` | frontend/src/App.jsx:24-46 | 1100 x 1 fits to 512 x 0, so the canvas has no pixels and `resizeImage` rejects with "Canvas is empty" |
| `Resize.FittedWithinBounds` | frontend/src/App.jsx:24-31 | the fitted width is <= maxWidth and the fitted height is <= maxHeight; neither side is larger than in the original |
| `Resize.FittedReachesBound` | frontend/src/App.jsx:24-31 | an image that exceeds a bound ends exactly at the width bound or the height bound, so it is fitted rather than shrunk further |
| `Resize.FittedKeepsSmallImages` | frontend/src/App.jsx:11-31 | an image already within both bounds keeps both dimensions |
| `Resize.HeightStepSeesScaledHeight` | frontend/src/App.jsx:28-31 | the height test uses the height after the width step; an image that fits in height after that step gets no height step |
| `Resize.FittedWideExample` | frontend/src/App.jsx:11-31 | 1000 x 500 with the default 512 x 512 bounds becomes 512 x 256 |
| `Resize.SequentialDiffersFromSingleRatio` | frontend/src/App.jsx:24-31 | the two-step order is not one combined ratio: 513 x 529 becomes 496 x 512, a single min-ratio gives 497 x 512 |
| `Resize.ScaleToFit` | frontend/src/App.jsx:22-31 | the imperative width-then-height reassignment computes `Fitted`; the result is within bounds, never larger, and unchanged when it already fits |
| `Resize.ResizeOutcome` | frontend/src/App.jsx:11-57 | resolves exactly when the image loads and the canvas yields a blob, which needs both fitted sides non-zero and the encoder to succeed; the resolved file has the same name and type and exactly the `Fitted` dimensions, both positive, within bounds, never larger; otherwise a loaded image rejects with "Canvas is empty"; a load error rejects with no message |
| `Resize.ResizeImage` | frontend/src/App.jsx:11-57 | `resizeImage` resolves or rejects exactly as `ResizeOutcome` describes |
| `UploadForm.UploadForm.constructor` | frontend/src/components/UploadForm.jsx:4-7 | all four fields start empty and no preview exists |
| `UploadForm.UploadForm.HandleContentImageChange` | frontend/src/components/UploadForm.jsx:9-15 | a picked file sets the content file and the preview URL `createObjectURL` returns; an empty list changes nothing; the style fields never change |
| `UploadForm.UploadForm.HandleStyleImageChange` | frontend/src/components/UploadForm.jsx:17-23 | a picked file sets the style file and the preview URL `createObjectURL` returns; an empty list changes nothing; the content fields never change |
| `UploadForm.UploadForm.SubmitDisabled` | frontend/src/components/UploadForm.jsx:162 | the submit button is disabled exactly when the content slot or the style slot is empty |
| `UploadForm.UploadForm.HandleSubmit` | frontend/src/components/UploadForm.jsx:25-35 | it alerts exactly when `SubmitDisabled()` (the button's `disabled` condition, line 162) holds; it calls `onStylize` exactly once, with (content, style) in that order, exactly when both slots are filled and a callback exists; it changes no field |
| `UploadForm.ReselectKeepsOldPreview` | frontend/src/components/UploadForm.jsx:9-15 | picking a second content file replaces the shown preview but leaves the first preview URL unrevoked |
| `App.Or` | frontend/src/App.jsx:87 | JavaScript `a \|\| b` on strings: a non-empty `a` is the result, otherwise `b` is; the result is truthy exactly when one of them is |
| `Browser.IsOk` | frontend/src/App.jsx:83 | `response.ok`: the status is in 200-299 |
| `Browser.CanvasYieldsBlob` | frontend/src/App.jsx:40-47 | `toBlob` passes a blob only for a canvas with non-zero width and height whose encoding succeeds |
| `App.StatusMessage` | frontend/src/App.jsx:84 | the default message is "HTTP error! status: " followed by the status digits, with no leading zero unless the status is 0, and the status can be read back from it |
| `App.StatusMessageInjective` | frontend/src/App.jsx:84 | different statuses give different default messages |
| `App.ShownMessage` | frontend/src/App.jsx:109 | the banner text is the error's own message when that is non-empty, and "Something went wrong!" when it is empty |
| `App.ResizeFailureMessages` | frontend/src/App.jsx:71-72 | a content load failure shows "Something went wrong!" and an empty content canvas shows "Canvas is empty"; the same holds for the style image once the content image is resized |
| `App.ServerErrorMessage` | frontend/src/App.jsx:83-91 | the message thrown for a non-2xx response is never empty |
| `App.ComposeErrorMessage` | frontend/src/App.jsx:84-90 | a truthy JSON `error` wins; parsed JSON without one gives the status message, not the text; unparsable JSON gives the text when non-empty, otherwise the status message |
| `App.ParsedJsonIgnoresText` | frontend/src/App.jsx:85-91 | when the JSON parses, the body text has no influence on the message |
| `App.ResponseError` | frontend/src/App.jsx:78-98 | a response throws exactly unless it is 2xx with a blob type starting with `image/`; a non-2xx response throws the server message; a 2xx non-image throws "Expected an image response from server." |
| `App.Thrown` | frontend/src/App.jsx:70-107 | what reaches `catch`: the content resize error first, then the style resize error, then the response's error, in the order the `try` block runs |
| `App.Sent` | frontend/src/App.jsx:71-82 | the request is made exactly when both resizes succeed |
| `App.StylizeFailure` | frontend/src/App.jsx:70-109 | a call ends without error exactly when both resizes succeed and the response is a 2xx image; a content resize failure decides the message before the style resize; every message shown is non-empty |
| `App.StylizeFailureCases` | frontend/src/App.jsx:78-98 | once both images are resized: a rejected fetch shows its message, a non-2xx shows the server message, a 2xx non-image shows "Expected an image response from server." |
| `App.OwnsBlob` | frontend/src/App.jsx:99 | `outputImage` is set, is a string and starts with `blob:`, the test on lines 61 and 99 |
| `App.OwnedOutput` | frontend/src/App.jsx:99-101 | the output string the shell still owns: the held `blob:` string, or none |
| `App.Revocation` | frontend/src/App.jsx:99-101 | at most one revocation, made exactly when the held output is a `blob:` string, and made on that string |
| `App.OutputUrl` | frontend/src/App.jsx:104 | the stored output URL, object URL plus `#` and the timestamp, is still a `blob:` URL |
| `App.AtMostOneLiveOutput` | frontend/src/App.jsx:59-65 | under the shell's invariant at most one output string is live |
| `App.App.constructor` | frontend/src/App.jsx:5-7 | no output, not loading, no error, no live output URL |
| `App.App.Respond` | frontend/src/App.jsx:78-105 | a failing response leaves output, live URLs and effects untouched; a usable one revokes the held `blob:` URL, then stores the new URL, which is then the only live one |
| `App.App.TryStylize` | frontend/src/App.jsx:71-105 | the `try` block: it throws `Thrown`'s message; when it throws, output and live URLs are unchanged and only the request, if one was made, is added to the effects; otherwise the old `blob:` output is revoked and the new URL stored and live; `loading` and `error` are untouched |
| `App.App.HandleStylize` | frontend/src/App.jsx:67-113 | every call sets loading, clears the error and ends with loading false; it posts (resized content, resized style) once exactly when both resizes succeed; on failure only `error` changes, to the `StylizeFailure` message; on success the old `blob:` output is revoked before the new URL is stored, the error stays cleared and the new URL is the only live one |
| `App.App.CleanupOutputEffect` | frontend/src/App.jsx:59-65 | the effect cleanup revokes the captured output URL if it is a `blob:` one and changes nothing else |
| `App.App.Unmount` | frontend/src/App.jsx:59-65 | tearing the shell down revokes the held `blob:` output, leaves no live output URL and changes neither `outputImage`, `loading` nor `error` |
| `App.Submit` | frontend/src/App.jsx:152 | a submit with a slot empty alerts and leaves the shell's state and effects unchanged; otherwise one stylize run of the form's (content, style) starts with loading true and ends with loading false, and ends exactly as `HandleStylize` does for those two files: on failure the error is the `StylizeFailure` message and output and live URLs stay, on success the new URL is stored and the only live one |
| `App.TwoSuccessfulStylizations` | frontend/src/App.jsx:99-105 | after two successful stylizations only the second output URL is live |

## Left out

- Rendering: the JSX and styling in both files are not modelled. Only the
  disabled condition of the submit button is, as `SubmitDisabled`.
- Browser effects: FileReader, Image decoding, canvas drawing and `toBlob`
  at quality 0.95 are not modelled, nor are the bytes of any file. Their
  outcome is an `ImageLoad` input: the load fails, or the encoder can or
  cannot encode a canvas with pixels. A canvas with a zero side always
  gives `null`, as the HTML standard says. The re-encoded file gets the
  fitted size.
- Floating point: the double-precision evaluation of
  `(maxWidth / width) * height` is not modelled. Rounding is exact, so
  float results that land beside an exact half may differ.
- `fetch`, `FormData` and reading the body are not modelled. The JSON,
  text and blob-type results are parts of `Response`. Whether the browser
  lets `response.text()` run after a failed `response.json()` is not
  modelled.
- ComposeErrorMessage: a truthy JSON `error` that is not a string
  (a number, an object) is not modelled. The source would turn it into
  text. A JSON body of `null`, whose property read throws inside the inner
  `try`, counts as `Unparsable`.
- HandleStylize: it reads `outputImage` from the current state, not from
  the possibly stale render closure. Overlapping submissions are not
  modelled.
- HandleStylize: revocation is keyed on the stored string, `#` fragment
  included. `liveOutputs` and the at-most-one invariant are about those
  strings. Whether the browser's blob URL store releases the blob when
  given the URL with a fragment is not modelled. So the model does not
  promise that at most one output blob stays allocated in the browser.
- `console.error` and the text of `alert` are not modelled. The alert is
  the `alerted` flag.
- `e.preventDefault()` is not modelled.
- The backend (`backend/app.py`, `backend/style_transfer.py`) is not part
  of this model. It is a web route around floating-point TensorFlow code.
