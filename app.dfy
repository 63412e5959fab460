/**
 * `App` (frontend/src/App.jsx): the shell that resizes both picked images,
 * posts them to the stylization service and keeps three pieces of state,
 * `outputImage`, `loading` and `error`.
 */
module App {
  import opened Wrappers
  import opened Text
  import opened Browser
  import opened Resize
  import Form = UploadForm

  const FallbackMessage := "Something went wrong!"
  const NotAnImageMessage := "Expected an image response from server."
  const ImagePrefix := "image/"
  const StatusPrefix := "HTTP error! status: "

  /** JavaScript's `a || b` on strings: the empty string is falsy. */
  function Or(a: string, b: string): (r: string)
    ensures a != "" ==> r == a
    ensures a == "" ==> r == b
    ensures r != "" <==> a != "" || b != ""
  {
    if a != "" then a else b
  }

  /** `HTTP error! status: ${response.status}`; the status can be read back from it. */
  function StatusMessage(status: nat): (m: string)
    ensures StartsWith(m, StatusPrefix)
    ensures |m| > |StatusPrefix|
    ensures forall i :: |StatusPrefix| <= i < |m| ==> IsDigit(m[i])
    ensures ParseDecimal(m[|StatusPrefix|..]) == status
    ensures m[|StatusPrefix|] == '0' ==> status == 0
  {
    var m := StatusPrefix + NatToString(status);
    StartsWithAppend(StatusPrefix, NatToString(status));
    assert m[|StatusPrefix|..] == NatToString(status);
    ParseNatToString(status);
    m
  }

  /** Different statuses give different default messages. */
  lemma StatusMessageInjective(s1: nat, s2: nat)
    requires StatusMessage(s1) == StatusMessage(s2)
    ensures s1 == s2
  {
  }

  /** `error.message || 'Something went wrong!'`: what the error banner shows. */
  function ShownMessage(message: string): (m: string)
    ensures m != ""
    ensures message != "" ==> m == message
    ensures message == "" ==> m == FallbackMessage
  {
    Or(message, FallbackMessage)
  }

  /**
   * The message a non-2xx response produces: a truthy `error` from the JSON
   * body, else the default when the JSON parsed; the body text, else the
   * default when it did not.
   */
  function ServerErrorMessage(status: nat, json: JsonBody, text: string): (m: string)
    ensures m != ""
  {
    match json
    case Parsed(field) => Or(field.GetOr(""), StatusMessage(status))
    case Unparsable => Or(text, StatusMessage(status))
  }

  /**
   * Lines 84-90: `errorMessage` starts as the default and is overwritten by
   * the JSON `error` or, when the JSON cannot be read, by the body text.
   */
  method ComposeErrorMessage(status: nat, json: JsonBody, text: string) returns (message: string)
    ensures message == ServerErrorMessage(status, json, text)
    ensures json.Parsed? && json.errorField.Some? && json.errorField.value != "" ==>
              message == json.errorField.value
    ensures json.Parsed? && json.errorField.GetOr("") == "" ==> message == StatusMessage(status)
    ensures json.Unparsable? && text != "" ==> message == text
    ensures json.Unparsable? && text == "" ==> message == StatusMessage(status)
  {
    message := StatusMessage(status);
    match json
    case Parsed(field) =>
      if field.Some? && field.value != "" {
        message := field.value;
      }
    case Unparsable =>
      if text != "" {
        message := text;
      }
  }

  /** When the JSON parses, the body text never reaches the message. */
  lemma ParsedJsonIgnoresText(status: nat, field: Option<string>, t1: string, t2: string)
    ensures ServerErrorMessage(status, Parsed(field), t1) == ServerErrorMessage(status, Parsed(field), t2)
  {
  }

  /**
   * The message of the error thrown once the request was sent: a rejected
   * `fetch`, a non-2xx status, or a 2xx body that is not an image; None when
   * the response is a usable image.
   */
  function ResponseError(response: Response): (r: Option<string>)
    ensures r.None? <==> response.Answered? && IsOk(response.status) && StartsWith(response.blobType, ImagePrefix)
    ensures response.Answered? && !IsOk(response.status) ==>
              r == Some(ServerErrorMessage(response.status, response.json, response.text))
    ensures response.Answered? && IsOk(response.status) && !StartsWith(response.blobType, ImagePrefix) ==>
              r == Some(NotAnImageMessage)
  {
    match response
    case FetchRejected(message) => Some(message)
    case Answered(status, json, text, blobType) =>
      if !IsOk(status) then Some(ServerErrorMessage(status, json, text))
      else if !StartsWith(blobType, ImagePrefix) then Some(NotAnImageMessage)
      else None
  }

  /**
   * The message of the error that reaches `catch` (line 107), in the order
   * the `try` block runs: content resize, style resize, then the response.
   */
  function Thrown(content: Result<ImageFile, string>, style: Result<ImageFile, string>, response: Response): (r: Option<string>)
    ensures content.Failure? ==> r == Some(content.error)
    ensures content.Success? && style.Failure? ==> r == Some(style.error)
    ensures content.Success? && style.Success? ==> r == ResponseError(response)
  {
    if content.Failure? then Some(content.error)
    else if style.Failure? then Some(style.error)
    else ResponseError(response)
  }

  /**
   * How one `handleStylize` call ends, given both resize outcomes and the
   * response: None when a new output image is stored, otherwise the message
   * the error banner shows.
   */
  function StylizeFailure(content: Result<ImageFile, string>, style: Result<ImageFile, string>, response: Response): (r: Option<string>)
    ensures r.None? <==>
              && content.Success? && style.Success? && response.Answered?
              && IsOk(response.status) && StartsWith(response.blobType, ImagePrefix)
    ensures r.Some? ==> r.value != ""
    ensures content.Failure? ==> r == Some(ShownMessage(content.error))
    ensures content.Success? && style.Failure? ==> r == Some(ShownMessage(style.error))
  {
    var thrown := Thrown(content, style, response);
    if thrown.Some? then Some(ShownMessage(thrown.value)) else None
  }

  /**
   * A failed resize shows its message through `error.message || ...`: a
   * load failure (an event without a message) shows "Something went wrong!",
   * an empty canvas shows "Canvas is empty"; the content image is checked first.
   */
  lemma ResizeFailureMessages(contentFile: ImageFile, styleFile: ImageFile,
                              contentLoad: ImageLoad, styleLoad: ImageLoad, response: Response)
    ensures var content := ResizeOutcome(contentFile, contentLoad, DefaultMaxWidth, DefaultMaxHeight);
      var style := ResizeOutcome(styleFile, styleLoad, DefaultMaxWidth, DefaultMaxHeight);
      var r := StylizeFailure(content, style, response);
      && (contentLoad == LoadFailed ==> r == Some(FallbackMessage))
      && (contentLoad.Loaded? && content.Failure? ==> r == Some(CanvasEmptyMessage))
      && (content.Success? && styleLoad == LoadFailed ==> r == Some(FallbackMessage))
      && (content.Success? && styleLoad.Loaded? && style.Failure? ==> r == Some(CanvasEmptyMessage))
  {
  }

  /** The outcomes the error banner distinguishes once both images are resized. */
  lemma StylizeFailureCases(content: ImageFile, style: ImageFile, response: Response)
    ensures var r := StylizeFailure(Success(content), Success(style), response);
      && (response.FetchRejected? ==> r == Some(ShownMessage(response.message)))
      && (response.Answered? && !IsOk(response.status) ==>
            r == Some(ServerErrorMessage(response.status, response.json, response.text)))
      && (response.Answered? && IsOk(response.status) && !StartsWith(response.blobType, ImagePrefix) ==>
            r == Some(NotAnImageMessage))
  {
  }

  /** What `handleStylize` does to the outside world, in order. */
  datatype Effect =
    | SetLoading(on: bool)
    | SetError(message: Option<string>)
    | Post(content: ImageFile, style: ImageFile)
    | Revoke(url: string)
    | SetOutput(url: string)

  /** The `fetch` of line 78, made only once both images are resized. */
  function Sent(content: Result<ImageFile, string>, style: Result<ImageFile, string>): (sent: seq<Effect>)
    ensures sent != [] <==> content.Success? && style.Success?
  {
    if content.Success? && style.Success? then [Post(content.value, style.value)] else []
  }

  /** The effects of a `handleStylize` call that ends in `catch` and `finally`. */
  function FailedRun(sent: seq<Effect>, failure: Option<string>): seq<Effect> {
    [SetLoading(true), SetError(None)] + sent + [SetError(failure), SetLoading(false)]
  }

  /** The effects of a `handleStylize` call that stores a new output URL. */
  function StoredRun(sent: seq<Effect>, previous: Option<string>, url: string): seq<Effect> {
    [SetLoading(true), SetError(None)] + sent + Revocation(previous) + [SetOutput(url), SetLoading(false)]
  }

  lemma FailedRunRegroups(before: seq<Effect>, sent: seq<Effect>, failure: Option<string>)
    ensures before + [SetLoading(true)] + [SetError(None)] + sent + [SetError(failure)] + [SetLoading(false)]
            == before + FailedRun(sent, failure)
  {
  }

  lemma StoredRunRegroups(before: seq<Effect>, sent: seq<Effect>, previous: Option<string>, url: string)
    ensures before + [SetLoading(true)] + [SetError(None)] + sent + Revocation(previous) + [SetOutput(url)] + [SetLoading(false)]
            == before + StoredRun(sent, previous, url)
  {
  }

  /**
   * The test on lines 61 and 99: `outputImage` is set, is a string and
   * starts with `blob:`.
   */
  predicate OwnsBlob(output: Option<string>) {
    output.Some? && StartsWith(output.value, BlobScheme)
  }

  /** The stored output URL that the shell still owns. */
  function OwnedOutput(output: Option<string>): set<string> {
    if OwnsBlob(output) then {output.value} else {}
  }

  /** Lines 61-63 and 99-101: revoke the held output URL if it is a `blob:` one. */
  function Revocation(output: Option<string>): (revoked: seq<Effect>)
    ensures |revoked| <= 1
    ensures revoked != [] <==> OwnsBlob(output)
    ensures revoked != [] ==> revoked[0] == Revoke(output.value)
  {
    if OwnsBlob(output) then [Revoke(output.value)] else []
  }

  /** `URL.createObjectURL(blob) + #${Date.now()}`; still a `blob:` URL. */
  function OutputUrl(objectId: string, now: nat): (url: string)
    ensures StartsWith(url, BlobScheme)
  {
    StartsWithExtend(ObjectUrl(objectId), BlobScheme, "#" + NatToString(now));
    ObjectUrl(objectId) + ("#" + NatToString(now))
  }

  /** Output object URLs that the shell created and has not revoked are at most one. */
  lemma AtMostOneLiveOutput(live: set<string>, output: Option<string>)
    requires live <= OwnedOutput(output)
    ensures |live| <= 1
  {
    if live != {} {
      var u :| u in live;
      assert live == {u};
    }
  }

  class App {
    var outputImage: Option<string>
    var loading: bool
    var error: Option<string>
    /** Output object URLs created and not yet revoked. */
    ghost var liveOutputs: set<string>
    /** Every effect performed so far, oldest first. */
    ghost var effects: seq<Effect>

    /** The only live output URL, if any, is the one held in `outputImage`. */
    ghost predicate Valid()
      reads this
    {
      liveOutputs <= OwnedOutput(outputImage)
    }

    /** The three `useState` fields with their initial values. */
    constructor ()
      ensures Valid()
      ensures outputImage == None && !loading && error == None
      ensures liveOutputs == {} && effects == []
    {
      outputImage, loading, error := None, false, None;
      liveOutputs, effects := {}, [];
    }

    /**
     * Lines 78-105, after the form data is built: read the response and
     * either throw or store a new output URL, revoking the held one first.
     */
    method Respond(response: Response, objectId: string, now: nat) returns (thrown: Option<string>)
      requires Valid()
      modifies this
      ensures Valid()
      ensures thrown == ResponseError(response)
      ensures loading == old(loading) && error == old(error)
      ensures thrown.Some? ==>
                outputImage == old(outputImage) && liveOutputs == old(liveOutputs) && effects == old(effects)
      ensures thrown.None? ==>
                && outputImage == Some(OutputUrl(objectId, now))
                && liveOutputs == {OutputUrl(objectId, now)}
                && effects == old(effects) + Revocation(old(outputImage)) + [SetOutput(OutputUrl(objectId, now))]
    {
      match response
      case FetchRejected(message) =>
        thrown := Some(message);
      case Answered(status, json, text, blobType) =>
        if !IsOk(status) {
          var errorMessage := ComposeErrorMessage(status, json, text);
          thrown := Some(errorMessage);
        } else if !StartsWith(blobType, ImagePrefix) {
          thrown := Some(NotAnImageMessage);
        } else {
          thrown := None;
          if OwnsBlob(outputImage) {
            liveOutputs := liveOutputs - {outputImage.value};
            effects := effects + [Revoke(outputImage.value)];
          }
          var imageUrl := OutputUrl(objectId, now);
          liveOutputs := liveOutputs + {imageUrl};
          outputImage := Some(imageUrl);
          effects := effects + [SetOutput(imageUrl)];
        }
    }

    /**
     * Lines 71-105, the `try` block: resize the content image, then the
     * style image, post both, and handle the response. `thrown` is the
     * message of whatever reaches `catch`.
     */
    method TryStylize(contentFile: ImageFile, styleFile: ImageFile,
                      contentLoad: ImageLoad, styleLoad: ImageLoad,
                      response: Response, objectId: string, now: nat)
      returns (thrown: Option<string>)
      requires Valid()
      modifies this
      ensures Valid()
      ensures loading == old(loading) && error == old(error)
      ensures
        var content := ResizeOutcome(contentFile, contentLoad, DefaultMaxWidth, DefaultMaxHeight);
        var style := ResizeOutcome(styleFile, styleLoad, DefaultMaxWidth, DefaultMaxHeight);
        var sent := Sent(content, style);
        && thrown == Thrown(content, style, response)
        && (thrown.Some? ==>
              outputImage == old(outputImage) && liveOutputs == old(liveOutputs)
              && effects == old(effects) + sent)
        && (thrown.None? ==>
              && outputImage == Some(OutputUrl(objectId, now))
              && liveOutputs == {OutputUrl(objectId, now)}
              && effects == old(effects) + sent + Revocation(old(outputImage)) + [SetOutput(OutputUrl(objectId, now))])
    {
      var resizedContent := ResizeImage(contentFile, contentLoad, DefaultMaxWidth, DefaultMaxHeight);
      if resizedContent.Failure? {
        thrown := Some(resizedContent.error);
        return;
      }
      var resizedStyle := ResizeImage(styleFile, styleLoad, DefaultMaxWidth, DefaultMaxHeight);
      if resizedStyle.Failure? {
        thrown := Some(resizedStyle.error);
        return;
      }
      effects := effects + [Post(resizedContent.value, resizedStyle.value)];
      thrown := Respond(response, objectId, now);
    }

    /**
     * `handleStylize(contentFile, styleFile)`. The browser's part arrives as
     * inputs: how loading each image went, what `fetch` gave, the identifier
     * `URL.createObjectURL` picks and `Date.now()`. `run` is the sequence of
     * effects of this call.
     */
    method HandleStylize(contentFile: ImageFile, styleFile: ImageFile,
                         contentLoad: ImageLoad, styleLoad: ImageLoad,
                         response: Response, objectId: string, now: nat)
      returns (ghost run: seq<Effect>)
      requires Valid()
      modifies this
      ensures Valid()
      ensures effects == old(effects) + run
      ensures !loading
      ensures
        var content := ResizeOutcome(contentFile, contentLoad, DefaultMaxWidth, DefaultMaxHeight);
        var style := ResizeOutcome(styleFile, styleLoad, DefaultMaxWidth, DefaultMaxHeight);
        var failure := StylizeFailure(content, style, response);
        failure.Some? ==>
          && error == failure
          && outputImage == old(outputImage)
          && liveOutputs == old(liveOutputs)
          && run == FailedRun(Sent(content, style), failure)
      ensures
        var content := ResizeOutcome(contentFile, contentLoad, DefaultMaxWidth, DefaultMaxHeight);
        var style := ResizeOutcome(styleFile, styleLoad, DefaultMaxWidth, DefaultMaxHeight);
        var url := OutputUrl(objectId, now);
        StylizeFailure(content, style, response).None? ==>
          && error == None
          && outputImage == Some(url)
          && liveOutputs == {url}
          && run == StoredRun(Sent(content, style), old(outputImage), url)
    {
      ghost var before := effects;
      loading := true;
      effects := effects + [SetLoading(true)];
      error := None;
      effects := effects + [SetError(None)];
      ghost var previous := outputImage;
      ghost var sent := Sent(ResizeOutcome(contentFile, contentLoad, DefaultMaxWidth, DefaultMaxHeight),
                             ResizeOutcome(styleFile, styleLoad, DefaultMaxWidth, DefaultMaxHeight));
      var thrown := TryStylize(contentFile, styleFile, contentLoad, styleLoad, response, objectId, now);
      if thrown.Some? {
        error := Some(ShownMessage(thrown.value));
        effects := effects + [SetError(error)];
        loading := false;
        effects := effects + [SetLoading(false)];
        run := FailedRun(sent, error);
        FailedRunRegroups(before, sent, error);
      } else {
        loading := false;
        effects := effects + [SetLoading(false)];
        ghost var url := OutputUrl(objectId, now);
        run := StoredRun(sent, previous, url);
        StoredRunRegroups(before, sent, previous, url);
      }
    }

    /**
     * The cleanup of the effect on `outputImage` (lines 59-65), run by React
     * with the value it captured when that value is replaced or the
     * component goes away.
     */
    method CleanupOutputEffect(captured: Option<string>)
      requires Valid()
      modifies this
      ensures Valid()
      ensures liveOutputs == old(liveOutputs) - OwnedOutput(captured)
      ensures effects == old(effects) + Revocation(captured)
      ensures outputImage == old(outputImage) && loading == old(loading) && error == old(error)
    {
      if OwnsBlob(captured) {
        liveOutputs := liveOutputs - {captured.value};
        effects := effects + [Revoke(captured.value)];
      }
    }

    /** Tearing the component down releases the output URL it holds. */
    method Unmount()
      requires Valid()
      modifies this
      ensures Valid()
      ensures liveOutputs == {}
      ensures effects == old(effects) + Revocation(old(outputImage))
      ensures outputImage == old(outputImage) && loading == old(loading) && error == old(error)
    {
      CleanupOutputEffect(outputImage);
    }
  }

  /**
   * Line 152 passes `handleStylize` to the form as `onStylize`. A submit with
   * a slot empty alerts, and the shell's state and effects stay as they were.
   */
  method Submit(form: Form.UploadForm, app: App, contentLoad: ImageLoad, styleLoad: ImageLoad,
                response: Response, objectId: string, now: nat)
    returns (alerted: bool, ghost run: seq<Effect>)
    requires app.Valid()
    modifies app
    ensures app.Valid()
    ensures alerted <==> form.SubmitDisabled()
    ensures alerted ==> unchanged(app) && run == []
    ensures !alerted ==>
              && app.effects == old(app.effects) + run && !app.loading
              && |run| >= 3 && run[0] == SetLoading(true) && run[|run| - 1] == SetLoading(false)
    ensures !alerted ==>
              var content := ResizeOutcome(form.contentImage.value, contentLoad, DefaultMaxWidth, DefaultMaxHeight);
              var style := ResizeOutcome(form.styleImage.value, styleLoad, DefaultMaxWidth, DefaultMaxHeight);
              var failure := StylizeFailure(content, style, response);
              && (failure.Some? ==>
                    && app.error == failure
                    && app.outputImage == old(app.outputImage)
                    && app.liveOutputs == old(app.liveOutputs)
                    && run == FailedRun(Sent(content, style), failure))
              && (failure.None? ==>
                    && app.error == None
                    && app.outputImage == Some(OutputUrl(objectId, now))
                    && app.liveOutputs == {OutputUrl(objectId, now)}
                    && run == StoredRun(Sent(content, style), old(app.outputImage), OutputUrl(objectId, now)))
  {
    var call;
    alerted, call := form.HandleSubmit(true);
    run := [];
    if call.Some? {
      run := app.HandleStylize(call.value.content, call.value.style, contentLoad, styleLoad,
                               response, objectId, now);
    }
  }

  /** Two successful stylizations in a row leave only the second output URL live. */
  method TwoSuccessfulStylizations() returns (app: App)
    ensures app.Valid()
    ensures app.liveOutputs == {OutputUrl("second", 2)}
    ensures OutputUrl("first", 1) !in app.liveOutputs
  {
    var content := ImageFile("photo.jpg", "image/jpeg", 800, 600);
    var style := ImageFile("art.png", "image/png", 300, 300);
    assert RoundedRatio(512 * 600, 800) == 384;
    app := new App();
    var ok := Answered(200, Unparsable, "", "image/png");
    assert StartsWith("image/png", ImagePrefix);
    ghost var first := app.HandleStylize(content, style, Loaded(true), Loaded(true), ok, "first", 1);
    ghost var second := app.HandleStylize(content, style, Loaded(true), Loaded(true), ok, "second", 2);
    assert OutputUrl("first", 1)[5] == 'f';
    assert OutputUrl("second", 2)[5] == 's';
  }
}
