/**
 * `UploadForm` (frontend/src/components/UploadForm.jsx): two file slots,
 * content and style, each with a preview URL, and a guarded submit that
 * either alerts or hands both files to the `onStylize` callback.
 */
module UploadForm {
  import opened Wrappers
  import opened Browser

  /** The one call `handleSubmit` makes to `onStylize`, arguments in order. */
  datatype Submission = Submission(content: ImageFile, style: ImageFile)

  class UploadForm {
    var contentImage: Option<ImageFile>
    var styleImage: Option<ImageFile>
    var contentPreview: Option<string>
    var stylePreview: Option<string>
    /** Preview URLs created by the form; the form never revokes any of them. */
    ghost var previews: set<string>

    /** A slot has a preview exactly when it has a file, and every preview shown was created here. */
    ghost predicate Valid()
      reads this
    {
      && (contentImage.Some? <==> contentPreview.Some?)
      && (styleImage.Some? <==> stylePreview.Some?)
      && (contentPreview.Some? ==> contentPreview.value in previews)
      && (stylePreview.Some? ==> stylePreview.value in previews)
    }

    /** The four `useState(null)` fields. */
    constructor ()
      ensures Valid()
      ensures contentImage == None && styleImage == None
      ensures contentPreview == None && stylePreview == None
      ensures previews == {}
    {
      contentImage, styleImage := None, None;
      contentPreview, stylePreview := None, None;
      previews := {};
    }

    /**
     * `disabled={!contentImage || !styleImage}` on the submit button, and the
     * same condition that shows the "upload both images" hint.
     */
    predicate SubmitDisabled()
      reads this
    {
      contentImage.None? || styleImage.None?
    }

    /**
     * `handleContentImageChange`: `files` is the input's file list and
     * `previewId` what `URL.createObjectURL` chooses for the new preview.
     */
    method HandleContentImageChange(files: seq<ImageFile>, previewId: string)
      requires Valid()
      modifies this
      ensures Valid()
      ensures |files| > 0 ==>
                contentImage == Some(files[0]) && contentPreview == Some(ObjectUrl(previewId))
                && previews == old(previews) + {ObjectUrl(previewId)}
      ensures |files| == 0 ==>
                contentImage == old(contentImage) && contentPreview == old(contentPreview)
                && previews == old(previews)
      ensures styleImage == old(styleImage) && stylePreview == old(stylePreview)
    {
      if |files| > 0 {
        var file := files[0];
        contentImage := Some(file);
        var url := ObjectUrl(previewId);
        contentPreview := Some(url);
        previews := previews + {url};
      }
    }

    /** `handleStyleImageChange`, the mirror image for the style slot. */
    method HandleStyleImageChange(files: seq<ImageFile>, previewId: string)
      requires Valid()
      modifies this
      ensures Valid()
      ensures |files| > 0 ==>
                styleImage == Some(files[0]) && stylePreview == Some(ObjectUrl(previewId))
                && previews == old(previews) + {ObjectUrl(previewId)}
      ensures |files| == 0 ==>
                styleImage == old(styleImage) && stylePreview == old(stylePreview)
                && previews == old(previews)
      ensures contentImage == old(contentImage) && contentPreview == old(contentPreview)
    {
      if |files| > 0 {
        var file := files[0];
        styleImage := Some(file);
        var url := ObjectUrl(previewId);
        stylePreview := Some(url);
        previews := previews + {url};
      }
    }

    /**
     * `handleSubmit`: with a slot empty it alerts and returns; otherwise it
     * calls `onStylize(contentImage, styleImage)` when a callback was given.
     * It changes no field (it has no `modifies` clause).
     */
    method HandleSubmit(hasCallback: bool) returns (alerted: bool, call: Option<Submission>)
      ensures alerted <==> SubmitDisabled()
      ensures call.Some? <==> !SubmitDisabled() && hasCallback
      ensures call.Some? ==> call.value == Submission(contentImage.value, styleImage.value)
    {
      if contentImage.None? || styleImage.None? {
        alerted, call := true, None;
        return;
      }
      alerted := false;
      if hasCallback {
        call := Some(Submission(contentImage.value, styleImage.value));
      } else {
        call := None;
      }
    }
  }

  /**
   * Picking a new content file leaves the previous preview URL created and
   * unrevoked: reselection does not release it.
   */
  method ReselectKeepsOldPreview(form: UploadForm, first: ImageFile, second: ImageFile, id1: string, id2: string)
    requires form.Valid()
    requires id1 != id2
    modifies form
    ensures form.Valid()
    ensures form.contentImage == Some(second)
    ensures form.contentPreview == Some(ObjectUrl(id2))
    ensures ObjectUrl(id1) in form.previews && ObjectUrl(id1) != ObjectUrl(id2)
  {
    form.HandleContentImageChange([first], id1);
    form.HandleContentImageChange([second], id2);
    assert ObjectUrl(id1)[|BlobScheme|..] == id1;
    assert ObjectUrl(id2)[|BlobScheme|..] == id2;
  }
}
