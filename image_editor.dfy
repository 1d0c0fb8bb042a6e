/** The image editor of components/ImageEditorModal.tsx: a prompt, a
    loading flag and an error, around one edit request whose result is
    handed to the application's `handleUpdateEditedImage`. */
module ImageEditor {
  import opened Wrappers
  import opened Text
  import opened Types
  import opened GeminiService
  import opened App

  /** The MIME type the editor sends the image with. */
  const JpegMime := "image/jpeg"

  /** `disabled={isLoading || !prompt.trim()}` of the submit button. */
  function SubmitDisabled(isLoading: bool, prompt: string): bool {
    isLoading || Trim(prompt) == ""
  }

  /** Submitting is disabled exactly while loading or while the prompt is
      made only of whitespace. */
  lemma SubmitDisabledIff(isLoading: bool, prompt: string)
    ensures SubmitDisabled(isLoading, prompt) <==> isLoading || IsBlank(prompt)
  {
    TrimEmptyIffBlank(prompt);
  }

  /** The editor for `styleOption`; `app` is the application whose
      `handleUpdateEditedImage` is the `onImageUpdate` callback, and whose
      remote service answers the edit. */
  class Editor {
    const app: AppStore
    const styleOption: StyleOption
    var prompt: string
    var isLoading: bool
    var error: Option<string>

    constructor (app: AppStore, styleOption: StyleOption)
      ensures this.app == app && this.styleOption == styleOption
      ensures prompt == "" && !isLoading && error.None?
    {
      this.app := app;
      this.styleOption := styleOption;
      prompt := "";
      isLoading := false;
      error := None;
    }

    /** The text area's `onChange`. */
    method SetPrompt(text: string)
      modifies this
      ensures prompt == text && isLoading == old(isLoading) && error == old(error)
    {
      prompt := text;
    }

    /** `handleSubmit()`. A blank prompt changes nothing. Otherwise the
        option's image is edited with the prompt; on success the
        application takes the new image under the option's id and the
        prompt is cleared; on failure the error is shown and the prompt
        kept. The loading flag is cleared in every case. */
    method HandleSubmit()
      requires AppValid(app.state)
      modifies this, app
      ensures AppValid(app.state) && app.revoked == old(app.revoked)
      ensures Trim(old(prompt)) == "" ==>
        && prompt == old(prompt) && isLoading == old(isLoading) && error == old(error)
        && app.state == old(app.state)
      ensures Trim(old(prompt)) != "" ==>
        var reply := EditImageWithGemini(app.remote, styleOption.generatedImage, JpegMime, old(prompt));
        && !isLoading
        && (reply.Done? ==>
              && app.state == EditedImageUpdated(old(app.state), styleOption.id, reply.value)
              && prompt == "" && error.None?)
        && (reply.Threw? ==>
              && app.state == old(app.state) && prompt == old(prompt)
              && error == Some(CaughtMessage(reply.thrown, EditFailedMessage)))
    {
      if Trim(prompt) == "" {
        return;
      }
      isLoading := true;
      error := None;
      var reply := EditImageWithGemini(app.remote, styleOption.generatedImage, JpegMime, prompt);
      match reply {
        case Done(newImage) =>
          app.HandleUpdateEditedImage(styleOption.id, newImage);
          prompt := "";
        case Threw(t) =>
          error := Some(CaughtMessage(t, EditFailedMessage));
      }
      isLoading := false;
    }
  }
}
