/**
  The message composer both chat components share: a text box, an optional attached image
  (the data URL a FileReader produced), the guard that refuses to send nothing, and the
  browser File the upload and drop handlers receive.
*/
module Composer {
  import opened Wrappers
  import opened JsString

  /** A browser File together with the data URL FileReader yields for it. */
  datatype File = File(name: string, size: nat, mimeType: string, dataUrl: string)

  /** `!inputValue.trim() && !uploadedImage`: blank text and no (or an empty) image. */
  predicate NothingToSend(input: string, image: Option<string>)
  {
    IsBlank(input) && !Truthy(image)
  }

  /** Whatever the guard lets through has a visible character or a non-empty image. */
  lemma SendableHasContent(input: string, image: Option<string>)
    requires !NothingToSend(input, image)
    ensures (exists i :: 0 <= i < |input| && !IsJsWhitespace(input[i])) || (image.Some? && image.value != "")
  {
    BlankIffAllWhitespace(input);
  }

  /** Text made only of white space, with no image, is refused. */
  lemma WhitespaceOnlyRefused(input: string)
    requires forall i :: 0 <= i < |input| ==> IsJsWhitespace(input[i])
    ensures NothingToSend(input, None)
  {
    BlankIffAllWhitespace(input);
  }
}
