/** The form fields of a download request, as both servers read them. */
module DownloadForm {
  import opened Wrappers
  import Text

  /** `request.form`: a field that was not sent is `None`. */
  datatype Form = Form(url: Option<string>, format: Option<string>, resolution: Option<string>)

  /** `not url` is false: the link was sent and is not empty. */
  predicate UrlGiven(form: Form) {
    form.url.Some? && form.url.value != ""
  }

  /** The requested container, by default `mp4`. */
  function FormatOf(form: Form): string {
    form.format.GetOr("mp4")
  }

  /** The resolution field (by default `'720p'`) with every `p` removed. */
  function HeightOf(form: Form): (h: string)
    ensures 'p' !in h
    ensures form.resolution.None? ==> h == "720"
    ensures form.resolution.Some? ==> h == Text.RemoveChar(form.resolution.value, 'p')
  {
    Text.RemoveChar(form.resolution.GetOr("720p"), 'p')
  }
}
