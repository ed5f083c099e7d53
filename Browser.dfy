/**
 * The parts of the browser the site's scripts read or write, as plain values:
 * `window.location`, thrown errors, notification toasts and submit buttons.
 */
module Browser {

  datatype Option<+T> = None | Some(value: T)

  datatype Result<+R, +E> = Success(value: R) | Failure(error: E)

  /** JavaScript truthiness of a value that is either `undefined` or a string. */
  predicate Truthy(s: Option<string>) {
    s.Some? && s.value != ""
  }

  /** Template interpolation `${v}` of a possibly `undefined` string. */
  function Interpolate(s: Option<string>): (r: string)
    ensures s.Some? ==> r == s.value
    ensures s.None? ==> r == "undefined"
  {
    match s
    case Some(v) => v
    case None => "undefined"
  }

  /** The fields of `window.location` the scripts consult. */
  datatype Location = Location(hostname: string, port: string, search: string, pathname: string)

  /**
   * A thrown value as the scripts inspect it: `error.name` and
   * `error.message`, where the message may be missing.
   */
  datatype JsError = JsError(name: string, message: Option<string>)

  /** The two kinds of toast `showNotification` draws: 'success' and 'error'. */
  datatype NoticeKind = SuccessNotice | ErrorNotice

  /** A toast shown to the user. */
  datatype Notice = Notice(kind: NoticeKind, message: string)

  /** A form's submit button: its label and its `disabled` flag. */
  class Button {
    var textContent: string
    var disabled: bool

    constructor (text: string)
      ensures textContent == text && !disabled
    {
      textContent := text;
      disabled := false;
    }
  }

  /** The label a button is reset to in a `finally` block: `originalText || fallback`. */
  function RestoredLabel(originalText: string, fallback: string): (r: string)
    ensures originalText != "" ==> r == originalText
    ensures originalText == "" ==> r == fallback
    ensures fallback != "" ==> r != ""
  {
    if originalText != "" then originalText else fallback
  }
}
