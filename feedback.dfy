/**
 * What a screen shows after a button press: alerts, whose texts are
 * either literal strings or i18n keys (the translation tables are not
 * part of this model), and the error message picked after a failed
 * request.
 */
module Feedback {
  import opened Wrappers

  /** A text on screen: literal, or `i18n.t(key)`. */
  datatype Text = Literal(s: string) | Translated(key: string)

  /** `Alert.alert(title, message)`. */
  datatype Alert = Alert(title: Text, message: Text)

  /**
   * How an awaited request ends. A thrown error may carry the server's
   * `response.data.message`; it is `None` when there is no response, no
   * data, or no message.
   */
  datatype Outcome = Succeeded | Threw(serverMessage: Option<string>)

  /** A text that is not the empty string or the empty key. */
  predicate NonBlank(t: Text)
  {
    match t
    case Literal(s) => s != ""
    case Translated(k) => k != ""
  }

  /**
   * `error.response?.data?.message || fallback`: the server's message
   * when it is present and not empty (an empty string is falsy), the
   * fallback otherwise.
   */
  function ErrorText(serverMessage: Option<string>, fallback: Text): (t: Text)
    ensures serverMessage.Some? && serverMessage.value != "" ==> t == Literal(serverMessage.value)
    ensures serverMessage.None? || serverMessage.value == "" ==> t == fallback
  {
    match serverMessage
    case Some(m) => if m != "" then Literal(m) else fallback
    case None => fallback
  }

  /** With a non-blank fallback, the error alert never shows a blank message. */
  lemma ErrorTextNeverBlank(serverMessage: Option<string>, fallback: Text)
    requires NonBlank(fallback)
    ensures NonBlank(ErrorText(serverMessage, fallback))
  {
  }
}
