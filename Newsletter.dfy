/**
 * `handleNewsletterSubmission` of src/assets/js/main.js: the notice a
 * newsletter sign-up ends with, and the submit button's state around it.
 * The request itself is an input: what `fetch` answered (or threw), and
 * whether the 10-second timer had fired by then.
 */
module Newsletter {
  import opened Strings
  import opened Browser
  import EH = ErrorHandler

  /** 'https://france-lauterbourg.vpn.zkynet.org/api/support', written around the host name. */
  const ApiUrl := "https://" + EH.KnownCorsApiHost + "/api/support"
  const SubscribedMessage := "Successfully subscribed to our newsletter! You'll be the first to know about ZKyNet updates."
  const UnexpectedMessage := "An unexpected error occurred. Please try again."
  const SubscribingLabel := "Subscribing..."
  const SubscribeLabel := "Subscribe"

  /**
   * How the request ended: a response (its `ok`, `status`, `statusText` and
   * JSON body, `None` when the body is not JSON), or an error thrown by
   * `fetch` together with the `timeoutTriggered` flag the timer sets.
   */
  datatype FetchOutcome =
    | Responded(ok: bool, status: int, statusText: string, body: Option<EH.ErrorBody>)
    | Threw(error: JsError, timeoutTriggered: bool)

  /** The API address names the API host whose CORS problem the handler knows about. */
  lemma ApiUrlIsKnownHost()
    ensures Contains(ApiUrl, EH.KnownCorsApiHost)
  {
    assert ApiUrl[8..8 + |EH.KnownCorsApiHost|] == EH.KnownCorsApiHost;
    OccurrenceContains(ApiUrl, EH.KnownCorsApiHost, 8);
  }

  /**
   * The notice a thrown fetch error is reported with: a timeout only when
   * the error is an `AbortError` AND the timer fired; anything else goes
   * through `handleNetworkError` with the API address.
   */
  function FetchErrorNotice(loc: Location, fetchError: JsError, timeoutTriggered: bool): (r: Notice)
    ensures r.kind == ErrorNotice
    ensures fetchError.name == "AbortError" && timeoutTriggered ==> r.message == EH.TimedOutMessage
    ensures !(fetchError.name == "AbortError" && timeoutTriggered) ==>
      r.message == EH.NetworkErrorInfoOf(loc, Some(fetchError), Some(ApiUrl)).message
  {
    if fetchError.name == "AbortError" && timeoutTriggered then Notice(ErrorNotice, EH.TimedOutMessage)
    else Notice(ErrorNotice, EH.NetworkErrorInfoOf(loc, Some(fetchError), Some(ApiUrl)).message)
  }

  /**
   * The first notice a submission shows. A form without an `email` field fails
   * at once (reading `substring` of `undefined`) with the generic message.
   */
  function NewsletterNotice(loc: Location, email: Option<string>, outcome: FetchOutcome): (r: Notice)
    ensures r.kind == SuccessNotice <==> email.Some? && outcome.Responded? && outcome.ok
    ensures r.kind == SuccessNotice ==> r.message == SubscribedMessage
    ensures email.None? ==> r == Notice(ErrorNotice, UnexpectedMessage)
    ensures email.Some? && outcome.Responded? && !outcome.ok ==>
      r.message == EH.ApiErrorNoticeText(outcome.status, outcome.body, outcome.statusText)
    ensures email.Some? && outcome.Threw? ==>
      r == FetchErrorNotice(loc, outcome.error, outcome.timeoutTriggered)
  {
    if email.None? then Notice(ErrorNotice, UnexpectedMessage)
    else
      match outcome
      case Responded(ok, status, statusText, body) =>
        if ok then Notice(SuccessNotice, SubscribedMessage)
        else Notice(ErrorNotice, EH.ApiErrorNoticeText(status, body, statusText))
      case Threw(fetchError, timeoutTriggered) =>
        FetchErrorNotice(loc, fetchError, timeoutTriggered)
  }

  /**
   * What `document.querySelector('#newsletter-form').reset()` throws on a page
   * without the form (the querySelector gives `null`), in V8's wording.
   */
  const MissingFormMessage := CannotRead + Properties + OfNull + ReadingReset
  const MissingFormError := JsError("TypeError", Some(MissingFormMessage))

  const CannotRead := "Cannot read "
  const Properties := "properties "
  const OfNull := "of null "
  const ReadingReset := "(reading 'reset')"

  /** Lacks a letter of each classified substring: `O` (CORS, Cross-Origin), `F`, `N` and `m` (timeout, multiple values). */
  predicate LacksClassifiedLetters(s: string) {
    'O' !in s && 'F' !in s && 'N' !in s && 'm' !in s
  }

  lemma CannotReadLetters() ensures LacksClassifiedLetters(CannotRead) {}
  lemma PropertiesLetters() ensures LacksClassifiedLetters(Properties) {}
  lemma OfNullLetters() ensures LacksClassifiedLetters(OfNull) {}
  lemma ReadingResetLetters() ensures LacksClassifiedLetters(ReadingReset) {}

  /** The TypeError's message, piece by piece, lacks those letters. */
  lemma MissingFormLetters()
    ensures LacksClassifiedLetters(MissingFormMessage)
  {
    CannotReadLetters();
    PropertiesLetters();
    OfNullLetters();
    ReadingResetLetters();
  }

  /**
   * Every notice a submission shows, in order. The form is reset after the
   * success notice, inside the inner `try`: on a page without
   * `#newsletter-form` that throws, and the inner `catch` reports the
   * TypeError through `handleNetworkError` as well (the timer was already
   * cleared, so it is not taken for a timeout).
   */
  function NewsletterNotices(loc: Location, email: Option<string>, outcome: FetchOutcome, formPresent: bool): (r: seq<Notice>)
    ensures 1 <= |r| <= 2 && r[0] == NewsletterNotice(loc, email, outcome)
    ensures |r| == 2 <==> r[0].kind == SuccessNotice && !formPresent
    ensures |r| == 2 ==> r[1] == FetchErrorNotice(loc, MissingFormError, false)
  {
    var first := NewsletterNotice(loc, email, outcome);
    if first.kind == SuccessNotice && !formPresent then [first, FetchErrorNotice(loc, MissingFormError, false)]
    else [first]
  }

  /** The TypeError of a missing form names none of the classified failures: it gets the default message. */
  lemma MissingFormReportsNetworkError(loc: Location)
    ensures FetchErrorNotice(loc, MissingFormError, false) == Notice(ErrorNotice, EH.DefaultNetworkMessage)
  {
    var m := MissingFormMessage;
    MissingFormLetters();
    MissingCharNotContained(m, "CORS", 1);
    MissingCharNotContained(m, "Cross-Origin", 6);
    MissingCharNotContained(m, "Failed to fetch", 0);
    MissingCharNotContained(m, "NetworkError", 0);
    MissingCharNotContained(m, "timeout", 2);
    MissingCharNotContained(m, "multiple values", 0);
  }

  /**
   * `handleNewsletterSubmission(data)` for a page at `loc`, with `email` for
   * `data.email`, `formPresent` for whether the page carries
   * `#newsletter-form`, and `button` for the form's submit button (`null`
   * when the page has none). The button shows 'Subscribing...' and is
   * disabled while the request runs; the `finally` block gives it back its
   * original label (or 'Subscribe') and enables it, on every path.
   */
  method HandleNewsletterSubmission(loc: Location, email: Option<string>, outcome: FetchOutcome,
                                    formPresent: bool, button: Button?)
    returns (notices: seq<Notice>)
    modifies button
    ensures notices == NewsletterNotices(loc, email, outcome, formPresent)
    ensures button != null ==>
      button.textContent == RestoredLabel(old(button.textContent), SubscribeLabel) && !button.disabled
  {
    var originalText := if button != null then button.textContent else "";
    if email.None? {
      notices := [Notice(ErrorNotice, UnexpectedMessage)];
    } else {
      if button != null {
        button.textContent := SubscribingLabel;
        button.disabled := true;
      }
      match outcome
      case Responded(ok, status, statusText, body) =>
        if ok {
          notices := [Notice(SuccessNotice, SubscribedMessage)];
          if !formPresent {
            // `reset()` of `null` throws into the inner `catch`
            var errorInfo := EH.HandleNetworkError(loc, Some(MissingFormError), Some(ApiUrl));
            notices := notices + [Notice(ErrorNotice, errorInfo.message)];
          }
        } else {
          notices := [Notice(ErrorNotice, EH.ApiErrorNoticeText(status, body, statusText))];
        }
      case Threw(fetchError, timeoutTriggered) =>
        if fetchError.name == "AbortError" && timeoutTriggered {
          notices := [Notice(ErrorNotice, EH.TimedOutMessage)];
        } else {
          var errorInfo := EH.HandleNetworkError(loc, Some(fetchError), Some(ApiUrl));
          notices := [Notice(ErrorNotice, errorInfo.message)];
        }
    }
    if button != null {
      button.textContent := RestoredLabel(originalText, SubscribeLabel);
      button.disabled := false;
    }
  }

  /**
   * An `AbortError` that the timer did not cause (a request the browser
   * aborted, as a CORS block can) is not reported as a timeout unless its
   * message itself says "timeout".
   */
  lemma UntimedAbortIsNotATimeout(loc: Location, fetchError: JsError)
    requires fetchError.name == "AbortError"
    requires !EH.MessageIncludes(Some(fetchError), "timeout")
    ensures FetchErrorNotice(loc, fetchError, false).message != EH.TimedOutMessage
  {
    var info := EH.NetworkErrorInfoOf(loc, Some(fetchError), Some(ApiUrl));
    assert info.errorType != EH.Timeout;
  }

  /**
   * A "Failed to fetch" from the sign-up request is reported, from any page,
   * with the message about the API server's known CORS problem (unless the
   * browser also reported the malformed allow-origin header).
   */
  lemma FailedFetchReportsKnownIssue(loc: Location, fetchError: JsError, timeoutTriggered: bool)
    requires EH.MessageIncludes(Some(fetchError), "Failed to fetch")
    requires !EH.IsServerCorsConfig(Some(fetchError))
    requires fetchError.name != "AbortError" || !timeoutTriggered
    ensures FetchErrorNotice(loc, fetchError, timeoutTriggered) == Notice(ErrorNotice, EH.KnownIssueMessage)
  {
    ApiUrlIsKnownHost();
    EH.FailedFetchToKnownApi(loc, fetchError, ApiUrl);
  }

  /** A rejected sign-up with a known HTTP status is reported with that status's fixed text. */
  lemma KnownStatusReported(loc: Location, email: string, status: int, statusText: string, body: Option<EH.ErrorBody>)
    requires status in EH.KnownStatuses
    ensures NewsletterNotice(loc, Some(email), Responded(false, status, statusText, body))
      == Notice(ErrorNotice, EH.StatusMessages[status])
  {
  }
}
