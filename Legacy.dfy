/**
 * The older `ErrorHandler` in assets/js/main.js and the abort branch of its
 * newsletter handler, stated beside the current copy in src/assets/js/main.js.
 * `isLocalDevelopment`, `getStatusMessage`, `getCurrentPage` and
 * `updateActiveNavLink` are the same code in both copies and are used
 * from ErrorHandler and Navigation.
 */
module Legacy {
  import opened Strings
  import opened Browser
  import EH = ErrorHandler
  import NL = Newsletter

  /**
   * `detectDebugMode` (older copy): localhost, 127.0.0.1, a host containing
   * `192.168`, or `debug=true` in the query string; no production guard.
   */
  function DetectDebugMode(loc: Location): (r: bool)
    ensures Contains(loc.search, "debug=true") ==> r
    ensures r ==> EH.IsLocalDevelopment(loc) || Contains(loc.search, "debug=true")
  {
    loc.hostname == "localhost" || loc.hostname == "127.0.0.1"
    || Contains(loc.hostname, "192.168") || Contains(loc.search, "debug=true")
  }

  /**
   * The two debug rules compared for every page, leaving the stored flag
   * aside: whatever switches the current rule on switches the older one on;
   * and off the production site, on a host without `192.168`, the older
   * rule switches on only where the current one does.
   */
  lemma DebugRulesCompared(loc: Location)
    ensures EH.DetectDebugMode(loc, None) ==> DetectDebugMode(loc)
    ensures !EH.IsProductionDomain(loc.hostname) && !Contains(loc.hostname, "192.168") ==>
      (DetectDebugMode(loc) ==> EH.DetectDebugMode(loc, None))
    ensures Contains(loc.hostname, "192.168") ==> DetectDebugMode(loc)
  {
  }

  /** The older copy does switch debug mode on for the production site. */
  lemma DebugOnProduction()
    ensures var loc := Location("zkynet.org", "", "?debug=true", "/");
      DetectDebugMode(loc) && !EH.DetectDebugMode(loc, None)
  {
    var loc := Location("zkynet.org", "", "?debug=true", "/");
    assert OccursAt(loc.search, "debug=true", 1);
    OccurrenceContains(loc.search, "debug=true", 1);
  }

  /**
   * `isLikelyCorsError` (older copy): running locally, a truthy
   * `details.url`, and a url that does not mention the page's host.
   */
  function IsLikelyCorsError(loc: Location, url: Option<string>): (r: bool)
    ensures !EH.IsLocalDevelopment(loc) ==> !r
    ensures r ==> Truthy(url) && !Contains(url.value, loc.hostname)
  {
    EH.IsLocalDevelopment(loc) && Truthy(url) && !Contains(url.value, loc.hostname)
  }

  /** The current rule is a widening of the older one: whatever it flagged is still flagged. */
  lemma CorsRuleWidened(loc: Location, url: Option<string>)
    ensures IsLikelyCorsError(loc, url) ==> EH.IsLikelyCorsError(loc, url)
  {
  }

  /** ...and strictly so: the known API host is flagged from the live site only by the current rule. */
  lemma CorsRuleStrictlyWider()
    ensures var loc := Location("zkynet.org", "", "", "/");
      var url := Some(EH.KnownCorsApiHost);
      EH.IsLikelyCorsError(loc, url) && !IsLikelyCorsError(loc, url)
  {
    var loc := Location("zkynet.org", "", "", "/");
    assert OccursAt(EH.KnownCorsApiHost, EH.KnownCorsApiHost, 0);
    OccurrenceContains(EH.KnownCorsApiHost, EH.KnownCorsApiHost, 0);
    EH.KnownApiAlwaysCors(loc, loc, EH.KnownCorsApiHost);
    assert !EH.IsLocalDevelopment(loc) by {
      MissingCharNotContained("zkynet.org", "192.168", 0);
    }
  }

  const LocalCorsMessage := "CORS blocked: This API call works on the live site but is blocked when running locally. The newsletter form will work when deployed."

  /** The `isCorsError` test of the older `handleNetworkError`. */
  function IsCorsError(loc: Location, error: Option<JsError>, url: Option<string>): (r: bool)
    ensures r ==> EH.IsCorsError(loc, error, url)
    ensures !EH.IsLocalDevelopment(loc) ==> (r <==> EH.MessageIncludes(error, "CORS") || EH.MessageIncludes(error, "Cross-Origin"))
  {
    CorsRuleWidened(loc, url);
    || EH.MessageIncludes(error, "CORS")
    || EH.MessageIncludes(error, "Cross-Origin")
    || (EH.MessageIncludes(error, "Failed to fetch") && IsLikelyCorsError(loc, url))
  }

  /** The label of the older copy, in priority order; there is no server-configuration label. */
  function NetworkErrorTypeOf(loc: Location, error: Option<JsError>, url: Option<string>): (r: EH.NetworkErrorType)
    ensures r != EH.CorsServerConfig
  {
    if IsCorsError(loc, error, url) then EH.Cors
    else if EH.MessageIncludes(error, "Failed to fetch") then EH.Fetch
    else if EH.MessageIncludes(error, "timeout") && !EH.MessageIncludes(error, "NetworkError") then EH.Timeout
    else EH.Network
  }

  /** The user message of the older copy for each label. */
  function NetworkMessageFor(t: EH.NetworkErrorType, loc: Location, error: Option<JsError>): (r: string)
    ensures r != EH.ServerConfigMessage && r != EH.KnownIssueMessage
    ensures !(t == EH.Cors || t == EH.CorsServerConfig) ==>
      forall url :: r == EH.NetworkMessageFor(t, loc, error, url)
  {
    match t
    case Cors | CorsServerConfig =>
      if EH.IsLocalDevelopment(loc) then LocalCorsMessage else EH.BlockedMessage
    case Fetch => EH.UnableToConnectMessage
    case Timeout => EH.TimedOutMessage
    case Network =>
      if EH.MessageIncludes(error, "NetworkError") then EH.NetworkOccurredMessage else EH.DefaultNetworkMessage
  }

  /** The classification the older `handleNetworkError` returns. */
  function NetworkErrorInfoOf(loc: Location, error: Option<JsError>, url: Option<string>): (r: EH.NetworkErrorInfo)
    ensures r.errorType != EH.CorsServerConfig
    ensures r.errorType == EH.Timeout <==> r.message == EH.TimedOutMessage
    ensures r.errorType == EH.Fetch <==> r.message == EH.UnableToConnectMessage
  {
    var t := NetworkErrorTypeOf(loc, error, url);
    EH.NetworkErrorInfo(t, NetworkMessageFor(t, loc, error))
  }

  /** The older `handleNetworkError`: its chain of reassignments (logging left out). */
  method HandleNetworkError(loc: Location, error: Option<JsError>, url: Option<string>)
    returns (info: EH.NetworkErrorInfo)
    ensures info == NetworkErrorInfoOf(loc, error, url)
    ensures info.errorType != EH.CorsServerConfig
  {
    var userMessage := EH.DefaultNetworkMessage;
    var errorType := EH.Network;

    if EH.MessageIncludes(error, "CORS") || EH.MessageIncludes(error, "Cross-Origin")
       || (EH.MessageIncludes(error, "Failed to fetch") && IsLikelyCorsError(loc, url))
    {
      errorType := EH.Cors;
      if EH.IsLocalDevelopment(loc) {
        userMessage := LocalCorsMessage;
      } else {
        userMessage := EH.BlockedMessage;
      }
    } else if EH.MessageIncludes(error, "Failed to fetch") {
      errorType := EH.Fetch;
      userMessage := EH.UnableToConnectMessage;
    } else if EH.MessageIncludes(error, "NetworkError") {
      errorType := EH.Network;
      userMessage := EH.NetworkOccurredMessage;
    } else if EH.MessageIncludes(error, "timeout") {
      errorType := EH.Timeout;
      userMessage := EH.TimedOutMessage;
    }

    info := EH.NetworkErrorInfo(errorType, userMessage);
  }

  /**
   * The older chain starts from `network` too: an error naming none of the
   * tested substrings keeps that label, and without a message it also keeps
   * the default message.
   */
  lemma NetworkIsTheDefault(loc: Location, error: Option<JsError>, url: Option<string>)
    requires !EH.MessageIncludes(error, "CORS") && !EH.MessageIncludes(error, "Cross-Origin")
    requires !EH.MessageIncludes(error, "Failed to fetch") && !EH.MessageIncludes(error, "timeout")
    ensures NetworkErrorInfoOf(loc, error, url).errorType == EH.Network
    ensures error.None? || error.value.message.None? ==>
      NetworkErrorInfoOf(loc, error, url) == EH.NetworkErrorInfo(EH.Network, EH.DefaultNetworkMessage)
  {
  }

  /** A "Failed to fetch" that is likely CORS is labelled `cors`; otherwise `fetch`. */
  lemma FailedFetchLabel(loc: Location, error: JsError, url: Option<string>)
    requires EH.MessageIncludes(Some(error), "Failed to fetch")
    ensures NetworkErrorTypeOf(loc, Some(error), url) ==
      (if IsCorsError(loc, Some(error), url) then EH.Cors else EH.Fetch)
    ensures IsLikelyCorsError(loc, url) ==> NetworkErrorTypeOf(loc, Some(error), url) == EH.Cors
  {
  }

  /**
   * Off local development a "Failed to fetch" that names neither CORS nor
   * Cross-Origin is always `fetch` in the older copy, while the current copy
   * labels the same error `cors` when it was sent to the known API host.
   */
  lemma FailedFetchOffLocalDiffers(loc: Location, error: JsError, url: string)
    requires !EH.IsLocalDevelopment(loc)
    requires EH.MessageIncludes(Some(error), "Failed to fetch")
    requires !EH.MessageIncludes(Some(error), "CORS") && !EH.MessageIncludes(Some(error), "Cross-Origin")
    requires Contains(url, EH.KnownCorsApiHost)
    ensures NetworkErrorTypeOf(loc, Some(error), Some(url)) == EH.Fetch
    ensures EH.NetworkErrorTypeOf(loc, Some(error), Some(url)) == EH.Cors
  {
    EH.KnownApiAlwaysCors(loc, loc, url);
  }

  // ---- the newsletter handler of the older copy ------------------------------

  /**
   * The notice for a thrown fetch error in the older copy: EVERY
   * `AbortError` is reported as a timeout, whether or not the timer fired;
   * anything else goes through the older `handleNetworkError`.
   */
  function FetchErrorNotice(loc: Location, fetchError: JsError): (r: Notice)
    ensures r.kind == ErrorNotice
    ensures fetchError.name == "AbortError" ==> r.message == EH.TimedOutMessage
    ensures fetchError.name != "AbortError" ==>
      r.message == NetworkErrorInfoOf(loc, Some(fetchError), Some(NL.ApiUrl)).message
  {
    if fetchError.name == "AbortError" then Notice(ErrorNotice, EH.TimedOutMessage)
    else Notice(ErrorNotice, NetworkErrorInfoOf(loc, Some(fetchError), Some(NL.ApiUrl)).message)
  }

  /** The notice a submission ends with in the older copy; the timer flag plays no part. */
  function NewsletterNotice(loc: Location, email: Option<string>, outcome: NL.FetchOutcome): (r: Notice)
    ensures r.kind == SuccessNotice <==> email.Some? && outcome.Responded? && outcome.ok
    ensures r.kind == SuccessNotice ==> r.message == NL.SubscribedMessage
    ensures email.None? ==> r == Notice(ErrorNotice, NL.UnexpectedMessage)
    ensures email.Some? && outcome.Responded? && !outcome.ok ==>
      r.message == EH.ApiErrorNoticeText(outcome.status, outcome.body, outcome.statusText)
    ensures email.Some? && outcome.Threw? ==> r == FetchErrorNotice(loc, outcome.error)
  {
    if email.None? then Notice(ErrorNotice, NL.UnexpectedMessage)
    else
      match outcome
      case Responded(ok, status, statusText, body) =>
        if ok then Notice(SuccessNotice, NL.SubscribedMessage)
        else Notice(ErrorNotice, EH.ApiErrorNoticeText(status, body, statusText))
      case Threw(fetchError, _) => FetchErrorNotice(loc, fetchError)
  }

  /**
   * Every notice the older handler shows. Its form reset sits in the inner
   * `try` too, so on a page without `#newsletter-form` the TypeError follows
   * the success notice through the older `handleNetworkError`.
   */
  function NewsletterNotices(loc: Location, email: Option<string>, outcome: NL.FetchOutcome, formPresent: bool): (r: seq<Notice>)
    ensures 1 <= |r| <= 2 && r[0] == NewsletterNotice(loc, email, outcome)
    ensures |r| == 2 <==> r[0].kind == SuccessNotice && !formPresent
    ensures |r| == 2 ==> r[1] == FetchErrorNotice(loc, NL.MissingFormError)
  {
    var first := NewsletterNotice(loc, email, outcome);
    if first.kind == SuccessNotice && !formPresent then [first, FetchErrorNotice(loc, NL.MissingFormError)]
    else [first]
  }

  /** The older `handleNewsletterSubmission`, with the same button handling as the current one. */
  method HandleNewsletterSubmission(loc: Location, email: Option<string>, outcome: NL.FetchOutcome,
                                    formPresent: bool, button: Button?)
    returns (notices: seq<Notice>)
    modifies button
    ensures notices == NewsletterNotices(loc, email, outcome, formPresent)
    ensures button != null ==>
      button.textContent == RestoredLabel(old(button.textContent), NL.SubscribeLabel) && !button.disabled
  {
    var originalText := if button != null then button.textContent else "";
    if email.None? {
      notices := [Notice(ErrorNotice, NL.UnexpectedMessage)];
    } else {
      if button != null {
        button.textContent := NL.SubscribingLabel;
        button.disabled := true;
      }
      match outcome
      case Responded(ok, status, statusText, body) =>
        if ok {
          notices := [Notice(SuccessNotice, NL.SubscribedMessage)];
          if !formPresent {
            var errorInfo := HandleNetworkError(loc, Some(NL.MissingFormError), Some(NL.ApiUrl));
            notices := notices + [Notice(ErrorNotice, errorInfo.message)];
          }
        } else {
          notices := [Notice(ErrorNotice, EH.ApiErrorNoticeText(status, body, statusText))];
        }
      case Threw(fetchError, _) =>
        if fetchError.name == "AbortError" {
          notices := [Notice(ErrorNotice, EH.TimedOutMessage)];
        } else {
          var errorInfo := HandleNetworkError(loc, Some(fetchError), Some(NL.ApiUrl));
          notices := [Notice(ErrorNotice, errorInfo.message)];
        }
    }
    if button != null {
      button.textContent := RestoredLabel(originalText, NL.SubscribeLabel);
      button.disabled := false;
    }
  }

  /**
   * The two copies part only on an `AbortError` the timer did not cause:
   * the older one calls it a timeout, the current one classifies it (and,
   * when its message does not say "timeout", does not call it a timeout).
   */
  lemma AbortHandlingDiffers(loc: Location, fetchError: JsError)
    requires fetchError.name == "AbortError"
    requires !EH.MessageIncludes(Some(fetchError), "timeout")
    ensures FetchErrorNotice(loc, fetchError).message == EH.TimedOutMessage
    ensures NL.FetchErrorNotice(loc, fetchError, false).message != EH.TimedOutMessage
    ensures NL.FetchErrorNotice(loc, fetchError, true) == FetchErrorNotice(loc, fetchError)
  {
    NL.UntimedAbortIsNotATimeout(loc, fetchError);
  }

  /**
   * Both copies agree on every answered request and on a missing email
   * field, down to the extra notice on a page without the form.
   */
  lemma SameNoticeWithoutThrow(loc: Location, email: Option<string>, outcome: NL.FetchOutcome, formPresent: bool)
    requires email.None? || outcome.Responded?
    ensures NewsletterNotice(loc, email, outcome) == NL.NewsletterNotice(loc, email, outcome)
    ensures NewsletterNotices(loc, email, outcome, formPresent) == NL.NewsletterNotices(loc, email, outcome, formPresent)
  {
    MissingFormNetworkError(loc);
    NL.MissingFormReportsNetworkError(loc);
  }

  /** The older copy gives the missing form's TypeError the default message too. */
  lemma MissingFormNetworkError(loc: Location)
    ensures FetchErrorNotice(loc, NL.MissingFormError) == Notice(ErrorNotice, EH.DefaultNetworkMessage)
  {
    var m := NL.MissingFormMessage;
    NL.MissingFormLetters();
    MissingCharNotContained(m, "CORS", 1);
    MissingCharNotContained(m, "Cross-Origin", 6);
    MissingCharNotContained(m, "Failed to fetch", 0);
    MissingCharNotContained(m, "NetworkError", 0);
    MissingCharNotContained(m, "timeout", 2);
  }
}
