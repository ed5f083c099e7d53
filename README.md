# ZKyNet site scripts: a Dafny model

This project models the logic of the ZKyNet landing site's browser scripts and
proves properties of it. It covers:

- **The error handler** of `src/assets/js/main.js`:
  - which hosts count as production, local development or debug mode;
  - when a failed request is taken for a CORS problem;
  - which label and user message `handleNetworkError` gives a network error;
  - which text `getStatusMessage` and `handleApiError` show for a failed response;
  - how `classifyConnectionError` labels a connection error for the diagnostics.
- **The older error handler** of `assets/js/main.js` and its different abort handling in the newsletter form.
- **Page detection** (`getCurrentPage`) and **nav-link highlighting** (`updateActiveNavLink`).
- **The newsletter sign-up**: which notices it shows, with or without the form on the page, and the submit button around it.
- **The status line** of the API diagnostics.
- **The contact page** (`src/assets/js/contact.js`):
  - the contact record built from the form;
  - the readable subject;
  - the draft template;
  - the compose URL of each e-mail service;
  - the service modal and its Escape listener.
- **The footers** (`src/assets/js/footer.js` and `src/assets/js/legal-footer.js`):
  - the path prefixes the site footer chooses;
  - the links it renders;
  - the legal footer's choice of navigation links.

The model follows the form of the source:

- Pure decisions are Dafny functions with contracts.
- The source's `if` chains and `push` sequences are methods proved equal to those functions.
- DOM state the scripts change is a class with `modifies` clauses:
  - the modal and its listener, the URLs opened and the notices shown (`ContactPage`);
  - submit buttons (`Button`).
- The nav-link class lists are an array.

JavaScript string behaviour is written out in `Strings`:

- `includes`;
- `replace`, which replaces only the first occurrence;
- `split`, `pop` and `join`;
- `trim`, with JavaScript's whitespace set.

`undefined` fields are an `Option`, and `${undefined}` interpolates to the text `undefined`.

To state where a relative link leads, `SitePaths` resolves an `href` against the page path. It does this the way a browser does for path-only references: merge, then remove `.` and `..` segments, as in section 5.2 of RFC 3986. As there, the empty reference leads to the page itself, and a reference ending in `.` or `..` leads to a directory path that keeps its trailing `/` (`SitePaths.DirectoryReferences` states both on a legal page). The footer lemmas speak of plain references: every segment is non-empty and neither `.` nor `..`. The site layout it uses is:

- the home page at `/` or `/index.html`;
- pages in `/src/`;
- legal pages in `/src/legal/`.

Modules, in dependency order:

- `Strings` and `Browser`;
- `ErrorHandler`;
- `Newsletter`, then `Legacy`;
- `Navigation` and `Diagnostics`;
- `Contact`, then `ContactPage`;
- `SitePaths`, `Footer` and `LegalFooter`.

## Model

| member | source | states |
|---|---|---|
| ErrorHandler.SomeDomainMatches | src/assets/js/main.js:46-48 | the `some` holds exactly when some listed domain is the host itself or a dot-suffix of it |
| ErrorHandler.MatchesDomain | src/assets/js/main.js:47 | a host that matches ends with the domain, and unless it is the domain itself a `.` comes just before it |
| ErrorHandler.ProductionDomainsMatch | src/assets/js/main.js:40-48 | over the two listed domains the test is: apex, `www`, or a subdomain of either |
| ErrorHandler.WwwSubdomainIsSubdomain | src/assets/js/main.js:40-48 | a subdomain of `www.zkynet.org` is a subdomain of `zkynet.org`, so the second list entry adds only itself |
| ErrorHandler.IsProductionDomain | src/assets/js/main.js:37-49 | production exactly for `zkynet.org`, `www.zkynet.org` and every `*.zkynet.org` host |
| ErrorHandler.ProductionIsApexOrSubdomain | src/assets/js/main.js:37-49 | production is equivalent to "apex or subdomain of zkynet.org" |
| ErrorHandler.DetectDebugMode | src/assets/js/main.js:19-32 | never on production; elsewhere exactly for localhost, 127.0.0.1, `debug=true` in the query, or the stored flag `'true'` |
| ErrorHandler.ProductionNeverDebugs | src/assets/js/main.js:20-23 | no query string or stored flag turns debug mode on for a production host |
| ErrorHandler.IsLocalDevelopment | src/assets/js/main.js:223-230 | any explicit port is local; without one, exactly localhost, 127.0.0.1 or a host containing `192.168` |
| ErrorHandler.IsLikelyCorsError | src/assets/js/main.js:197-218 | never without a truthy url; always for the known API host; otherwise exactly when local and the url does not mention the page's host |
| ErrorHandler.IsCorsError | src/assets/js/main.js:134-137 | never without an error; a hit names CORS, Cross-Origin or "Failed to fetch"; without a truthy url only the first two count |
| ErrorHandler.IsServerCorsConfig | src/assets/js/main.js:139-141 | only an error with a message can match |
| ErrorHandler.NetworkErrorTypeOf | src/assets/js/main.js:134-170 | no error is `network`; `cors` exactly when the CORS test holds; `fetch` and `timeout` only with their substrings and the earlier tests failed |
| ErrorHandler.NetworkMessageFor | src/assets/js/main.js:129-170 | the message is one of the eight fixed texts; a CORS-family label gets one of the four CORS texts and every other label a text outside them |
| ErrorHandler.NetworkErrorInfoOf | src/assets/js/main.js:187-191 | the returned message is one of the eight texts; the label is in the CORS family exactly when the message is a CORS text, `timeout` exactly when it is the timeout text, `fetch` exactly when it is the unable-to-connect text |
| ErrorHandler.KnownApiAlwaysCors | src/assets/js/main.js:204-209 | a url naming the known API host is a CORS suspect from every page |
| ErrorHandler.HandleNetworkError | src/assets/js/main.js:129-192 | the reassignment chain returns the label `NetworkErrorTypeOf` gives and the message `NetworkMessageFor` gives for that label |
| ErrorHandler.NetworkIsTheDefault | src/assets/js/main.js:130-131 | with no recognised substring the label is `network`; with no message at all the default message too |
| ErrorHandler.CorsLabelWithServerMessage | src/assets/js/main.js:143-149 | a message that both names CORS and reports the malformed header gets label `cors` with the server-configuration message |
| ErrorHandler.ServerConfigLabel | src/assets/js/main.js:143-144 | label `cors_server_config` exactly when the CORS test fails and the server-configuration test holds |
| ErrorHandler.FailedFetchToKnownApi | src/assets/js/main.js:134-153 | "Failed to fetch" from the known API host is `cors` with the known-issue message, from any page |
| ErrorHandler.StatusMessage | src/assets/js/main.js:235-248 | a status in the table gets its own non-empty text; every other status gets the default |
| ErrorHandler.StatusTexts | src/assets/js/main.js:236-245 | the eight fixed texts, status by status |
| ErrorHandler.ApiErrorMessage | src/assets/js/main.js:97-107 | fallback order: the body's `detail`, then its `message`, then the generic text; an unparsable body gives the status text, else the generic text; never empty |
| ErrorHandler.ApiErrorNoticeText | src/assets/js/main.js:119-123 | a known status is shown by its table text; any other by the extracted message |
| ErrorHandler.ClassifyConnectionError | src/assets/js/main.js:427-447 | an AbortError is `timeout` whatever its message; `cors` and `network` exactly when their tests are the first to hold; a missing message gives `unknown` |
| ErrorHandler.ConnectionLaterLabels | src/assets/js/main.js:440-446 | past the earlier tests, `dns` iff the message says DNS, `ssl` iff not DNS and it says SSL or TLS |
| Newsletter.ApiUrlIsKnownHost | src/assets/js/main.js:721 | the sign-up address names the API host with the known CORS problem |
| Newsletter.FetchErrorNotice | src/assets/js/main.js:786-803 | a thrown error is a timeout only when it is an AbortError and the timer fired; otherwise the message `handleNetworkError` gives for the API url |
| Newsletter.NewsletterNotice | src/assets/js/main.js:703-820 | the first notice shown: success iff the email field exists and the response is `ok`; a refused response shows the status text; a throw follows `FetchErrorNotice`; a missing email gives the generic message |
| Newsletter.NewsletterNotices | src/assets/js/main.js:775-803 | the first notice, then a second one exactly when the sign-up succeeded on a page without `#newsletter-form`: the notice for the TypeError `reset()` throws |
| Newsletter.MissingFormReportsNetworkError | src/assets/js/main.js:780-803 | that TypeError matches none of the classified failures and is shown with the default network message |
| Newsletter.HandleNewsletterSubmission | src/assets/js/main.js:703-820 | the handler shows the notices `NewsletterNotices` lists, and the button ends enabled with its original label, or `Subscribe` when that was empty |
| Newsletter.UntimedAbortIsNotATimeout | src/assets/js/main.js:789-803 | an AbortError the timer did not cause is not reported as a timeout unless its message says so |
| Newsletter.FailedFetchReportsKnownIssue | src/assets/js/main.js:798-803 | a "Failed to fetch" from the sign-up request is reported with the known-issue message from any page |
| Newsletter.KnownStatusReported | src/assets/js/main.js:781-785 | a refused sign-up with a known status shows that status's fixed text |
| Legacy.DebugRulesCompared | assets/js/main.js:18-23 | for every page, without a stored flag: the current rule's debug mode implies the older one's; off production and off `192.168` hosts the converse holds; a `192.168` host always gets the older debug mode |
| Legacy.DetectDebugMode | assets/js/main.js:18-23 | the older rule as written: `debug=true` turns debug mode on for every host, and otherwise only a local host can; compared with the current rule by `DebugRulesCompared` |
| Legacy.DebugOnProduction | assets/js/main.js:18-23 | on `zkynet.org` with `?debug=true` the older copy turns debug mode on and the current one does not |
| Legacy.IsLikelyCorsError | assets/js/main.js:146-154 | the older rule as written: never off local development, and only for a truthy url that does not mention the page's host; compared with the current rule by `CorsRuleWidened` |
| Legacy.CorsRuleWidened | assets/js/main.js:146-154 | everything the older rule flags, the current rule flags too |
| Legacy.CorsRuleStrictlyWider | assets/js/main.js:146-154 | the known API host seen from the live site is flagged only by the current rule |
| Legacy.IsCorsError | assets/js/main.js:110-112 | whatever the older CORS test flags, the current one flags; off local development it is exactly a message naming CORS or Cross-Origin |
| Legacy.NetworkMessageFor | assets/js/main.js:103-128 | the older copy has neither the server-configuration nor the known-issue text; for non-CORS labels its message is the current copy's for every url |
| Legacy.NetworkErrorTypeOf | assets/js/main.js:103-128 | the older classification never yields the server-configuration label |
| Legacy.NetworkErrorInfoOf | assets/js/main.js:136-140 | never the server-configuration label; `timeout` exactly with the timeout text and `fetch` exactly with the unable-to-connect text |
| Legacy.NetworkIsTheDefault | assets/js/main.js:106-107 | with none of the tested substrings the older label is `network`; with no message at all the default message too |
| Legacy.HandleNetworkError | assets/js/main.js:103-141 | the older reassignment chain returns `Legacy.NetworkErrorInfoOf` and never the server-configuration label |
| Legacy.FailedFetchLabel | assets/js/main.js:110-121 | in the older copy a "Failed to fetch" is `cors` when the CORS test holds and `fetch` otherwise |
| Legacy.FailedFetchOffLocalDiffers | assets/js/main.js:110-121 | off local development the older copy labels a "Failed to fetch" to the API `fetch`, where the current copy says `cors` |
| Legacy.FetchErrorNotice | assets/js/main.js:482-499 | older copy: every AbortError is reported as a timeout; other errors through the older `handleNetworkError` |
| Legacy.NewsletterNotice | assets/js/main.js:406-516 | the older handler's first notice: the same cases as the current one, except aborts |
| Legacy.NewsletterNotices | assets/js/main.js:472-498 | as in the current copy, a success on a page without the form is followed by the notice for the TypeError of `reset()` |
| Legacy.MissingFormNetworkError | assets/js/main.js:475-498 | the older copy shows that TypeError with the default network message too |
| Legacy.HandleNewsletterSubmission | assets/js/main.js:406-516 | the older handler shows the notices `Legacy.NewsletterNotices` lists and restores the button like the current one |
| Legacy.AbortHandlingDiffers | assets/js/main.js:485-490 | for an untimed AbortError without "timeout" in its message, the older copy says timeout and the current one does not; when timed, they agree |
| Legacy.SameNoticeWithoutThrow | assets/js/main.js:463-480 | both copies give the same notices for every answered request and for a missing email, with or without the form |
| Navigation.CurrentPage | src/assets/js/main.js:534-543 | the page name never contains `/`; a path ending in `/` (or empty) is `home` |
| Navigation.CurrentPageOfFile | src/assets/js/main.js:534-543 | only the last path piece matters: `home` for an empty piece or `index.html`, else the piece minus its first `.html` |
| Navigation.PageOfHtmlFile | src/assets/js/main.js:534-543 | a file `X.html` in any directory is page `X` (`index.html` is `home`) |
| Navigation.LinkPage | src/assets/js/main.js:555-559 | `/` and `index.html` stand for `home` |
| Navigation.LinkMatchesItsPage | src/assets/js/main.js:548-561 | a nav link to a file of the same directory names the page computed for that file's path |
| Navigation.HomeLinksMatchRoot | src/assets/js/main.js:538-539 | both home links match the page computed for any directory root and its `index.html` |
| Navigation.Restyled | src/assets/js/main.js:561-567 | an active link gains both active classes and loses `text-white`, an inactive one the reverse; all other classes are kept |
| Navigation.ShowsActive | src/assets/js/main.js:561-564 | a link shows as active exactly when restyling it as active would change nothing |
| Navigation.UpdateActiveNavLink | src/assets/js/main.js:548-569 | every link is restyled by whether its page is the current page, and shows as active exactly then |
| Diagnostics.FirstFailure | src/assets/js/main.js:956-967 | no failure iff every probe passed; a reported probe failed and every probe before it passed |
| Diagnostics.FirstFailureInOrder | src/assets/js/main.js:957-964 | for the three probes: health first, then the CORS preflight, then the support API |
| Diagnostics.StatusLine | src/assets/js/main.js:956-967 | never the "Mixed results" line; any other line than the success line names a probe that failed |
| Diagnostics.DiagnosticsStatus | src/assets/js/main.js:956-967 | the status line is the all-passed line or the line of the first failed probe; the "Mixed results" line is never produced |
| Diagnostics.AllPassedIffNoFailure | src/assets/js/main.js:957-958 | the success line appears exactly when all three probes passed |
| Diagnostics.HealthFailureFirst | src/assets/js/main.js:959-960 | a failed health check is reported whatever the other two did |
| Contact.Field | src/assets/js/contact.js:46-50 | reading a form field is `undefined` exactly for a field the form lacks |
| Contact.RawName | src/assets/js/contact.js:47 | the interpolated first name, one space, then the interpolated last name |
| Contact.ContactDataOf | src/assets/js/contact.js:46-50 | the name is the trim of `first last`; the company is the field if non-empty, else empty; the subject is passed on as given |
| Contact.FullName | src/assets/js/contact.js:47 | with both name fields filled in, the name is first, a space, last |
| Contact.FirstNameOnly | src/assets/js/contact.js:47 | an empty last name leaves the first name alone, with no trailing space |
| Contact.MissingLastName | src/assets/js/contact.js:47 | a form without a lastName field gives a name ending in ` undefined` |
| Contact.SubjectText | src/assets/js/contact.js:229-237 | a known code becomes its label; any other subject, or a missing one, passes through |
| Contact.SubjectCodes | src/assets/js/contact.js:229-236 | the six codes, and no label is itself a code |
| Contact.SubjectTextIdempotent | src/assets/js/contact.js:237 | mapping a subject twice changes nothing more |
| Contact.SubjectLine | src/assets/js/contact.js:238 | the subject line is `ZKyNet Inquiry: ` followed by the subject text |
| Contact.CreateEmailTemplate | src/assets/js/contact.js:294-304 | the draft starts with the greeting and ends with the sender's name |
| Contact.TemplateLines | src/assets/js/contact.js:295-303 | the template's lines: greeting first, the sender's name last |
| Contact.CompanyLineIffCompany | src/assets/js/contact.js:298 | with single-line fields the draft splits into its lines, 10 with a company and 9 without; the fifth is the Company line exactly when the company is non-empty |
| Contact.ServiceNamed | src/assets/js/contact.js:244-266 | exactly `mailto`, `gmail`, `outlook` and `yahoo` are services |
| Contact.ComposeUrl | src/assets/js/contact.js:246-261 | a compose URL starts with its service's prefix and ends with the body parameter |
| Contact.ServiceOfItsUrl | src/assets/js/contact.js:246-261 | each service's URL prefix identifies that service among the four |
| Contact.ParseCompose | src/assets/js/contact.js:246-261 | round trip: a compose URL reads back to its service, recipient, subject and body when the first two hold no `&` or `?` |
| Contact.EmailClientUrl | src/assets/js/contact.js:237-266 | an unknown service fails with `Unknown email service: <service>`; a known one gives its compose URL of the encoded recipient, subject line and template |
| Contact.EmailClientUrlCarriesDraft | src/assets/js/contact.js:238-261 | every service's URL reads back to the encoded recipient, subject line and draft |
| ContactPage.OpenedFor | src/assets/js/contact.js:244-263 | only `mailto` replaces the current page; the others open a new tab with the same URL |
| ContactPage.ContactPage.constructor | src/assets/js/contact.js:184-211 | a fresh page has no modal, no Escape listener, and nothing opened or shown |
| ContactPage.ContactPage.ShowEmailServiceModal | src/assets/js/contact.js:166-178 | one more modal on the page and the Escape listener registered |
| ContactPage.ContactPage.CloseEmailServiceModal | src/assets/js/contact.js:184-191 | with a modal: one modal fewer and no listener; without one: nothing changes |
| ContactPage.ContactPage.HandleModalBackdropClick | src/assets/js/contact.js:197-201 | a click on the backdrop itself closes the modal; any other click changes nothing |
| ContactPage.ContactPage.HandleModalEscapeKey | src/assets/js/contact.js:207-211 | Escape closes the modal while one exists; any other key, or no modal, changes nothing |
| ContactPage.ContactPage.KeyDown | src/assets/js/contact.js:178-189 | a key reaches the handler only while the listener is registered; with no modal a key changes nothing |
| ContactPage.ContactPage.OpenEmailClient | src/assets/js/contact.js:218-287 | a known service opens its URL (same tab for mailto), closes the modal and shows the success notice; an unknown one opens nothing, keeps the modal and shows the failure notice |
| ContactPage.ContactPage.HandleContactForm | src/assets/js/contact.js:28-81 | returns the contact record, opens one modal, and leaves the button enabled with its label, or `Draft Email` when that was empty |
| ContactPage.SubmitThenChoose | src/assets/js/contact.js:59-277 | on a fresh page, submitting then choosing a service opens exactly that URL, shows the success notice and leaves no modal or listener |
| Footer.BasePath | src/assets/js/footer.js:1-16 | `src/` at the root or any `index.html` path; otherwise `../` under `/legal/`; otherwise empty |
| Footer.HomePath | src/assets/js/footer.js:18-30 | empty at the root or any `index.html` path; otherwise `../../` under `/legal/`; otherwise `../` |
| Footer.Href | src/assets/js/footer.js:80-195 | a file link is the base path and the file; a section link is the home path and `index.html#section`; the external link is written as it is |
| Footer.RenderFooter | src/assets/js/footer.js:32-207 | the newsletter section, then the footer with the logo under the base path and the twelve links in document order, each with its prefixed href |
| Footer.PrefixesOf | src/assets/js/footer.js:1-30 | the prefixes on the home page, on a page of `src/` and on a legal page |
| Footer.LinkLeadsToTarget | src/assets/js/footer.js:33-34 | from every page of the layout, a file link resolves to that file of `src/` and a section link to that section of the home page |
| Footer.RenderedLinksLead | src/assets/js/footer.js:80-195 | on every page of the layout, the logo and every internal footer link lead where they are meant to |
| Footer.FooterTablePlain | src/assets/js/footer.js:97-195 | the footer's files and sections are plain relative paths, with no `.` or `..` segment |
| LegalFooter.CurrentLegalPage | src/assets/js/legal-footer.js:1-13 | the first of privacy policy, future terms and MVP terms whose file name the path contains; `unknown` when none |
| LegalFooter.RecognisedBelow | src/assets/js/legal-footer.js:4-9 | a document's own page is recognised as that document, because no file name occurs in another's path |
| LegalFooter.UnhyphenatedIsUnknown | src/assets/js/legal-footer.js:4-12 | a path with no `-` is `unknown` |
| LegalFooter.MainFooterLegalPagesUnknown | src/assets/js/legal-footer.js:1-13 | the legal pages the main footer links to are `unknown` to the legal footer, which then shows all four links |
| LegalFooter.LinksOmitting | src/assets/js/legal-footer.js:24-40 | each kept link belongs to a document other than the current one; none is dropped when the current page is not among them |
| LegalFooter.DocLink | src/assets/js/legal-footer.js:24-40 | each document's link is recognised as that document by the legal footer, and is not labelled Home |
| LegalFooter.NavigationLinksFor | src/assets/js/legal-footer.js:18-40 | Home is the first link and appears only once |
| LegalFooter.NavigationLinks | src/assets/js/legal-footer.js:18-40 | the conditional pushes build Home, then the links of the documents other than the current one, in order |
| LegalFooter.LegalFooterLinks | src/assets/js/legal-footer.js:15-40 | the links shown on a page are those for the document the path names |
| LegalFooter.HomeAlwaysFirst | src/assets/js/legal-footer.js:20-22 | the Home link is always present and always first |
| LegalFooter.LinkCount | src/assets/js/legal-footer.js:24-40 | four links on an unknown page, three on a known document |
| LegalFooter.CurrentOmittedOthersPresent | src/assets/js/legal-footer.js:24-40 | a document's link is present exactly when it is not the current page |
| LegalFooter.LinksInFixedOrder | src/assets/js/legal-footer.js:20-40 | the links keep the order Home, Privacy Policy, Terms of Service, Future Terms |
| LegalFooter.LinksLeadToDocuments | src/assets/js/legal-footer.js:21-38 | from every document page, Home leads to `/index.html` and each document link to that document's page, which the footer recognises |
| Browser.RestoredLabel | src/assets/js/main.js:815 | the original label when it is non-empty, else the fallback; never blank when the fallback is not |
| Strings.IncludesMeansOccurs | src/assets/js/footer.js:5 | `includes` holds exactly when the pattern occurs at some index |
| Strings.ReplaceFirst | src/assets/js/main.js:542 | `replace` with a string pattern changes only the first occurrence, and nothing without one |
| Strings.Split | src/assets/js/main.js:536 | `split` gives at least one piece, no piece holds the separator, and joining the pieces gives the string back |
| Strings.LastPiece | src/assets/js/main.js:536 | `split(c).pop()` has no separator, ends the string, and right before it stands a separator unless it is the whole string |
| Strings.Trim | src/assets/js/contact.js:47 | `trim` removes exactly the leading and trailing JavaScript whitespace |


## Left out

- Side effects are not modelled: console output, `fetch`, timers, local storage, the DOM markup strings and `showNotification`. What a request did is an input (`Newsletter.FetchOutcome`), and so is the stored debug flag. The logger calls are taken to return normally.
- The contact page calls its logger through `ZKyNet.zkynetErrorHandler`, but `src/assets/js/main.js` exports the handler as `errorHandler`. In the browser that lookup would throw before the handlers run. The model takes the logger as present and side-effect free, so it describes the handlers' own logic.
- The `catch` of `handleContactForm` (`src/assets/js/contact.js:68-73`) is not modelled. With a working logger nothing in its `try` block throws.
- The contact form's reset is not modelled, because it only clears the inputs. The newsletter form's reset is modelled only by whether the page carries `#newsletter-form`: on a page without it, `reset()` throws, which adds an error notice.
- The service buttons' click listeners (`src/assets/js/contact.js:169-175`) are modelled by calling `OpenEmailClient` with the record `HandleContactForm` returned. Each opening adds listeners to every button on the page. That duplication is not modelled.
- `encodeURIComponent` is an uninterpreted parameter. The round-trip lemmas assume only that it removes `&` and `?`.
- Contact.EmailClientUrl and ContactPage.ContactPage.OpenEmailClient: the `URIError` that `encodeURIComponent` throws on a lone surrogate is not modelled. In the source that error lands in the `catch` even for a known service: nothing opens, the modal stays, and the failure notice shows. Dafny strings hold Unicode scalar values, so they cannot hold a lone surrogate, and `encode` is total.
- `JSON.stringify` and the response's JSON parsing are not modelled. A failed response's body is given already parsed, or as absent.
- `runApiDiagnostics` is modelled only for its status line. The three probes (`testApiHealth`, `testCorsPreFlight`, `testSupportApi`), the report text and its `catch` block are left out, because they only do I/O.
- `classifyConnectionError` on a `null` error throws in the source. The model takes a present error.
- `Contact.SubjectText`: object keys such as `constructor` or `toString` would find a value inherited from `Object.prototype`. The model's map holds only the six codes.
- `SitePaths.Resolve` handles path-only references relative to a page path. Query strings, fragments, absolute references and percent-encoding are not resolved: the footers' `href`s need none of them, apart from the `#section` of a home link, which is kept as part of its last segment.
- `Footer.RenderedLinksLead` is stated for the site's own page layout (`/`, `/index.html`, pages of `/src/`, pages of `/src/legal/`). On other paths the prefixes are what `BasePath` and `HomePath` state.
- The debug panel, mobile menu, smooth scrolling, notifications and `handleFormSubmission` are outside the modelled core.
- In both copies of `main.js`, `getCurrentPage`, `updateActiveNavLink`, `isLocalDevelopment` and `getStatusMessage` are the same code. Each is modelled once.
- The message of the TypeError in `Newsletter.MissingFormError` is V8's wording. Other engines word it differently, and the model does not follow them.
- ErrorHandler.ApiErrorMessage: `detail` and `message` are strings or absent. A non-string `detail`, such as the array of a 422 validation response, cannot be represented. In the source, `||` would pass that array on as the message.
- Navigation.UpdateActiveNavLink: every nav link has an `href`. In the source, a link without one makes `href.replace` throw and ends the `forEach` at that link. The model does not capture this.
