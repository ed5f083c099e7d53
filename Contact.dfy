/**
 * The values src/assets/js/contact.js computes on the way from the contact
 * form to an e-mail draft: the contact record, the readable subject, the
 * message template and the compose URL of each e-mail service.
 * `encodeURIComponent` is a parameter `encode`, about which nothing is assumed.
 */
module Contact {
  import opened Strings
  import opened Browser

  /** `Object.fromEntries(new FormData(form).entries())`: field name to value. */
  type FormData = map<string, string>

  /** `data[key]`: the value, or `undefined` for a field the form lacks. */
  function Field(data: FormData, key: string): (r: Option<string>)
    ensures r.Some? <==> key in data
    ensures r.Some? ==> r.value == data[key]
  {
    if key in data then Some(data[key]) else None
  }

  /** The `contactData` record `handleContactForm` builds. */
  datatype ContactData = ContactData(name: string, company: string, subject: Option<string>)

  /**
   * `` `${data.firstName} ${data.lastName}`.trim() `` before trimming; a
   * missing field reads as "undefined".
   */
  function RawName(data: FormData): (r: string)
    ensures StartsWith(r, Interpolate(Field(data, "firstName")) + " ")
    ensures EndsWith(r, Interpolate(Field(data, "lastName")))
    ensures |r| == |Interpolate(Field(data, "firstName"))| + 1 + |Interpolate(Field(data, "lastName"))|
  {
    Interpolate(Field(data, "firstName")) + " " + Interpolate(Field(data, "lastName"))
  }

  /**
   * `contactData`: the trimmed full name, the company or `''` when it is
   * missing or empty, and the subject as given.
   */
  function ContactDataOf(data: FormData): (c: ContactData)
    ensures exists i :: TrimmedAt(RawName(data), c.name, i)
    ensures "company" in data && data["company"] != "" ==> c.company == data["company"]
    ensures !("company" in data && data["company"] != "") ==> c.company == ""
    ensures c.subject == Field(data, "subject")
  {
    var company := Field(data, "company");
    ContactData(Trim(RawName(data)), if Truthy(company) then company.value else "", Field(data, "subject"))
  }

  /** A string that starts and ends with a non-whitespace character. */
  predicate Bordered(s: string) {
    s != [] && !IsJsWhitespace(s[0]) && !IsJsWhitespace(s[|s| - 1])
  }

  /** With both name fields filled in (no stray spaces), the name is first, a space, last. */
  lemma FullName(data: FormData, first: string, last: string)
    requires "firstName" in data && data["firstName"] == first && Bordered(first)
    requires "lastName" in data && data["lastName"] == last && Bordered(last)
    ensures ContactDataOf(data).name == first + " " + last
  {
    var s := first + " " + last;
    assert s[0] == first[0] && s[|s| - 1] == last[|last| - 1];
    TrimBordered(s);
  }

  /** An empty last name leaves no trailing space: the name is the first name alone. */
  lemma FirstNameOnly(data: FormData, first: string)
    requires "firstName" in data && data["firstName"] == first && Bordered(first)
    requires "lastName" in data && data["lastName"] == ""
    ensures ContactDataOf(data).name == first
  {
    var s := first + " " + "";
    assert s[0] == first[0] && s[..|s| - 1] == first;
    assert TrimStart(s) == s;
    assert TrimEnd(s) == TrimEnd(first) == first;
  }

  /**
   * A form without a `lastName` field is not rejected: the name then ends
   * in the word "undefined".
   */
  lemma MissingLastName(data: FormData, first: string)
    requires "firstName" in data && data["firstName"] == first && Bordered(first)
    requires "lastName" !in data
    ensures ContactDataOf(data).name == first + " undefined"
  {
    var s := first + " " + "undefined";
    assert s == first + " undefined";
    assert s[0] == first[0] && s[|s| - 1] == 'd';
    TrimBordered(s);
  }

  // ---- subject ----------------------------------------------------------------

  /** The `subjectMap` of `openEmailClient`. */
  const SubjectLabels: map<string, string> := map[
    "enterprise" := "Enterprise Partnership",
    "technical" := "Technical Support",
    "investment" := "Investment Opportunity",
    "media" := "Media & Press",
    "general" := "General Inquiry",
    "other" := "Other"
  ]

  /**
   * `subjectMap[contactData.subject] || contactData.subject`: the label of a
   * known code; any other subject, and a missing one, passes through.
   */
  function SubjectText(subject: Option<string>): (r: Option<string>)
    ensures subject.Some? && subject.value in SubjectLabels ==> r == Some(SubjectLabels[subject.value])
    ensures !(subject.Some? && subject.value in SubjectLabels) ==> r == subject
  {
    if subject.Some? && subject.value in SubjectLabels && SubjectLabels[subject.value] != "" then
      Some(SubjectLabels[subject.value])
    else subject
  }

  /** The six codes and their labels; the labels are themselves not codes. */
  lemma SubjectCodes()
    ensures SubjectLabels.Keys == {"enterprise", "technical", "investment", "media", "general", "other"}
    ensures SubjectText(Some("media")) == Some("Media & Press")
    ensures forall code :: code in SubjectLabels ==> SubjectText(Some(code)).value !in SubjectLabels
  {
  }

  /** Looking up a label again changes nothing: labels pass through. */
  lemma SubjectTextIdempotent(subject: Option<string>)
    ensures SubjectText(SubjectText(subject)) == SubjectText(subject)
  {
    SubjectCodes();
  }

  /** The e-mail subject before encoding: `ZKyNet Inquiry: ${subjectText}`. */
  function SubjectLine(subjectText: Option<string>): (r: string)
    ensures StartsWith(r, "ZKyNet Inquiry: ")
    ensures subjectText.Some? ==> r[|"ZKyNet Inquiry: "|..] == subjectText.value
  {
    "ZKyNet Inquiry: " + Interpolate(subjectText)
  }

  // ---- template -----------------------------------------------------------------

  /** The first line of every draft. */
  const Greeting := "Hello ZKyNet Team,"

  /**
   * `createEmailTemplate(contactData)`: the template literal, line by line
   * (each `\n` of the literal separates two lines). The `Company:` line is
   * there only for a truthy company; the second argument the caller passes
   * is ignored by the source.
   */
  function CreateEmailTemplate(c: ContactData): (t: string)
    ensures StartsWith(t, Greeting)
    ensures EndsWith(t, c.name)
  {
    var lines := TemplateLines(c);
    JoinLast(lines, '\n');
    assert lines[1..][|lines[1..]| - 1] == c.name;
    Join(lines, '\n')
  }

  /** The lines of the template. */
  function TemplateLines(c: ContactData): (lines: seq<string>)
    ensures |lines| >= 2 && lines[0] == Greeting && lines[|lines| - 1] == c.name
  {
    [Greeting, "", "Contact Information:", "Name: " + c.name]
    + (if c.company != "" then ["Company: " + c.company] else [])
    + ["", "Please compose your message below.", "", "Best regards,", c.name]
  }

  /**
   * Read line by line, the draft has the Company line exactly when the
   * company is non-empty: it is then the fifth line, and otherwise the fifth
   * line is the blank one (names and companies being single-line).
   */
  lemma CompanyLineIffCompany(c: ContactData)
    requires '\n' !in c.name && '\n' !in c.company
    ensures Split(CreateEmailTemplate(c), '\n') == TemplateLines(c)
    ensures var lines := Split(CreateEmailTemplate(c), '\n');
      && |lines| == (if c.company != "" then 10 else 9)
      && (c.company != "" <==> StartsWith(lines[4], "Company: "))
      && (c.company != "" ==> lines[4] == "Company: " + c.company)
      && lines[0] == Greeting && lines[|lines| - 1] == c.name
  {
    var lines := TemplateLines(c);
    assert forall k :: 0 <= k < |lines| ==> '\n' !in lines[k] by {
      MissingCharNotInLiteral(c);
    }
    SplitJoin(lines, '\n');
    if c.company != "" {
      assert lines[4] == "Company: " + c.company;
      assert StartsWith(lines[4], "Company: ");
    } else {
      assert lines[4] == "";
    }
  }

  /** No template line holds a newline when the name and company do not. */
  lemma MissingCharNotInLiteral(c: ContactData)
    requires '\n' !in c.name && '\n' !in c.company
    ensures forall k :: 0 <= k < |TemplateLines(c)| ==> '\n' !in TemplateLines(c)[k]
  {
    var nameLine := "Name: " + c.name;
    assert forall k :: 0 <= k < |nameLine| ==> nameLine[k] != '\n' by {
      forall k | 0 <= k < |nameLine| ensures nameLine[k] != '\n' {
        if k >= 6 { assert nameLine[k] == c.name[k - 6]; }
      }
    }
    if c.company != "" {
      var companyLine := "Company: " + c.company;
      forall k | 0 <= k < |companyLine| ensures companyLine[k] != '\n' {
        if k >= 9 { assert companyLine[k] == c.company[k - 9]; }
      }
    }
  }

  // ---- compose URLs ---------------------------------------------------------------

  /** The services of the modal's buttons (`data-service`). */
  datatype EmailService = Mailto | Gmail | Outlook | Yahoo

  /** The `switch (service)` cases; any other value is not a service. */
  function ServiceNamed(service: string): (r: Option<EmailService>)
    ensures r.Some? <==> service in {"mailto", "gmail", "outlook", "yahoo"}
  {
    if service == "mailto" then Some(Mailto)
    else if service == "gmail" then Some(Gmail)
    else if service == "outlook" then Some(Outlook)
    else if service == "yahoo" then Some(Yahoo)
    else None
  }

  const Https := "https://"

  /**
   * The fixed start of each service's compose URL, up to the recipient:
   * `mailto:`, `https://mail.google.com/mail/?view=cm&fs=1&to=`,
   * `https://outlook.live.com/owa/?path=/mail/action/compose&to=` and
   * `https://compose.mail.yahoo.com/?to=`, written as scheme, host and path,
   * and query.
   */
  function UrlPrefix(s: EmailService): string {
    match s
    case Mailto => "mailto:"
    case Gmail => Https + "mail.google.com/mail/" + "?view=cm&fs=1&to="
    case Outlook => Https + "outlook.live.com/owa/" + "?path=/mail/action/compose&to="
    case Yahoo => Https + "compose.mail.yahoo.com/" + "?to="
  }

  /** The parameter that introduces the subject: Gmail calls it `su`. */
  function SubjectKey(s: EmailService): string {
    match s
    case Mailto => "?subject="
    case Gmail => "&su="
    case Outlook | Yahoo => "&subject="
  }

  const BodyKey := "&body="

  /** The compose URL for already-encoded recipient, subject and body. */
  function ComposeUrl(s: EmailService, to: string, subject: string, body: string): (r: string)
    ensures StartsWith(r, UrlPrefix(s))
    ensures EndsWith(r, BodyKey + body)
  {
    UrlPrefix(s) + to + SubjectKey(s) + subject + BodyKey + body
  }

  /** What a compose URL carries. */
  datatype ComposeParts = ComposeParts(service: EmailService, to: string, subject: string, body: string)

  /** The service whose prefix starts `url`, tried in the `switch` order. */
  function ServiceOfUrl(url: string): Option<EmailService> {
    if StartsWith(url, UrlPrefix(Mailto)) then Some(Mailto)
    else if StartsWith(url, UrlPrefix(Gmail)) then Some(Gmail)
    else if StartsWith(url, UrlPrefix(Outlook)) then Some(Outlook)
    else if StartsWith(url, UrlPrefix(Yahoo)) then Some(Yahoo)
    else None
  }

  /** Reads a compose URL back into its service, recipient, subject and body. */
  function ParseComposeUrl(url: string): Option<ComposeParts> {
    match ServiceOfUrl(url)
    case None => None
    case Some(s) =>
      match CutAt(url[|UrlPrefix(s)|..], SubjectKey(s))
      case None => None
      case Some((to, afterTo)) =>
        match CutAt(afterTo, BodyKey)
        case None => None
        case Some((subject, body)) => Some(ComposeParts(s, to, subject, body))
  }

  /** The text before the first `key` and the text after it, if `key` occurs. */
  function CutAt(s: string, key: string): Option<(string, string)> {
    var i := IndexOf(s, key);
    if i == -1 then None else Some((s[..i], s[i + |key|..]))
  }

  /** Cutting `a + key + b` at `key` gives back `a` and `b` when `a` lacks the key's first character. */
  lemma CutAtJoin(a: string, key: string, b: string)
    requires |key| > 0 && key[0] !in a
    ensures CutAt(a + key + b, key) == Some((a, b))
  {
    var s := a + key + b;
    FirstOccurrenceAfter(a, key, b);
    assert s[..|a|] == a;
    assert s[|a| + |key|..] == b;
  }

  /** When `a` lacks the first character of `p`, the first `p` in `a + p + b` is right after `a`. */
  lemma FirstOccurrenceAfter(a: string, p: string, b: string)
    requires |p| > 0 && p[0] !in a
    ensures IndexOf(a + p + b, p) == |a|
  {
    var s := a + p + b;
    assert s[|a|..|a| + |p|] == p;
    assert OccursAt(s, p, |a|);
    forall j | 0 <= j < |a| ensures !OccursAt(s, p, j) {
      assert s[j] == a[j];
      if j + |p| <= |s| {
        assert s[j..j + |p|][0] == s[j];
      }
    }
  }

  /** Two prefixes that differ at position `k` cannot both start a string. */
  lemma DiffersAt(url: string, p: string, q: string, k: int)
    requires StartsWith(url, p) && 0 <= k < |p| && k < |q| && p[k] != q[k]
    ensures !StartsWith(url, q)
  {
    assert url[k] == url[..|p|][k] == p[k];
    if |q| <= |url| {
      assert url[..|q|][k] == url[k];
    }
  }

  /** The prefix of every service's URL picks out that service. */
  lemma ServiceOfItsUrl(s: EmailService, rest: string)
    ensures ServiceOfUrl(UrlPrefix(s) + rest) == Some(s)
  {
    var url := UrlPrefix(s) + rest;
    assert StartsWith(url, UrlPrefix(s)) by {
      assert url[..|UrlPrefix(s)|] == UrlPrefix(s);
    }
    match s
    case Mailto =>
    case Gmail =>
      DiffersAt(url, UrlPrefix(Gmail), UrlPrefix(Mailto), 0);
    case Outlook =>
      DiffersAt(url, UrlPrefix(Outlook), UrlPrefix(Mailto), 0);
      DiffersAt(url, UrlPrefix(Outlook), UrlPrefix(Gmail), 8);
    case Yahoo =>
      DiffersAt(url, UrlPrefix(Yahoo), UrlPrefix(Mailto), 0);
      DiffersAt(url, UrlPrefix(Yahoo), UrlPrefix(Gmail), 8);
      DiffersAt(url, UrlPrefix(Yahoo), UrlPrefix(Outlook), 8);
  }

  /**
   * The round trip: a compose URL gives back the service and the three
   * encoded values, provided the recipient and subject hold no `&` or `?`
   * (which `encodeURIComponent` escapes).
   */
  lemma ParseCompose(s: EmailService, to: string, subject: string, body: string)
    requires '&' !in to && '?' !in to && '&' !in subject
    ensures ParseComposeUrl(ComposeUrl(s, to, subject, body)) == Some(ComposeParts(s, to, subject, body))
  {
    var url := ComposeUrl(s, to, subject, body);
    var afterTo := subject + BodyKey + body;
    var rest := to + SubjectKey(s) + afterTo;
    ComposeUrlShape(s, to, subject, body);
    ServiceOfItsUrl(s, rest);
    CutAtJoin(to, SubjectKey(s), afterTo);
    CutAtJoin(subject, BodyKey, body);
  }

  /** A compose URL is the service's prefix followed by the recipient, subject and body parts. */
  lemma ComposeUrlShape(s: EmailService, to: string, subject: string, body: string)
    ensures var rest := to + SubjectKey(s) + (subject + BodyKey + body);
      && ComposeUrl(s, to, subject, body) == UrlPrefix(s) + rest
      && ComposeUrl(s, to, subject, body)[|UrlPrefix(s)|..] == rest
  {
    var p, k := UrlPrefix(s), SubjectKey(s);
    var rest := to + k + (subject + BodyKey + body);
    assert p + to + k + subject + BodyKey + body == p + rest;
    assert (p + rest)[|p|..] == rest;
  }

  /** `'contact@zkynet.org'`, the address every draft goes to. */
  const Recipient := "contact@zkynet.org"

  /**
   * The URL `openEmailClient(service, contactData)` opens, or the error it
   * throws for an unknown service.
   */
  function EmailClientUrl(service: string, c: ContactData, encode: string -> string): (r: Result<string, string>)
    ensures ServiceNamed(service).None? <==> r.Failure?
    ensures r.Failure? ==> r.error == "Unknown email service: " + service
    ensures r.Success? ==> r.value == ComposeUrl(ServiceNamed(service).value, encode(Recipient),
      encode(SubjectLine(SubjectText(c.subject))), encode(CreateEmailTemplate(c)))
  {
    match ServiceNamed(service)
    case None => Failure("Unknown email service: " + service)
    case Some(s) =>
      Success(ComposeUrl(s, encode(Recipient), encode(SubjectLine(SubjectText(c.subject))), encode(CreateEmailTemplate(c))))
  }

  /**
   * Every service's URL reads back to the encoded recipient, subject line
   * and template, when the encoder escapes `&` and `?` in the first two.
   */
  lemma EmailClientUrlCarriesDraft(service: string, c: ContactData, encode: string -> string)
    requires ServiceNamed(service).Some?
    requires '&' !in encode(Recipient) && '?' !in encode(Recipient)
    requires '&' !in encode(SubjectLine(SubjectText(c.subject)))
    ensures EmailClientUrl(service, c, encode).Success?
    ensures ParseComposeUrl(EmailClientUrl(service, c, encode).value)
      == Some(ComposeParts(ServiceNamed(service).value, encode(Recipient),
           encode(SubjectLine(SubjectText(c.subject))), encode(CreateEmailTemplate(c))))
  {
    ParseCompose(ServiceNamed(service).value, encode(Recipient),
      encode(SubjectLine(SubjectText(c.subject))), encode(CreateEmailTemplate(c)));
  }
}
