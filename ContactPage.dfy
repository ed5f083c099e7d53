/**
 * The page-level state src/assets/js/contact.js changes: the e-mail service
 * modal (`#email-service-modal`) and the document's `keydown` listener for
 * Escape, the URLs it sends the browser to, the notices it shows, and the
 * contact form's submit button.
 */
module ContactPage {
  import opened Browser
  import opened Contact

  const ProcessingLabel := "Processing..."
  const DraftEmailLabel := "Draft Email"
  const DraftOpenedMessage := "Email draft opened! Please compose your message and send it to complete your inquiry."
  const OpenFailedMessage := "Failed to open email client. Please try a different service or contact us directly."
  const ModalId := "email-service-modal"
  const EscapeKey := "Escape"

  /** Where a compose URL went: the current tab (`location.href`) or a new one (`window.open(url, '_blank')`). */
  datatype Opened = SameTab(url: string) | NewTab(url: string)

  /** How `openEmailClient` sends the browser to a service's URL. */
  function OpenedFor(s: EmailService, url: string): (r: Opened)
    ensures r.url == url
    ensures r.SameTab? <==> s == Mailto
  {
    if s == Mailto then SameTab(url) else NewTab(url)
  }

  class ContactPage {
    /** How many `#email-service-modal` elements the body holds (each opening inserts one). */
    var modals: nat
    /** Whether `handleModalEscapeKey` is registered for `keydown` (registering twice is one listener). */
    var escapeListening: bool
    /** Every compose URL the page has opened, in order. */
    var launched: seq<Opened>
    /** Every notice the page has shown, in order. */
    var notices: seq<Notice>

    /** The Escape listener is only ever registered while a modal is on the page. */
    ghost predicate Valid()
      reads this
    {
      escapeListening ==> modals > 0
    }

    /** A freshly loaded page: no modal, no listener, nothing opened or shown. */
    constructor ()
      ensures Valid()
      ensures modals == 0 && !escapeListening && launched == [] && notices == []
    {
      modals := 0;
      escapeListening := false;
      launched := [];
      notices := [];
    }

    /** `showEmailServiceModal(contactData)`: inserts a modal and registers the Escape listener. */
    method ShowEmailServiceModal()
      requires Valid()
      modifies this
      ensures Valid()
      ensures modals == old(modals) + 1 && escapeListening
      ensures launched == old(launched) && notices == old(notices)
    {
      modals := modals + 1;
      escapeListening := true;
    }

    /**
     * `closeEmailServiceModal()`: removes the first modal and unregisters the
     * listener; with no modal on the page it does nothing at all.
     */
    method CloseEmailServiceModal()
      requires Valid()
      modifies this
      ensures Valid()
      ensures old(modals) > 0 ==> modals == old(modals) - 1 && !escapeListening
      ensures old(modals) == 0 ==> modals == 0 && escapeListening == old(escapeListening)
      ensures launched == old(launched) && notices == old(notices)
    {
      if modals > 0 {
        modals := modals - 1;
        escapeListening := false;
      }
    }

    /** `handleModalBackdropClick(event)`: a click on the backdrop itself closes the modal. */
    method HandleModalBackdropClick(targetId: string)
      requires Valid()
      modifies this
      ensures Valid()
      ensures targetId == ModalId && old(modals) > 0 ==> modals == old(modals) - 1 && !escapeListening
      ensures !(targetId == ModalId && old(modals) > 0) ==>
        modals == old(modals) && escapeListening == old(escapeListening)
      ensures launched == old(launched) && notices == old(notices)
    {
      if targetId == ModalId {
        CloseEmailServiceModal();
      }
    }

    /** `handleModalEscapeKey(event)`: Escape closes the modal, and only while one exists. */
    method HandleModalEscapeKey(key: string)
      requires Valid()
      modifies this
      ensures Valid()
      ensures key == EscapeKey && old(modals) > 0 ==> modals == old(modals) - 1 && !escapeListening
      ensures !(key == EscapeKey && old(modals) > 0) ==>
        modals == old(modals) && escapeListening == old(escapeListening)
      ensures launched == old(launched) && notices == old(notices)
    {
      if key == EscapeKey && modals > 0 {
        CloseEmailServiceModal();
      }
    }

    /**
     * A `keydown` on the document: it reaches the Escape handler only while
     * the listener is registered, so a key pressed with no modal open never
     * changes anything.
     */
    method KeyDown(key: string)
      requires Valid()
      modifies this
      ensures Valid()
      ensures escapeListening ==> modals > 0
      ensures old(modals) == 0 ==> modals == 0 && escapeListening == old(escapeListening)
      ensures old(escapeListening) && key == EscapeKey ==> modals == old(modals) - 1 && !escapeListening
      ensures launched == old(launched) && notices == old(notices)
    {
      if escapeListening {
        HandleModalEscapeKey(key);
      }
    }

    /**
     * `openEmailClient(service, contactData)`: the `switch` builds the URL
     * of the chosen service and opens it, then the modal is closed and the
     * success notice shown. For an unknown service the thrown error is caught:
     * nothing is opened, the modal stays, and the failure notice is shown.
     */
    method OpenEmailClient(service: string, c: ContactData, encode: string -> string)
      requires Valid()
      modifies this
      ensures Valid()
      ensures EmailClientUrl(service, c, encode).Success? ==>
        && launched == old(launched) + [OpenedFor(ServiceNamed(service).value, EmailClientUrl(service, c, encode).value)]
        && notices == old(notices) + [Notice(SuccessNotice, DraftOpenedMessage)]
        && (old(modals) > 0 ==> modals == old(modals) - 1 && !escapeListening)
        && (old(modals) == 0 ==> modals == 0 && escapeListening == old(escapeListening))
      ensures EmailClientUrl(service, c, encode).Failure? ==>
        && launched == old(launched)
        && notices == old(notices) + [Notice(ErrorNotice, OpenFailedMessage)]
        && modals == old(modals) && escapeListening == old(escapeListening)
    {
      var subjectText := SubjectText(c.subject);
      var subject := encode(SubjectLine(subjectText));
      var body := encode(CreateEmailTemplate(c));
      var to := encode(Recipient);

      var failed := false;
      if service == "mailto" {
        launched := launched + [SameTab(ComposeUrl(Mailto, to, subject, body))];
      } else if service == "gmail" {
        launched := launched + [NewTab(ComposeUrl(Gmail, to, subject, body))];
      } else if service == "outlook" {
        launched := launched + [NewTab(ComposeUrl(Outlook, to, subject, body))];
      } else if service == "yahoo" {
        launched := launched + [NewTab(ComposeUrl(Yahoo, to, subject, body))];
      } else {
        // `throw new Error(`Unknown email service: ${service}`)`, caught below
        failed := true;
      }

      if failed {
        notices := notices + [Notice(ErrorNotice, OpenFailedMessage)];
      } else {
        CloseEmailServiceModal();
        notices := notices + [Notice(SuccessNotice, DraftOpenedMessage)];
      }
    }

    /**
     * `handleContactForm(data)`: the button shows 'Processing...' and is
     * disabled, the contact record is built and the service modal shown;
     * the `finally` block gives the button back its label (or 'Draft
     * Email') and enables it. The record is returned: it is what the modal's
     * service buttons pass to `openEmailClient`.
     */
    method HandleContactForm(data: FormData, button: Button?) returns (contact: ContactData)
      requires Valid()
      modifies this, button
      ensures Valid()
      ensures contact == ContactDataOf(data)
      ensures modals == old(modals) + 1 && escapeListening
      ensures launched == old(launched) && notices == old(notices)
      ensures button != null ==>
        button.textContent == RestoredLabel(old(button.textContent), DraftEmailLabel) && !button.disabled
    {
      var originalText := if button != null then button.textContent else "";
      if button != null {
        button.textContent := ProcessingLabel;
        button.disabled := true;
      }
      contact := ContactDataOf(data);
      ShowEmailServiceModal();
      if button != null {
        button.textContent := RestoredLabel(originalText, DraftEmailLabel);
        button.disabled := false;
      }
    }
  }

  /**
   * A whole round on a fresh page: submitting the form opens one modal;
   * choosing a known service then opens its URL, closes that modal and
   * shows the success notice, leaving no modal and no listener.
   */
  method SubmitThenChoose(data: FormData, service: string, encode: string -> string)
    returns (page: ContactPage)
    requires ServiceNamed(service).Some?
    ensures fresh(page) && page.Valid()
    ensures page.modals == 0 && !page.escapeListening
    ensures page.launched == [OpenedFor(ServiceNamed(service).value,
      EmailClientUrl(service, ContactDataOf(data), encode).value)]
    ensures page.notices == [Notice(SuccessNotice, DraftOpenedMessage)]
  {
    page := new ContactPage();
    var contact := page.HandleContactForm(data, null);
    page.OpenEmailClient(service, contact, encode);
  }
}
