/**
 * The contact page's form controller: seven text fields, three error flags, a
 * snackbar and a loading flag. Validation and the request payload are pure;
 * the handlers update the state. The POST itself is not modelled: a submit is
 * split into `BeginSubmit`, which validates and hands back the payload to send,
 * and `CompleteSubmit`, which receives the outcome of the request.
 */
module Contact {
  import opened Wrappers
  import opened Text

  // ---------------------------------------------------------------------------
  // The e-mail pattern /^\S+@\S+\.\S+$/
  // ---------------------------------------------------------------------------

  /**
   * The regular expression read literally: a non-empty run of non-white-space,
   * an '@', a non-empty run, a '.', a non-empty run, and nothing else.
   */
  ghost predicate MatchesEmailRegex(s: string) {
    exists i, j :: 0 < i && i + 1 < j && j + 1 < |s| && s[i] == '@' && s[j] == '.'
      && NoWhitespace(s[..i]) && NoWhitespace(s[i + 1..j]) && NoWhitespace(s[j + 1..])
  }

  /**
   * The same language read by positions: no white space anywhere, and an '@'
   * that is not first, followed at least two places later by a '.' that is
   * not last.
   */
  ghost predicate EmailShape(s: string) {
    NoWhitespace(s)
    && exists i, j :: 1 <= i && i + 2 <= j <= |s| - 2 && s[i] == '@' && s[j] == '.'
  }

  /** The literal and the positional readings of the pattern accept the same strings. */
  lemma EmailReadingsAgree(s: string)
    ensures MatchesEmailRegex(s) <==> EmailShape(s)
  {
    if MatchesEmailRegex(s) {
      var i, j :| 0 < i && i + 1 < j && j + 1 < |s| && s[i] == '@' && s[j] == '.'
        && NoWhitespace(s[..i]) && NoWhitespace(s[i + 1..j]) && NoWhitespace(s[j + 1..]);
      forall k | 0 <= k < |s| ensures !IsWhitespace(s[k]) {
        if k < i {
          assert s[..i][k] == s[k];
        } else if i < k < j {
          assert s[i + 1..j][k - i - 1] == s[k];
        } else if j < k {
          assert s[j + 1..][k - j - 1] == s[k];
        }
      }
    }
    if EmailShape(s) {
      var i, j :| 1 <= i && i + 2 <= j <= |s| - 2 && s[i] == '@' && s[j] == '.';
      assert NoWhitespace(s[..i]) && NoWhitespace(s[i + 1..j]) && NoWhitespace(s[j + 1..]);
    }
  }

  /** `s.indexOf(x, from)`: the first position at or after `from` holding `x`, or -1. */
  function IndexFrom(s: string, x: char, from: nat): int
    decreases |s| - from
  {
    if from >= |s| then -1
    else if s[from] == x then from
    else IndexFrom(s, x, from + 1)
  }

  /** `IndexFrom` finds the first occurrence at or after `from`, and -1 means there is none. */
  lemma {:induction false} IndexFromSpec(s: string, x: char, from: nat)
    ensures var k := IndexFrom(s, x, from);
            (k == -1 || (from <= k < |s| && s[k] == x))
            && forall m :: from <= m < |s| && (k == -1 || m < k) ==> s[m] != x
    decreases |s| - from
  {
    if from < |s| && s[from] != x {
      IndexFromSpec(s, x, from + 1);
    }
  }

  /**
   * An executable test for the pattern: no white space, an '@' after the first
   * character, and a '.' at least two places after the first such '@' that is
   * not the last character.
   */
  function EmailTest(s: string): bool {
    IndexFromSpec(s, '@', 1);
    NoWhitespace(s)
    && var i := IndexFrom(s, '@', 1);
       i != -1 && IndexFrom(s[..|s| - 1], '.', i + 2) != -1
  }

  /** The executable test accepts exactly the strings the pattern matches. */
  lemma EmailTestMatchesShape(s: string)
    ensures EmailTest(s) <==> EmailShape(s)
  {
    var i := IndexFrom(s, '@', 1);
    IndexFromSpec(s, '@', 1);
    if i != -1 {
      IndexFromSpec(s[..|s| - 1], '.', i + 2);
    }
    if EmailTest(s) {
      var j := IndexFrom(s[..|s| - 1], '.', i + 2);
      assert s[j] == s[..|s| - 1][j];
    }
    if EmailShape(s) {
      var i0, j0 :| 1 <= i0 && i0 + 2 <= j0 <= |s| - 2 && s[i0] == '@' && s[j0] == '.';
      assert i != -1 && i <= i0;
      assert s[..|s| - 1][j0] == '.';
    }
  }

  // ---------------------------------------------------------------------------
  // Form data, error flags, snackbar, payload
  // ---------------------------------------------------------------------------

  /** The `name` attribute of each input. */
  datatype Field = Name | Email | Phone | Subject | Message | Organization | InquiryType

  datatype FormData = FormData(name: string, email: string, phone: string, subject: string,
                               message: string, organization: string, inquiryType: string)
  {
    function Get(f: Field): string {
      match f
      case Name => name
      case Email => email
      case Phone => phone
      case Subject => subject
      case Message => message
      case Organization => organization
      case InquiryType => inquiryType
    }

    /** `{ ...prev, [name]: value }`: that field takes the value, the other six keep theirs. */
    function Set(f: Field, v: string): (d: FormData)
      ensures d.Get(f) == v
      ensures forall g :: g != f ==> d.Get(g) == Get(g)
    {
      match f
      case Name => this.(name := v)
      case Email => this.(email := v)
      case Phone => this.(phone := v)
      case Subject => this.(subject := v)
      case Message => this.(message := v)
      case Organization => this.(organization := v)
      case InquiryType => this.(inquiryType := v)
    }
  }

  const EmptyForm := FormData("", "", "", "", "", "", "")

  /** The fields that own an error flag (`name in errors`). */
  predicate Tracked(f: Field) {
    f == Name || f == Email || f == Message
  }

  datatype Errors = Errors(name: bool, email: bool, message: bool)
  {
    /** The flag of a tracked field; untracked fields never show an error. */
    predicate Flag(f: Field) {
      match f
      case Name => name
      case Email => email
      case Message => message
      case _ => false
    }

    /** `Object.values(errors).some(e => e)` */
    predicate Any() {
      name || email || message
    }

    /** Typing into a field clears that field's flag if it has one; nothing else changes. */
    function ClearedFor(f: Field): (e: Errors)
      ensures Tracked(f) ==> !e.Flag(f)
      ensures forall g :: g != f ==> e.Flag(g) == Flag(g)
      ensures !Tracked(f) ==> e == this
    {
      match f
      case Name => this.(name := false)
      case Email => this.(email := false)
      case Message => this.(message := false)
      case _ => this
    }
  }

  const NoErrors := Errors(false, false, false)

  datatype Severity = Success | Error

  datatype Snackbar = Snackbar(open: bool, message: string, severity: Severity)

  const InitialSnackbar := Snackbar(false, "", Success)
  const SentMessage := "Your message has been sent successfully! We will get back to you soon."
  const SendFailedMessage := "There was an error sending your message. Please try again later."
  const InvalidFormMessage := "Please fill in all required fields correctly."

  const DefaultSubject := "Contact Form Submission"
  const DefaultInquiryType := "general"

  /** The JSON body posted to the contact endpoint; `inquiryType` goes out as `inquiry_type`. */
  datatype Payload = Payload(name: string, email: string, phone: string, subject: string,
                             message: string, organization: string, inquiryType: string)

  /** The outcome of the POST: resolved, or rejected (network error or non-2xx status). */
  datatype Outcome = Delivered | Failed

  /**
   * The validation step. Name and message are flagged exactly when they are
   * white space only; the e-mail exactly when it does not match the pattern.
   */
  function Validate(d: FormData): (e: Errors)
    ensures e.name <==> AllWhitespace(d.name)
    ensures e.email <==> !EmailShape(d.email)
    ensures e.message <==> AllWhitespace(d.message)
  {
    TrimEmptyIff(d.name);
    TrimEmptyIff(d.message);
    EmailTestMatchesShape(d.email);
    Errors(Trim(d.name) == "", !EmailTest(d.email), Trim(d.message) == "")
  }

  /**
   * The request body: name, e-mail and message verbatim; an empty subject or
   * inquiry type replaced by its default (`||` treats only the empty string as
   * falsy, so a white-space-only subject goes out as it is); phone and
   * organization verbatim, since `s || ''` is `s` for every string.
   */
  function BuildPayload(d: FormData): (p: Payload)
    ensures p.name == d.name && p.email == d.email && p.message == d.message
    ensures p.phone == d.phone && p.organization == d.organization
    ensures p.subject == (if d.subject == "" then DefaultSubject else d.subject)
    ensures p.inquiryType == (if d.inquiryType == "" then DefaultInquiryType else d.inquiryType)
  {
    Payload(d.name, d.email, OrElse(d.phone, ""), OrElse(d.subject, DefaultSubject),
            d.message, OrElse(d.organization, ""), OrElse(d.inquiryType, DefaultInquiryType))
  }

  /** JavaScript's `s || fallback` on strings. */
  function OrElse(s: string, fallback: string): string {
    if s == "" then fallback else s
  }

  /**
   * A payload is only ever built from a form that passed validation, so what
   * is sent has a non-blank name and message, a pattern-matching e-mail, and
   * a non-empty subject and inquiry type.
   */
  lemma SentPayloadIsWellFormed(d: FormData)
    requires !Validate(d).Any()
    ensures var p := BuildPayload(d);
            !AllWhitespace(p.name) && MatchesEmailRegex(p.email) && !AllWhitespace(p.message)
            && p.subject != "" && p.inquiryType != ""
  {
    EmailReadingsAgree(d.email);
  }

  /** Two concrete forms: a blank name is flagged alone; a complete form passes. */
  lemma ValidationExamples()
    ensures Validate(FormData("", "a@b.com", "", "", "hi", "", "")) == Errors(true, false, false)
    ensures Validate(FormData("Jane", "jane@example.com", "", "", "Hello", "", "")) == NoErrors
  {
    var a := "a@b.com";
    assert a[1] == '@' && a[3] == '.';
    assert EmailShape(a);
    var b := "jane@example.com";
    assert b[4] == '@' && b[12] == '.';
    assert EmailShape(b);
    assert !IsWhitespace("hi"[0]) && !IsWhitespace("Jane"[0]) && !IsWhitespace("Hello"[0]);
  }

  /**
   * What the browser's `required` check needs before it lets the form submit:
   * name, e-mail and message are not empty. (A white-space-only value is not
   * empty, so it passes this check.)
   */
  predicate RequiredFilled(d: FormData) {
    d.name != "" && d.email != "" && d.message != ""
  }

  /**
   * The browser's check does not make the page's own validation redundant:
   * a white-space-only name passes `required`, and "a@b" is a valid address
   * for `type="email"` but has no '.', so both still reach the flags.
   */
  lemma PageValidationStillReached()
    ensures RequiredFilled(FormData(" ", "jane@example.com", "", "", "Hello", "", ""))
    ensures Validate(FormData(" ", "jane@example.com", "", "", "Hello", "", "")).name
    ensures RequiredFilled(FormData("Jane", "a@b", "", "", "Hello", "", ""))
    ensures Validate(FormData("Jane", "a@b", "", "", "Hello", "", "")).email
  {
    assert IsWhitespace(" "[0]);
    var b := "jane@example.com";
    assert b[4] == '@' && b[12] == '.';
  }

  // ---------------------------------------------------------------------------
  // The controller
  // ---------------------------------------------------------------------------

  class ContactForm {
    var formData: FormData
    var errors: Errors
    var snackbar: Snackbar
    var loading: bool

    /** All seven fields empty, no flag set, snackbar closed, not loading. */
    constructor ()
      ensures formData == EmptyForm && errors == NoErrors
      ensures snackbar == InitialSnackbar && !loading
    {
      formData := EmptyForm;
      errors := NoErrors;
      snackbar := InitialSnackbar;
      loading := false;
    }

    /** `handleChange`: a text input edited. */
    method HandleChange(f: Field, value: string)
      modifies this
      ensures formData == old(formData).Set(f, value)
      ensures errors == old(errors).ClearedFor(f)
      ensures snackbar == old(snackbar) && loading == old(loading)
    {
      formData := formData.Set(f, value);
      if Tracked(f) {
        errors := errors.ClearedFor(f);
      }
    }

    /** `handleSelectChange`: the select sets its field and leaves every flag alone. */
    method HandleSelectChange(f: Field, value: string)
      modifies this
      ensures formData == old(formData).Set(f, value)
      ensures errors == old(errors) && snackbar == old(snackbar) && loading == old(loading)
    {
      formData := formData.Set(f, value);
    }

    /**
     * The synchronous part of `handleSubmit`. The flags are replaced wholesale
     * by the validation result. If any is set, nothing is sent and the error
     * snackbar opens; otherwise loading starts and the payload to POST is
     * returned. The form data is not touched either way.
     */
    method BeginSubmit() returns (request: Option<Payload>)
      modifies this
      ensures errors == Validate(old(formData)) && formData == old(formData)
      ensures errors.Any() ==> request == None && loading == old(loading)
                               && snackbar == Snackbar(true, InvalidFormMessage, Error)
      ensures !errors.Any() ==> request == Some(BuildPayload(formData)) && loading
                                && snackbar == old(snackbar)
    {
      var d := formData;
      var e := Validate(d);
      errors := e;
      if !e.Any() {
        loading := true;
        request := Some(BuildPayload(d));
      } else {
        snackbar := Snackbar(true, InvalidFormMessage, Error);
        request := None;
      }
    }

    /**
     * The rest of `handleSubmit`, once the POST settles. Success empties the
     * form and opens the success snackbar; failure keeps the form as it is
     * and opens the error snackbar. Loading ends either way (`finally`).
     */
    method CompleteSubmit(outcome: Outcome)
      modifies this
      ensures !loading && errors == old(errors)
      ensures outcome == Delivered ==> formData == EmptyForm
                                       && snackbar == Snackbar(true, SentMessage, Success)
      ensures outcome == Failed ==> formData == old(formData)
                                    && snackbar == Snackbar(true, SendFailedMessage, Error)
    {
      match outcome {
        case Delivered =>
          snackbar := Snackbar(true, SentMessage, Success);
          formData := EmptyForm;
        case Failed =>
          snackbar := Snackbar(true, SendFailedMessage, Error);
      }
      loading := false;
    }

    /**
     * A press of the submit button. The button is disabled while loading, so
     * a press then does nothing at all. Otherwise the browser first checks the
     * form itself (the three `required` fields and the `type="email"` format,
     * as the form has no `noValidate`); its verdict is `nativeValid`, and a
     * form it rejects fires no submit event, so nothing changes either. Only
     * a form it accepts reaches `handleSubmit`, which is `BeginSubmit`.
     */
    method PressSubmit(nativeValid: bool) returns (request: Option<Payload>)
      requires nativeValid ==> RequiredFilled(formData)
      modifies this
      ensures old(loading) || !nativeValid ==> request == None && unchanged(this)
      ensures !old(loading) && nativeValid ==> errors == Validate(old(formData)) && formData == old(formData)
      ensures !old(loading) && nativeValid && errors.Any() ==>
                request == None && !loading && snackbar == Snackbar(true, InvalidFormMessage, Error)
      ensures !old(loading) && nativeValid && !errors.Any() ==>
                request == Some(BuildPayload(formData)) && loading && snackbar == old(snackbar)
    {
      if loading || !nativeValid {
        request := None;
      } else {
        request := BeginSubmit();
      }
    }

    /** `handleCloseSnackbar`: closes it, keeping its message and severity. */
    method CloseSnackbar()
      modifies this
      ensures snackbar == old(snackbar).(open := false)
      ensures formData == old(formData) && errors == old(errors) && loading == old(loading)
    {
      snackbar := snackbar.(open := false);
    }
  }

  /**
   * A whole session: a complete form is filled in and sent, a second press
   * while the request is pending sends nothing, and on success the form is
   * empty again with the success snackbar open.
   */
  method SubmitScenario() returns (first: Option<Payload>, second: Option<Payload>)
    ensures first.Some? && first.value.subject == DefaultSubject && first.value.inquiryType == DefaultInquiryType
    ensures second == None
  {
    var form := new ContactForm();
    form.HandleChange(Name, "Jane");
    form.HandleChange(Email, "jane@example.com");
    form.HandleChange(Message, "Hello");
    assert form.formData == FormData("Jane", "jane@example.com", "", "", "Hello", "", "");
    ValidationExamples();
    first := form.PressSubmit(true);
    second := form.PressSubmit(true);
    form.CompleteSubmit(Delivered);
    assert form.formData == EmptyForm && form.snackbar.severity == Success && !form.loading;
  }

  /**
   * A fresh form with the name left empty: the browser's `required` check
   * stops the press, so no flag is set and no snackbar opens.
   */
  method BlankNameScenario() returns (request: Option<Payload>, errors: Errors, snackbar: Snackbar)
    ensures request == None && errors == NoErrors && snackbar == InitialSnackbar
  {
    var form := new ContactForm();
    form.HandleChange(Email, "a@b.com");
    form.HandleChange(Message, "hi");
    assert !RequiredFilled(form.formData);
    request := form.PressSubmit(false);
    errors, snackbar := form.errors, form.snackbar;
  }
}
