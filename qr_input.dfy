/**
 * `validateQRInput` and `isValidEmail`: the per-type field rules of the single
 * QR form, the messages they show, the inputs they mark and the field that is
 * focused first.
 */
module QrInput {
  import opened Wrappers
  import opened Text

  /** The values of the single QR form's inputs, as the DOM holds them (untrimmed). */
  datatype QrForm = QrForm(
    content: string,
    ssid: string, password: string, encryption: string, hidden: string,
    firstName: string, lastName: string, phone: string, email: string, company: string, website: string)

  /** The inputs `markInputError` can flag and `focusToElement` can focus. */
  datatype Field = QrContent | WifiSsid | WifiPassword | ContactEmail | ContactPhone {
    function Id(): string {
      match this
      case QrContent => "qr-content"
      case WifiSsid => "wifi-ssid"
      case WifiPassword => "wifi-password"
      case ContactEmail => "contact-email"
      case ContactPhone => "contact-phone"
    }
  }

  /** The error elements `showError` writes into. */
  datatype Slot = ContentSlot | SsidSlot | EmailSlot {
    function Id(): string {
      match this
      case ContentSlot => "qr-content-error"
      case SsidSlot => "wifi-ssid-error"
      case EmailSlot => "contact-email-error"
    }
  }

  datatype QrError =
    | ContentRequired
    | SsidRequired
    | SsidTooLong
    | PasswordTooLong
    | EmailRequired
    | EmailInvalid
    | PhoneInvalid

  function QrErrorText(e: QrError): string {
    match e
    case ContentRequired => "Please enter text or URL for the QR code"
    case SsidRequired => "WiFi network name (SSID) is required"
    case SsidTooLong => "SSID must be 32 characters or less"
    case PasswordTooLong => "Password must be 63 characters or less"
    case EmailRequired => "Email address is required for contact QR"
    case EmailInvalid => "Please enter a valid email address (e.g., name@example.com)"
    case PhoneInvalid => "Please enter a valid phone number"
  }

  /** One `showError(slot, message)` call. */
  datatype Notice = Notice(slot: Slot, error: QrError)

  /** `{ isValid, errorFieldId }`, together with the `showError` calls in order and the inputs
      marked with `markInputError(id, true)`. */
  datatype QrCheck = QrCheck(isValid: bool, errorField: Option<Field>, notices: seq<Notice>, marked: set<Field>)

  /** What an error element shows after the calls: the message of the last call to it. */
  function Displayed(notices: seq<Notice>, slot: Slot): (r: Option<QrError>)
    ensures r.Some? ==> exists k :: 0 <= k < |notices| && notices[k] == Notice(slot, r.value) &&
                                  forall j :: k < j < |notices| ==> notices[j].slot != slot
    ensures r.None? <==> forall k :: 0 <= k < |notices| ==> notices[k].slot != slot
  {
    if |notices| == 0 then None
    else if notices[|notices| - 1].slot == slot then Some(notices[|notices| - 1].error)
    else Displayed(notices[..|notices| - 1], slot)
  }

  /** No whitespace and no '@': one run of `[^\s@]`. */
  predicate IsEmailAtom(s: string) {
    forall k :: 0 <= k < |s| ==> !IsWhitespace(s[k]) && s[k] != '@'
  }

  /** The structure `^[^\s@]+@[^\s@]+\.[^\s@]+$` describes: a non-empty atom, '@', a non-empty
      atom, '.', a non-empty atom. */
  ghost predicate EmailPatternMatches(s: string) {
    exists i, j :: 0 < i && i + 1 < j && j + 1 < |s| && s[i] == '@' && s[j] == '.' &&
      IsEmailAtom(s[..i]) && IsEmailAtom(s[i + 1..j]) && IsEmailAtom(s[j + 1..])
  }

  /** The position of the first occurrence of `c` in `s`. */
  function IndexOf(s: string, c: char): (r: Option<nat>)
    ensures r.Some? ==> r.value < |s| && s[r.value] == c && c !in s[..r.value]
    ensures r.None? ==> c !in s
  {
    if |s| == 0 then None
    else if s[0] == c then Some(0)
    else match IndexOf(s[1..], c)
      case None => None
      case Some(i) =>
        assert s[..i + 1] == [s[0]] + s[1..][..i];
        Some(i + 1)
  }

  /** The domain after '@' holds a '.' that is neither its first nor its last character. */
  predicate HasInnerDot(d: string) {
    exists j :: 0 < j < |d| - 1 && d[j] == '.'
  }

  /** `isValidEmail`: no whitespace, exactly one '@' with something before it, and a domain
      with an inner '.'. */
  predicate IsValidEmail(s: string) {
    (forall k :: 0 <= k < |s| ==> !IsWhitespace(s[k])) &&
    match IndexOf(s, '@')
    case None => false
    case Some(i) => i > 0 && '@' !in s[i + 1..] && HasInnerDot(s[i + 1..])
  }

  lemma EmailPredicateGivesPattern(s: string)
    requires IsValidEmail(s)
    ensures EmailPatternMatches(s)
  {
    var i := IndexOf(s, '@').value;
    var d := s[i + 1..];
    var j :| 0 < j < |d| - 1 && d[j] == '.';
    forall k | 0 <= k < |d| ensures d[k] != '@' {
      assert d[k] in d;
    }
    assert IsEmailAtom(s[..i]);
    assert s[i + 1..i + 1 + j] == d[..j];
    assert IsEmailAtom(s[i + 1..i + 1 + j]);
    assert s[i + 1 + j + 1..] == d[j + 1..];
    assert IsEmailAtom(s[i + 1 + j + 1..]);
    assert s[i + 1 + j] == '.';
  }

  lemma PatternGivesEmailPredicate(s: string, i: nat, j: nat)
    requires 0 < i && i + 1 < j && j + 1 < |s| && s[i] == '@' && s[j] == '.'
    requires IsEmailAtom(s[..i]) && IsEmailAtom(s[i + 1..j]) && IsEmailAtom(s[j + 1..])
    ensures IsValidEmail(s)
  {
    forall k | 0 <= k < |s| ensures !IsWhitespace(s[k]) && (k != i ==> s[k] != '@') {
      if k < i {
        assert s[..i][k] == s[k];
      } else if i < k < j {
        assert s[i + 1..j][k - i - 1] == s[k];
      } else if k > j {
        assert s[j + 1..][k - j - 1] == s[k];
      }
    }
    var found := IndexOf(s, '@');
    assert s[i] in s;
    var f := found.value;
    assert f == i;
    var d := s[i + 1..];
    assert d[j - i - 1] == '.';
    assert HasInnerDot(d);
    forall k | 0 <= k < |d| ensures d[k] != '@' {
      assert d[k] == s[i + 1 + k];
    }
  }

  /** The predicate agrees with the regular expression it stands for. */
  lemma EmailPredicateIsPattern(s: string)
    ensures IsValidEmail(s) <==> EmailPatternMatches(s)
  {
    if IsValidEmail(s) {
      EmailPredicateGivesPattern(s);
    }
    if EmailPatternMatches(s) {
      var i, j :| 0 < i && i + 1 < j && j + 1 < |s| && s[i] == '@' && s[j] == '.' &&
        IsEmailAtom(s[..i]) && IsEmailAtom(s[i + 1..j]) && IsEmailAtom(s[j + 1..]);
      PatternGivesEmailPredicate(s, i, j);
    }
  }

  /** The characters `[\d\s\-\+\(\)]` admits. */
  predicate IsPhoneChar(c: char) {
    IsDigit(c) || IsWhitespace(c) || c == '-' || c == '+' || c == '(' || c == ')'
  }

  /** `/^[\d\s\-\+\(\)]+$/.test(phone)`. */
  predicate IsValidPhone(s: string) {
    |s| >= 1 && forall k :: 0 <= k < |s| ==> IsPhoneChar(s[k])
  }

  /** The active type button's `data-type`, or 'text' when no button is active. */
  function QrType(active: Option<string>): string {
    match active
    case Some(t) => t
    case None => "text"
  }

  /** The SSID step of the 'wifi' case. */
  function SsidError(ssid: string): Option<QrError> {
    if Trim(ssid) == [] then Some(SsidRequired)
    else if |Trim(ssid)| > 32 then Some(SsidTooLong)
    else None
  }

  /** The email step of the 'contact' case. */
  function EmailError(email: string): Option<QrError> {
    if Trim(email) == [] then Some(EmailRequired)
    else if !IsValidEmail(Trim(email)) then Some(EmailInvalid)
    else None
  }

  /** `validateQRInput` for the form type `kind`; the other types have no checks. */
  function ValidateQrInput(kind: string, f: QrForm): (r: QrCheck)
    ensures r.isValid <==> r.errorField.None?
    ensures r.isValid <==> |r.notices| == 0
    ensures r.isValid <==> r.marked == {}
  {
    if kind == "text" then TextCheck(f)
    else if kind == "wifi" then WifiCheck(f)
    else if kind == "contact" then ContactCheck(f)
    else QrCheck(true, None, [], {})
  }

  /** The text branch: the content may not be blank. */
  function TextCheck(f: QrForm): (r: QrCheck)
    ensures r.isValid <==> r.errorField.None? && |r.notices| == 0 && r.marked == {}
  {
    if Trim(f.content) == [] then QrCheck(false, Some(QrContent), [Notice(ContentSlot, ContentRequired)], {QrContent})
    else QrCheck(true, None, [], {})
  }

  /** The Wi-Fi branch: the SSID check, then the password length check. */
  function WifiCheck(f: QrForm): (r: QrCheck)
    ensures r.isValid <==> r.errorField.None? && |r.notices| == 0 && r.marked == {}
  {
    var first := match SsidError(f.ssid)
      case Some(e) => QrCheck(false, Some(WifiSsid), [Notice(SsidSlot, e)], {WifiSsid})
      case None => QrCheck(true, None, [], {});
    if |f.password| > 63 then
      QrCheck(false, if first.errorField.Some? then first.errorField else Some(WifiPassword),
              first.notices + [Notice(SsidSlot, PasswordTooLong)], first.marked + {WifiPassword})
    else first
  }

  /** The contact branch: the email check, then the phone check. */
  function ContactCheck(f: QrForm): (r: QrCheck)
    ensures r.isValid <==> r.errorField.None? && |r.notices| == 0 && r.marked == {}
  {
    var first := match EmailError(f.email)
      case Some(e) => QrCheck(false, Some(ContactEmail), [Notice(EmailSlot, e)], {ContactEmail})
      case None => QrCheck(true, None, [], {});
    if Trim(f.phone) != [] && !IsValidPhone(Trim(f.phone)) then
      QrCheck(false, if first.errorField.Some? then first.errorField else Some(ContactPhone),
              first.notices + [Notice(EmailSlot, PhoneInvalid)], first.marked + {ContactPhone})
    else first
  }

  /** Text: accepted exactly when the trimmed content is not blank. */
  lemma TextRule(f: QrForm)
    ensures ValidateQrInput("text", f).isValid <==> Trim(f.content) != []
    ensures !ValidateQrInput("text", f).isValid ==>
              Displayed(ValidateQrInput("text", f).notices, ContentSlot) == Some(ContentRequired)
  {
  }

  /** Wi-Fi: accepted exactly when the trimmed SSID has 1 to 32 characters and the untrimmed
      password at most 63. */
  lemma WifiRule(f: QrForm)
    ensures ValidateQrInput("wifi", f).isValid <==> 1 <= |Trim(f.ssid)| <= 32 && |f.password| <= 63
  {
  }

  /** Wi-Fi: the first failing field is focused, SSID before password. */
  lemma WifiFirstFailingField(f: QrForm)
    ensures var r := ValidateQrInput("wifi", f);
            (SsidError(f.ssid).Some? ==> r.errorField == Some(WifiSsid)) &&
            (SsidError(f.ssid).None? && |f.password| > 63 ==> r.errorField == Some(WifiPassword))
  {
  }

  /** Wi-Fi: the password message is written into the SSID's error element, after any SSID
      message, so it is the one shown whenever the password is too long. */
  lemma WifiPasswordMessageWins(f: QrForm)
    requires |f.password| > 63
    ensures Displayed(ValidateQrInput("wifi", f).notices, SsidSlot) == Some(PasswordTooLong)
    ensures ValidateQrInput("wifi", f).marked == (if SsidError(f.ssid).Some? then {WifiSsid, WifiPassword} else {WifiPassword})
  {
  }

  /** Contact: accepted exactly when the trimmed email is a valid address and the trimmed
      phone is blank or made of digits, whitespace and `-+()`. */
  lemma ContactRule(f: QrForm)
    ensures ValidateQrInput("contact", f).isValid <==>
              Trim(f.email) != [] && IsValidEmail(Trim(f.email)) &&
              (Trim(f.phone) == [] || IsValidPhone(Trim(f.phone)))
  {
  }

  /** Contact: the email is focused before the phone, and the phone message replaces the
      email message in the shared error element. */
  lemma ContactFirstFailingField(f: QrForm)
    ensures var r := ValidateQrInput("contact", f);
            (EmailError(f.email).Some? ==> r.errorField == Some(ContactEmail)) &&
            (EmailError(f.email).None? && Trim(f.phone) != [] && !IsValidPhone(Trim(f.phone)) ==> r.errorField == Some(ContactPhone))
    ensures var r := ValidateQrInput("contact", f);
            Trim(f.phone) != [] && !IsValidPhone(Trim(f.phone)) ==> Displayed(r.notices, EmailSlot) == Some(PhoneInvalid)
  {
  }

  /** With no active type button the text rules apply. */
  lemma NoActiveButtonChecksText(f: QrForm)
    ensures ValidateQrInput(QrType(None), f) == TextCheck(f)
    ensures ValidateQrInput(QrType(None), f).isValid <==> Trim(f.content) != []
  {
  }

  /** Any other type has no rules. */
  lemma OtherTypesAccepted(kind: string, f: QrForm)
    requires kind != "text" && kind != "wifi" && kind != "contact"
    ensures ValidateQrInput(kind, f) == QrCheck(true, None, [], {})
  {
  }
}
