/**
 * `validateBarcodeFormat`: trim, blank check, rule lookup, length check, pattern
 * check, then the symbology-specific check; and `validateBarcodeInput`, the
 * single-barcode form check built on it.
 */
module Validation {
  import opened Wrappers
  import opened Text
  import opened Symbology
  import opened Checksum

  /** The two copies of the engine. public/zjs.js answers `valid: false` when a check digit
      fails; zxing.js answers `valid: true` with the check-digit message as its error. They
      also build the vCard name lines differently. */
  datatype Edition = Zjs | Zxing

  /** The causes a verdict can carry; `ErrorText` renders them. */
  datatype FormatError =
    | DataRequired
    | WrongLength(minLength: nat, maxLength: nat)
    | InvalidCharacters(description: string)
    | BadCheckDigit(scheme: Scheme)
    | OddItfLength
    | PharmacodeOutOfRange

  /** `{ valid, error }`; `None` is the source's `null`. */
  datatype Verdict = Verdict(valid: bool, error: Option<FormatError>)

  /** The message text of each cause. */
  function ErrorText(e: FormatError): string {
    match e
    case DataRequired => "Data is required"
    case WrongLength(lo, hi) =>
      "Must be " + (if lo == hi then "exactly " + NatToString(lo) else NatToString(lo) + "-" + NatToString(hi)) + " characters"
    case InvalidCharacters(description) => "Invalid characters. " + description
    case BadCheckDigit(Ean13) => "Invalid EAN-13 check digit"
    case BadCheckDigit(Ean8) => "Invalid EAN-8 check digit"
    case BadCheckDigit(UpcA) => "Invalid UPC-A check digit"
    case OddItfLength => "ITF requires even number of digits"
    case PharmacodeOutOfRange => "Pharmacode must be between 3 and 131070"
  }

  /** The check-digit scheme a symbology is dispatched to, if any. */
  function SchemeOf(s: Symbology): Option<Scheme> {
    match s
    case EAN13 => Some(Ean13)
    case EAN8 => Some(Ean8)
    case UPC => Some(UpcA)
    case _ => None
  }

  /** The symbology-specific step, reached only after the length and pattern checks pass. */
  function SymbologyCheck(ed: Edition, s: Symbology, clean: string): Verdict
    requires Matches(RuleOf(s).pattern, clean)
  {
    match SchemeOf(s)
    case Some(scheme) =>
      if !HasValidCheckDigit(scheme, clean) then Verdict(ed == Zxing, Some(BadCheckDigit(scheme)))
      else Verdict(true, None)
    case None =>
      if s == ITF && |clean| % 2 != 0 then Verdict(false, Some(OddItfLength))
      else if s == Pharmacode && (DecimalValue(clean) < 3 || DecimalValue(clean) > 131070) then
        Verdict(false, Some(PharmacodeOutOfRange))
      else Verdict(true, None)
  }

  /** `validateBarcodeFormat(data, format)`. */
  function ValidateBarcodeFormat(ed: Edition, data: string, format: string): (v: Verdict)
    ensures !v.valid ==> v.error.Some?
    ensures v.error == Some(DataRequired) <==> Trim(data) == []
    ensures v.error.Some? && v.error.value.BadCheckDigit? ==> v.valid == (ed == Zxing)
  {
    var clean := Trim(data);
    if clean == [] then Verdict(false, Some(DataRequired))
    else match FromKey(format)
      case None => Verdict(true, None)
      case Some(s) =>
        var rule := RuleOf(s);
        if |clean| < rule.minLength || |clean| > rule.maxLength then
          Verdict(false, Some(WrongLength(rule.minLength, rule.maxLength)))
        else if !Matches(rule.pattern, clean) then
          Verdict(false, Some(InvalidCharacters(rule.description)))
        else SymbologyCheck(ed, s, clean)
  }

  /** Blank input is rejected with "Data is required" for every format, before any lookup. */
  lemma BlankInputRejected(ed: Edition, data: string, format: string)
    requires AllWhitespace(data)
    ensures ValidateBarcodeFormat(ed, data, format) == Verdict(false, Some(DataRequired))
    ensures ErrorText(DataRequired) == "Data is required"
  {
    TrimEmptyIff(data);
  }

  /** A format with no table entry accepts every non-blank input. */
  lemma UnknownFormatAccepted(ed: Edition, data: string, format: string)
    requires FromKey(format) == None
    requires !AllWhitespace(data)
    ensures ValidateBarcodeFormat(ed, data, format) == Verdict(true, None)
  {
    TrimEmptyIff(data);
  }

  /** The length check comes first: a trimmed value outside the bounds gets the length
      message, whatever its characters. */
  lemma LengthCheckedFirst(ed: Edition, data: string, s: Symbology)
    requires Trim(data) != []
    requires |Trim(data)| < RuleOf(s).minLength || |Trim(data)| > RuleOf(s).maxLength
    ensures ValidateBarcodeFormat(ed, data, Key(s)) ==
            Verdict(false, Some(WrongLength(RuleOf(s).minLength, RuleOf(s).maxLength)))
  {
    FromKeyOfKey(s);
  }

  /** The pattern check comes second: within the bounds, a value the pattern refuses gets
      "Invalid characters. " followed by the rule's description. */
  lemma PatternCheckedSecond(ed: Edition, data: string, s: Symbology)
    requires Trim(data) != []
    requires RuleOf(s).minLength <= |Trim(data)| <= RuleOf(s).maxLength
    requires !Matches(RuleOf(s).pattern, Trim(data))
    ensures ValidateBarcodeFormat(ed, data, Key(s)) == Verdict(false, Some(InvalidCharacters(RuleOf(s).description)))
    ensures ErrorText(InvalidCharacters(RuleOf(s).description)) == "Invalid characters. " + RuleOf(s).description
  {
    FromKeyOfKey(s);
  }

  /** The two shapes of the length message. */
  lemma LengthMessage(lo: nat, hi: nat)
    ensures lo == hi ==> ErrorText(WrongLength(lo, hi)) == "Must be exactly " + NatToString(lo) + " characters"
    ensures lo != hi ==> ErrorText(WrongLength(lo, hi)) == "Must be " + NatToString(lo) + "-" + NatToString(hi) + " characters"
  {
  }

  /** Only values that pass both generic checks reach the symbology-specific step. */
  lemma SpecificCheckLast(ed: Edition, data: string, s: Symbology)
    requires Trim(data) != []
    ensures var v := ValidateBarcodeFormat(ed, data, Key(s));
            v.error.Some? && v.error.value in {OddItfLength, PharmacodeOutOfRange, BadCheckDigit(Ean13), BadCheckDigit(Ean8), BadCheckDigit(UpcA)} ==>
              RuleOf(s).minLength <= |Trim(data)| <= RuleOf(s).maxLength && Matches(RuleOf(s).pattern, Trim(data))
  {
    FromKeyOfKey(s);
  }

  /** In public/zjs.js, EAN-13, EAN-8 and UPC-A never validate: the table admits 12, 7 and 11
      characters, while the check-digit functions demand 13, 8 and 12. */
  lemma EanFamilyNeverValid(data: string, s: Symbology)
    requires SchemeOf(s).Some?
    ensures !ValidateBarcodeFormat(Zjs, data, Key(s)).valid
  {
    FromKeyOfKey(s);
  }

  /** Every digit string of the table's length reaches the check-digit step and fails it. */
  lemma EanFamilyDigitsFailCheckDigit(ed: Edition, data: string, s: Symbology)
    requires SchemeOf(s).Some?
    requires AllDigits(Trim(data)) && |Trim(data)| == RuleOf(s).minLength
    ensures ValidateBarcodeFormat(ed, data, Key(s)) == Verdict(ed == Zxing, Some(BadCheckDigit(SchemeOf(s).value)))
  {
    FromKeyOfKey(s);
  }

  /** In zxing.js the same three formats accept every value that passes length and pattern,
      reporting the check-digit message alongside `valid: true`. */
  lemma ZxingAcceptsEanFamily(data: string, s: Symbology)
    requires SchemeOf(s).Some?
    requires Trim(data) != []
    ensures var v := ValidateBarcodeFormat(Zxing, data, Key(s));
            v.valid <==> (|Trim(data)| == RuleOf(s).minLength && AllDigits(Trim(data)))
    ensures var v := ValidateBarcodeFormat(Zxing, data, Key(s));
            v.valid ==> v.error == Some(BadCheckDigit(SchemeOf(s).value))
  {
    FromKeyOfKey(s);
  }

  /** The table's own examples for EAN-13, UPC-A and ITF-14 are one character longer than the
      bounds the same table sets, so they fail the length check. */
  lemma TableExampleTooLong(ed: Edition, s: Symbology)
    requires s in {EAN13, UPC, ITF14}
    ensures var ex := RuleOf(s).example;
            |ex| == RuleOf(s).maxLength + 1 &&
            ValidateBarcodeFormat(ed, ex, Key(s)) == Verdict(false, Some(WrongLength(RuleOf(s).minLength, RuleOf(s).maxLength)))
  {
    var ex := RuleOf(s).example;
    TrimUntouched(ex);
    LengthCheckedFirst(ed, ex, s);
  }

  /** The table's EAN-8 example has the admitted 7 digits and so reaches the check-digit step,
      which needs 8 digits and fails. */
  lemma TableExampleEan8(ed: Edition)
    ensures ValidateBarcodeFormat(ed, RuleOf(EAN8).example, "EAN8") == Verdict(ed == Zxing, Some(BadCheckDigit(Ean8)))
  {
    var ex := RuleOf(EAN8).example;
    TrimUntouched(ex);
    EanFamilyDigitsFailCheckDigit(ed, ex, EAN8);
  }

  /** ITF: a digit string of 2 to 255 characters is valid exactly when its length is even. */
  lemma ItfParity(ed: Edition, data: string)
    requires AllDigits(Trim(data)) && 2 <= |Trim(data)| <= 255
    ensures var v := ValidateBarcodeFormat(ed, data, "ITF");
            if |Trim(data)| % 2 == 0 then v == Verdict(true, None) else v == Verdict(false, Some(OddItfLength))
  {
    FromKeyOfKey(ITF);
  }

  /** The formats without a specific step accept every non-blank value that passes the
      length and pattern checks. */
  lemma GenericFormatsAccept(ed: Edition, data: string, s: Symbology)
    requires s in {UPCE, CODE39, CODE39Extended, CODE128, ITF14, MSI, Codabar}
    requires Trim(data) != []
    requires RuleOf(s).minLength <= |Trim(data)| <= RuleOf(s).maxLength
    requires Matches(RuleOf(s).pattern, Trim(data))
    ensures ValidateBarcodeFormat(ed, data, Key(s)) == Verdict(true, None)
  {
    FromKeyOfKey(s);
  }

  /** Pharmacode: a string of 1 to 6 digits is valid exactly when its decimal value lies in 3..131070. */
  lemma PharmacodeRange(ed: Edition, data: string)
    requires AllDigits(Trim(data)) && 1 <= |Trim(data)| <= 6
    ensures var v := ValidateBarcodeFormat(ed, data, "Pharmacode");
            if 3 <= DecimalValue(Trim(data)) <= 131070 then v == Verdict(true, None)
            else v == Verdict(false, Some(PharmacodeOutOfRange))
  {
    FromKeyOfKey(Pharmacode);
  }

  lemma LeadingZerosValue()
    ensures DecimalValue("000002") == 2
  {
    var z, t := "00000", "2";
    assert z + t == "000002";
    LeadingZerosIgnored(z, t);
  }

  /** Leading zeros do not help: "000002" is below the range. */
  lemma PharmacodeLeadingZeros(ed: Edition)
    ensures ValidateBarcodeFormat(ed, "000002", "Pharmacode") == Verdict(false, Some(PharmacodeOutOfRange))
  {
    LeadingZerosValue();
    TrimUntouched("000002");
    PharmacodeRange(ed, "000002");
  }

  /** "0" is below the range. */
  lemma PharmacodeZero(ed: Edition)
    ensures ValidateBarcodeFormat(ed, "0", "Pharmacode") == Verdict(false, Some(PharmacodeOutOfRange))
  {
    TrimUntouched("0");
    assert DecimalValue("0") == 0;
    PharmacodeRange(ed, "0");
  }

  /** The value of six digits, written out place by place. */
  lemma SixDigitValue(s: string)
    requires |s| == 6 && AllDigits(s)
    ensures DecimalValue(s) == DigitValue(s[0]) * 100000 + DigitValue(s[1]) * 10000 + DigitValue(s[2]) * 1000 +
                               DigitValue(s[3]) * 100 + DigitValue(s[4]) * 10 + DigitValue(s[5])
  {
    var p5 := s[..5];
    var p4 := s[..4];
    var p3 := s[..3];
    var p2 := s[..2];
    var p1 := s[..1];
    assert p5[..4] == p4 && p4[..3] == p3 && p3[..2] == p2 && p2[..1] == p1 && p1[..0] == [];
    assert DecimalValue(p1) == DigitValue(s[0]);
    assert DecimalValue(p2) == DecimalValue(p1) * 10 + DigitValue(s[1]);
    assert DecimalValue(p3) == DecimalValue(p2) * 10 + DigitValue(s[2]);
    assert DecimalValue(p4) == DecimalValue(p3) * 10 + DigitValue(s[3]);
    assert DecimalValue(p5) == DecimalValue(p4) * 10 + DigitValue(s[4]);
    assert DecimalValue(s) == DecimalValue(p5) * 10 + DigitValue(s[5]);
  }

  /** "131070" is the top of the range. */
  lemma PharmacodeTop(ed: Edition)
    ensures ValidateBarcodeFormat(ed, "131070", "Pharmacode") == Verdict(true, None)
  {
    TrimUntouched("131070");
    SixDigitValue("131070");
    PharmacodeRange(ed, "131070");
  }

  /** "131071" is past the range. */
  lemma PharmacodePastTop(ed: Edition)
    ensures ValidateBarcodeFormat(ed, "131071", "Pharmacode") == Verdict(false, Some(PharmacodeOutOfRange))
  {
    TrimUntouched("131071");
    SixDigitValue("131071");
    PharmacodeRange(ed, "131071");
  }

  /** Codabar's length bounds admit 1 and 2 characters, which its pattern always refuses. */
  lemma CodabarShortRejected(ed: Edition, data: string)
    requires 1 <= |Trim(data)| <= 2
    ensures ValidateBarcodeFormat(ed, data, "Codabar") == Verdict(false, Some(InvalidCharacters("Digits and -:$/.+")))
  {
    FromKeyOfKey(Codabar);
    CodabarShortNeverMatches(Trim(data));
  }

  /** `validateBarcodeInput`: `None` when the form is accepted, otherwise the message shown,
      prefixed by the format's display name. A blank entry is caught before the format check. */
  function ValidateBarcodeInput(ed: Edition, data: string, format: string): (r: Option<string>)
    ensures Trim(data) == [] ==> r == Some("Please enter barcode data")
    ensures Trim(data) != [] && !ValidateBarcodeFormat(ed, data, format).valid ==>
              r == Some(FormatNameAsWritten(format) + ": " + ErrorText(ValidateBarcodeFormat(ed, data, format).error.value))
  {
    if Trim(data) == [] then Some("Please enter barcode data")
    else
      var v := ValidateBarcodeFormat(ed, data, format);
      if !v.valid then Some(FormatNameAsWritten(format) + ": " + ErrorText(v.error.value)) else None
  }

  /** The form is accepted exactly when the format check says valid, and "Data is required"
      never reaches it. */
  lemma BarcodeInputFollowsFormatCheck(ed: Edition, data: string, format: string)
    requires Trim(data) != []
    ensures ValidateBarcodeInput(ed, data, format).None? <==> ValidateBarcodeFormat(ed, data, format).valid
    ensures ValidateBarcodeFormat(ed, data, format).error != Some(DataRequired)
  {
  }

  /** A refused CODE39Extended entry is reported under the key itself, not under its display
      name "CODE39 Extended". */
  lemma ExtendedRefusalNamedByKey(ed: Edition, data: string)
    requires Trim(data) != [] && !ValidateBarcodeFormat(ed, data, "CODE39Extended").valid
    ensures ValidateBarcodeInput(ed, data, "CODE39Extended") ==
            Some("CODE39Extended" + ": " + ErrorText(ValidateBarcodeFormat(ed, data, "CODE39Extended").error.value))
  {
    FormatNameAsWrittenMissesExtended();
  }
}
