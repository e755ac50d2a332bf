/**
 * The symbology rule table `barcodeFormatRules`, its key lookup, and the
 * display names of `getFormatName` / `normalizeFormat`.
 */
module Symbology {
  import opened Wrappers
  import opened Text

  /** The twelve keys of the rule table. */
  datatype Symbology =
    | EAN13 | EAN8 | UPC | UPCE | CODE39 | CODE39Extended | CODE128
    | ITF14 | ITF | MSI | Pharmacode | Codabar

  const AllSymbologies: seq<Symbology> :=
    [EAN13, EAN8, UPC, UPCE, CODE39, CODE39Extended, CODE128, ITF14, ITF, MSI, Pharmacode, Codabar]

  /** The table key (and `<select>` option value) of each symbology. */
  function Key(s: Symbology): string {
    match s
    case EAN13 => "EAN13"
    case EAN8 => "EAN8"
    case UPC => "UPC"
    case UPCE => "UPCE"
    case CODE39 => "CODE39"
    case CODE39Extended => "CODE39Extended"
    case CODE128 => "CODE128"
    case ITF14 => "ITF14"
    case ITF => "ITF"
    case MSI => "MSI"
    case Pharmacode => "Pharmacode"
    case Codabar => "Codabar"
  }

  /** `barcodeFormatRules[format]`: an exact, case-sensitive key match. */
  function FromKey(format: string): (r: Option<Symbology>)
    ensures r.Some? ==> Key(r.value) == format
  {
    if format == "EAN13" then Some(EAN13)
    else if format == "EAN8" then Some(EAN8)
    else if format == "UPC" then Some(UPC)
    else if format == "UPCE" then Some(UPCE)
    else if format == "CODE39" then Some(CODE39)
    else if format == "CODE39Extended" then Some(CODE39Extended)
    else if format == "CODE128" then Some(CODE128)
    else if format == "ITF14" then Some(ITF14)
    else if format == "ITF" then Some(ITF)
    else if format == "MSI" then Some(MSI)
    else if format == "Pharmacode" then Some(Pharmacode)
    else if format == "Codabar" then Some(Codabar)
    else None
  }

  /** Every key finds its own rule, so the lookup and the key are inverse. */
  lemma FromKeyOfKey(s: Symbology)
    ensures FromKey(Key(s)) == Some(s)
  {
  }

  /** The character classes of the table's regular expressions. */
  datatype Pattern =
    | DigitsBetween(lo: nat, hi: nat)  // \d repeated between lo and hi times
    | DigitRun                         // one or more \d
    | Code39Run                        // one or more of 0-9, A-Z, \s and - $ / + % .
    | AsciiRun                         // one or more code points 0x00-0x7F
    | CodabarFrame                     // a start letter A-D, one or more of 0-9 - $ : . / +, a stop letter A-D

  predicate IsCode39Char(c: char) {
    IsDigit(c) || ('A' <= c <= 'Z') || IsWhitespace(c) ||
    c == '-' || c == '$' || c == '/' || c == '+' || c == '%' || c == '.'
  }

  predicate IsCodabarGuard(c: char) {
    c == 'A' || c == 'B' || c == 'C' || c == 'D'
  }

  predicate IsCodabarBody(c: char) {
    IsDigit(c) || c == '-' || c == '$' || c == ':' || c == '.' || c == '/' || c == '+'
  }

  /** `rules.pattern.test(s)`: the whole string matches. */
  predicate Matches(p: Pattern, s: string) {
    match p
    case DigitsBetween(lo, hi) => lo <= |s| <= hi && AllDigits(s)
    case DigitRun => |s| >= 1 && AllDigits(s)
    case Code39Run => |s| >= 1 && forall k :: 0 <= k < |s| ==> IsCode39Char(s[k])
    case AsciiRun => |s| >= 1 && forall k :: 0 <= k < |s| ==> s[k] as int <= 0x7F
    case CodabarFrame =>
      |s| >= 3 && IsCodabarGuard(s[0]) && IsCodabarGuard(s[|s| - 1]) &&
      forall k :: 1 <= k < |s| - 1 ==> IsCodabarBody(s[k])
  }

  datatype Rule = Rule(pattern: Pattern, example: string, description: string, minLength: nat, maxLength: nat)

  /** The table exactly as the source writes it. */
  function RuleOf(s: Symbology): (r: Rule)
    ensures r.minLength <= r.maxLength
  {
    match s
    case EAN13 => Rule(DigitsBetween(12, 12), "5901234123457", "Exactly 12 digits (12 data + 1 check digit)", 12, 12)
    case EAN8 => Rule(DigitsBetween(7, 7), "1234567", "Exactly 7 digits (7 data + 1 check digit)", 7, 7)
    case UPC => Rule(DigitsBetween(11, 11), "123456789012", "Exactly 11 digits (11 data + 1 check digit)", 11, 11)
    case UPCE => Rule(DigitsBetween(6, 8), "123456", "6 digits", 6, 8)
    case CODE39 => Rule(Code39Run, "A-123", "Alphanumeric, space, -.$/+%", 1, 255)
    case CODE39Extended => Rule(AsciiRun, "ABC123", "Full ASCII characters", 1, 255)
    case CODE128 => Rule(AsciiRun, "ABC123", "Full ASCII characters", 1, 255)
    case ITF14 => Rule(DigitsBetween(13, 13), "12345678901231", "Exactly 13 digits", 13, 13)
    case ITF => Rule(DigitRun, "1234", "Digits only, even length", 2, 255)
    case MSI => Rule(DigitRun, "123456", "Digits only", 1, 255)
    case Pharmacode => Rule(DigitRun, "123456", "Numbers 3-131070", 1, 6)
    case Codabar => Rule(CodabarFrame, "A1234B", "Digits and -:$/.+", 1, 255)
  }

  /** Within the length bounds of a digit rule, matching the pattern is being all digits. */
  lemma DigitRuleMatch(s: Symbology, v: string)
    requires s in {EAN13, EAN8, UPC, UPCE, ITF14, ITF, MSI, Pharmacode}
    requires RuleOf(s).minLength <= |v| <= RuleOf(s).maxLength
    ensures Matches(RuleOf(s).pattern, v) <==> AllDigits(v)
  {
  }

  /** Codabar admits length 1, but its pattern needs at least 3 characters: length 1 and 2 can never pass. */
  lemma CodabarShortNeverMatches(v: string)
    requires RuleOf(Codabar).minLength <= |v| < 3
    ensures !Matches(RuleOf(Codabar).pattern, v)
  {
  }

  /** `normalizeFormat`: trimmed and upper-cased. */
  function NormalizeFormat(format: string): (r: string)
  {
    ToUpperAscii(Trim(format))
  }

  /** A normalised format holds no lower-case ASCII letter. */
  lemma NormalizeFormatUpper(format: string, k: nat)
    requires k < |NormalizeFormat(format)|
    ensures !('a' <= NormalizeFormat(format)[k] <= 'z')
  {
  }

  /** The human name of each symbology. */
  function DisplayName(s: Symbology): string {
    match s
    case EAN13 => "EAN-13"
    case EAN8 => "EAN-8"
    case UPC => "UPC-A"
    case UPCE => "UPC-E"
    case CODE39 => "CODE39"
    case CODE39Extended => "CODE39 Extended"
    case CODE128 => "CODE128"
    case ITF14 => "ITF-14"
    case ITF => "ITF"
    case MSI => "MSI"
    case Pharmacode => "Pharmacode"
    case Codabar => "Codabar"
  }

  /** `getFormatName` as written: the normalised (upper-case) string is looked up among the
      mixed-case keys of the name table, and the raw format is the fallback. */
  function FormatNameAsWritten(format: string): string {
    match FromKey(NormalizeFormat(format))
    case Some(s) => DisplayName(s)
    case None => format
  }

  /** The upper-cased table keys. */
  function UpperKey(s: Symbology): string {
    match s
    case EAN13 => "EAN13"
    case EAN8 => "EAN8"
    case UPC => "UPC"
    case UPCE => "UPCE"
    case CODE39 => "CODE39"
    case CODE39Extended => "CODE39EXTENDED"
    case CODE128 => "CODE128"
    case ITF14 => "ITF14"
    case ITF => "ITF"
    case MSI => "MSI"
    case Pharmacode => "PHARMACODE"
    case Codabar => "CODABAR"
  }

  /** No key has surrounding whitespace. */
  lemma TrimKey(s: Symbology)
    ensures Trim(Key(s)) == Key(s)
  {
    TrimUntouched(Key(s));
  }

  lemma UpperCODE39Extended()
    ensures ToUpperAscii("CODE39Extended") == "CODE39EXTENDED"
  {
  }

  lemma UpperPharmacode()
    ensures ToUpperAscii("Pharmacode") == "PHARMACODE"
  {
  }

  lemma UpperCodabar()
    ensures ToUpperAscii("Codabar") == "CODABAR"
  {
  }

  /** Upper-casing each key gives `UpperKey`. */
  lemma UpperOfKey(s: Symbology)
    ensures ToUpperAscii(Key(s)) == UpperKey(s)
  {
    match s
    case CODE39Extended => UpperCODE39Extended();
    case Pharmacode => UpperPharmacode();
    case Codabar => UpperCodabar();
    case _ => UpperIdentity(Key(s));
  }

  /** Normalising a key gives `UpperKey`. */
  lemma NormalizeKey(s: Symbology)
    ensures NormalizeFormat(Key(s)) == ToUpperAscii(Key(s)) == UpperKey(s)
  {
    TrimKey(s);
    UpperOfKey(s);
  }

  /** 'CODE39Extended' upper-cases to a string that is no key, so its name is never shown. */
  lemma FormatNameAsWrittenMissesExtended()
    ensures FormatNameAsWritten("CODE39Extended") == "CODE39Extended"
    ensures FormatNameAsWritten("CODE39Extended") != DisplayName(CODE39Extended)
  {
    NormalizeKey(CODE39Extended);
  }

  /** As written, every key but 'CODE39Extended' gets its display name, because the other
      mixed-case keys ('Pharmacode', 'Codabar') are their own display names. */
  lemma FormatNameAsWrittenOfKey(s: Symbology)
    ensures FormatNameAsWritten(Key(s)) == if s == CODE39Extended then Key(s) else DisplayName(s)
  {
    NormalizeKey(s);
    if s in {CODE39Extended, Pharmacode, Codabar} {
      UpperMixedKeyMissing(s);
    } else {
      assert UpperKey(s) == Key(s);
      FromKeyOfKey(s);
    }
  }

  /** The upper-cased forms of the three mixed-case keys are no keys. */
  lemma UpperMixedKeyMissing(s: Symbology)
    requires s in {CODE39Extended, Pharmacode, Codabar}
    ensures FromKey(UpperKey(s)) == None
  {
    var r := FromKey(UpperKey(s));
    if r.Some? {
      assert Key(r.value) == UpperKey(s);
      assert Key(r.value)[1] == UpperKey(s)[1];
    }
  }

  /** The symbology whose upper-cased key equals `n`, scanning the table in order. */
  function FindByNormalizedKey(n: string, candidates: seq<Symbology>): (r: Option<Symbology>)
    ensures r.Some? ==> r.value in candidates && ToUpperAscii(Key(r.value)) == n
    ensures r.None? ==> forall k :: 0 <= k < |candidates| ==> ToUpperAscii(Key(candidates[k])) != n
  {
    if |candidates| == 0 then None
    else if ToUpperAscii(Key(candidates[0])) == n then Some(candidates[0])
    else FindByNormalizedKey(n, candidates[1..])
  }

  /** `getFormatName` as evidently intended: the key comparison ignores case on both sides. */
  function FormatName(format: string): string {
    match FindByNormalizedKey(NormalizeFormat(format), AllSymbologies)
    case Some(s) => DisplayName(s)
    case None => format
  }

  /** Distinct symbologies have distinct upper-cased keys. */
  lemma UpperKeyInjective(s: Symbology, t: Symbology)
    requires UpperKey(s) == UpperKey(t)
    ensures s == t
  {
  }

  /** The intended property: every table key gets its symbology's display name. */
  lemma FormatNameOfKey(s: Symbology)
    ensures FormatName(Key(s)) == DisplayName(s)
  {
    NormalizeKey(s);
    var r := FindByNormalizedKey(UpperKey(s), AllSymbologies);
    if r.Some? {
      UpperOfKey(r.value);
      UpperKeyInjective(r.value, s);
    } else {
      assert s in AllSymbologies;
      UpperOfKey(s);
    }
  }

  /** The as-written and the corrected name differ on a key only for 'CODE39Extended'. */
  lemma NamesAgreeExceptExtended(s: Symbology)
    ensures FormatNameAsWritten(Key(s)) == FormatName(Key(s)) <==> s != CODE39Extended
  {
    FormatNameAsWrittenOfKey(s);
    FormatNameOfKey(s);
  }
}
