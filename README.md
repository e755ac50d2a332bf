# Barcode and QR input validation of Zxing.app, in Dafny

Zxing.app is a browser page. It scans QR codes and barcodes with a camera,
generates single and bulk QR codes and barcodes, and exports bulk results as
CSV. The repository ships two near-identical copies of the page script:
`public/zjs.js` and `zxing.js`. This project models the logic that decides what
the page accepts and what text it produces. The two copies differ in a few
places, and `Edition = Zjs | Zxing` selects between them.

The modelled logic, one module each:

- `Text`: the string operations the scripts rely on.
  - `trim` over the ECMAScript white-space set.
  - `split` and `join` on one separator.
  - Decimal digits and number rendering.
  - ASCII upper-casing.
- `Symbology`: the per-format rule table `barcodeFormatRules`, written as the
  source has it. Also `normalizeFormat` and `getFormatName`.
- `Checksum`: the EAN-13, EAN-8 and UPC-A check-digit loops. They are proved
  equal to the GS1 mod-10 rule, and to detect every single-digit error.
- `Validation`:
  - `validateBarcodeFormat`: a trimmed blank check, then length, then pattern,
    then the symbology-specific step.
  - `validateBarcodeInput`.
- `Bulk`:
  - Line cleaning for bulk input.
  - `validateBulkBarcodeInput`, with its list of invalid items and its summary
    message.
  - `validateBulkQRInput`.
  - The 50-item cut for generation and the label under each code.
- `QrInput`:
  - `validateQRInput` for text, Wi-Fi and contact codes, including which notice
    ends up shown in which slot.
  - `isValidEmail`, proved equal to its regular expression.
- `Payload`: the Wi-Fi string and the vCard built by `generateQR`.
- `Csv`: the two CSV files of the bulk download, whose quoting follows
  section 2, rule 7 of RFC 4180.
- `Scanner`:
  - The camera de-duplication gate of `processCameraScan`, with its 3000 ms
    cool-down.
  - The result list of `addScanResult`, newest first and capped at 20.

Imperative source code is modelled as methods with loops, each proved against
a function:

- the check-digit loops;
- the bulk `forEach`/`push` loops and the message built with `+=`;
- the vCard built with `+=`;
- the CSV `+=` loops.

`processCameraScan` assigns globals and `addScanResult` changes the result
list, so both are methods on classes.

The rule table's own examples disagree with its bounds and with the check
functions:

- The rule table's own examples for EAN-13, UPC-A and ITF-14 are one character
  longer than the same table's bounds, so they fail with the length message.
- The EAN-8 example has the 7 digits the table admits, so it fails the check
  digit, which needs 8.
- In `public/zjs.js` this means EAN-13, EAN-8 and UPC-A never validate at all.
- `zxing.js` answers `valid: true` together with the check-digit message.

## Model

| member | source | states |
|---|---|---|
| `Text.TrimStartShape` | public/zjs.js:880 | `trimStart` keeps a suffix, drops only white space, and leaves no white space in front |
| `Text.Trim` | public/zjs.js:880 | `String.prototype.trim`; `TrimIsCore`, `TrimStartShape` and `TrimEndShape` state what it keeps |
| `Text.TrimEndShape` | public/zjs.js:880 | `trimEnd` keeps a prefix, drops only white space, and leaves no white space at the end |
| `Text.TrimIsCore` | public/zjs.js:880 | `trim` returns the infix between a white-space prefix and a white-space suffix, and that infix neither starts nor ends with white space |
| `Text.TrimEmptyIff` | public/zjs.js:886 | a trimmed string is empty exactly when the input is all white space, which is the falsy test the source applies |
| `Text.TrimIdempotent` | public/zjs.js:892-894 | trimming twice is the same as trimming once |
| `Text.TrimUntouched` | public/zjs.js:894 | a string that neither starts nor ends with white space is its own trim |
| `Text.TrimChars` | public/zjs.js:894 | every character of the trim occurs in the input |
| `Text.Split` | public/zjs.js:892 | `split('\n')` gives at least one piece, and no piece holds the separator |
| `Text.JoinSplit` | public/zjs.js:892 | joining the pieces of a split with the separator gives back the string |
| `Text.SplitJoin` | public/zjs.js:892 | splitting a join of separator-free pieces gives back the pieces |
| `Text.SplitNoSep` | public/zjs.js:892 | a string without the separator splits into itself |
| `Text.SplitAtFirst` | public/zjs.js:892 | a split cuts at the first separator and goes on with the rest |
| `Text.JoinSnoc` | public/zjs.js:2476-2478 | appending a piece to a join adds the separator and the piece, which is how `+=` builds lines |
| `Text.DigitChar` | public/zjs.js:796 | the digit character of a value below 10 reads back as that value |
| `Text.ZerosValue` | public/zjs.js:776 | a run of zeros has decimal value 0 |
| `Text.LeadingZerosIgnored` | public/zjs.js:776 | leading zeros do not change `parseInt`'s decimal value |
| `Text.NatToString` | public/zjs.js:922 | the rendering of a number is never empty |
| `Text.NatToStringRoundTrip` | public/zjs.js:922 | a rendered number is all digits and reads back as the number |
| `Text.ToUpperAscii` | public/zjs.js:1598-1600 | upper-casing keeps the length |
| `Text.UpperIdentity` | public/zjs.js:1598-1600 | a string without lower-case ASCII letters is left unchanged by upper-casing |
| `Symbology.FromKey` | public/zjs.js:47-131 | looking up a format finds the table entry whose key is exactly that format |
| `Symbology.FromKeyOfKey` | public/zjs.js:47-131 | every table key finds its own entry |
| `Symbology.RuleOf` | public/zjs.js:47-131 | every rule's minimum length is at most its maximum |
| `Symbology.DigitRuleMatch` | public/zjs.js:47-131 | within its length bounds a digit rule's pattern accepts exactly the all-digit strings |
| `Symbology.CodabarShortNeverMatches` | public/zjs.js:125-130 | Codabar admits lengths 1 and 2, but its pattern needs two guards around at least one character |
| `Symbology.NormalizeFormatUpper` | public/zjs.js:1598-1600 | a normalised format holds no lower-case ASCII letter |
| `Symbology.NormalizeKey` | public/zjs.js:1598-1600 | normalising a table key upper-cases it |
| `Symbology.NormalizeFormat` | public/zjs.js:1598-1600 | `normalizeFormat`: the trimmed, upper-cased format; `NormalizeFormatUpper` and `NormalizeKey` state what it gives |
| `Symbology.FormatNameAsWritten` | public/zjs.js:171-187 | `getFormatName` as written: an exact lookup of the normalised format among the mixed-case keys, falling back to the format itself |
| `Symbology.FormatNameAsWrittenOfKey` | public/zjs.js:171-187 | as written, every table key gets its display name except `CODE39Extended`, which comes back unchanged |
| `Symbology.FormatNameAsWrittenMissesExtended` | public/zjs.js:171-187 | `getFormatName('CODE39Extended')` as written returns the key itself, not its display name |
| `Symbology.FindByNormalizedKey` | public/zjs.js:171-187 | the case-insensitive search used by the corrected name (the source itself does an exact object lookup): it finds a candidate whose upper-cased key is the normalised format, or reports that none has it |
| `Symbology.UpperKeyInjective` | public/zjs.js:47-131 | no two table keys upper-case to the same string, so a case-insensitive lookup is unambiguous |
| `Symbology.FormatNameOfKey` | public/zjs.js:171-187 | the corrected `getFormatName` gives every table key its display name |
| `Symbology.NamesAgreeExceptExtended` | public/zjs.js:171-187 | on table keys the as-written and the corrected name agree exactly when the key is not `CODE39Extended` |
| `Checksum.NumberValue` | public/zjs.js:789 | `Number` of one character, where NaN fails the check, is a digit value below 10 |
| `Checksum.CheckDigitOf` | public/zjs.js:796 | the computed check digit is below 10 and completes the weighted sum to a multiple of 10 |
| `Checksum.HasValidCheckDigit` | public/zjs.js:786-826 | what `validateEAN13`, `validateEAN8` and `validateUPC` return: exact length, no NaN character, and the last character equal to the computed check digit |
| `Checksum.ValidateCheckDigit` | public/zjs.js:786-798 | the summing loop answers exactly whether the last digit is the check digit of the others, for EAN-13, EAN-8 and UPC-A |
| `Checksum.WeightedSumIsGs1Prefix` | public/zjs.js:790-794 | the source's weights, counted from the left, are the GS1 weights 3,1,3,… counted from the right |
| `Checksum.CheckDigitIsGs1` | public/zjs.js:786-826 | on digit strings, each source check is the GS1 mod-10 rule at that scheme's length |
| `Checksum.CheckDigitMatches` | public/zjs.js:796-797 | the last digit equals the computed check digit exactly when adding it to the sum gives a multiple of ten |
| `Checksum.ExactlyOneCheckDigit` | public/zjs.js:786-798 | for each payload exactly one appended digit passes |
| `Checksum.Gs1PrefixOneChange` | public/zjs.js:790-794 | changing one digit moves the weighted sum by the weighted difference at that position alone |
| `Checksum.SingleDigitErrorDetected` | public/zjs.js:786-826 | changing any single digit of a valid code makes it invalid |
| `Validation.ValidateBarcodeFormat` | public/zjs.js:732-784 | an invalid verdict carries an error; "Data is required" comes exactly for blank input; a check-digit error is valid only in the zxing.js copy |
| `Validation.SymbologyCheck` | public/zjs.js:754-781 | the format-specific step after length and pattern: the check digit, ITF parity and the Pharmacode range |
| `Validation.ErrorText` | public/zjs.js:733-781 | the message text of each verdict error, as the source writes it |
| `Validation.BlankInputRejected` | public/zjs.js:733-735 | blank input is rejected with "Data is required" for every format |
| `Validation.UnknownFormatAccepted` | public/zjs.js:737-738 | a format without a table entry accepts every non-blank input |
| `Validation.LengthCheckedFirst` | public/zjs.js:740-745 | outside the length bounds the length message comes first, whatever the characters |
| `Validation.PatternCheckedSecond` | public/zjs.js:747-752 | within the bounds, a pattern failure gives "Invalid characters. " followed by the rule's description |
| `Validation.LengthMessage` | public/zjs.js:743 | the length message reads "exactly n" for equal bounds and "lo-hi" otherwise |
| `Validation.SpecificCheckLast` | public/zjs.js:754-781 | a check-digit, parity or range error comes only for values that passed length and pattern |
| `Validation.EanFamilyNeverValid` | public/zjs.js:755-769 | in public/zjs.js EAN-13, EAN-8 and UPC-A never validate, because the table's lengths are one short of the check functions' lengths |
| `Validation.EanFamilyDigitsFailCheckDigit` | public/zjs.js:755-769 | every digit string of the table's length reaches the check-digit step and fails it |
| `Validation.ZxingAcceptsEanFamily` | zxing.js:546-560 | in zxing.js those formats are valid exactly for digit strings of the table's length, always with the check-digit message |
| `Validation.TableExampleTooLong` | public/zjs.js:47-131 | the table's EAN-13, UPC-A and ITF-14 examples are one character over their bounds and get the length message |
| `Validation.TableExampleEan8` | public/zjs.js:55-61 | the table's EAN-8 example fails its check digit |
| `Validation.ItfParity` | public/zjs.js:770-774 | an ITF digit string is valid exactly when its length is even |
| `Validation.GenericFormatsAccept` | public/zjs.js:754-783 | for UPC-E, CODE39, CODE39 Extended, CODE128, ITF-14, MSI and Codabar, a non-blank value within the bounds that matches the pattern is valid with no error |
| `Validation.PharmacodeRange` | public/zjs.js:775-780 | a Pharmacode digit string is valid exactly when its value lies in 3..131070 |
| `Validation.SixDigitValue` | public/zjs.js:776 | `parseInt` of six digits is their place-value sum |
| `Validation.PharmacodeLeadingZeros` | public/zjs.js:775-780 | "000002" is out of range, because leading zeros do not count |
| `Validation.PharmacodeZero` | public/zjs.js:775-780 | "0" is out of range |
| `Validation.PharmacodeTop` | public/zjs.js:775-780 | "131070" is valid |
| `Validation.PharmacodePastTop` | public/zjs.js:775-780 | "131071" is out of range |
| `Validation.CodabarShortRejected` | public/zjs.js:747-752 | a Codabar value of one or two characters gets the invalid-characters message |
| `Validation.ValidateBarcodeInput` | public/zjs.js:705-730 | blank data gets "Please enter barcode data" before any format check; a refused non-blank entry gets `getFormatName` as written, ": " and the format check's error message |
| `Validation.BarcodeInputFollowsFormatCheck` | public/zjs.js:721-727 | the form is accepted exactly when the format check is valid, and "Data is required" never reaches it |
| `Validation.ExtendedRefusalNamedByKey` | public/zjs.js:721-727 | a refused CODE39Extended entry is reported as "CODE39Extended: " followed by the error, because `getFormatName` as written misses that key |
| `Bulk.CleanLines` | public/zjs.js:893-894 | the filter-then-trim pipeline keeps at most as many lines as it gets, each one non-empty and trimmed |
| `Bulk.CleanLinesAppend` | public/zjs.js:893-894 | cleaning distributes over concatenation, since each line is handled on its own |
| `Bulk.CleanLinesOne` | public/zjs.js:893-894 | one line is dropped when blank and otherwise kept trimmed |
| `Bulk.CleanLinesKeeps` | public/zjs.js:893-894 | lines that are already non-empty and trimmed pass through unchanged |
| `Bulk.Items` | public/zjs.js:880-894 | every bulk item is non-empty and trimmed |
| `Bulk.ItemsOfJoin` | public/zjs.js:880-894 | a text made by joining clean single-line items with line feeds yields exactly those items |
| `Bulk.ItemsOfNonBlank` | public/zjs.js:886-900 | non-blank text yields at least one item, so the "0 items" branch cannot be reached |
| `Bulk.InvalidItems` | public/zjs.js:908-918 | each listed item has its 1-based line, its value, a failing verdict and that verdict's message, in increasing line order |
| `Bulk.InvalidItemsComplete` | public/zjs.js:908-918 | every failing item is listed |
| `Bulk.InvalidItemsEmptyIff` | public/zjs.js:908-918 | the list is empty exactly when every item passes |
| `Bulk.CollectInvalidItems` | public/zjs.js:908-918 | the `forEach`/`push` loop builds exactly that list |
| `Bulk.ZxingBulkSkipsCheckDigit` | zxing.js:693-703 | in zxing.js no listed item failed only its check digit |
| `Bulk.ConcatAppend` | public/zjs.js:926-933 | appending two runs of item lines one after the other gives the text of the combined run |
| `Bulk.ConcatStep` | public/zjs.js:927 | one more `+=` adds that line at the end of the text built so far |
| `Bulk.AppendItemLines` | public/zjs.js:926-928 | the `forEach` loop appends exactly the lines of the first `shown` failures, in order |
| `Bulk.SummaryStartsWithCount` | public/zjs.js:922 | the message starts with "n item(s) have invalid format for F" |
| `Bulk.SummaryEndsWithAllLines` | public/zjs.js:924-928 | with at most 3 failures the message ends with every failure's line |
| `Bulk.SummaryEndsWithRemainder` | public/zjs.js:934 | with more than 3 failures the message ends with "... and n-3 more" |
| `Bulk.SummaryShowsFirstThree` | public/zjs.js:930-934 | with more than 3 failures the message is the head, "First 3 errors:", the lines of the first three failures and "... and n-3 more" |
| `Bulk.Summary` | public/zjs.js:920-935 | the summary of the failures: the count and format name, the label, the first (up to) 3 lines and the remainder |
| `Bulk.SummaryListsFirstFailures` | public/zjs.js:931-933 | the lines shown for the first 3 failures are a prefix of all the lines |
| `Bulk.BuildSummary` | public/zjs.js:920-935 | the `errorMsg +=` loop builds exactly the summary |
| `Bulk.ValidateBulkBarcodeInput` | public/zjs.js:876-943 | the imperative check returns exactly `BulkBarcodeCheck`'s outcome |
| `Bulk.BulkBarcodeCheck` | public/zjs.js:876-943 | `validateBulkBarcodeInput`'s outcome; the summary names the format with `getFormatName` as written |
| `Bulk.BulkBarcodeOutcome` | public/zjs.js:876-943 | "Please enter at least one item" comes exactly for blank text; more than 100 items are refused; the input passes exactly when every item passes the format check; otherwise the summary is given |
| `Bulk.BulkQrCheck` | public/zjs.js:828-874 | `validateBulkQRInput`'s outcome: blank text, over 100 items, empty items, over-long items, in that order |
| `Bulk.BulkQrOutcome` | public/zjs.js:828-874 | the empty-item message can never be given; the blank-text message comes exactly for blank text; more than 100 items are refused; "too long" comes exactly when some item has over 500 characters; the input passes exactly when there are 1..100 items of at most 500 characters |
| `Bulk.GenerationItems` | public/zjs.js:1726-1729 | generation uses the first min(n, 50) items, in order |
| `Bulk.GenerationItemsIdempotent` | public/zjs.js:1726-1729 | cutting twice is cutting once, and at most 50 items are left untouched |
| `Bulk.GenerateBulk` | public/zjs.js:1744-1789 | the generation loop records one entry per kept item, with its 0-based id and its text |
| `Bulk.ItemLabelShape` | public/zjs.js:1759 | a label has at most 33 characters and opens with the item's first (up to) 30; it is the item itself exactly when the item has at most 30 characters or is 33 characters ending in "..."; labelling a label changes nothing |
| `QrInput.Displayed` | public/zjs.js:653-689 | the notice shown in a slot is the last one written there, and nothing is shown when none was |
| `QrInput.IndexOf` | public/zjs.js:700-703 | finds the first occurrence of a character, or reports that it does not occur |
| `QrInput.EmailPredicateIsPattern` | public/zjs.js:700-703 | `isValidEmail` holds exactly when the text matches `^[^\s@]+@[^\s@]+\.[^\s@]+$` |
| `QrInput.EmailPredicateGivesPattern` | public/zjs.js:700-703 | an accepted address has a match of the regular expression |
| `QrInput.PatternGivesEmailPredicate` | public/zjs.js:700-703 | every match of the regular expression is accepted |
| `QrInput.IsValidEmail` | public/zjs.js:700-703 | `isValidEmail`, written out: no white space, exactly one `@` after at least one character, and after it a `.` with at least one character on each side; `EmailPredicateIsPattern` ties it to the regular expression |
| `QrInput.IsValidPhone` | public/zjs.js:687 | `/^[\d\s\-\+\(\)]+$/`: at least one character, each a digit, white space or one of `-+()` |
| `QrInput.ValidateQrInput` | public/zjs.js:625-698 | the form is valid exactly when no field is named, no notice is written and no input is marked |
| `QrInput.TextCheck` | public/zjs.js:640-648 | the text branch is valid exactly when it names no field, writes no notice and marks no input |
| `QrInput.WifiCheck` | public/zjs.js:650-671 | the same for the Wi-Fi branch |
| `QrInput.ContactCheck` | public/zjs.js:673-694 | the same for the contact branch |
| `QrInput.TextRule` | public/zjs.js:640-648 | a text code is valid exactly when its trimmed content is non-empty, and otherwise names the content field |
| `QrInput.WifiRule` | public/zjs.js:650-671 | a Wi-Fi code is valid exactly when the trimmed SSID has 1 to 32 characters and the untrimmed password at most 63 |
| `QrInput.WifiFirstFailingField` | public/zjs.js:652-669 | the named field is the SSID when it failed, and the password otherwise |
| `QrInput.WifiPasswordMessageWins` | public/zjs.js:665-670 | a too-long password's message is shown in the SSID's slot, replacing any SSID message |
| `QrInput.ContactRule` | public/zjs.js:673-694 | a contact code is valid exactly when the trimmed email matches the pattern and a non-blank phone uses only digits, white space and `-+()` |
| `QrInput.ContactFirstFailingField` | public/zjs.js:675-692 | the named field is the email when it failed, and the phone otherwise |
| `QrInput.OtherTypesAccepted` | public/zjs.js:639-695 | any other code type is valid with nothing reported |
| `QrInput.NoActiveButtonChecksText` | public/zjs.js:626-627 | with no active type button the type is 'text', so the text rules apply |
| `Payload.WifiPayload` | public/zjs.js:1445-1447 | a Wi-Fi payload is produced exactly when the trimmed SSID is non-empty |
| `Payload.WifiPayloadFields` | public/zjs.js:1446 | the payload is `WIFI:S:ssid;T:enc;P:pw;H:hidden;;`; splitting it on `;` gives those fields back when none holds `;` |
| `Payload.CardLines` | public/zjs.js:1458-1469 | a vCard starts with BEGIN:VCARD and VERSION:3.0 and ends with END:VCARD |
| `Payload.BuildVCard` | public/zjs.js:1458-1469 | the `vcard +=` steps build exactly the vCard's lines joined by line feeds |
| `Payload.ZxingNameLinesIff` | zxing.js:1176 | in zxing.js the FN and N lines appear exactly when the first or the last name is non-empty |
| `Payload.ZjsNameLinesAlways` | public/zjs.js:1459-1463 | in public/zjs.js both name elements exist, so the FN and N lines always come first |
| `Payload.OptionalPropertiesIff` | public/zjs.js:1464-1467 | TEL, EMAIL, ORG and URL appear exactly when their trimmed field is non-empty |
| `Payload.VCardLinesRoundTrip` | public/zjs.js:1458-1469 | splitting the vCard on line feeds gives back its lines when no field holds a line feed |
| `Payload.VCardFrame` | public/zjs.js:1458-1469 | the vCard text starts with `BEGIN:VCARD\nVERSION:3.0\n` and ends with `END:VCARD` |
| `Payload.ValidatedFormHasContent` | public/zjs.js:1431-1471 | after validation passes, the content is non-empty exactly for the text, Wi-Fi and contact types |
| `Payload.QrContent` | public/zjs.js:1431-1471 | the string `generateQR` encodes for each type: the trimmed text, the Wi-Fi string or the vCard, and nothing otherwise |
| `Csv.EscapeQuotes` | public/zjs.js:2478 | escaping never shortens the data |
| `Csv.QuoteField` | public/zjs.js:2478 | the data field starts and ends with a double quote |
| `Csv.QrRecord` | public/zjs.js:2478 | one `qr_data.csv` record: the 1-based index, the quoted datum and the time stamp, comma-separated |
| `Csv.BarcodeRecord` | public/zjs.js:2574 | one `barcode_data.csv` record: the index, the quoted datum and the four settings |
| `Csv.UnescapeEscape` | public/zjs.js:2478 | un-doubling the quotes of an escaped body gives back the data |
| `Csv.UnquoteQuote` | public/zjs.js:2478 | reading a written data field by rule 7 of RFC 4180 gives back the data exactly |
| `Csv.EscapeQuotesAddsOnlyQuotes` | public/zjs.js:2478 | escaping adds no character other than quotes |
| `Csv.QrCsvLines` | public/zjs.js:2476-2478 | `qr_data.csv` has its header line, one record per item, and a final line feed |
| `Csv.BarcodeCsvLines` | public/zjs.js:2572-2574 | `barcode_data.csv` has its header line, one record per item, and a final line feed |
| `Csv.AppendRecords` | public/zjs.js:2476-2478 | the `+=` loop writes the header and each record, each followed by a line feed |
| `Csv.BuildQrCsv` | public/zjs.js:2476-2478 | the QR CSV loop builds exactly those lines |
| `Csv.BuildBarcodeCsv` | public/zjs.js:2572-2574 | the barcode CSV loop builds exactly those lines |
| `Csv.QrCsvLinesRoundTrip` | public/zjs.js:2476-2478 | when no datum or time stamp holds a line feed, the file splits back into its lines |
| `Csv.QrRecordFields` | public/zjs.js:2478 | record k+1 holds the number k+1, the quoted datum and the time stamp, and the datum reads back |
| `Csv.BarcodeRecordFields` | public/zjs.js:2574 | record k+1 holds the number k+1, the quoted datum and the four settings, and the datum reads back |
| `Scanner.DuplicateIff` | public/zjs.js:1289 | a scan passes the gate exactly when its text differs from the last code or the 3000 ms cool-down is over |
| `Scanner.IsRecentDuplicate` | public/zjs.js:1289 | the rejecting condition: the same text as the last code, less than 3000 ms later |
| `Scanner.WithNewest` | public/zjs.js:1695-1700 | the new entry comes first, the earlier entries follow in order, and the last one is dropped past 20 |
| `Scanner.WithNewestKeepsCap` | public/zjs.js:1695-1700 | a list holding at most 20 entries keeps at most 20, and the remaining old entries are a prefix of the old list |
| `Scanner.HistoryIsNewestFirst` | public/zjs.js:1695-1700 | after any run of scans the list holds the last min(n, 20) of them, newest first |
| `Scanner.NewestOnReversedTail` | public/zjs.js:1695-1700 | one more scan keeps the list equal to the newest-first view of the last min(n, 20) scans |
| `Scanner.ResultList.Add` | public/zjs.js:1695-1700 | inserting at the front and removing the last entry past 20 changes the list to `WithNewest` |
| `Scanner.CameraScanner.ProcessCameraScan` | public/zjs.js:1286-1309 | a recent duplicate is dropped and nothing changes; any other scan sets the last code and time and adds a "Camera" entry |
| `Scanner.CameraScanner.constructor` | public/zjs.js:36-37 | the scanner starts with no last code and time 0 |

## Left out

- Camera access, ZXing decoding, rendering with QRCode, JsBarcode and bwipjs, ZIP, Excel export, clipboard and notifications are foreign libraries or browser APIs. Only the strings and sequences fed into them are modelled.
- DOM lookups are left out. Field values are parameters, and a missing element is not modelled: `public/zjs.js` handles one with a default value, and the model takes every element as present.
- `getScanTypeAndIcon`, `playScanSound`, the time-outs around scanning and the "Scanned …" notice are left out. The format and kind of a scan entry are parameters of `ProcessCameraScan`.
- The clock is a parameter: `now` in `ProcessCameraScan`, and one rendered time stamp per CSV record.
- Floating-point settings are left out: `formatFileSize`, sizes times scale factors, and the rendering of size, height and colour. The barcode CSV takes them as already-rendered strings.
- URL scanning through `new URL` is left out; it is a foreign parser.
- Rendering errors inside the generation loop's `try`/`catch`, which skip a push, are not modelled. `GenerateBulk` assumes every code renders.
- `trim`, `\s` and lengths use one fixed ECMAScript white-space set over code points. JavaScript lengths count UTF-16 units, so characters outside the Basic Multilingual Plane count once here and twice in the source.
- `toUpperCase` is modelled for ASCII letters only.
- Object-prototype keys such as `constructor` are not looked up in the rule table. A format is either one of the twelve keys or an unrelated string.
- Input marks that outlive one call are not modelled. `validateQRInput` clears the marks on `qr-content`, `wifi-ssid` and `contact-email` at the start of each call, but never those on `wifi-password` and `contact-phone`, so such a mark from an earlier refusal stays on screen; `QrInput.ValidateQrInput` reports only the marks set by the call itself.
- The Wi-Fi payload does not escape `;`, `,` or `\` in the SSID or password, and neither does the model.
- `Text.NatToString`: states only that the rendering is never empty; `Text.NatToStringRoundTrip` states what it means.

## Findings

| source | as written | input that shows it | evidently intended | confidence | as-written member | corrected member |
|---|---|---|---|---|---|---|
| public/zjs.js:171-187 | `getFormatName` upper-cases the format and compares it with the table keys unchanged, so the mixed-case keys `CODE39Extended`, `Pharmacode` and `Codabar` never match and fall back to the format itself, which differs from the display name only for `CODE39Extended` | `getFormatName('CODE39Extended')` gives `CODE39Extended` instead of its display name | every table key gets its display name | not executed | `Symbology.FormatNameAsWrittenOfKey` | `Symbology.FormatNameOfKey` |

The members that build messages (`Validation.ValidateBarcodeInput`, `Bulk.BulkBarcodeCheck`,
`Bulk.ValidateBulkBarcodeInput`) follow the code and name the format with
`Symbology.FormatNameAsWritten`; `Symbology.FormatName` is the corrected name.
