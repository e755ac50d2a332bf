/**
 * The CSV files of the bulk download: a header line, then one record per
 * generated item, the data field quoted with every inner double quote doubled
 * (section 2, rule 7 of RFC 4180).
 */
module Csv {
  import opened Wrappers
  import opened Text
  import opened Bulk

  /** `data.replace(/"/g, '""')`. */
  function EscapeQuotes(s: string): (r: string)
    ensures |r| >= |s|
  {
    if |s| == 0 then ""
    else (if s[0] == '"' then "\"\"" else [s[0]]) + EscapeQuotes(s[1..])
  }

  /** The data field as written: `"${escaped}"`. */
  function QuoteField(s: string): (r: string)
    ensures |r| >= 2 && r[0] == '"' && r[|r| - 1] == '"'
  {
    "\"" + EscapeQuotes(s) + "\""
  }

  /** Reads the body of a quoted field: a doubled quote stands for one quote, and a single
      quote is not allowed. */
  function Unescape(b: string): (r: Option<string>)
  {
    if |b| == 0 then Some("")
    else if b[0] == '"' then
      if |b| >= 2 && b[1] == '"' then
        match Unescape(b[2..])
        case Some(rest) => Some("\"" + rest)
        case None => None
      else None
    else
      match Unescape(b[1..])
      case Some(rest) => Some([b[0]] + rest)
      case None => None
  }

  /** Reads a quoted field back, as a reader following rule 7 does. */
  function UnquoteField(f: string): Option<string> {
    if |f| >= 2 && f[0] == '"' && f[|f| - 1] == '"' then Unescape(f[1..|f| - 1]) else None
  }

  lemma {:induction false} UnescapeEscape(s: string)
    ensures Unescape(EscapeQuotes(s)) == Some(s)
  {
    if |s| > 0 {
      UnescapeEscape(s[1..]);
      var e := EscapeQuotes(s);
      if s[0] == '"' {
        assert e[2..] == EscapeQuotes(s[1..]);
        assert s == "\"" + s[1..];
      } else {
        assert e[1..] == EscapeQuotes(s[1..]);
        assert s == [s[0]] + s[1..];
      }
    }
  }

  /** Reading a written data field gives back the data exactly. */
  lemma UnquoteQuote(s: string)
    ensures UnquoteField(QuoteField(s)) == Some(s)
  {
    var f := QuoteField(s);
    assert f[1..|f| - 1] == EscapeQuotes(s);
    UnescapeEscape(s);
  }

  /** Escaping adds only quotes, so a character other than a quote stays absent. */
  lemma {:induction false} EscapeQuotesAddsOnlyQuotes(s: string, c: char)
    requires c != '"' && c !in s
    ensures c !in EscapeQuotes(s)
  {
    if |s| > 0 {
      EscapeQuotesAddsOnlyQuotes(s[1..], c);
    }
  }

  const QrHeader := "ID,Data,Timestamp"
  const BarcodeHeader := "ID,Data,Format,Size,Height,Color"

  /** One record of `qr_data.csv`: the 1-based position, the quoted data and the time stamp. */
  function QrRecord(index: nat, item: BulkItem, timestamp: string): string {
    NatToString(index + 1) + "," + QuoteField(item.data) + "," + timestamp
  }

  /** The barcode settings written beside each datum, already rendered as text. */
  datatype BarcodeSettings = BarcodeSettings(format: string, size: string, height: string, color: string)

  /** One record of `barcode_data.csv`. */
  function BarcodeRecord(index: nat, item: BulkItem, s: BarcodeSettings): string {
    NatToString(index + 1) + "," + QuoteField(item.data) + "," + s.format + "," + s.size + "," + s.height + "," + s.color
  }

  /** The lines of `qr_data.csv`: the header, one record per item, and the empty piece after
      the final line feed. */
  function QrCsvLines(items: seq<BulkItem>, timestamps: seq<string>): (r: seq<string>)
    requires |timestamps| == |items|
    ensures |r| == |items| + 2 && r[0] == QrHeader && r[|r| - 1] == ""
  {
    [QrHeader] + seq(|items|, k requires 0 <= k < |items| => QrRecord(k, items[k], timestamps[k])) + [""]
  }

  /** The lines of `barcode_data.csv`. */
  function BarcodeCsvLines(items: seq<BulkItem>, settings: seq<BarcodeSettings>): (r: seq<string>)
    requires |settings| == |items|
    ensures |r| == |items| + 2 && r[0] == BarcodeHeader && r[|r| - 1] == ""
  {
    [BarcodeHeader] + seq(|items|, k requires 0 <= k < |items| => BarcodeRecord(k, items[k], settings[k])) + [""]
  }

  /** The content built by `csvContent += record + "\n"` over `records`. */
  method AppendRecords(header: string, records: seq<string>) returns (csv: string)
    ensures csv == Join([header] + records + [""], '\n')
  {
    csv := header + "\n";
    assert Join([header], '\n') == header;
    for i := 0 to |records|
      invariant csv == Join([header] + records[..i], '\n') + "\n"
    {
      assert [header] + records[..i + 1] == ([header] + records[..i]) + [records[i]];
      JoinSnoc([header] + records[..i], records[i], '\n');
      csv := csv + records[i] + "\n";
    }
    assert [header] + records == [header] + records[..|records|];
    JoinSnoc([header] + records, "", '\n');
  }

  /** `downloadAllQR`'s CSV: `timestamps[k]` is the time at which record `k` is written. */
  method BuildQrCsv(items: seq<BulkItem>, timestamps: seq<string>) returns (csv: string)
    requires |timestamps| == |items|
    ensures csv == Join(QrCsvLines(items, timestamps), '\n')
  {
    var records := seq(|items|, k requires 0 <= k < |items| => QrRecord(k, items[k], timestamps[k]));
    csv := AppendRecords(QrHeader, records);
  }

  /** `downloadAllBarcodes`'s CSV. */
  method BuildBarcodeCsv(items: seq<BulkItem>, settings: seq<BarcodeSettings>) returns (csv: string)
    requires |settings| == |items|
    ensures csv == Join(BarcodeCsvLines(items, settings), '\n')
  {
    var records := seq(|items|, k requires 0 <= k < |items| => BarcodeRecord(k, items[k], settings[k]));
    csv := AppendRecords(BarcodeHeader, records);
  }

  /** When no datum or time stamp holds a line feed, the file splits back into its header,
      one line per item, and a final empty piece. */
  lemma QrCsvLinesRoundTrip(items: seq<BulkItem>, timestamps: seq<string>)
    requires |timestamps| == |items|
    requires forall k :: 0 <= k < |items| ==> '\n' !in items[k].data && '\n' !in timestamps[k]
    ensures Split(Join(QrCsvLines(items, timestamps), '\n'), '\n') == QrCsvLines(items, timestamps)
  {
    var lines := QrCsvLines(items, timestamps);
    forall k | 0 <= k < |lines| ensures '\n' !in lines[k] {
      if 0 < k < |lines| - 1 {
        var i := k - 1;
        EscapeQuotesAddsOnlyQuotes(items[i].data, '\n');
        NatToStringRoundTrip(i + 1);
        DigitsHaveNoNewLine(NatToString(i + 1));
        assert '\n' !in QuoteField(items[i].data) by {
          assert QuoteField(items[i].data) == "\"" + EscapeQuotes(items[i].data) + "\"";
        }
        NoNewLineInRecord(NatToString(i + 1), QuoteField(items[i].data), timestamps[i]);
      }
    }
    SplitJoin(lines, '\n');
  }

  lemma DigitsHaveNoNewLine(s: string)
    requires AllDigits(s)
    ensures '\n' !in s
  {
  }

  lemma NoNewLineInRecord(a: string, b: string, c: string)
    requires '\n' !in a && '\n' !in b && '\n' !in c
    ensures '\n' !in a + "," + b + "," + c
  {
  }

  /** The record on line `k + 1` starts with the number `k + 1` and holds the quoted datum,
      which reads back to the item's data. */
  lemma QrRecordFields(items: seq<BulkItem>, timestamps: seq<string>, k: nat)
    requires |timestamps| == |items| && k < |items|
    ensures var line := QrCsvLines(items, timestamps)[k + 1];
            var n := NatToString(k + 1);
            var q := QuoteField(items[k].data);
            line == n + "," + q + "," + timestamps[k] &&
            AllDigits(n) && DecimalValue(n) == k + 1 && UnquoteField(q) == Some(items[k].data)
  {
    NatToStringRoundTrip(k + 1);
    UnquoteQuote(items[k].data);
  }

  /** The same for `barcode_data.csv`: the number, the quoted datum and the four settings. */
  lemma BarcodeRecordFields(items: seq<BulkItem>, settings: seq<BarcodeSettings>, k: nat)
    requires |settings| == |items| && k < |items|
    ensures var line := BarcodeCsvLines(items, settings)[k + 1];
            var n := NatToString(k + 1);
            var q := QuoteField(items[k].data);
            var s := settings[k];
            line == n + "," + q + "," + s.format + "," + s.size + "," + s.height + "," + s.color &&
            AllDigits(n) && DecimalValue(n) == k + 1 && UnquoteField(q) == Some(items[k].data)
  {
    NatToStringRoundTrip(k + 1);
    UnquoteQuote(items[k].data);
  }
}
