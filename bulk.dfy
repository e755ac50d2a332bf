/**
 * The line pipeline of `validateBulkBarcodeInput` and `validateBulkQRInput`: the
 * text is trimmed, split on line feeds, blank lines are dropped and the rest
 * trimmed; the count caps apply, failures are collected in order with 1-based
 * indices, and the summary message is built. Generation then keeps the first
 * 50 items.
 */
module Bulk {
  import opened Wrappers
  import opened Text
  import opened Symbology
  import opened Validation

  /** `.filter(line => line.trim() !== '').map(line => line.trim())`. */
  function CleanLines(lines: seq<string>): (r: seq<string>)
    ensures |r| <= |lines|
    ensures forall k :: 0 <= k < |r| ==> r[k] != [] && IsTrimmed(r[k])
  {
    if |lines| == 0 then []
    else
      var rest := CleanLines(lines[..|lines| - 1]);
      var last := Trim(lines[|lines| - 1]);
      TrimIsCore(lines[|lines| - 1]);
      if last != [] then rest + [last] else rest
  }

  /** The filter works line by line: cleaning a concatenation cleans each part. */
  lemma {:induction false} CleanLinesAppend(a: seq<string>, b: seq<string>)
    ensures CleanLines(a + b) == CleanLines(a) + CleanLines(b)
  {
    if |b| > 0 {
      CleanLinesAppend(a, b[..|b| - 1]);
      assert (a + b)[..|a + b| - 1] == a + b[..|b| - 1];
    } else {
      assert a + b == a;
    }
  }

  /** One line keeps its trimmed form exactly when that is not blank. */
  lemma CleanLinesOne(line: string)
    ensures CleanLines([line]) == if Trim(line) == [] then [] else [Trim(line)]
  {
    assert [line][..0] == [];
  }

  /** Lines that are already trimmed and non-blank pass through unchanged. */
  lemma {:induction false} CleanLinesKeeps(xs: seq<string>)
    requires forall k :: 0 <= k < |xs| ==> xs[k] != [] && IsTrimmed(xs[k])
    ensures CleanLines(xs) == xs
  {
    if |xs| > 0 {
      CleanLinesKeeps(xs[..|xs| - 1]);
      TrimUntouched(xs[|xs| - 1]);
      assert xs[..|xs| - 1] + [xs[|xs| - 1]] == xs;
    }
  }

  /** The items of a bulk text area. */
  function Items(text: string): (r: seq<string>)
    ensures forall k :: 0 <= k < |r| ==> r[k] != [] && IsTrimmed(r[k])
  {
    CleanLines(Split(Trim(text), '\n'))
  }

  /** A join starts with the first piece, so its first character is that piece's. */
  lemma {:induction false} JoinHead(xs: seq<string>, sep: char)
    requires |xs| >= 1 && xs[0] != []
    ensures |Join(xs, sep)| >= 1 && Join(xs, sep)[0] == xs[0][0]
  {
  }

  /** A join ends with the last piece, so its last character is that piece's. */
  lemma {:induction false} JoinLast(xs: seq<string>, sep: char)
    requires |xs| >= 1 && xs[|xs| - 1] != []
    ensures |Join(xs, sep)| >= 1 && Join(xs, sep)[|Join(xs, sep)| - 1] == xs[|xs| - 1][|xs[|xs| - 1]| - 1]
  {
    if |xs| > 1 {
      JoinLast(xs[1..], sep);
    }
  }

  /** Writing items one per line and reading the text area back gives the same items. */
  lemma ItemsOfJoin(xs: seq<string>)
    requires |xs| >= 1
    requires forall k :: 0 <= k < |xs| ==> xs[k] != [] && IsTrimmed(xs[k]) && '\n' !in xs[k]
    ensures Items(Join(xs, '\n')) == xs
  {
    var s := Join(xs, '\n');
    JoinHead(xs, '\n');
    JoinLast(xs, '\n');
    TrimUntouched(s);
    SplitJoin(xs, '\n');
    CleanLinesKeeps(xs);
  }

  /** A text whose trim is not blank has at least one item, so the source's second
      "no items" branch cannot be taken. */
  lemma ItemsOfNonBlank(text: string)
    requires Trim(text) != []
    ensures |Items(text)| >= 1
  {
    var t := Trim(text);
    TrimIsCore(text);
    var lines := Split(t, '\n');
    assert lines[0] != [] && lines[0][0] == t[0];
    TrimEmptyIff(lines[0]);
    CleanLinesAppend([lines[0]], lines[1..]);
    assert [lines[0]] + lines[1..] == lines;
    CleanLinesOne(lines[0]);
  }

  /** `{ index, value, error }`: the 1-based position among the items, the item, and the
      message of its failed check. */
  datatype InvalidItem = InvalidItem(index: nat, value: string, error: string)

  /** The message an item line shows for a failed verdict: `${validation.error}`, which renders
      a `null` error as "null". */
  function ErrorMessage(v: Verdict): string {
    match v.error
    case Some(e) => ErrorText(e)
    case None => "null"
  }

  /** The per-item check of the bulk barcode form. */
  function FormatCheck(ed: Edition, format: string): string -> Verdict {
    item => ValidateBarcodeFormat(ed, item, format)
  }

  /** The failures among `items` under `check`, in order: each with its 1-based index, its
      value and its message; every failing item is listed, and none is listed when all pass. */
  function InvalidItems(check: string -> Verdict, items: seq<string>): (r: seq<InvalidItem>)
    ensures |r| <= |items|
    ensures forall j :: 0 <= j < |r| ==>
              1 <= r[j].index <= |items| && r[j].value == items[r[j].index - 1] &&
              !check(r[j].value).valid && r[j].error == ErrorMessage(check(r[j].value))
    ensures forall j, j' :: 0 <= j < j' < |r| ==> r[j].index < r[j'].index
  {
    if |items| == 0 then []
    else
      var n := |items|;
      var rest := InvalidItems(check, items[..n - 1]);
      var v := check(items[n - 1]);
      if !v.valid then rest + [InvalidItem(n, items[n - 1], ErrorMessage(v))] else rest
  }

  /** Every failing item is listed, under its own index. */
  lemma {:induction false} InvalidItemsComplete(check: string -> Verdict, items: seq<string>, k: nat)
    requires k < |items| && !check(items[k]).valid
    ensures exists j :: 0 <= j < |InvalidItems(check, items)| && InvalidItems(check, items)[j].index == k + 1
  {
    var n := |items|;
    var rest := InvalidItems(check, items[..n - 1]);
    if k == n - 1 {
      assert InvalidItems(check, items)[|rest|].index == k + 1;
    } else {
      InvalidItemsComplete(check, items[..n - 1], k);
      var j :| 0 <= j < |rest| && rest[j].index == k + 1;
      assert InvalidItems(check, items)[j] == rest[j];
    }
  }

  /** Nothing is listed exactly when every item passes. */
  lemma InvalidItemsEmptyIff(check: string -> Verdict, items: seq<string>)
    ensures |InvalidItems(check, items)| == 0 <==> forall k :: 0 <= k < |items| ==> check(items[k]).valid
  {
    if |InvalidItems(check, items)| == 0 {
      forall k | 0 <= k < |items| ensures check(items[k]).valid {
        if !check(items[k]).valid {
          InvalidItemsComplete(check, items, k);
        }
      }
    }
  }

  /** The `forEach` that pushes each failing item onto `invalidItems`. */
  method CollectInvalidItems(ed: Edition, items: seq<string>, format: string) returns (invalid: seq<InvalidItem>)
    ensures invalid == InvalidItems(FormatCheck(ed, format), items)
  {
    invalid := [];
    for i := 0 to |items|
      invariant invalid == InvalidItems(FormatCheck(ed, format), items[..i])
    {
      assert items[..i + 1][..i] == items[..i];
      var v := ValidateBarcodeFormat(ed, items[i], format);
      assert v == FormatCheck(ed, format)(items[i]);
      if !v.valid {
        invalid := invalid + [InvalidItem(i + 1, items[i], ErrorMessage(v))];
      }
    }
    assert items[..|items|] == items;
  }

  /** In zxing.js a failed check digit still answers `valid: true`, so no bulk failure is a
      check-digit failure. */
  lemma ZxingBulkSkipsCheckDigit(items: seq<string>, format: string, j: nat)
    requires j < |InvalidItems(FormatCheck(Zxing, format), items)|
    ensures var v := ValidateBarcodeFormat(Zxing, InvalidItems(FormatCheck(Zxing, format), items)[j].value, format);
            !v.valid && !v.error.value.BadCheckDigit?
  {
  }

  /** `<br>Line ${index}: "${value}" - ${error}`. */
  function ItemLine(item: InvalidItem): string {
    "<br>Line " + NatToString(item.index) + ": \"" + item.value + "\" - " + item.error
  }

  /** The line of each listed failure, in order. */
  function RenderedLines(items: seq<InvalidItem>): (r: seq<string>)
    ensures |r| == |items|
  {
    seq(|items|, k requires 0 <= k < |items| => ItemLine(items[k]))
  }

  /** Strings written one after the other, as `+=` in a loop does. */
  function Concat(parts: seq<string>): string {
    if |parts| == 0 then "" else Concat(parts[..|parts| - 1]) + parts[|parts| - 1]
  }

  /** Consecutive runs of lines concatenate. */
  lemma {:induction false} ConcatAppend(a: seq<string>, b: seq<string>)
    ensures Concat(a + b) == Concat(a) + Concat(b)
  {
    if |b| > 0 {
      ConcatAppend(a, b[..|b| - 1]);
      assert (a + b)[..|a + b| - 1] == a + b[..|b| - 1];
    } else {
      assert a + b == a;
    }
  }

  /** How many failures the message spells out: all of them up to three, otherwise three. */
  function ShownCount(n: nat): (m: nat)
    ensures m <= n && m <= 3
    ensures n <= 3 ==> m == n
    ensures n > 3 ==> m == 3
  {
    if n <= 3 then n else 3
  }

  /** `${n} item(s) have invalid format for ${formatName}`. */
  function SummaryHead(formatName: string, n: nat): string {
    NatToString(n) + " item(s) have invalid format for " + formatName
  }

  /** The label before the listed failures. */
  function SummaryLabel(n: nat): string {
    if n <= 3 then "<br>Invalid items:" else "<br>First 3 errors:"
  }

  /** `<br>... and ${n - 3} more` past three failures, nothing otherwise. */
  function SummaryTail(n: nat): string {
    if n <= 3 then "" else "<br>... and " + NatToString(n - 3) + " more"
  }

  /** The summary of `n` failures, as the source builds it. */
  function Summary(formatName: string, invalid: seq<InvalidItem>): string
    requires |invalid| >= 1
  {
    var n := |invalid|;
    SummaryHead(formatName, n) + SummaryLabel(n) + Concat(RenderedLines(invalid[..ShownCount(n)])) + SummaryTail(n)
  }

  /** The message opens with the failure count and the format name. */
  lemma SummaryStartsWithCount(formatName: string, invalid: seq<InvalidItem>)
    requires |invalid| >= 1
    ensures var s := Summary(formatName, invalid); var head := NatToString(|invalid|) + " item(s) have invalid format for " + formatName;
            |head| <= |s| && s[..|head|] == head
  {
    var n := |invalid|;
    var rest := SummaryLabel(n) + Concat(RenderedLines(invalid[..ShownCount(n)])) + SummaryTail(n);
    assert Summary(formatName, invalid) == SummaryHead(formatName, n) + rest;
    PrefixAndSuffix(SummaryHead(formatName, n), rest);
  }

  /** With at most three failures the message ends with every failure's line. */
  lemma SummaryEndsWithAllLines(formatName: string, invalid: seq<InvalidItem>)
    requires 1 <= |invalid| <= 3
    ensures var s := Summary(formatName, invalid); var all := Concat(RenderedLines(invalid));
            |all| <= |s| && s[|s| - |all|..] == all
  {
    var n := |invalid|;
    assert invalid[..n] == invalid;
    var front := SummaryHead(formatName, n) + SummaryLabel(n);
    assert SummaryTail(n) == "";
    assert Summary(formatName, invalid) == front + Concat(RenderedLines(invalid));
    PrefixAndSuffix(front, Concat(RenderedLines(invalid)));
  }

  /** With more than three failures the message ends with the number it did not list. */
  lemma SummaryEndsWithRemainder(formatName: string, invalid: seq<InvalidItem>)
    requires |invalid| > 3
    ensures var s := Summary(formatName, invalid); var tail := "<br>... and " + NatToString(|invalid| - ShownCount(|invalid|)) + " more";
            |tail| <= |s| && s[|s| - |tail|..] == tail
  {
    var n := |invalid|;
    var front := SummaryHead(formatName, n) + SummaryLabel(n) + Concat(RenderedLines(invalid[..3]));
    assert Summary(formatName, invalid) == front + SummaryTail(n);
    PrefixAndSuffix(front, SummaryTail(n));
  }

  /** With more than three failures, the head and label are followed by exactly the lines
      of the first three failures, and then the remainder. */
  lemma SummaryShowsFirstThree(formatName: string, invalid: seq<InvalidItem>)
    requires |invalid| > 3
    ensures Summary(formatName, invalid) ==
            SummaryHead(formatName, |invalid|) + "<br>First 3 errors:" + Concat(RenderedLines(invalid)[..3]) +
            ("<br>... and " + NatToString(|invalid| - 3) + " more")
  {
    SummaryListsFirstFailures(invalid, 3);
  }

  /** The lines shown for the first `m` failures are those failures' own lines, and they are
      the front of the text listing every failure. */
  lemma SummaryListsFirstFailures(invalid: seq<InvalidItem>, m: nat)
    requires m <= |invalid|
    ensures RenderedLines(invalid[..m]) == RenderedLines(invalid)[..m]
    ensures Concat(RenderedLines(invalid)) == Concat(RenderedLines(invalid[..m])) + Concat(RenderedLines(invalid)[m..])
  {
    var lines := RenderedLines(invalid);
    assert lines[..m] + lines[m..] == lines;
    ConcatAppend(lines[..m], lines[m..]);
  }

  /** One more part adds itself at the end. */
  lemma ConcatStep(parts: seq<string>, i: nat)
    requires i < |parts|
    ensures Concat(parts[..i + 1]) == Concat(parts[..i]) + parts[i]
  {
    assert parts[..i + 1][..i] == parts[..i];
  }

  /** `forEach(item => errorMsg += line)` over the first `shown` failures. */
  method AppendItemLines(start: string, invalid: seq<InvalidItem>, shown: nat) returns (msg: string)
    requires shown <= |invalid|
    ensures msg == start + Concat(RenderedLines(invalid[..shown]))
  {
    msg := start;
    ghost var lines := RenderedLines(invalid[..shown]);
    for i := 0 to shown
      invariant msg == start + Concat(lines[..i])
    {
      ConcatStep(lines, i);
      assert lines[i] == ItemLine(invalid[i]);
      msg := msg + ItemLine(invalid[i]);
    }
    assert lines[..shown] == lines;
  }

  /** `errorMsg` built by `+=`: the head, the label, one line per shown failure, the tail. */
  method BuildSummary(formatName: string, invalid: seq<InvalidItem>) returns (msg: string)
    requires |invalid| >= 1
    ensures msg == Summary(formatName, invalid)
  {
    var n := |invalid|;
    msg := NatToString(n) + " item(s) have invalid format for " + formatName;
    if n <= 3 {
      msg := msg + "<br>Invalid items:";
    } else {
      msg := msg + "<br>First 3 errors:";
    }
    assert msg == SummaryHead(formatName, n) + SummaryLabel(n);
    msg := AppendItemLines(msg, invalid, ShownCount(n));
    if n > 3 {
      msg := msg + "<br>... and " + NatToString(n - 3) + " more";
    }
  }

  /** The refusals of the two bulk forms; `BulkErrorText` renders them. */
  datatype BulkError =
    | NoItems
    | TooManyItems
    | EmptyItems
    | LongItems
    | InvalidFormats(summary: string)

  function BulkErrorText(e: BulkError): string {
    match e
    case NoItems => "Please enter at least one item (one per line)"
    case TooManyItems => "Maximum 100 items allowed for bulk generation"
    case EmptyItems => "Remove empty lines from the list"
    case LongItems => "Some items are too long (max 500 characters)"
    case InvalidFormats(summary) => summary
  }

  /** `validateBulkBarcodeInput`: `None` when accepted, otherwise why not. */
  function BulkBarcodeCheck(ed: Edition, text: string, format: string): (r: Option<BulkError>)
  {
    if Trim(text) == [] then Some(NoItems)
    else
      var items := Items(text);
      if |items| == 0 then Some(NoItems)
      else if |items| > 100 then Some(TooManyItems)
      else
        var invalid := InvalidItems(FormatCheck(ed, format), items);
        if |invalid| > 0 then Some(InvalidFormats(Summary(FormatNameAsWritten(format), invalid))) else None
  }

  /** The same check, with the failures collected and the message appended step by step. */
  method ValidateBulkBarcodeInput(ed: Edition, text: string, format: string) returns (r: Option<BulkError>)
    ensures r == BulkBarcodeCheck(ed, text, format)
  {
    var t := Trim(text);
    if t == [] {
      return Some(NoItems);
    }
    var items := CleanLines(Split(t, '\n'));
    if |items| == 0 {
      return Some(NoItems);
    }
    if |items| > 100 {
      return Some(TooManyItems);
    }
    var invalid := CollectInvalidItems(ed, items, format);
    if |invalid| > 0 {
      var msg := BuildSummary(FormatNameAsWritten(format), invalid);
      return Some(InvalidFormats(msg));
    }
    return None;
  }

  /** The bulk barcode check: "no items" exactly for blank text (the second "no items" branch
      is never taken), more than 100 items is refused, and otherwise the text is accepted
      exactly when every item passes the format check; a refusal for bad items lists them. */
  lemma BulkBarcodeOutcome(ed: Edition, text: string, format: string)
    ensures BulkBarcodeCheck(ed, text, format) == Some(NoItems) <==> Trim(text) == []
    ensures Trim(text) != [] && |Items(text)| > 100 ==> BulkBarcodeCheck(ed, text, format) == Some(TooManyItems)
    ensures BulkBarcodeCheck(ed, text, format) == None <==>
              Trim(text) != [] && |Items(text)| <= 100 &&
              forall k :: 0 <= k < |Items(text)| ==> ValidateBarcodeFormat(ed, Items(text)[k], format).valid
    ensures var r := BulkBarcodeCheck(ed, text, format);
            r.Some? && r.value.InvalidFormats? ==>
              r.value.summary == Summary(FormatNameAsWritten(format), InvalidItems(FormatCheck(ed, format), Items(text)))
  {
    if Trim(text) != [] {
      ItemsOfNonBlank(text);
      var items := Items(text);
      InvalidItemsEmptyIff(FormatCheck(ed, format), items);
    }
  }

  /** `validateBulkQRInput`: the same caps, then the empty-item and 500-character rules. */
  function BulkQrCheck(text: string): (r: Option<BulkError>)
  {
    if Trim(text) == [] then Some(NoItems)
    else
      var items := Items(text);
      if |items| == 0 then Some(NoItems)
      else if |items| > 100 then Some(TooManyItems)
      else if exists k :: 0 <= k < |items| && |items[k]| == 0 then Some(EmptyItems)
      else if exists k :: 0 <= k < |items| && |items[k]| > 500 then Some(LongItems)
      else None
  }

  /** Items are filtered and trimmed before the checks, so neither the second "no items"
      branch nor "Remove empty lines" is ever reached; more than 100 items is refused; and
      the text is accepted exactly when it holds 1 to 100 items of at most 500 characters. */
  lemma BulkQrOutcome(text: string)
    ensures BulkQrCheck(text) != Some(EmptyItems)
    ensures BulkQrCheck(text) == Some(NoItems) <==> Trim(text) == []
    ensures Trim(text) != [] && |Items(text)| > 100 ==> BulkQrCheck(text) == Some(TooManyItems)
    ensures BulkQrCheck(text) == Some(LongItems) <==>
              Trim(text) != [] && |Items(text)| <= 100 && exists k :: 0 <= k < |Items(text)| && |Items(text)[k]| > 500
    ensures BulkQrCheck(text) == None <==>
              Trim(text) != [] && |Items(text)| <= 100 &&
              forall k :: 0 <= k < |Items(text)| ==> |Items(text)[k]| <= 500
  {
    if Trim(text) != [] {
      ItemsOfNonBlank(text);
    }
  }

  /** `items.length = 50`: generation keeps the first 50 items. */
  function GenerationItems(items: seq<string>): (r: seq<string>)
    ensures |r| == if |items| > 50 then 50 else |items|
    ensures r == items[..|r|]
  {
    if |items| > 50 then items[..50] else items
  }

  /** Cutting a second time changes nothing, and no item is left out below the cap. */
  lemma GenerationItemsIdempotent(items: seq<string>)
    ensures GenerationItems(GenerationItems(items)) == GenerationItems(items)
    ensures |items| <= 50 ==> GenerationItems(items) == items
  {
  }

  /** `{ id, data }` of `bulkQRItems` / `bulkBarcodeItems`. */
  datatype BulkItem = BulkItem(id: nat, data: string)

  /** The generation loop: each kept item is pushed with its 0-based id. */
  method GenerateBulk(items: seq<string>) returns (bulk: seq<BulkItem>)
    ensures |bulk| == |GenerationItems(items)|
    ensures forall i :: 0 <= i < |bulk| ==> bulk[i] == BulkItem(i, items[i])
  {
    var kept := GenerationItems(items);
    bulk := [];
    for i := 0 to |kept|
      invariant |bulk| == i
      invariant forall j :: 0 <= j < i ==> bulk[j] == BulkItem(j, kept[j])
    {
      bulk := bulk + [BulkItem(i, kept[i])];
    }
  }

  /** The label under each generated code: items longer than 30 characters are cut to 30
      and marked with an ellipsis. */
  function ItemLabel(item: string): (r: string)
    ensures |item| <= 30 ==> r == item
    ensures |item| > 30 ==> |r| == 33 && r[..30] == item[..30] && r[30..] == "..."
  {
    if |item| > 30 then item[..30] + "..." else item
  }

  /** A label never exceeds 33 characters and always opens with the item's first (up to) 30
      characters; it is the item itself exactly when the item is short or already looks
      like a cut label, and labelling a label changes nothing. */
  lemma ItemLabelShape(item: string)
    ensures |ItemLabel(item)| <= 33
    ensures var m := if |item| < 30 then |item| else 30;
            m <= |ItemLabel(item)| && ItemLabel(item)[..m] == item[..m]
    ensures ItemLabel(item) == item <==> |item| <= 30 || (|item| == 33 && item[30..] == "...")
    ensures ItemLabel(ItemLabel(item)) == ItemLabel(item)
  {
    if |item| > 30 {
      var r := ItemLabel(item);
      assert r[..30] == item[..30];
      if |item| == 33 && item[30..] == "..." {
        assert item == item[..30] + item[30..];
      }
      assert r[..30] + r[30..] == r;
    }
  }
}
