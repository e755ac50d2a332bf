/**
 * The strings `generateQR` hands to the QR encoder: the trimmed text, the Wi-Fi
 * network string `WIFI:S:..;T:..;P:..;H:..;;`, and the vCard 3.0 text
 * (RFC 2426), all plain concatenation without escaping.
 */
module Payload {
  import opened Wrappers
  import opened Text
  import opened QrInput
  import opened Validation

  /** The Wi-Fi string, built only when the trimmed SSID is not blank; the SSID and the
      password are trimmed, the encryption and hidden values are taken as they are. */
  function WifiPayload(ssid: string, password: string, encryption: string, hidden: string): (r: Option<string>)
    ensures r.Some? <==> Trim(ssid) != []
  {
    if Trim(ssid) == [] then None
    else Some(("WIFI:S:" + Trim(ssid)) + ";" + ("T:" + encryption) + ";" + ("P:" + Trim(password)) + ";" + ("H:" + hidden) + ";" + ";")
  }

  /** The fields of a Wi-Fi string, with their tags left on. */
  function WifiFields(ssid: string, password: string, encryption: string, hidden: string): seq<string> {
    ["WIFI:S:" + Trim(ssid), "T:" + encryption, "P:" + Trim(password), "H:" + hidden, "", ""]
  }

  /** When no value holds a ';', splitting the Wi-Fi string on ';' gives back its tagged
      fields, so each value can be read back; a ';' inside a value is not escaped and shifts
      the fields. */
  lemma WifiPayloadFields(ssid: string, password: string, encryption: string, hidden: string)
    requires Trim(ssid) != []
    requires ';' !in Trim(ssid) && ';' !in Trim(password) && ';' !in encryption && ';' !in hidden
    ensures Split(WifiPayload(ssid, password, encryption, hidden).value, ';') == WifiFields(ssid, password, encryption, hidden)
  {
    NoSepInConcat("WIFI:S:", Trim(ssid), ';');
    NoSepInConcat("T:", encryption, ';');
    NoSepInConcat("P:", Trim(password), ';');
    NoSepInConcat("H:", hidden, ';');
    SplitFourFields("WIFI:S:" + Trim(ssid), "T:" + encryption, "P:" + Trim(password), "H:" + hidden);
  }

  /** Four `;`-free fields followed by `;;` split back into the four and two empty ones. */
  lemma SplitFourFields(f0: string, f1: string, f2: string, f3: string)
    requires ';' !in f0 && ';' !in f1 && ';' !in f2 && ';' !in f3
    ensures Split(f0 + ";" + f1 + ";" + f2 + ";" + f3 + ";" + ";", ';') == [f0, f1, f2, f3, "", ""]
  {
    var r4 := [] + [';'] + [];
    var r3 := f3 + [';'] + r4;
    var r2 := f2 + [';'] + r3;
    var r1 := f1 + [';'] + r2;
    assert f0 + ";" + f1 + ";" + f2 + ";" + f3 + ";" + ";" == f0 + [';'] + r1;
    SplitAtFirst([], ';', []);
    SplitNoSep([], ';');
    SplitAtFirst(f3, ';', r4);
    SplitAtFirst(f2, ';', r3);
    SplitAtFirst(f1, ';', r2);
    SplitAtFirst(f0, ';', r1);
  }

  lemma NoSepInConcat(a: string, b: string, sep: char)
    requires sep !in a && sep !in b
    ensures sep !in a + b
  {
  }

  /** The contact inputs of the form, trimmed as the builder reads them. */
  datatype Contact = Contact(firstName: string, lastName: string, phone: string, email: string, company: string, website: string)

  function ContactOf(f: QrForm): Contact {
    Contact(Trim(f.firstName), Trim(f.lastName), Trim(f.phone), Trim(f.email), Trim(f.company), Trim(f.website))
  }

  /** One content line `NAME:value` of the card. */
  datatype Property = Property(name: string, value: string)

  function PropertyLine(p: Property): string {
    p.name + ":" + p.value
  }

  /** The name lines: zxing.js writes them only when a name is given and joins first and last
      with one space; public/zjs.js always writes them, trimming the joined name. */
  function NameProperties(ed: Edition, c: Contact): seq<Property> {
    match ed
    case Zxing =>
      if c.firstName != [] || c.lastName != [] then
        [Property("FN", c.firstName + " " + c.lastName), Property("N", c.lastName + ";" + c.firstName + ";;;")]
      else []
    case Zjs =>
      [Property("FN", Trim(c.firstName + " " + c.lastName)), Property("N", c.lastName + ";" + c.firstName + ";;;")]
  }

  /** `[Property(name, value)]` when the value is not blank. */
  function Optional(name: string, value: string): seq<Property> {
    if value != [] then [Property(name, value)] else []
  }

  /** The properties between the header and `END:VCARD`, in the order the builder appends them. */
  function CardProperties(ed: Edition, c: Contact): seq<Property> {
    NameProperties(ed, c) + Optional("TEL", c.phone) + Optional("EMAIL", c.email) +
    Optional("ORG", c.company) + Optional("URL", c.website)
  }

  /** The lines of the card. */
  function CardLines(ed: Edition, c: Contact): (r: seq<string>)
    ensures |r| >= 3 && r[0] == "BEGIN:VCARD" && r[1] == "VERSION:3.0" && r[|r| - 1] == "END:VCARD"
  {
    var props := CardProperties(ed, c);
    ["BEGIN:VCARD", "VERSION:3.0"] + seq(|props|, k requires 0 <= k < |props| => PropertyLine(props[k])) + ["END:VCARD"]
  }

  lemma HeaderJoin(lines: seq<string>)
    requires |lines| >= 2 && lines[0] == "BEGIN:VCARD" && lines[1] == "VERSION:3.0"
    ensures Join(lines[..2], '\n') + "\n" == "BEGIN:VCARD\nVERSION:3.0\n"
  {
    assert lines[..2] == ["BEGIN:VCARD", "VERSION:3.0"];
    assert lines[..2][1..] == ["VERSION:3.0"];
  }

  /** Appending the line of property `i` extends the joined lines by one. */
  lemma CardLinesStep(ed: Edition, c: Contact, i: nat)
    requires i < |CardProperties(ed, c)|
    ensures Join(CardLines(ed, c)[..2 + i + 1], '\n') ==
            Join(CardLines(ed, c)[..2 + i], '\n') + "\n" + PropertyLine(CardProperties(ed, c)[i])
  {
    var lines := CardLines(ed, c);
    assert lines[..2 + i + 1] == lines[..2 + i] + [PropertyLine(CardProperties(ed, c)[i])];
    JoinSnoc(lines[..2 + i], PropertyLine(CardProperties(ed, c)[i]), '\n');
  }

  /** Appending `END:VCARD` completes the card. */
  lemma CardLinesLast(ed: Edition, c: Contact)
    ensures Join(CardLines(ed, c), '\n') ==
            Join(CardLines(ed, c)[..2 + |CardProperties(ed, c)|], '\n') + "\n" + "END:VCARD"
  {
    var lines := CardLines(ed, c);
    var n := 2 + |CardProperties(ed, c)|;
    assert lines == lines[..n] + ["END:VCARD"];
    JoinSnoc(lines[..n], "END:VCARD", '\n');
  }

  /** The `vcard +=` builder: the header, one line per property, then `END:VCARD`. */
  method BuildVCard(ed: Edition, c: Contact) returns (vcard: string)
    ensures vcard == Join(CardLines(ed, c), '\n')
  {
    var props := CardProperties(ed, c);
    ghost var lines := CardLines(ed, c);
    vcard := "BEGIN:VCARD\nVERSION:3.0\n";
    HeaderJoin(lines);
    for i := 0 to |props|
      invariant vcard == Join(lines[..2 + i], '\n') + "\n"
    {
      CardLinesStep(ed, c, i);
      vcard := vcard + PropertyLine(props[i]) + "\n";
    }
    CardLinesLast(ed, c);
    vcard := vcard + "END:VCARD";
  }

  /** zxing.js: the card names the person exactly when a first or last name is given. */
  lemma ZxingNameLinesIff(c: Contact)
    ensures (exists k :: 0 <= k < |CardProperties(Zxing, c)| && CardProperties(Zxing, c)[k].name == "FN") <==>
            (c.firstName != [] || c.lastName != [])
  {
    var props := CardProperties(Zxing, c);
    if c.firstName == [] && c.lastName == [] {
      forall k | 0 <= k < |props| ensures props[k].name != "FN" {
        assert props[k].name in {"TEL", "EMAIL", "ORG", "URL"};
      }
    } else {
      assert props[0].name == "FN";
    }
  }

  /** public/zjs.js: the FN and N lines are always the first properties, even with no name. */
  lemma ZjsNameLinesAlways(c: Contact)
    ensures |CardProperties(Zjs, c)| >= 2
    ensures CardProperties(Zjs, c)[0].name == "FN" && CardProperties(Zjs, c)[1].name == "N"
  {
  }

  /** Each optional property is present exactly when its value is not blank, carrying it. */
  lemma OptionalPropertiesIff(ed: Edition, c: Contact)
    ensures Property("TEL", c.phone) in CardProperties(ed, c) <==> c.phone != []
    ensures Property("EMAIL", c.email) in CardProperties(ed, c) <==> c.email != []
    ensures Property("ORG", c.company) in CardProperties(ed, c) <==> c.company != []
    ensures Property("URL", c.website) in CardProperties(ed, c) <==> c.website != []
  {
    var names := NameProperties(ed, c);
    assert forall p :: p in names ==> p.name in {"FN", "N"};
  }

  /** When no value holds a line feed, splitting the card on '\n' gives back its lines. */
  lemma VCardLinesRoundTrip(ed: Edition, c: Contact)
    requires forall k :: 0 <= k < |CardLines(ed, c)| ==> '\n' !in CardLines(ed, c)[k]
    ensures Split(Join(CardLines(ed, c), '\n'), '\n') == CardLines(ed, c)
  {
    SplitJoin(CardLines(ed, c), '\n');
  }

  /** The card text starts with the header and ends with `END:VCARD`. */
  lemma VCardFrame(ed: Edition, c: Contact)
    ensures var v := Join(CardLines(ed, c), '\n');
            |v| >= 24 && v[..24] == "BEGIN:VCARD\nVERSION:3.0\n" && v[|v| - 9..] == "END:VCARD"
  {
    FramedJoin(CardLines(ed, c));
  }

  lemma FramedJoin(lines: seq<string>)
    requires |lines| >= 3 && lines[0] == "BEGIN:VCARD" && lines[1] == "VERSION:3.0" && lines[|lines| - 1] == "END:VCARD"
    ensures var v := Join(lines, '\n');
            |v| >= 24 && v[..24] == "BEGIN:VCARD\nVERSION:3.0\n" && v[|v| - 9..] == "END:VCARD"
  {
    var rest := Join(lines[2..], '\n');
    var head := "BEGIN:VCARD" + "\n" + ("VERSION:3.0" + "\n");
    assert Join(lines, '\n') == head + rest by {
      assert lines[1..][1..] == lines[2..];
    }
    assert head == "BEGIN:VCARD\nVERSION:3.0\n";
    PrefixAndSuffix(head, rest);
    JoinLastLine(lines[2..]);
    SuffixOfConcat(head, rest, 9);
  }

  lemma {:induction false} JoinLastLine(lines: seq<string>)
    requires |lines| >= 1 && lines[|lines| - 1] == "END:VCARD"
    ensures var v := Join(lines, '\n'); |v| >= 9 && v[|v| - 9..] == "END:VCARD"
  {
    if |lines| > 1 {
      JoinLastLine(lines[1..]);
      SuffixOfConcat(lines[0] + "\n", Join(lines[1..], '\n'), 9);
    }
  }

  /** `qrContent` for the form type `kind`; an empty string makes the preview show
      "Enter content to generate QR code" instead of a code. */
  function QrContent(ed: Edition, kind: string, f: QrForm): string {
    if kind == "text" then Trim(f.content)
    else if kind == "wifi" then
      match WifiPayload(f.ssid, f.password, f.encryption, f.hidden)
      case Some(p) => p
      case None => ""
    else if kind == "contact" then Join(CardLines(ed, ContactOf(f)), '\n')
    else ""
  }

  /** A form of one of the three types that passes `validateQRInput` always yields content;
      any other type passes validation and yields none. */
  lemma ValidatedFormHasContent(ed: Edition, kind: string, f: QrForm)
    requires ValidateQrInput(kind, f).isValid
    ensures kind in {"text", "wifi", "contact"} <==> QrContent(ed, kind, f) != []
  {
    if kind == "contact" {
      VCardFrame(ed, ContactOf(f));
    } else if kind == "wifi" {
      WifiRule(f);
    }
  }
}
