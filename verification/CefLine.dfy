// to_cef of apps/api/src/aegis_api/application/siem.py, and the reader it is written for.
module CefLine {
  import opened Prelude
  import opened CefText

  type Field = (string, string)

  datatype Finding = Finding(
    identityHash: string, ruleKey: string, title: string, status: string, confidence: string,
    sinkSignature: string, sourceKind: string, occurrenceCount: nat, wouldBlockCount: nat,
    cweId: Option<int>, lastSeenMs: Option<int>, environments: seq<string>, riskScore: real)

  datatype Occurrence = Occurrence(
    remoteAddress: string, requestMethod: string, requestPath: string, sinkArgument: string)

  // str of an int.
  function Decimal(n: int): string
    decreases n < 0, if n < 0 then -n else n
  {
    if n < 0 then "-" + Decimal(-n)
    else if n < 10 then [('0' as int + n) as char]
    else Decimal(n / 10) + [('0' as int + n % 10) as char]
  }

  // Python's round of a float to an int: halves go to the even neighbour.
  function RoundHalfEven(x: real): int {
    var low := x.Floor;
    var part := x - low as real;
    if part < 0.5 || (part == 0.5 && low % 2 == 0) then low else low + 1
  }

  function Join(parts: seq<string>, sep: string): string {
    if |parts| == 0 then ""
    else if |parts| == 1 then parts[0]
    else parts[0] + sep + Join(parts[1..], sep)
  }

  function HeaderFields(f: Finding, version: string): seq<string> {
    ["CEF:0", "Aegis", "Aegis IAST", version, f.ruleKey, f.title, Decimal(RoundHalfEven(f.riskScore))]
  }

  function Truncated(s: string, limit: nat): string {
    if |s| <= limit then s else s[..limit]
  }

  function IdentityFields(f: Finding): seq<Field> {
    [("externalId", f.identityHash), ("cat", f.ruleKey), ("cs1Label", "status"), ("cs1", f.status),
     ("cs2Label", "confidence"), ("cs2", f.confidence), ("cs3Label", "sink"), ("cs3", f.sinkSignature),
     ("cs4Label", "sourceKind"), ("cs4", f.sourceKind)]
  }

  function CountFields(f: Finding): seq<Field> {
    [("cn1Label", "occurrences"), ("cn1", Decimal(f.occurrenceCount)),
     ("cn2Label", "wouldBlock"), ("cn2", Decimal(f.wouldBlockCount))]
  }

  function OptionalFields(f: Finding): seq<Field> {
    (if f.cweId.Some? then [("cs5Label", "cwe"), ("cs5", "CWE-" + Decimal(f.cweId.value))] else [])
    + (if f.lastSeenMs.Some? then [("end", Decimal(f.lastSeenMs.value))] else [])
    + (if |f.environments| > 0 then [("deviceCustomString6Label", "environments"),
                                     ("deviceCustomString6", Join(f.environments, ","))] else [])
  }

  function EvidenceFields(o: Occurrence, limit: nat): seq<Field> {
    Present(o.remoteAddress, "src", o.remoteAddress)
    + Present(o.requestMethod, "requestMethod", o.requestMethod)
    + Present(o.requestPath, "request", o.requestPath)
    + Present(o.sinkArgument, "msg", Truncated(o.sinkArgument, limit))
  }

  // Every extension a line carries, in dictionary order, before escaping.
  function Extensions(f: Finding, occurrence: Option<Occurrence>, limit: nat): seq<Field> {
    IdentityFields(f) + CountFields(f) + OptionalFields(f)
    + (match occurrence case None => [] case Some(o) => EvidenceFields(o, limit))
  }

  function Present(guard: string, key: string, value: string): seq<Field> {
    if guard == "" then [] else [(key, value)]
  }

  function FieldText(field: Field): string {
    field.0 + "=" + CefValue(field.1)
  }

  function Body(fields: seq<Field>): string {
    if |fields| == 0 then ""
    else if |fields| == 1 then FieldText(fields[0])
    else FieldText(fields[0]) + " " + Body(fields[1..])
  }

  // The reader. Header: split at the first seven bare pipes.
  function SplitBars(line: string, n: nat): seq<string>
    decreases n
  {
    var i := FirstBare(line, '|');
    if n == 0 || i == |line| then [line]
    else [line[..i]] + SplitBars(line[i + 1..], n - 1)
  }

  function LastSpace(s: string): (i: nat)
    ensures i <= |s|
  {
    if s == "" then 0
    else if s[|s| - 1] == ' ' then |s| - 1
    else var i := LastSpace(s[..|s| - 1]); if i == |s| - 1 then |s| else i
  }

  // Extension: a value runs up to the last word before the next bare '='.
  function ReadFields(key: string, rest: string): seq<Field>
    decreases |rest|
  {
    var i := FirstBare(rest, '=');
    if i == |rest| then [(key, Unescape(rest, true))]
    else
      var space := LastSpace(rest[..i]);
      [(key, Unescape(rest[..space], true))]
      + ReadFields(if space < i then rest[space + 1..i] else "", rest[i + 1..])
  }

  function ReadExtension(body: string): seq<Field> {
    var i := FirstBare(body, '=');
    if i == |body| then [] else ReadFields(body[..i], body[i + 1..])
  }

  function Unescaped(cells: seq<string>): (r: seq<string>)
    ensures |r| == |cells|
    ensures forall i :: 0 <= i < |r| ==> r[i] == Unescape(cells[i], false)
  {
    seq(|cells|, i requires 0 <= i < |cells| => Unescape(cells[i], false))
  }

  datatype Reading = Reading(header: seq<string>, extension: seq<Field>)

  function ReadLine(line: string): Option<Reading> {
    var parts := SplitBars(line, 7);
    if |parts| != 8 then None
    else Some(Reading(Unescaped(parts[..7]), ReadExtension(parts[7])))
  }

  function Normalized(fields: seq<Field>): (r: seq<Field>)
    ensures |r| == |fields|
    ensures forall i :: 0 <= i < |r| ==> r[i] == (fields[i].0, NormalizeNewlines(fields[i].1))
  {
    if |fields| == 0 then [] else [(fields[0].0, NormalizeNewlines(fields[0].1))] + Normalized(fields[1..])
  }

  // A key is one word the printer writes without escaping it.
  predicate WordChar(c: char) {
    c != '\\' && c != '=' && c != ' ' && c != '\n' && c != '\r'
  }

  predicate KeyText(key: string) {
    forall i :: 0 <= i < |key| ==> WordChar(key[i])
  }

  lemma KeyTextPlain(key: string)
    requires KeyText(key)
    ensures '\\' !in key && '=' !in key && ' ' !in key && !HasNewline(key)
  {
  }

  predicate Keyed(fields: seq<Field>) {
    forall f :: f in fields ==> KeyText(f.0)
  }

  // Everything after the first key and its '='.
  function Tail(fields: seq<Field>): string
    requires |fields| > 0
    decreases |fields|
  {
    CefValue(fields[0].1)
    + if |fields| == 1 then "" else " " + fields[1].0 + "=" + Tail(fields[1..])
  }

  lemma Regroup(key: string, value: string, next: string, rest: string)
    ensures (key + "=" + value) + " " + (next + "=" + rest) == key + "=" + (value + (" " + next + "=" + rest))
  {
  }

  lemma {:induction false} BodyIsKeyAndTail(fields: seq<Field>)
    requires |fields| > 0
    ensures Body(fields) == fields[0].0 + "=" + Tail(fields)
    decreases |fields|
  {
    if |fields| == 1 {
      assert Tail(fields) == CefValue(fields[0].1);
    } else {
      BodyIsKeyAndTail(fields[1..]);
      Regroup(fields[0].0, CefValue(fields[0].1), fields[1].0, Tail(fields[1..]));
    }
  }

  lemma {:induction false} LastSpaceOf(a: string, word: string)
    requires ' ' !in word
    ensures LastSpace(a + " " + word) == |a|
    decreases |word|
  {
    var s := a + " " + word;
    if word == "" {
      assert s == a + " ";
    } else {
      var shorter := word[..|word| - 1];
      assert s[..|s| - 1] == a + " " + shorter;
      assert s[|s| - 1] == word[|word| - 1];
      LastSpaceOf(a, shorter);
    }
  }

  // Closed text, a key after a space: the first bare '=' is the one after the key.
  lemma BareAfterKey(v: string, next: string, rest: string)
    requires Closed(v) && FirstBare(v, '=') == |v| && KeyText(next)
    ensures FirstBare((v + " " + next) + "=" + rest, '=') == |v + " " + next|
  {
    var word := " " + next;
    KeyTextPlain(next);
    PlainText(word, '=');
    FirstBareSkips(v, word, '=');
    ClosedConcat(v, word);
    assert v + word == v + " " + next;
    FirstBareSkips(v + word, "=" + rest, '=');
    assert (v + word) + ("=" + rest) == (v + " " + next) + "=" + rest;
  }

  // One value followed by the next field: the reader cuts exactly where the printer joined.
  lemma ReadOneField(key: string, value: string, next: string, rest: string)
    requires KeyText(next)
    ensures ReadFields(key, CefValue(value) + (" " + next + "=" + rest))
         == [(key, NormalizeNewlines(value))] + ReadFields(next, rest)
  {
    var v := CefValue(value);
    CefValueSafe(value);
    KeyTextPlain(next);
    BareAfterKey(v, next, rest);
    assert v + (" " + next + "=" + rest) == (v + " " + next) + "=" + rest;
    CutField(key, v, next, rest, (v + " " + next) + "=" + rest);
  }

  lemma CutField(key: string, v: string, next: string, rest: string, all: string)
    requires all == (v + " " + next) + "=" + rest
    requires FirstBare(all, '=') == |v + " " + next|
    requires ' ' !in next
    ensures ReadFields(key, all) == [(key, Unescape(v, true))] + ReadFields(next, rest)
  {
    var seg := v + " " + next;
    CutAt(seg, '=', rest);
    LastSpaceOf(v, next);
    CutAt(v, ' ', next);
    var i := FirstBare(all, '=');
    assert all[..i] == seg;
    assert all[..|v|] == seg[..|v|];
    assert all[|v| + 1..i] == seg[|v| + 1..];
  }

  lemma CutAt(a: string, c: char, b: string)
    ensures var s := a + [c] + b; s[..|a|] == a && s[|a|] == c && s[|a| + 1..] == b
  {
  }

  lemma {:induction false} ReadFieldsBack(fields: seq<Field>)
    requires |fields| > 0 && Keyed(fields)
    ensures ReadFields(fields[0].0, Tail(fields)) == Normalized(fields)
    decreases |fields|
  {
    var (key, value) := fields[0];
    CefValueSafe(value);
    if |fields| == 1 {
      assert Tail(fields) == CefValue(value);
      assert Normalized(fields) == [(key, NormalizeNewlines(value))];
    } else {
      assert fields[1] in fields;
      assert Keyed(fields[1..]);
      ReadFieldsBack(fields[1..]);
      ReadOneField(key, value, fields[1].0, Tail(fields[1..]));
    }
  }

  lemma ReadExtensionCut(key: string, tail: string)
    requires KeyText(key)
    ensures ReadExtension(key + "=" + tail) == ReadFields(key, tail)
  {
    KeyTextPlain(key);
    PlainText(key, '=');
    FirstBareSkips(key, "=" + tail, '=');
    assert key + ("=" + tail) == key + "=" + tail;
    CutAt(key, '=', tail);
  }

  lemma ExtensionRoundTrip(fields: seq<Field>)
    requires |fields| > 0 && Keyed(fields)
    ensures ReadExtension(Body(fields)) == Normalized(fields)
  {
    assert fields[0] in fields;
    ReadExtensionCut(fields[0].0, Tail(fields));
    BodyIsKeyAndTail(fields);
    ReadFieldsBack(fields);
  }

  function Escaped(fields: seq<string>): (r: seq<string>)
    ensures |r| == |fields|
    ensures forall i :: 0 <= i < |r| ==> r[i] == CefHeader(fields[i])
  {
    seq(|fields|, i requires 0 <= i < |fields| => CefHeader(fields[i]))
  }

  lemma SplitStep(h: string, rest: string, n: nat)
    requires Closed(h) && FirstBare(h, '|') == |h|
    ensures SplitBars(h + "|" + rest, n + 1) == [h] + SplitBars(rest, n)
  {
    FirstBareSkips(h, "|" + rest, '|');
    assert h + ("|" + rest) == h + "|" + rest;
    CutAt(h, '|', rest);
  }

  // A cell without a bare pipe, which a reader takes whole.
  predicate Cell(s: string) {
    Closed(s) && FirstBare(s, '|') == |s|
  }

  lemma {:induction false} SplitCells(cells: seq<string>, body: string)
    requires forall i :: 0 <= i < |cells| ==> Cell(cells[i])
    ensures SplitBars(Join(cells + [body], "|"), |cells|) == cells + [body]
    decreases |cells|
  {
    var parts := cells + [body];
    if |cells| == 0 {
      assert parts == [body];
    } else {
      assert parts[1..] == cells[1..] + [body] && Cell(cells[0]);
      SplitStep(cells[0], Join(parts[1..], "|"), |cells| - 1);
      SplitCells(cells[1..], body);
      assert parts == [cells[0]] + parts[1..];
    }
  }

  lemma SplitBack(fields: seq<string>, body: string)
    ensures SplitBars(Join(Escaped(fields) + [body], "|"), |fields|) == Escaped(fields) + [body]
  {
    forall i | 0 <= i < |fields| ensures Cell(Escaped(fields)[i]) {
      CefHeaderSafe(fields[i]);
    }
    SplitCells(Escaped(fields), body);
  }

  lemma {:induction false} DecimalPlain(n: int)
    ensures forall c :: c in Decimal(n) ==> c == '-' || '0' <= c <= '9'
    decreases n < 0, if n < 0 then -n else n
  {
    if n < 0 {
      DecimalPlain(-n);
    } else if n >= 10 {
      DecimalPlain(n / 10);
    }
  }

  lemma {:induction false} HeaderIdentity(s: string)
    requires '\\' !in s && '|' !in s
    ensures CefHeader(s) == s
    decreases |s|
  {
    if s != "" {
      assert s == [s[0]] + s[1..];
      CefHeaderStep(s[0], s[1..]);
      HeaderIdentity(s[1..]);
    }
  }

  lemma ExtensionKeys(f: Finding, occurrence: Option<Occurrence>, limit: nat)
    ensures |Extensions(f, occurrence, limit)| > 0
    ensures Keyed(Extensions(f, occurrence, limit))
  {
    IdentityKeys(f);
    CountKeys(f);
    OptionalKeys(f);
    var front := IdentityFields(f) + CountFields(f) + OptionalFields(f);
    if occurrence.Some? {
      EvidenceKeys(occurrence.value, limit);
      assert Keyed(front + EvidenceFields(occurrence.value, limit));
    } else {
      assert Extensions(f, occurrence, limit) == front;
    }
  }

  lemma IdentityKeys(f: Finding)
    ensures Keyed(IdentityFields(f))
  {
    CustomKeys();
    assert KeyText("externalId") && KeyText("cat");
  }

  lemma CustomKeys()
    ensures KeyText("cs1Label") && KeyText("cs1") && KeyText("cs2Label") && KeyText("cs2")
    ensures KeyText("cs3Label") && KeyText("cs3") && KeyText("cs4Label") && KeyText("cs4")
  {
  }

  lemma CountKeys(f: Finding)
    ensures Keyed(CountFields(f))
  {
    assert KeyText("cn1Label") && KeyText("cn1") && KeyText("cn2Label") && KeyText("cn2");
  }

  lemma OptionalKeys(f: Finding)
    ensures Keyed(OptionalFields(f))
  {
    assert KeyText("cs5Label") && KeyText("cs5") && KeyText("end");
    assert KeyText("deviceCustomString6Label") && KeyText("deviceCustomString6");
  }

  lemma EvidenceKeys(o: Occurrence, limit: nat)
    ensures Keyed(EvidenceFields(o, limit))
  {
    assert KeyText("src") && KeyText("requestMethod") && KeyText("request") && KeyText("msg");
  }

  // Header cells and extension fields joined into one line.
  function LineOf(header: seq<string>, fields: seq<Field>): string {
    Join(Escaped(header) + [Body(fields)], "|")
  }

  function Line(f: Finding, occurrence: Option<Occurrence>, version: string, limit: nat): string {
    LineOf(HeaderFields(f, version), Extensions(f, occurrence, limit))
  }

  lemma UnescapedEscaped(header: seq<string>)
    ensures Unescaped(Escaped(header)) == header
  {
    forall i | 0 <= i < |header| ensures Unescape(CefHeader(header[i]), false) == header[i] {
      CefHeaderSafe(header[i]);
    }
  }

  lemma LineRoundTrip(header: seq<string>, fields: seq<Field>)
    requires |header| == 7 && |fields| > 0 && Keyed(fields)
    ensures ReadLine(LineOf(header, fields)) == Some(Reading(header, Normalized(fields)))
  {
    SplitBack(header, Body(fields));
    ExtensionRoundTrip(fields);
    UnescapedEscaped(header);
    var parts := Escaped(header) + [Body(fields)];
    assert parts[..7] == Escaped(header);
  }

  lemma {:induction false} JoinNewline(parts: seq<string>, sep: string)
    requires !HasNewline(sep)
    ensures HasNewline(Join(parts, sep)) <==> exists i :: 0 <= i < |parts| && HasNewline(parts[i])
    decreases |parts|
  {
    if |parts| > 1 {
      JoinNewline(parts[1..], sep);
      assert forall i :: 0 <= i < |parts| ==> parts[i] == if i == 0 then parts[0] else parts[1..][i - 1];
      assert Join(parts, sep) == parts[0] + sep + Join(parts[1..], sep);
    }
  }

  lemma {:induction false} BodyOneLine(fields: seq<Field>)
    requires forall f :: f in fields ==> !HasNewline(f.0)
    ensures !HasNewline(Body(fields))
    decreases |fields|
  {
    if |fields| > 0 {
      CefValueSafe(fields[0].1);
      assert fields[0] in fields;
      BodyOneLine(fields[1..]);
    }
  }

  // Only a header cell can put a line break into a line: the header escape keeps one.
  lemma LineNewlines(header: seq<string>, fields: seq<Field>)
    requires Keyed(fields)
    ensures HasNewline(LineOf(header, fields)) <==> exists i :: 0 <= i < |header| && HasNewline(header[i])
  {
    var parts := Escaped(header) + [Body(fields)];
    JoinNewline(parts, "|");
    forall f | f in fields ensures !HasNewline(f.0) {
      KeyTextPlain(f.0);
    }
    BodyOneLine(fields);
    forall i | 0 <= i < |header| ensures HasNewline(parts[i]) == HasNewline(header[i]) {
      CefHeaderSafe(header[i]);
    }
    assert parts[|header|] == Body(fields);
  }

  lemma HeaderNewlines(f: Finding, version: string)
    ensures var header := HeaderFields(f, version);
            (exists i :: 0 <= i < |header| && HasNewline(header[i]))
            <==> HasNewline(version) || HasNewline(f.ruleKey) || HasNewline(f.title)
  {
    var header := HeaderFields(f, version);
    DecimalPlain(RoundHalfEven(f.riskScore));
    assert header[3] == version && header[4] == f.ruleKey && header[5] == f.title;
    assert KeyText("CEF:0") && KeyText("Aegis");
    KeyTextPlain("CEF:0");
    KeyTextPlain("Aegis");
    assert !HasNewline(header[0]) && !HasNewline(header[1]) && !HasNewline(header[2]) && !HasNewline(header[6]);
  }

  // The printed event stays on one line exactly when its three free header cells do.
  lemma OneLineExactly(f: Finding, occurrence: Option<Occurrence>, version: string, limit: nat)
    ensures HasNewline(Line(f, occurrence, version, limit))
       <==> HasNewline(version) || HasNewline(f.ruleKey) || HasNewline(f.title)
  {
    ExtensionKeys(f, occurrence, limit);
    LineNewlines(HeaderFields(f, version), Extensions(f, occurrence, limit));
    HeaderNewlines(f, version);
  }

  lemma TitleCanBreakTheLine(f: Finding)
    requires f.title == "a\nb"
    ensures HasNewline(Line(f, None, "0.5.0", 1024))
  {
    assert f.title[1] == '\n';
    OneLineExactly(f, None, "0.5.0", 1024);
  }

  // to_cef: joins the escaped header, fills the extension dictionary in place, joins that.
  method ToCef(f: Finding, occurrence: Option<Occurrence>, version: string, limit: nat := 1024)
    returns (line: string)
    ensures line == Line(f, occurrence, version, limit)
    ensures ReadLine(line)
         == Some(Reading(HeaderFields(f, version), Normalized(Extensions(f, occurrence, limit))))
    ensures HasNewline(line) <==> HasNewline(version) || HasNewline(f.ruleKey) || HasNewline(f.title)
  {
    var header := HeaderText(f, version);
    var extensions := FillExtensions(f, occurrence, limit);
    var body := JoinFields(extensions);
    line := header + "|" + body;
    JoinSnoc(Escaped(HeaderFields(f, version)), body);
    ExtensionKeys(f, occurrence, limit);
    LineRoundTrip(HeaderFields(f, version), extensions);
    OneLineExactly(f, occurrence, version, limit);
  }

  // The severity cell is printed without escaping: digits and a sign need none.
  method HeaderText(f: Finding, version: string) returns (header: string)
    ensures header == Join(Escaped(HeaderFields(f, version)), "|")
  {
    var severity := Decimal(RoundHalfEven(f.riskScore));
    header := Join(["CEF:0", CefHeader("Aegis"), CefHeader("Aegis IAST"), CefHeader(version),
                    CefHeader(f.ruleKey), CefHeader(f.title), severity], "|");
    DecimalPlain(RoundHalfEven(f.riskScore));
    HeaderIdentity(severity);
    VersionCell();
    EscapedSeven("CEF:0", "Aegis", "Aegis IAST", version, f.ruleKey, f.title, severity);
  }

  lemma EscapedSeven(a: string, b: string, c: string, d: string, e: string, g: string, h: string)
    ensures Escaped([a, b, c, d, e, g, h])
         == [CefHeader(a), CefHeader(b), CefHeader(c), CefHeader(d), CefHeader(e), CefHeader(g), CefHeader(h)]
  {
  }

  lemma VersionCell()
    ensures CefHeader("CEF:0") == "CEF:0"
  {
    assert '\\' !in "CEF:0" && '|' !in "CEF:0";
    HeaderIdentity("CEF:0");
  }

  method FillExtensions(f: Finding, occurrence: Option<Occurrence>, limit: nat) returns (extensions: seq<Field>)
    ensures extensions == Extensions(f, occurrence, limit)
  {
    extensions := IdentityFields(f) + CountFields(f);
    if f.cweId.Some? {
      extensions := extensions + [("cs5Label", "cwe"), ("cs5", "CWE-" + Decimal(f.cweId.value))];
    }
    if f.lastSeenMs.Some? {
      extensions := extensions + [("end", Decimal(f.lastSeenMs.value))];
    }
    if |f.environments| > 0 {
      extensions := extensions + [("deviceCustomString6Label", "environments"),
                                  ("deviceCustomString6", Join(f.environments, ","))];
    }
    assert extensions == IdentityFields(f) + CountFields(f) + OptionalFields(f);
    if occurrence.Some? {
      var evidence := FillEvidence(occurrence.value, limit);
      extensions := extensions + evidence;
    }
  }

  method FillEvidence(o: Occurrence, limit: nat) returns (extensions: seq<Field>)
    ensures extensions == EvidenceFields(o, limit)
  {
    extensions := [];
    if o.remoteAddress != "" {
      extensions := extensions + [("src", o.remoteAddress)];
    }
    if o.requestMethod != "" {
      extensions := extensions + [("requestMethod", o.requestMethod)];
    }
    if o.requestPath != "" {
      extensions := extensions + [("request", o.requestPath)];
    }
    if o.sinkArgument != "" {
      extensions := extensions + [("msg", Truncated(o.sinkArgument, limit))];
    }
  }

  method JoinFields(fields: seq<Field>) returns (body: string)
    ensures body == Body(fields)
  {
    body := "";
    var i := |fields|;
    while i > 0
      invariant 0 <= i <= |fields|
      invariant body == Body(fields[i..])
    {
      i := i - 1;
      assert fields[i..][1..] == fields[i + 1..];
      body := if i + 1 == |fields| then FieldText(fields[i]) else FieldText(fields[i]) + " " + body;
    }
  }

  lemma {:induction false} JoinSnoc(parts: seq<string>, last: string)
    requires |parts| > 0
    ensures Join(parts + [last], "|") == Join(parts, "|") + "|" + last
    decreases |parts|
  {
    if |parts| == 1 {
      assert (parts + [last])[1..] == [last];
    } else {
      assert (parts + [last])[1..] == parts[1..] + [last];
      JoinSnoc(parts[1..], last);
      assert Join(parts + [last], "|") == parts[0] + "|" + (Join(parts[1..], "|") + "|" + last);
      assert Join(parts, "|") == parts[0] + "|" + Join(parts[1..], "|");
    }
  }
}
