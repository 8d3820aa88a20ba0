// The escaping half of the CEF printer in apps/api/src/aegis_api/application/siem.py.
module CefText {

  // Python's str.replace for a non-empty pattern: left to right, without overlaps.
  function Replace(s: string, pat: string, rep: string): string
    requires |pat| > 0
    decreases |s|
  {
    if |s| < |pat| then s
    else if s[..|pat|] == pat then rep + Replace(s[|pat|..], pat, rep)
    else [s[0]] + Replace(s[1..], pat, rep)
  }

  function CefHeader(value: string): string {
    Replace(Replace(value, "\\", "\\\\"), "|", "\\|")
  }

  function CefValue(text: string): string {
    Replace(Replace(Replace(Replace(Replace(text,
      "\\", "\\\\"), "=", "\\="), "\r\n", "\\n"), "\n", "\\n"), "\r", "\\n")
  }

  // What CefValue is meant to be: one pass, looking one character ahead only after a CR.
  function OnePass(t: string): string
    decreases |t|
  {
    if t == "" then ""
    else if t[0] == '\\' then "\\\\" + OnePass(t[1..])
    else if t[0] == '=' then "\\=" + OnePass(t[1..])
    else if |t| > 1 && t[..2] == "\r\n" then "\\n" + OnePass(t[2..])
    else if t[0] == '\n' || t[0] == '\r' then "\\n" + OnePass(t[1..])
    else [t[0]] + OnePass(t[1..])
  }

  // The reader's side: CRLF, CR and LF all read as LF.
  function NormalizeNewlines(t: string): string
    decreases |t|
  {
    if t == "" then ""
    else if |t| > 1 && t[..2] == "\r\n" then "\n" + NormalizeNewlines(t[2..])
    else if t[0] == '\r' then "\n" + NormalizeNewlines(t[1..])
    else [t[0]] + NormalizeNewlines(t[1..])
  }

  // A backslash takes the next character with it; only an extension value reads \n as LF.
  function Unescape(s: string, newlines: bool): string
    decreases |s|
  {
    if s == "" then ""
    else if s[0] == '\\' && |s| > 1 then
      [if newlines && s[1] == 'n' then '\n' else s[1]] + Unescape(s[2..], newlines)
    else [s[0]] + Unescape(s[1..], newlines)
  }

  // Position of the first c that no backslash protects, or |s| when there is none.
  function FirstBare(s: string, c: char): (i: nat)
    ensures i <= |s|
    ensures i < |s| ==> s[i] == c
    decreases |s|
  {
    if s == "" then 0
    else if s[0] == '\\' && |s| > 1 then 2 + FirstBare(s[2..], c)
    else if s[0] == c then 0
    else 1 + FirstBare(s[1..], c)
  }

  // Every backslash has a partner, so text printed after s is not touched by it.
  predicate Closed(s: string)
    decreases |s|
  {
    s == "" ||
    if s[0] == '\\' then |s| > 1 && Closed(s[2..]) else Closed(s[1..])
  }

  predicate HasNewline(s: string) {
    '\n' in s || '\r' in s
  }

  predicate StartsLf(s: string) {
    s != "" && s[0] == '\n'
  }

  predicate EndsCr(s: string) {
    s != "" && s[|s| - 1] == '\r'
  }

  lemma {:induction false} ReplaceCharConcat(a: string, b: string, c: char, rep: string)
    ensures Replace(a + b, [c], rep) == Replace(a, [c], rep) + Replace(b, [c], rep)
    decreases |a|
  {
    if a == "" {
      assert a + b == b;
    } else {
      assert (a + b)[1..] == a[1..] + b;
      assert (a + b)[..1] == a[..1];
      ReplaceCharConcat(a[1..], b, c, rep);
    }
  }

  // How a two-character pattern is replaced, one step at a time; the argument below needs no more.
  predicate PairStep(r: string -> string, c: char, d: char, rep: string, s: string) {
    if |s| < 2 then r(s) == s
    else if s[0] == c && s[1] == d then r(s) == rep + r(s[2..])
    else r(s) == [s[0]] + r(s[1..])
  }

  lemma {:induction false} PairConcat(r: string -> string, c: char, d: char, rep: string, a: string, b: string)
    requires forall s :: PairStep(r, c, d, rep, s)
    requires a == "" || b == "" || !(a[|a| - 1] == c && b[0] == d)
    ensures r(a + b) == r(a) + r(b)
    decreases |a|
  {
    assert PairStep(r, c, d, rep, a) && PairStep(r, c, d, rep, a + b) && PairStep(r, c, d, rep, b);
    if a == "" {
      assert a + b == b;
    } else if |a| == 1 {
      assert (a + b)[1..] == b;
      assert |b| == 0 ==> a + b == a;
    } else if a[0] == c && a[1] == d {
      assert (a + b)[2..] == a[2..] + b;
      PairConcat(r, c, d, rep, a[2..], b);
    } else {
      assert (a + b)[1..] == a[1..] + b;
      PairConcat(r, c, d, rep, a[1..], b);
    }
  }

  lemma ReplacePairStep(s: string, c: char, d: char, rep: string)
    ensures PairStep(t => Replace(t, [c, d], rep), c, d, rep, s)
  {
    if |s| >= 2 {
      assert s[..2] == [s[0], s[1]];
    }
  }

  lemma ReplaceCrLfConcat(a: string, b: string, rep: string)
    requires !(EndsCr(a) && StartsLf(b))
    ensures Replace(a + b, "\r\n", rep) == Replace(a, "\r\n", rep) + Replace(b, "\r\n", rep)
  {
    assert "\r\n" == ['\r', '\n'];
    var r := t => Replace(t, ['\r', '\n'], rep);
    forall s ensures PairStep(r, '\r', '\n', rep, s) {
      ReplacePairStep(s, '\r', '\n', rep);
      assert PairStep(t => Replace(t, ['\r', '\n'], rep), '\r', '\n', rep, s);
    }
    PairConcat(r, '\r', '\n', rep, a, b);
  }

  // The first two replaces neither create nor hide a CRLF across a cut.
  lemma {:induction false} EscapeKeepsEnds(a: string, c: char)
    requires c == '\\' || c == '='
    ensures StartsLf(Replace(a, [c], ['\\', c])) == StartsLf(a)
    ensures EndsCr(Replace(a, [c], ['\\', c])) == EndsCr(a)
    decreases |a|
  {
    if |a| > 1 {
      EscapeKeepsEnds(a[1..], c);
    } else if |a| == 1 {
      assert a[1..] == "";
    }
  }

  lemma CefValueConcat(a: string, b: string)
    requires !(EndsCr(a) && StartsLf(b))
    ensures CefValue(a + b) == CefValue(a) + CefValue(b)
  {
    ReplaceCharConcat(a, b, '\\', "\\\\");
    EscapeKeepsEnds(a, '\\');
    EscapeKeepsEnds(b, '\\');
    var a1, b1 := Replace(a, "\\", "\\\\"), Replace(b, "\\", "\\\\");
    ReplaceCharConcat(a1, b1, '=', "\\=");
    EscapeKeepsEnds(a1, '=');
    EscapeKeepsEnds(b1, '=');
    var a2, b2 := Replace(a1, "=", "\\="), Replace(b1, "=", "\\=");
    ReplaceCrLfConcat(a2, b2, "\\n");
    var a3, b3 := Replace(a2, "\r\n", "\\n"), Replace(b2, "\r\n", "\\n");
    ReplaceCharConcat(a3, b3, '\n', "\\n");
    ReplaceCharConcat(Replace(a3, "\n", "\\n"), Replace(b3, "\n", "\\n"), '\r', "\\n");
  }

  lemma ReplaceOne(c: char, p: char, rep: string)
    ensures Replace([c], [p], rep) == if c == p then rep else [c]
  {
    assert [c][1..] == "";
    assert [c][..1] == [c];
  }

  lemma CefValueOne(c: char)
    ensures CefValue([c]) ==
            if c == '\\' then "\\\\" else if c == '=' then "\\="
            else if c == '\n' || c == '\r' then "\\n" else [c]
  {
    ReplaceOne(c, '\\', "\\\\");
    if c == '\\' {
      assert "\\\\" == "\\" + "\\";
      ReplaceCharConcat("\\", "\\", '=', "\\=");
      ReplaceOne('\\', '=', "\\=");
      CleanTail("\\\\");
    } else {
      ReplaceOne(c, '=', "\\=");
      if c == '=' {
        CleanTail("\\=");
      } else {
        ReplaceOne(c, '\n', "\\n");
        ReplaceOne(c, '\r', "\\n");
        if c == '\n' {
          CleanTail("\\n");
        }
      }
    }
  }

  // The last three replaces do nothing to text without a CR or an LF.
  lemma {:induction false} CleanTail(s: string)
    requires !HasNewline(s)
    ensures Replace(s, "\r\n", "\\n") == s
    ensures Replace(s, "\n", "\\n") == s
    ensures Replace(s, "\r", "\\n") == s
    decreases |s|
  {
    if s != "" {
      CleanTail(s[1..]);
    }
  }

  lemma CefValueCrLf()
    ensures CefValue("\r\n") == "\\n"
  {
    assert "\r\n" == "\r" + "\n";
    ReplaceCharConcat("\r", "\n", '\\', "\\\\");
    ReplaceOne('\r', '\\', "\\\\");
    ReplaceOne('\n', '\\', "\\\\");
    ReplaceCharConcat("\r", "\n", '=', "\\=");
    ReplaceOne('\r', '=', "\\=");
    ReplaceOne('\n', '=', "\\=");
    CleanTail("\\n");
    assert "\r\n"[2..] == "";
  }

  lemma {:induction false} FiveReplacesAreOnePass(t: string)
    ensures CefValue(t) == OnePass(t)
    decreases |t|
  {
    if t == "" {
    } else if |t| > 1 && t[..2] == "\r\n" {
      assert t == "\r\n" + t[2..];
      CefValueConcat("\r\n", t[2..]);
      CefValueCrLf();
      FiveReplacesAreOnePass(t[2..]);
    } else {
      assert t == [t[0]] + t[1..];
      assert |t| > 1 ==> t[..2] == [t[0], t[1]];
      CefValueConcat([t[0]], t[1..]);
      CefValueOne(t[0]);
      FiveReplacesAreOnePass(t[1..]);
    }
  }

  // How the three readers step over an escaped pair and over a plain character.
  lemma EscapedPair(x: char, tail: string, c: char)
    ensures var s := ['\\', x] + tail;
            && Closed(s) == Closed(tail)
            && FirstBare(s, c) == 2 + FirstBare(tail, c)
            && Unescape(s, true) == [if x == 'n' then '\n' else x] + Unescape(tail, true)
            && Unescape(s, false) == [x] + Unescape(tail, false)
  {
    assert (['\\', x] + tail)[2..] == tail;
  }

  lemma PlainChar(x: char, tail: string, c: char)
    requires x != '\\' && x != c
    ensures var s := [x] + tail;
            && Closed(s) == Closed(tail)
            && FirstBare(s, c) == 1 + FirstBare(tail, c)
            && Unescape(s, true) == [x] + Unescape(tail, true)
            && Unescape(s, false) == [x] + Unescape(tail, false)
  {
    assert ([x] + tail)[1..] == tail;
  }

  lemma {:induction false} OnePassFacts(t: string)
    ensures Unescape(OnePass(t), true) == NormalizeNewlines(t)
    ensures !HasNewline(OnePass(t))
    ensures Closed(OnePass(t))
    ensures FirstBare(OnePass(t), '=') == |OnePass(t)|
    ensures |OnePass(t)| <= 2 * |t|
    decreases |t|
  {
    if t != "" {
      var n := if |t| > 1 && t[..2] == "\r\n" then 2 else 1;
      var tail := OnePass(t[n..]);
      OnePassFacts(t[n..]);
      if t[0] == '\\' || t[0] == '=' || t[0] == '\n' || t[0] == '\r' {
        var x := if t[0] == '\\' || t[0] == '=' then t[0] else 'n';
        assert OnePass(t) == ['\\', x] + tail;
        EscapedPair(x, tail, '=');
      } else {
        assert OnePass(t) == [t[0]] + tail;
        PlainChar(t[0], tail, '=');
      }
    }
  }

  // What a collector relies on: no line break, no bare '=', and a reader gets the text back.
  lemma CefValueSafe(t: string)
    ensures Unescape(CefValue(t), true) == NormalizeNewlines(t)
    ensures !HasNewline(CefValue(t))
    ensures Closed(CefValue(t))
    ensures FirstBare(CefValue(t), '=') == |CefValue(t)|
    ensures |CefValue(t)| <= 2 * |t|
  {
    FiveReplacesAreOnePass(t);
    OnePassFacts(t);
  }

  lemma CefHeaderStep(c: char, rest: string)
    ensures CefHeader([c] + rest) ==
            (if c == '\\' then "\\\\" else if c == '|' then "\\|" else [c]) + CefHeader(rest)
  {
    ReplaceCharConcat([c], rest, '\\', "\\\\");
    ReplaceOne(c, '\\', "\\\\");
    var mid := if c == '\\' then "\\\\" else [c];
    ReplaceCharConcat(mid, Replace(rest, "\\", "\\\\"), '|', "\\|");
    if c == '\\' {
      assert mid == "\\" + "\\";
      ReplaceCharConcat("\\", "\\", '|', "\\|");
      ReplaceOne('\\', '|', "\\|");
    } else {
      ReplaceOne(c, '|', "\\|");
    }
  }

  // The header escape undoes exactly, but keeps a line break that was in the field.
  lemma {:induction false} CefHeaderSafe(t: string)
    ensures Unescape(CefHeader(t), false) == t
    ensures Closed(CefHeader(t))
    ensures FirstBare(CefHeader(t), '|') == |CefHeader(t)|
    ensures HasNewline(CefHeader(t)) == HasNewline(t)
    decreases |t|
  {
    if t != "" {
      var c, rest := t[0], t[1..];
      assert t == [c] + rest;
      CefHeaderStep(c, rest);
      CefHeaderSafe(rest);
      if c == '\\' || c == '|' {
        EscapedPair(c, CefHeader(rest), '|');
      } else {
        PlainChar(c, CefHeader(rest), '|');
      }
    }
  }

  // A bare separator after closed text is the first one.
  lemma {:induction false} FirstBareSkips(s: string, rest: string, c: char)
    requires Closed(s) && FirstBare(s, c) == |s| && c != '\\'
    ensures FirstBare(s + rest, c) == |s| + FirstBare(rest, c)
    decreases |s|
  {
    if s == "" {
      assert s + rest == rest;
    } else {
      var n := if s[0] == '\\' then 2 else 1;
      assert (s + rest)[n..] == s[n..] + rest;
      FirstBareSkips(s[n..], rest, c);
    }
  }

  lemma {:induction false} ClosedConcat(a: string, b: string)
    requires Closed(a) && Closed(b)
    ensures Closed(a + b)
    decreases |a|
  {
    if a == "" {
      assert a + b == b;
    } else {
      var n := if a[0] == '\\' then 2 else 1;
      assert (a + b)[n..] == a[n..] + b;
      ClosedConcat(a[n..], b);
    }
  }

  // Text without a backslash is closed, and bare wherever it holds c.
  lemma {:induction false} PlainText(s: string, c: char)
    requires '\\' !in s && c !in s
    ensures Closed(s) && FirstBare(s, c) == |s|
    ensures forall newlines :: Unescape(s, newlines) == s
    decreases |s|
  {
    if s != "" {
      PlainText(s[1..], c);
    }
  }
}
