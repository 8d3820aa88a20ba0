// What a collector learns from a CEF line: which value of the finding stands under which key, and that
// the numbers in it are the finding's numbers.
module CefFields {
  import opened Prelude
  import opened CefText
  import opened CefLine

  // ---- Numbers ----

  // The number a string of digits stands for.
  function ValueOf(digits: string): int {
    if digits == "" then 0
    else 10 * ValueOf(digits[..|digits| - 1]) + (digits[|digits| - 1] as int - 48)
  }

  predicate Digits(s: string) {
    s != "" && forall i :: 0 <= i < |s| ==> '0' <= s[i] <= '9'
  }

  // A number is printed in digits that stand for it, without leading zeros, a negative one after a minus.
  lemma {:induction false} DecimalDenotes(n: int)
    ensures n >= 0 ==> Digits(Decimal(n)) && ValueOf(Decimal(n)) == n && (Decimal(n)[0] == '0' ==> n == 0)
    ensures n < 0 ==>
              Decimal(n) != "" && Decimal(n)[0] == '-' && Digits(Decimal(n)[1..]) && ValueOf(Decimal(n)[1..]) == -n
    decreases n < 0, if n < 0 then -n else n
  {
    if n < 0 {
      DecimalDenotes(-n);
      assert Decimal(n)[1..] == Decimal(-n);
    } else if n >= 10 {
      DecimalDenotes(n / 10);
      var s := Decimal(n);
      assert s[..|s| - 1] == Decimal(n / 10);
    } else {
      assert Decimal(n)[..0] == "";
    }
  }

  // The severity is the integer nearest the score, of two equally near the even one.
  lemma RoundsToNearest(x: real, n: int)
    ensures RoundHalfEven(x) == n
       <==> -0.5 < x - n as real < 0.5 || ((x - n as real == 0.5 || x - n as real == -0.5) && n % 2 == 0)
  {
  }

  lemma TruncatedIsPrefix(s: string, limit: nat)
    ensures Truncated(s, limit) <= s && |Truncated(s, limit)| == Min(|s|, limit)
  {
  }

  // ---- Fields ----

  // The fields every line carries.
  predicate CarriesAlways(f: Finding, key: string, value: string) {
    || (key == "externalId" && value == f.identityHash)
    || (key == "cat" && value == f.ruleKey)
    || (key == "cs1Label" && value == "status")
    || (key == "cs1" && value == f.status)
    || (key == "cs2Label" && value == "confidence")
    || (key == "cs2" && value == f.confidence)
    || (key == "cs3Label" && value == "sink")
    || (key == "cs3" && value == f.sinkSignature)
    || (key == "cs4Label" && value == "sourceKind")
    || (key == "cs4" && value == f.sourceKind)
  }

  predicate CarriesCounts(f: Finding, key: string, value: string) {
    || (key == "cn1Label" && value == "occurrences")
    || (key == "cn1" && value == Decimal(f.occurrenceCount))
    || (key == "cn2Label" && value == "wouldBlock")
    || (key == "cn2" && value == Decimal(f.wouldBlockCount))
  }

  // The fields that stand there when the finding has them.
  predicate CarriesIfKnown(f: Finding, key: string, value: string) {
    || (f.cweId.Some? && key == "cs5Label" && value == "cwe")
    || (f.cweId.Some? && key == "cs5" && value == "CWE-" + Decimal(f.cweId.value))
    || (f.lastSeenMs.Some? && key == "end" && value == Decimal(f.lastSeenMs.value))
    || (f.environments != [] && key == "deviceCustomString6Label" && value == "environments")
    || (f.environments != [] && key == "deviceCustomString6" && value == Join(f.environments, ","))
  }

  // The fields of the occurrence that are not empty.
  predicate CarriesEvidence(o: Occurrence, limit: nat, key: string, value: string) {
    || (o.remoteAddress != "" && key == "src" && value == o.remoteAddress)
    || (o.requestMethod != "" && key == "requestMethod" && value == o.requestMethod)
    || (o.requestPath != "" && key == "request" && value == o.requestPath)
    || (o.sinkArgument != "" && key == "msg" && value == Truncated(o.sinkArgument, limit))
  }

  predicate Carries(f: Finding, occurrence: Option<Occurrence>, limit: nat, key: string, value: string) {
    || CarriesAlways(f, key, value)
    || CarriesCounts(f, key, value)
    || CarriesIfKnown(f, key, value)
    || (occurrence.Some? && CarriesEvidence(occurrence.value, limit, key, value))
  }

  lemma AlwaysFields(f: Finding, key: string, value: string)
    ensures (key, value) in IdentityFields(f) <==> CarriesAlways(f, key, value)
    ensures (key, value) in CountFields(f) <==> CarriesCounts(f, key, value)
  {
  }

  lemma KnownFields(f: Finding, key: string, value: string)
    ensures (key, value) in OptionalFields(f) <==> CarriesIfKnown(f, key, value)
  {
  }

  lemma EvidenceIs(o: Occurrence, limit: nat, key: string, value: string)
    ensures (key, value) in EvidenceFields(o, limit) <==> CarriesEvidence(o, limit, key, value)
  {
  }

  lemma ExtensionsCarry(f: Finding, occurrence: Option<Occurrence>, limit: nat, key: string, value: string)
    ensures (key, value) in Extensions(f, occurrence, limit) <==> Carries(f, occurrence, limit, key, value)
  {
    AlwaysFields(f, key, value);
    KnownFields(f, key, value);
    if occurrence.Some? {
      EvidenceIs(occurrence.value, limit, key, value);
    }
  }

  // A reader of the printed line finds the product and the finding in the header, the severity rounded,
  // and under each key what the finding and the occurrence say, with line breaks normalised.
  lemma ReaderLearns(f: Finding, occurrence: Option<Occurrence>, version: string, limit: nat)
    ensures var reading := ReadLine(Line(f, occurrence, version, limit));
            && reading.Some?
            && reading.value.header == ["CEF:0", "Aegis", "Aegis IAST", version, f.ruleKey, f.title,
                                        Decimal(RoundHalfEven(f.riskScore))]
            && forall field :: field in reading.value.extension
                 <==> exists value :: Carries(f, occurrence, limit, field.0, value) && field.1 == NormalizeNewlines(value)
  {
    ExtensionKeys(f, occurrence, limit);
    LineRoundTrip(HeaderFields(f, version), Extensions(f, occurrence, limit));
    NormalizedMembers(f, occurrence, limit);
  }

  lemma NormalizedMembers(f: Finding, occurrence: Option<Occurrence>, limit: nat)
    ensures forall field :: field in Normalized(Extensions(f, occurrence, limit))
              <==> exists value :: Carries(f, occurrence, limit, field.0, value) && field.1 == NormalizeNewlines(value)
  {
    var raw := Extensions(f, occurrence, limit);
    var read := Normalized(raw);
    forall field ensures field in read
      <==> exists value :: Carries(f, occurrence, limit, field.0, value) && field.1 == NormalizeNewlines(value)
    {
      if field in read {
        var i :| 0 <= i < |read| && read[i] == field;
        assert (raw[i].0, raw[i].1) in raw;
        ExtensionsCarry(f, occurrence, limit, raw[i].0, raw[i].1);
      }
      if value :| Carries(f, occurrence, limit, field.0, value) && field.1 == NormalizeNewlines(value) {
        ExtensionsCarry(f, occurrence, limit, field.0, value);
        var i :| 0 <= i < |raw| && raw[i] == (field.0, value);
        assert read[i] == field;
      }
    }
  }
}
