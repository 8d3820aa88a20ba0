// What the fold tells apart: the identity of a finding, its title, its confidence and the counters,
// spelled out on the fields of the records.
module Identities {
  import opened Prelude
  import opened Findings
  import opened Convergence

  // ---- The frames of a stack ----

  predicate FirstApplication(frames: seq<Frame>, i: nat) {
    i < |frames| && frames[i].application && forall j :: 0 <= j < i ==> !frames[j].application
  }

  function Innermost(frames: seq<Frame>): Option<Frame> {
    if |frames| == 0 then None
    else if frames[0].application then Some(frames[0])
    else Innermost(frames[1..])
  }

  // The first application frame from the inside, and none only if there is none.
  lemma {:induction false} InnermostOf(frames: seq<Frame>)
    ensures Innermost(frames).None? ==> forall i :: 0 <= i < |frames| ==> !frames[i].application
    ensures Innermost(frames).Some? ==>
              exists i: nat :: FirstApplication(frames, i) && frames[i] == Innermost(frames).value
    decreases |frames|
  {
    if |frames| > 0 {
      if frames[0].application {
        assert FirstApplication(frames, 0);
      } else {
        InnermostOf(frames[1..]);
        assert forall j :: 0 < j < |frames| ==> frames[j] == frames[1..][j - 1];
        if Innermost(frames[1..]).Some? {
          var i: nat :| FirstApplication(frames[1..], i) && frames[1..][i] == Innermost(frames[1..]).value;
          assert FirstApplication(frames, i + 1);
        }
      }
    }
  }

  // The key of a stack is that of its innermost application frame, and empty without one.
  lemma {:induction false} StackKeyOf(frames: seq<Frame>, i: nat)
    ensures FirstApplication(frames, i) ==> StackKey(frames) == frames[i].declaringClass + "#" + frames[i].method_
    ensures (forall j :: 0 <= j < |frames| ==> !frames[j].application) ==> StackKey(frames) == ""
    decreases |frames|
  {
    if |frames| > 0 && !frames[0].application {
      assert forall j :: 0 <= j < |frames| - 1 ==> frames[1..][j] == frames[j + 1];
      StackKeyOf(frames[1..], if i > 0 then i - 1 else 0);
      if FirstApplication(frames, i) {
        assert i > 0 && FirstApplication(frames[1..], i - 1);
      }
    }
  }

  lemma HashSplits(a: string, b: string, c: string, d: string)
    requires '#' !in a && '#' !in c
    ensures a + "#" + b == c + "#" + d <==> a == c && b == d
  {
    var x, y := a + "#" + b, c + "#" + d;
    assert x[|a|] == '#' && y[|c|] == '#';
    assert x[..|a|] == a && y[..|c|] == c;
    assert x[|a| + 1..] == b && y[|c| + 1..] == d;
    if |a| < |c| {
      assert y[|a|] == c[|a|];
    } else if |c| < |a| {
      assert x[|c|] == a[|c|];
    }
  }

  // No class name holds the separator.
  predicate PlainClass(f: Option<Frame>) {
    f.Some? ==> '#' !in f.value.declaringClass
  }

  predicate SameFrame(f: Option<Frame>, g: Option<Frame>) {
    f.None? == g.None?
    && (f.Some? && g.Some? ==> f.value.declaringClass == g.value.declaringClass && f.value.method_ == g.value.method_)
  }

  lemma SameKeyExactlyWhen(frames: seq<Frame>, frames': seq<Frame>)
    requires PlainClass(Innermost(frames)) && PlainClass(Innermost(frames'))
    ensures StackKey(frames) == StackKey(frames') <==> SameFrame(Innermost(frames), Innermost(frames'))
  {
    var f, g := Innermost(frames), Innermost(frames');
    KeyOfInnermost(frames);
    KeyOfInnermost(frames');
    if f.Some? && g.Some? {
      HashSplits(f.value.declaringClass, f.value.method_, g.value.declaringClass, g.value.method_);
    }
  }

  lemma KeyOfInnermost(frames: seq<Frame>)
    ensures var f := Innermost(frames);
            StackKey(frames) == if f.None? then "" else f.value.declaringClass + "#" + f.value.method_
  {
    InnermostOf(frames);
    if Innermost(frames).None? {
      StackKeyOf(frames, 0);
    } else {
      var i: nat :| FirstApplication(frames, i) && frames[i] == Innermost(frames).value;
      StackKeyOf(frames, i);
    }
  }

  // ---- Which records count, and toward which finding ----

  // A record is admitted exactly when it is a taint hit of a registered agent with a known rule.
  lemma AdmittedExactlyWhen(setup: Setup, o: Uuid, r: Record)
    ensures Decide(setup, o, r).Ignore? <==> !r.taintHit
    ensures Decide(setup, o, r).Admit? <==>
              && r.taintHit && r.agent != "" && (o, r.agent) in setup.registry
              && r.hit.Some? && r.hit.value.ruleKey in setup.titles
    ensures Decide(setup, o, r).Admit? ==>
              Decide(setup, o, r).hit == r.hit.value && Decide(setup, o, r).context == setup.registry[(o, r.agent)]
  {
  }

  // Same application, rule, normalised signature, source kind and innermost application frame.
  predicate Agree(setup: Setup, o: Uuid, r: Record, r': Record)
    requires (o, r.agent) in setup.registry && (o, r'.agent) in setup.registry && r.hit.Some? && r'.hit.Some?
  {
    && setup.registry[(o, r.agent)].application == setup.registry[(o, r'.agent)].application
    && r.hit.value.ruleKey == r'.hit.value.ruleKey
    && r.hit.value.signatureKey == r'.hit.value.signatureKey
    && r.hit.value.sourceKind == r'.hit.value.sourceKind
    && SameFrame(Innermost(r.hit.value.frames), Innermost(r'.hit.value.frames))
  }

  predicate Plain(r: Record) {
    r.hit.Some? ==> PlainClass(Innermost(r.hit.value.frames))
  }

  lemma SameIdentityExactlyWhen(setup: Setup, o: Uuid, r: Record, r': Record)
    requires Decide(setup, o, r).Admit? && Decide(setup, o, r').Admit? && Plain(r) && Plain(r')
    ensures Decide(setup, o, r).identity == Decide(setup, o, r').identity <==> Agree(setup, o, r, r')
  {
    SameKeyExactlyWhen(r.hit.value.frames, r'.hit.value.frames);
  }

  lemma AdmittedKeys(setup: Setup, o: Uuid, rows: Rows, r: Record)
    requires Decide(setup, o, r).Admit?
    ensures Apply(setup, o, rows, r).0.Keys == rows.Keys + {Decide(setup, o, r).identity}
  {
  }

  // Two admitted records of a tenant end up in one row exactly when they agree in those fields.
  lemma ShareARowExactlyWhen(setup: Setup, o: Uuid, r: Record, r': Record)
    requires r.organization == Some(o) && r'.organization == Some(o)
    requires Decide(setup, o, r).Admit? && Decide(setup, o, r').Admit? && Plain(r) && Plain(r')
    ensures |At(FoldStream(Applying(setup), map[], [r, r']).0, o)| == if Agree(setup, o, r, r') then 1 else 2
  {
    var id, id' := Decide(setup, o, r).identity, Decide(setup, o, r').identity;
    SameIdentityExactlyWhen(setup, o, r, r');
    FoldOfTwo(Applying(setup), o, r, r');
    var first := Apply(setup, o, map[], r).0;
    var second := Apply(setup, o, first, r').0;
    AdmittedKeys(setup, o, map[], r);
    AdmittedKeys(setup, o, first, r');
    TwoKeys(second, id, id');
  }

  lemma TwoKeys(rows: Rows, id: Identity, id': Identity)
    requires rows.Keys == {id} + {id'}
    ensures |rows| == if id == id' then 1 else 2
  {
    assert |rows| == |rows.Keys|;
    assert id == id' ==> rows.Keys == {id};
    assert id != id' ==> rows.Keys == {id, id'};
  }

  lemma FoldOfTwo(step: Step, o: Uuid, r: Record, r': Record)
    requires r.organization == Some(o) && r'.organization == Some(o)
    ensures At(FoldStream(step, map[], [r, r']).0, o) == step(o, step(o, map[], r).0, r').0
  {
    assert [r, r'][..1] == [r] && [r][..0] == [];
    assert FoldStream(step, map[], [r]).0 == FoldOne(step, map[], r).0;
  }

  // ---- The title ----

  // What follows the last dot.
  lemma {:induction false} SimpleNameOf(s: string)
    ensures var n := SimpleName(s);
            && |n| <= |s| && n == s[|s| - |n|..] && '.' !in n
            && (|n| < |s| ==> s[|s| - |n| - 1] == '.')
    decreases |s|
  {
    if s != "" && s[|s| - 1] != '.' {
      SimpleNameOf(s[..|s| - 1]);
    }
  }

  predicate Titled(frames: seq<Frame>, i: nat) {
    i < |frames| && frames[i].application && frames[i].declaringClass != ""
    && forall j :: 0 <= j < i ==> !(frames[j].application && frames[j].declaringClass != "")
  }

  // The title names the innermost application frame with a class, cut at two hundred characters, and is
  // the rule's own title without one.
  lemma {:induction false} TitleOf(name: string, frames: seq<Frame>, i: nat)
    ensures Titled(frames, i) ==>
              var full := name + " in " + SimpleName(frames[i].declaringClass) + "." + frames[i].method_;
              Title(name, frames) == if |full| <= 200 then full else full[..200]
    ensures (forall j :: 0 <= j < |frames| ==> !(frames[j].application && frames[j].declaringClass != "")) ==>
              Title(name, frames) == name
    decreases |frames|
  {
    if |frames| > 0 && !(frames[0].application && frames[0].declaringClass != "") {
      assert forall j :: 0 <= j < |frames| - 1 ==> frames[1..][j] == frames[j + 1];
      TitleOf(name, frames[1..], if i > 0 then i - 1 else 0);
      if Titled(frames, i) {
        assert i > 0 && Titled(frames[1..], i - 1);
      }
    }
  }

  // ---- The confidence ----

  // Exploited if any record of the finding was, suspected only if all of them were.
  lemma ConfidenceOf(setup: Setup, o: Uuid, records: seq<Record>, id: Identity)
    requires id in CoreFold(setup, o, map[], records)
    ensures var c := CoreFold(setup, o, map[], records)[id].confidence;
            && (c == EXPLOITED <==> exists i :: 0 <= i < |records| && Admits(setup, o, records[i], id)
                                                && Decide(setup, o, records[i]).hit.confidence == EXPLOITED)
            && (c == SUSPECTED <==> forall i :: 0 <= i < |records| && Admits(setup, o, records[i], id) ==>
                                                  Decide(setup, o, records[i]).hit.confidence == SUSPECTED)
  {
    ConfidenceIsTheHighest(setup, o, records, id);
  }

  // ---- The places ----

  predicate Reports(setup: Setup, o: Uuid, r: Record, id: Identity, environment: string) {
    Admits(setup, o, r, id) && Decide(setup, o, r).context.environment == environment
  }

  // The environments listed are those of the agents whose records were admitted, the nameless one aside.
  lemma {:induction false} EnvironmentsOf(setup: Setup, o: Uuid, records: seq<Record>, id: Identity, environment: string)
    requires id in CoreFold(setup, o, map[], records)
    ensures environment in CoreFold(setup, o, map[], records)[id].environments
       <==> environment != "" && exists i :: 0 <= i < |records| && Reports(setup, o, records[i], id, environment)
    decreases |records|
  {
    var n := |records| - 1;
    var before := CoreFold(setup, o, map[], records[..n]);
    StepOnFinding(setup, o, before, records[n], id);
    FoundExactlyWhenAdmitted(setup, o, records[..n], id);
    if id in before {
      EnvironmentsOf(setup, o, records[..n], id, environment);
    }
    assert forall i :: 0 <= i < n ==> records[..n][i] == records[i];
  }

  predicate Takes(setup: Setup, o: Uuid, r: Record, id: Identity, route: string) {
    Admits(setup, o, r, id) && Decide(setup, o, r).hit.route == route
  }

  // At most twenty routes are listed, each taken by an admitted record.
  lemma {:induction false} RoutesOf(setup: Setup, o: Uuid, records: seq<Record>, id: Identity, route: string)
    requires id in CoreFold(setup, o, map[], records)
    ensures |CoreFold(setup, o, map[], records)[id].routes| <= 20
    ensures route in CoreFold(setup, o, map[], records)[id].routes ==>
              route != "" && exists i :: 0 <= i < |records| && Takes(setup, o, records[i], id, route)
    decreases |records|
  {
    var n := |records| - 1;
    var before := CoreFold(setup, o, map[], records[..n]);
    StepOnFinding(setup, o, before, records[n], id);
    if id in before {
      RoutesOf(setup, o, records[..n], id, route);
    }
    assert forall i :: 0 <= i < n ==> records[..n][i] == records[i];
  }

  // While there is room, every route an admitted record took is listed.
  lemma RoutesAreListed(setup: Setup, o: Uuid, records: seq<Record>, id: Identity, i: nat)
    requires i < |records| && Admits(setup, o, records[i], id)
    ensures id in CoreFold(setup, o, map[], records)
    ensures var c, route := CoreFold(setup, o, map[], records)[id], Decide(setup, o, records[i]).hit.route;
            route != "" && |c.routes| < 20 ==> route in c.routes
  {
    FoundExactlyWhenAdmitted(setup, o, records, id);
    FoldAbsorbs(setup, o, records, i);
  }

  // ---- The counters ----

  lemma UpsertMarks(setup: Setup, row: Option<Row>, context: AgentContext, hit: Hit, at: int)
    requires hit.ruleKey in setup.titles
    ensures var t := Upsert(setup, row, context, hit, at).1;
            && t[IGNORED] == 0 && t[REJECTED] == 0
            && t[CREATED] == (if row.None? then 1 else 0) && t[UPDATED] == (if row.None? then 0 else 1)
            && t[REGRESSED] == (if row.Some? && row.value.finding.status == REMEDIATED then 1 else 0)
            && t[STORED] == |Upsert(setup, row, context, hit, at).0.evidence|
                            - (if row.None? then 0 else |row.value.evidence|)
  {
  }

  // What one record adds to each counter.
  lemma CountedAs(setup: Setup, o: Uuid, rows: Rows, r: Record)
    ensures var (rows', t) := Apply(setup, o, rows, r);
            && t[IGNORED] == (if !r.taintHit then 1 else 0)
            && t[REJECTED] == (if r.taintHit && !Decide(setup, o, r).Admit? then 1 else 0)
            && t[CREATED] == |rows'| - |rows|
            && t[CREATED] + t[UPDATED] == (if Decide(setup, o, r).Admit? then 1 else 0)
  {
    match Decide(setup, o, r)
    case Ignore =>
    case Refuse(_) =>
    case Admit(id, context, hit) =>
      UpsertMarks(setup, Find(rows, id), context, hit, r.observedAt);
      AdmittedKeys(setup, o, rows, r);
      var rows' := Apply(setup, o, rows, r).0;
      assert |rows'| == |rows'.Keys| && |rows| == |rows.Keys|;
  }

  function Skipped(records: seq<Record>): nat {
    if |records| == 0 then 0
    else
      var r := records[|records| - 1];
      Skipped(records[..|records| - 1]) + if r.organization.Some? && !r.taintHit then 1 else 0
  }

  function Turned(setup: Setup, records: seq<Record>): nat {
    if |records| == 0 then 0
    else
      var r := records[|records| - 1];
      Turned(setup, records[..|records| - 1])
      + if r.organization.None? || (r.taintHit && !Decide(setup, r.organization.value, r).Admit?) then 1 else 0
  }

  // Ignored are the usable records that are no taint hits; rejected those without a usable organization
  // and the taint hits that are not admitted.
  lemma {:induction false} IgnoredAndRejected(setup: Setup, store: Store, records: seq<Record>)
    ensures var t := FoldStream(Applying(setup), store, records).1;
            t[IGNORED] == Skipped(records) && t[REJECTED] == Turned(setup, records)
    decreases |records|
  {
    if |records| > 0 {
      var before, r := records[..|records| - 1], records[|records| - 1];
      IgnoredAndRejected(setup, store, before);
      if r.organization.Some? {
        CountedAs(setup, r.organization.value, At(FoldStream(Applying(setup), store, before).0, r.organization.value), r);
      }
    }
  }
}
