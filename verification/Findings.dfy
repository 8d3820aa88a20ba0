// The worker's fold of runtime events into findings: ProcessRuntimeEvents of
// apps/api/src/aegis_api/application/findings.py over the entity in domain/entities/findings.py.
// A finding's identity is the tuple its hash is taken over.
module Findings {
  import opened Prelude

  // A 128-bit id, read as a number.
  type Uuid = nat

  datatype Severity = INFO | LOW | MEDIUM | HIGH | CRITICAL

  datatype Confidence = SUSPECTED | CONFIRMED | EXPLOITED

  function Rank(c: Confidence): nat {
    match c case SUSPECTED => 0 case CONFIRMED => 1 case EXPLOITED => 2
  }

  datatype Status = OPEN | CONFIRMED | REMEDIATED | FALSE_POSITIVE | ACCEPTED_RISK {
    predicate Suppressed() {
      FALSE_POSITIVE? || ACCEPTED_RISK?
    }
  }

  datatype Frame = Frame(declaringClass: string, method_: string, application: bool)

  // A taint hit after its field readers have run. signatureKey is the normalised signature.
  datatype Hit = Hit(ruleKey: string, signature: string, signatureKey: string, sourceKind: string,
                     frames: seq<Frame>, severity: Severity, confidence: Confidence, route: string)

  // One stream record. A missing organization is an unusable id, a missing hit an unusable payload.
  datatype Record = Record(organization: Option<Uuid>, taintHit: bool, agent: string,
                           hit: Option<Hit>, observedAt: int)

  datatype AgentContext = AgentContext(application: string, environment: string, blocking: bool)

  // The collaborators: the agent registry by organization, the titles by rule, the sampling interval.
  datatype Setup = Setup(registry: map<(Uuid, string), AgentContext>, titles: map<string, string>,
                         evidenceInterval: int)

  datatype Identity = Identity(organization: Uuid, application: string, ruleKey: string,
                               signatureKey: string, sourceKind: string, stackKey: string)

  datatype Finding = Finding(
    ruleKey: string, title: string, severity: Severity, confidence: Confidence, signature: string,
    status: Status, regressed: bool, occurrences: nat, suppressed: nat, wouldBlock: nat,
    environments: seq<string>, routes: seq<string>, firstSeen: Option<int>, lastSeen: Option<int>)

  // A finding with the observation times of its stored evidence samples.
  datatype Row = Row(finding: Finding, evidence: seq<int>)

  type Rows = map<Identity, Row>

  type Store = map<Uuid, Rows>

  const MAX_ROUTES: nat := 20

  function Cut(s: string, n: nat): string {
    if |s| <= n then s else s[..n]
  }

  // The text after the last dot.
  function SimpleName(s: string): string
    decreases |s|
  {
    if s == "" then ""
    else if s[|s| - 1] == '.' then ""
    else SimpleName(s[..|s| - 1]) + [s[|s| - 1]]
  }

  function Title(name: string, frames: seq<Frame>): string {
    if |frames| == 0 then name
    else if frames[0].application && frames[0].declaringClass != "" then
      Cut(name + " in " + SimpleName(frames[0].declaringClass) + "." + frames[0].method_, 200)
    else Title(name, frames[1..])
  }

  // Only the innermost application frame counts.
  function StackKey(frames: seq<Frame>): string {
    if |frames| == 0 then ""
    else if frames[0].application then frames[0].declaringClass + "#" + frames[0].method_
    else StackKey(frames[1..])
  }

  datatype Refusal = NoAgent | UnknownAgent | NoPayload | UnknownRule

  datatype Decision =
    | Ignore
    | Refuse(why: Refusal)
    | Admit(identity: Identity, context: AgentContext, hit: Hit)

  function Decide(setup: Setup, organization: Uuid, r: Record): Decision {
    if !r.taintHit then Ignore
    else if r.agent == "" then Refuse(NoAgent)
    else if (organization, r.agent) !in setup.registry then Refuse(UnknownAgent)
    else if r.hit.None? then Refuse(NoPayload)
    else if r.hit.value.ruleKey !in setup.titles then Refuse(UnknownRule)
    else
      var context, hit := setup.registry[(organization, r.agent)], r.hit.value;
      Admit(Identity(organization, context.application, hit.ruleKey, hit.signatureKey, hit.sourceKind,
                     StackKey(hit.frames)), context, hit)
  }

  function Created(setup: Setup, hit: Hit): Finding
    requires hit.ruleKey in setup.titles
  {
    Finding(hit.ruleKey, Title(setup.titles[hit.ruleKey], hit.frames), hit.severity, hit.confidence,
            Cut(hit.signature, 400), OPEN, false, 0, 0, 0, [], [], None, None)
  }

  function Raised(f: Finding, c: Confidence): Finding {
    if Rank(c) > Rank(f.confidence) then f.(confidence := c) else f
  }

  function WouldBlock(f: Finding, context: AgentContext): Finding {
    if f.confidence == EXPLOITED && !context.blocking then f.(wouldBlock := f.wouldBlock + 1) else f
  }

  function WithEnvironment(seen: seq<string>, environment: string): seq<string> {
    if environment != "" && environment !in seen then seen + [environment] else seen
  }

  function WithRoute(routes: seq<string>, route: string): seq<string> {
    if route != "" && route !in routes then
      var longer := routes + [route];
      if |longer| <= MAX_ROUTES then longer else longer[..MAX_ROUTES]
    else routes
  }

  // Finding.record_occurrence: a suppressed finding counts apart, a remediated one reopens.
  function Sighted(f: Finding, environment: string, route: string, at: int): (Finding, bool) {
    var g := f.(lastSeen := Some(at),
                firstSeen := if f.firstSeen.None? then Some(at) else f.firstSeen,
                environments := WithEnvironment(f.environments, environment),
                routes := WithRoute(f.routes, route));
    if f.status.Suppressed() then (g.(suppressed := g.suppressed + 1), false)
    else
      var h := g.(occurrences := g.occurrences + 1);
      if f.status == REMEDIATED then (h.(status := OPEN, regressed := true), true) else (h, false)
  }

  function Latest(times: seq<int>): (t: int)
    requires |times| > 0
    ensures t in times
    ensures forall u :: u in times ==> u <= t
  {
    if |times| == 1 then times[0]
    else
      var u := Latest(times[..|times| - 1]);
      assert times == times[..|times| - 1] + [times[|times| - 1]];
      Max(u, times[|times| - 1])
  }

  predicate KeepEvidence(setup: Setup, f: Finding, evidence: seq<int>, at: int) {
    f.occurrences <= 1 || |evidence| == 0 || at - Latest(evidence) >= setup.evidenceInterval
  }

  // ProcessingResult's counters: how often each of these happened.
  datatype Mark = CREATED | UPDATED | REGRESSED | STORED | REJECTED | IGNORED

  type Tally = multiset<Mark>

  function Rejects(n: nat): Tally {
    multiset{}[REJECTED := n]
  }

  function Marks(created: bool, regressed: bool, stored: bool): Tally {
    multiset{if created then CREATED else UPDATED}
    + (if regressed then multiset{REGRESSED} else multiset{})
    + (if stored then multiset{STORED} else multiset{})
  }

  // One admitted event on the row of its identity.
  function Upsert(setup: Setup, row: Option<Row>, context: AgentContext, hit: Hit, at: int): (Row, Tally)
    requires hit.ruleKey in setup.titles
  {
    var f := if row.None? then Created(setup, hit) else Raised(row.value.finding, hit.confidence);
    var (g, regressed) := Sighted(WouldBlock(f, context), context.environment, hit.route, at);
    var evidence := if row.None? then [] else row.value.evidence;
    var keep := KeepEvidence(setup, g, evidence, at);
    (Row(g, if keep then evidence + [at] else evidence),
     Marks(row.None?, regressed, keep))
  }

  function Find(rows: Rows, identity: Identity): Option<Row> {
    if identity in rows then Some(rows[identity]) else None
  }

  // One record of one tenant.
  function Apply(setup: Setup, organization: Uuid, rows: Rows, r: Record): (Rows, Tally) {
    match Decide(setup, organization, r)
    case Ignore => (rows, multiset{IGNORED})
    case Refuse(_) => (rows, multiset{REJECTED})
    case Admit(identity, context, hit) =>
      var (row, tally) := Upsert(setup, Find(rows, identity), context, hit, r.observedAt);
      (rows[identity := row], tally)
  }

  // How one tenant's rows take one record; the grouping argument does not look inside.
  type Step = (Uuid, Rows, Record) -> (Rows, Tally)

  function Applying(setup: Setup): Step {
    (o: Uuid, rows: Rows, r: Record) => Apply(setup, o, rows, r)
  }

  function FoldTenant(step: Step, organization: Uuid, rows: Rows, records: seq<Record>): (Rows, Tally)
    decreases |records|
  {
    if |records| == 0 then (rows, multiset{})
    else
      var (before, tally) := FoldTenant(step, organization, rows, records[..|records| - 1]);
      var (after, delta) := step(organization, before, records[|records| - 1]);
      (after, tally + delta)
  }

  function At(store: Store, organization: Uuid): Rows {
    if organization in store then store[organization] else map[]
  }

  // The reference: records folded one by one in stream order.
  function FoldOne(step: Step, store: Store, r: Record): (Store, Tally) {
    match r.organization
    case None => (store, multiset{REJECTED})
    case Some(o) =>
      var (rows, tally) := step(o, At(store, o), r);
      (store[o := rows], tally)
  }

  function FoldStream(step: Step, store: Store, records: seq<Record>): (Store, Tally)
    decreases |records|
  {
    if |records| == 0 then (store, multiset{})
    else
      var (before, tally) := FoldStream(step, store, records[..|records| - 1]);
      var (after, delta) := FoldOne(step, before, records[|records| - 1]);
      (after, tally + delta)
  }

  // What the worker runs: one transaction per tenant, over that tenant's records.
  function For(records: seq<Record>, organization: Uuid): seq<Record>
    decreases |records|
  {
    if |records| == 0 then []
    else
      var r := records[|records| - 1];
      var before := For(records[..|records| - 1], organization);
      if r.organization == Some(organization) then before + [r] else before
  }

  // Tenants in order of first appearance, the order a Python dictionary keeps.
  function Tenants(records: seq<Record>): seq<Uuid>
    decreases |records|
  {
    if |records| == 0 then []
    else
      var order, r := Tenants(records[..|records| - 1]), records[|records| - 1];
      if r.organization.None? || r.organization.value in order then order else order + [r.organization.value]
  }

  lemma {:induction false} TenantsAreDistinct(records: seq<Record>)
    ensures Distinct(Tenants(records))
    decreases |records|
  {
    if |records| > 0 {
      TenantsAreDistinct(records[..|records| - 1]);
    }
  }

  predicate Distinct(order: seq<Uuid>) {
    forall i, j :: 0 <= i < j < |order| ==> order[i] != order[j]
  }

  function Unusable(records: seq<Record>): nat
    decreases |records|
  {
    if |records| == 0 then 0
    else Unusable(records[..|records| - 1]) + if records[|records| - 1].organization.None? then 1 else 0
  }

  function FoldGroups(step: Step, store: Store, records: seq<Record>, order: seq<Uuid>): (Store, Tally)
    decreases |order|
  {
    if |order| == 0 then (store, multiset{})
    else
      var (before, tally) := FoldGroups(step, store, records, order[..|order| - 1]);
      var o := order[|order| - 1];
      var (rows, delta) := FoldTenant(step, o, At(before, o), For(records, o));
      (before[o := rows], tally + delta)
  }

  // ---- Grouping by tenant keeps the meaning ----

  lemma {:induction false} StreamAtTenant(step: Step, store: Store, records: seq<Record>, o: Uuid)
    ensures At(FoldStream(step, store, records).0, o)
         == FoldTenant(step, o, At(store, o), For(records, o)).0
    decreases |records|
  {
    if |records| > 0 {
      var before, r := records[..|records| - 1], records[|records| - 1];
      StreamAtTenant(step, store, before, o);
      if r.organization == Some(o) {
        assert (For(before, o) + [r])[..|For(before, o)|] == For(before, o);
      }
    }
  }

  lemma {:induction false} StreamTenants(step: Step, store: Store, records: seq<Record>)
    ensures forall o :: o in FoldStream(step, store, records).0 <==> o in store || o in Tenants(records)
    decreases |records|
  {
    if |records| > 0 {
      StreamTenants(step, store, records[..|records| - 1]);
    }
  }

  lemma {:induction false} GroupsAtTenant(step: Step, store: Store, records: seq<Record>, order: seq<Uuid>, o: Uuid)
    requires Distinct(order)
    ensures At(FoldGroups(step, store, records, order).0, o)
         == if o in order then FoldTenant(step, o, At(store, o), For(records, o)).0 else At(store, o)
    ensures o in FoldGroups(step, store, records, order).0 <==> o in store || o in order
    decreases |order|
  {
    if |order| > 0 {
      var last := order[|order| - 1];
      GroupsAtTenant(step, store, records, order[..|order| - 1], o);
      if o == last {
        assert o !in order[..|order| - 1];
      }
    }
  }

  lemma {:induction false} ForEmpty(records: seq<Record>, o: Uuid)
    requires o !in Tenants(records)
    ensures For(records, o) == []
    decreases |records|
  {
    if |records| > 0 {
      ForEmpty(records[..|records| - 1], o);
    }
  }

  lemma GroupsStoreIsStreamStore(step: Step, store: Store, records: seq<Record>)
    ensures FoldGroups(step, store, records, Tenants(records)).0 == FoldStream(step, store, records).0
  {
    var grouped, streamed := FoldGroups(step, store, records, Tenants(records)).0, FoldStream(step, store, records).0;
    StreamTenants(step, store, records);
    TenantsAreDistinct(records);
    forall o ensures (o in grouped <==> o in streamed) && At(grouped, o) == At(streamed, o) {
      GroupsAtTenant(step, store, records, Tenants(records), o);
      StreamAtTenant(step, store, records, o);
      if o !in Tenants(records) {
        ForEmpty(records, o);
      }
    }
    assert forall o :: o in grouped ==> grouped[o] == At(grouped, o) && streamed[o] == At(streamed, o);
  }

  // The counters of each tenant's records, seen from the store the batch began with.
  function PerTenant(step: Step, store: Store, records: seq<Record>): Uuid -> Tally {
    (o: Uuid) => FoldTenant(step, o, At(store, o), For(records, o)).1
  }

  function Sum(f: Uuid -> Tally, order: seq<Uuid>): Tally
    decreases |order|
  {
    if |order| == 0 then multiset{}
    else Sum(f, order[..|order| - 1]) + f(order[|order| - 1])
  }

  lemma {:induction false} GroupsTally(step: Step, store: Store, records: seq<Record>, order: seq<Uuid>)
    requires Distinct(order)
    ensures FoldGroups(step, store, records, order).1 == Sum(PerTenant(step, store, records), order)
    decreases |order|
  {
    if |order| > 0 {
      var last := order[|order| - 1];
      GroupsTally(step, store, records, order[..|order| - 1]);
      GroupsAtTenant(step, store, records, order[..|order| - 1], last);
      assert last !in order[..|order| - 1];
    }
  }

  // Raising one tenant's counters raises the sum by as much, if the tenant is in it.
  lemma {:induction false} SumChange(f: Uuid -> Tally, g: Uuid -> Tally, order: seq<Uuid>, x: Uuid, d: Tally)
    requires Distinct(order)
    requires forall o :: o != x ==> f(o) == g(o)
    requires f(x) == g(x) + d
    ensures x in order ==> Sum(f, order) == Sum(g, order) + d
    ensures x !in order ==> Sum(f, order) == Sum(g, order)
    decreases |order|
  {
    if |order| > 0 {
      SumChange(f, g, order[..|order| - 1], x, d);
    }
  }

  lemma {:induction false} SumSame(f: Uuid -> Tally, g: Uuid -> Tally, order: seq<Uuid>)
    requires forall o :: f(o) == g(o)
    ensures Sum(f, order) == Sum(g, order)
    decreases |order|
  {
    if |order| > 0 {
      SumSame(f, g, order[..|order| - 1]);
    }
  }

  // What one more record of the stream adds to its own tenant's counters.
  function Delta(step: Step, store: Store, records: seq<Record>, r: Record): Tally
    requires r.organization.Some?
  {
    step(r.organization.value, At(FoldStream(step, store, records).0, r.organization.value), r).1
  }

  lemma TenantSnoc(step: Step, store: Store, records: seq<Record>, r: Record, o: Uuid)
    ensures var after, before := PerTenant(step, store, records + [r])(o), PerTenant(step, store, records)(o);
            if r.organization == Some(o) then after == before + Delta(step, store, records, r)
            else after == before
  {
    assert (records + [r])[..|records|] == records;
    if r.organization == Some(o) {
      var group := For(records, o);
      StreamAtTenant(step, store, records, o);
      assert (group + [r])[..|group|] == group;
    }
  }

  // One more record adds its own delta to the one group it belongs to, if any.
  lemma PerTenantSnoc(step: Step, store: Store, records: seq<Record>, r: Record, order: seq<Uuid>)
    requires Distinct(order)
    ensures var after, before := PerTenant(step, store, records + [r]), PerTenant(step, store, records);
            if r.organization.Some? && r.organization.value in order
            then Sum(after, order) == Sum(before, order) + Delta(step, store, records, r)
            else Sum(after, order) == Sum(before, order)
  {
    var f, g := PerTenant(step, store, records + [r]), PerTenant(step, store, records);
    if r.organization.None? {
      forall o ensures f(o) == g(o) {
        TenantSnoc(step, store, records, r, o);
      }
      SumSame(f, g, order);
    } else {
      var x := r.organization.value;
      forall o | o != x ensures f(o) == g(o) {
        TenantSnoc(step, store, records, r, o);
      }
      TenantSnoc(step, store, records, r, x);
      SumChange(f, g, order, x, Delta(step, store, records, r));
    }
  }

  lemma PlusAssociates(a: Tally, b: Tally, c: Tally)
    ensures a + b + c == a + (b + c)
  {
  }

  lemma PlusSwaps(a: Tally, b: Tally, c: Tally)
    ensures a + b + c == a + c + b
  {
  }

  lemma PlusNone(a: Tally)
    ensures (a + multiset{}) == a && (multiset{} + a) == a
  {
  }

  // A tenant's first record starts its group, with nothing counted before it.
  lemma FirstOfTenant(step: Step, store: Store, records: seq<Record>, r: Record)
    requires r.organization.Some? && r.organization.value !in Tenants(records)
    ensures Sum(PerTenant(step, store, records + [r]), Tenants(records) + [r.organization.value])
         == Sum(PerTenant(step, store, records), Tenants(records)) + Delta(step, store, records, r)
  {
    var order, o := Tenants(records), r.organization.value;
    assert (order + [o])[..|order|] == order;
    TenantsAreDistinct(records);
    PerTenantSnoc(step, store, records, r, order);
    TenantSnoc(step, store, records, r, o);
    ForEmpty(records, o);
    assert PerTenant(step, store, records)(o) == multiset{};
    PlusNone(Delta(step, store, records, r));
  }

  // The sum over the tenants of a longer stream, one record at a time.
  lemma SumOfStreamSnoc(step: Step, store: Store, records: seq<Record>, r: Record)
    requires r.organization.Some?
    ensures Sum(PerTenant(step, store, records + [r]), Tenants(records + [r]))
         == Sum(PerTenant(step, store, records), Tenants(records)) + Delta(step, store, records, r)
  {
    assert (records + [r])[..|records|] == records;
    if r.organization.value in Tenants(records) {
      TenantsAreDistinct(records);
      PerTenantSnoc(step, store, records, r, Tenants(records));
    } else {
      FirstOfTenant(step, store, records, r);
    }
  }

  lemma StreamSnoc(step: Step, store: Store, records: seq<Record>, r: Record)
    ensures var (before, tally) := FoldStream(step, store, records);
            var (after, delta) := FoldOne(step, before, r);
            FoldStream(step, store, records + [r]) == (after, tally + delta)
    ensures Unusable(records + [r]) == Unusable(records) + if r.organization.None? then 1 else 0
    ensures r.organization.None? ==> Tenants(records + [r]) == Tenants(records)
  {
    assert (records + [r])[..|records|] == records;
  }

  lemma RejectsOne(n: nat)
    ensures Rejects(n) + multiset{REJECTED} == Rejects(n + 1)
  {
    var a: Tally := Rejects(n) + multiset{REJECTED};
    assert forall m :: a[m] == Rejects(n + 1)[m];
  }

  // The stream's counters, and the sum of the tenants' with the unusable records.
  function StreamTally(step: Step, store: Store, records: seq<Record>): Tally {
    FoldStream(step, store, records).1
  }

  function GroupedTally(step: Step, store: Store, records: seq<Record>): Tally {
    (Rejects(Unusable(records)) + Sum(PerTenant(step, store, records), Tenants(records)))
  }

  lemma UnusableSnoc(step: Step, store: Store, records: seq<Record>, r: Record)
    requires r.organization.None?
    ensures StreamTally(step, store, records + [r]) == StreamTally(step, store, records) + multiset{REJECTED}
    ensures GroupedTally(step, store, records + [r]) == GroupedTally(step, store, records) + multiset{REJECTED}
  {
    var n, sum := Unusable(records), Sum(PerTenant(step, store, records), Tenants(records));
    StreamSnoc(step, store, records, r);
    TenantsAreDistinct(records);
    PerTenantSnoc(step, store, records, r, Tenants(records));
    RejectsOne(n);
    PlusSwaps(Rejects(n), sum, multiset{REJECTED});
  }

  lemma UsableSnoc(step: Step, store: Store, records: seq<Record>, r: Record)
    requires r.organization.Some?
    ensures var d := Delta(step, store, records, r);
            && StreamTally(step, store, records + [r]) == StreamTally(step, store, records) + d
            && GroupedTally(step, store, records + [r]) == GroupedTally(step, store, records) + d
  {
    var n, sum := Unusable(records), Sum(PerTenant(step, store, records), Tenants(records));
    StreamSnoc(step, store, records, r);
    SumOfStreamSnoc(step, store, records, r);
    PlusAssociates(Rejects(n), sum, Delta(step, store, records, r));
  }

  lemma {:induction false} StreamTallyIsGrouped(step: Step, store: Store, records: seq<Record>)
    ensures StreamTally(step, store, records) == GroupedTally(step, store, records)
    decreases |records|
  {
    if |records| == 0 {
      PlusNone(multiset{});
    } else {
      var before, r := records[..|records| - 1], records[|records| - 1];
      assert records == before + [r];
      StreamTallyIsGrouped(step, store, before);
      if r.organization.None? {
        UnusableSnoc(step, store, before, r);
      } else {
        UsableSnoc(step, store, before, r);
      }
    }
  }

  // Folding tenant by tenant gives the store and the counters of folding the stream in order.
  lemma GroupingKeepsMeaning(step: Step, store: Store, records: seq<Record>)
    ensures var (grouped, tally) := FoldGroups(step, store, records, Tenants(records));
            FoldStream(step, store, records) == (grouped, Rejects(Unusable(records)) + tally)
  {
    GroupsStoreIsStreamStore(step, store, records);
    TenantsAreDistinct(records);
    GroupsTally(step, store, records, Tenants(records));
    StreamTallyIsGrouped(step, store, records);
  }

  // Cutting the stream anywhere and adding the counters changes nothing.
  lemma {:induction false} CuttingKeepsMeaning(step: Step, store: Store, a: seq<Record>, b: seq<Record>)
    ensures var (middle, first) := FoldStream(step, store, a);
            var (end, second) := FoldStream(step, middle, b);
            FoldStream(step, store, a + b) == (end, first + second)
    decreases |b|
  {
    var (middle, first) := FoldStream(step, store, a);
    if |b| == 0 {
      assert a + b == a;
      PlusNone(first);
    } else {
      var shorter, r := b[..|b| - 1], b[|b| - 1];
      CuttingKeepsMeaning(step, store, a, shorter);
      assert (a + b)[..|a + b| - 1] == a + shorter;
      var (before, tally) := FoldStream(step, middle, shorter);
      PlusAssociates(first, tally, FoldOne(step, before, r).1);
    }
  }

  predicate CountsFor(t: Tally, n: nat) {
    && t[CREATED] + t[UPDATED] + t[REJECTED] + t[IGNORED] == n
    && t[REGRESSED] <= t[UPDATED] && t[CREATED] <= t[STORED] <= t[CREATED] + t[UPDATED]
  }

  lemma UpsertCountsOne(setup: Setup, row: Option<Row>, context: AgentContext, hit: Hit, at: int)
    requires hit.ruleKey in setup.titles
    ensures CountsFor(Upsert(setup, row, context, hit, at).1, 1)
  {
  }

  lemma ApplyCountsOne(setup: Setup, organization: Uuid, rows: Rows, r: Record)
    ensures CountsFor(Apply(setup, organization, rows, r).1, 1)
  {
    match Decide(setup, organization, r)
    case Ignore =>
    case Refuse(_) =>
    case Admit(identity, context, hit) =>
      UpsertCountsOne(setup, Find(rows, identity), context, hit, r.observedAt);
  }

  lemma CountsAdd(a: Tally, b: Tally, n: nat, k: nat)
    requires CountsFor(a, n) && CountsFor(b, k)
    ensures CountsFor(a + b, n + k)
  {
  }

  // Every record is created, updated, ignored or rejected, once.
  lemma {:induction false} EveryRecordIsCounted(setup: Setup, store: Store, records: seq<Record>)
    ensures CountsFor(FoldStream(Applying(setup), store, records).1, |records|)
    decreases |records|
  {
    if |records| > 0 {
      var before, r := records[..|records| - 1], records[|records| - 1];
      EveryRecordIsCounted(setup, store, before);
      var (sofar, tally) := FoldStream(Applying(setup), store, before);
      if r.organization.Some? {
        ApplyCountsOne(setup, r.organization.value, At(sofar, r.organization.value), r);
      }
      CountsAdd(tally, FoldOne(Applying(setup), sofar, r).1, |before|, 1);
    }
  }
}
