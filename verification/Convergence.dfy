// Why replaying a stream converges: what a finding is, apart from its counters, absorbs every
// record already folded into it.
module Convergence {
  import opened Prelude
  import opened Findings

  // A finding without counters, triage and the time it was last seen.
  datatype Core = Core(ruleKey: string, title: string, severity: Severity, confidence: Confidence,
                       signature: string, environments: seq<string>, routes: seq<string>, firstSeen: Option<int>)

  type Cores = map<Identity, Core>

  function CoreOf(f: Finding): Core {
    Core(f.ruleKey, f.title, f.severity, f.confidence, f.signature, f.environments, f.routes, f.firstSeen)
  }

  function CoresOf(rows: Rows): Cores {
    map id | id in rows :: CoreOf(rows[id].finding)
  }

  function Touched(c: Core, context: AgentContext, hit: Hit, at: int): Core {
    c.(confidence := if Rank(hit.confidence) > Rank(c.confidence) then hit.confidence else c.confidence,
       environments := WithEnvironment(c.environments, context.environment),
       routes := WithRoute(c.routes, hit.route),
       firstSeen := if c.firstSeen.None? then Some(at) else c.firstSeen)
  }

  // One record of the stream, as one tenant's cores take it; other tenants' records pass by.
  function CoreStep(setup: Setup, o: Uuid, cores: Cores, r: Record): Cores {
    if r.organization != Some(o) then cores
    else
      match Decide(setup, o, r)
      case Ignore => cores
      case Refuse(_) => cores
      case Admit(id, context, hit) =>
        cores[id := Touched(if id in cores then cores[id] else CoreOf(Created(setup, hit)),
                            context, hit, r.observedAt)]
  }

  function CoreFold(setup: Setup, o: Uuid, cores: Cores, records: seq<Record>): Cores
    decreases |records|
  {
    if |records| == 0 then cores
    else CoreStep(setup, o, CoreFold(setup, o, cores, records[..|records| - 1]), records[|records| - 1])
  }

  // ---- The full fold projects onto the core fold ----

  lemma UpsertCore(setup: Setup, row: Option<Row>, context: AgentContext, hit: Hit, at: int)
    requires hit.ruleKey in setup.titles
    ensures CoreOf(Upsert(setup, row, context, hit, at).0.finding)
         == Touched(if row.Some? then CoreOf(row.value.finding) else CoreOf(Created(setup, hit)), context, hit, at)
  {
  }

  lemma CoresUpdate(rows: Rows, id: Identity, row: Row)
    ensures CoresOf(rows[id := row]) == CoresOf(rows)[id := CoreOf(row.finding)]
    ensures id in rows ==> id in CoresOf(rows) && CoresOf(rows)[id] == CoreOf(rows[id].finding)
    ensures id in CoresOf(rows) ==> id in rows
  {
  }

  lemma ApplyCore(setup: Setup, o: Uuid, rows: Rows, r: Record)
    requires r.organization == Some(o)
    ensures CoresOf(Apply(setup, o, rows, r).0) == CoreStep(setup, o, CoresOf(rows), r)
  {
    match Decide(setup, o, r)
    case Ignore =>
    case Refuse(_) =>
    case Admit(id, context, hit) =>
      UpsertCore(setup, Find(rows, id), context, hit, r.observedAt);
      CoresUpdate(rows, id, Upsert(setup, Find(rows, id), context, hit, r.observedAt).0);
  }

  lemma {:induction false} StreamCore(setup: Setup, store: Store, records: seq<Record>, o: Uuid)
    ensures CoresOf(At(FoldStream(Applying(setup), store, records).0, o))
         == CoreFold(setup, o, CoresOf(At(store, o)), records)
    decreases |records|
  {
    if |records| > 0 {
      var before, r := records[..|records| - 1], records[|records| - 1];
      StreamCore(setup, store, before, o);
      if r.organization == Some(o) {
        ApplyCore(setup, o, At(FoldStream(Applying(setup), store, before).0, o), r);
      }
    }
  }

  // A fold that failed between transactions has moved each tenant either all the way or not at all.
  lemma PartialCore(setup: Setup, store: Store, records: seq<Record>, k: nat, o: Uuid)
    requires k <= |Tenants(records)|
    ensures var after := At(FoldGroups(Applying(setup), store, records, Tenants(records)[..k]).0, o);
            || after == At(store, o)
            || after == At(FoldStream(Applying(setup), store, records).0, o)
  {
    var some := Tenants(records)[..k];
    TenantsAreDistinct(records);
    assert Distinct(some);
    GroupsAtTenant(Applying(setup), store, records, some, o);
    StreamAtTenant(Applying(setup), store, records, o);
  }

  // ---- Absorption ----

  // Nothing in this record would change these cores.
  predicate Absorbed(setup: Setup, o: Uuid, cores: Cores, r: Record) {
    r.organization == Some(o) ==>
      match Decide(setup, o, r)
      case Ignore => true
      case Refuse(_) => true
      case Admit(id, context, hit) => id in cores && Holds(cores[id], context, hit)
  }

  predicate Holds(c: Core, context: AgentContext, hit: Hit) {
    && Rank(hit.confidence) <= Rank(c.confidence)
    && (context.environment == "" || context.environment in c.environments)
    && (hit.route == "" || hit.route in c.routes || |c.routes| == MAX_ROUTES)
    && c.firstSeen.Some?
  }

  predicate Trim(cores: Cores) {
    forall id :: id in cores ==> |cores[id].routes| <= MAX_ROUTES
  }

  lemma AbsorbedChangesNothing(setup: Setup, o: Uuid, cores: Cores, r: Record)
    requires Absorbed(setup, o, cores, r)
    ensures CoreStep(setup, o, cores, r) == cores
  {
    if r.organization == Some(o) && Decide(setup, o, r).Admit? {
      var Admit(id, context, hit) := Decide(setup, o, r);
      HeldIsUntouched(cores[id], context, hit, r.observedAt);
    }
  }

  lemma HeldIsUntouched(c: Core, context: AgentContext, hit: Hit, at: int)
    requires Holds(c, context, hit)
    ensures Touched(c, context, hit, at) == c
  {
    if hit.route != "" && hit.route !in c.routes {
      assert (c.routes + [hit.route])[..MAX_ROUTES] == c.routes;
    }
  }

  // Touching keeps whatever was held, and holds what touched it.
  lemma TouchedHolds(c: Core, context: AgentContext, hit: Hit, at: int, context': AgentContext, hit': Hit)
    requires |c.routes| <= MAX_ROUTES
    ensures |Touched(c, context, hit, at).routes| <= MAX_ROUTES
    ensures Holds(Touched(c, context, hit, at), context, hit)
    ensures Holds(c, context', hit') ==> Holds(Touched(c, context, hit, at), context', hit')
  {
    var routes := WithRoute(c.routes, hit.route);
    if hit.route != "" && hit.route !in c.routes {
      var longer := c.routes + [hit.route];
      assert longer[|c.routes|] == hit.route;
      assert longer[..|c.routes|] == c.routes;
      if |longer| > MAX_ROUTES {
        assert routes == c.routes;
      } else {
        assert routes == longer && forall x :: x in c.routes ==> x in longer;
      }
    }
  }

  lemma StepAbsorbs(setup: Setup, o: Uuid, cores: Cores, r: Record, earlier: Record)
    requires Trim(cores)
    ensures Trim(CoreStep(setup, o, cores, r))
    ensures Absorbed(setup, o, CoreStep(setup, o, cores, r), r)
    ensures Absorbed(setup, o, cores, earlier) ==> Absorbed(setup, o, CoreStep(setup, o, cores, r), earlier)
  {
    if r.organization == Some(o) && Decide(setup, o, r).Admit? {
      var Admit(id, context, hit) := Decide(setup, o, r);
      var c := if id in cores then cores[id] else CoreOf(Created(setup, hit));
      assert id in cores ==> |cores[id].routes| <= MAX_ROUTES;
      TouchedHolds(c, context, hit, r.observedAt, context, hit);
      if earlier.organization == Some(o) && Decide(setup, o, earlier).Admit? && Absorbed(setup, o, cores, earlier) {
        var Admit(id', context', hit') := Decide(setup, o, earlier);
        if id' == id {
          TouchedHolds(c, context, hit, r.observedAt, context', hit');
        }
      }
    }
  }

  lemma {:induction false} FoldAbsorbs(setup: Setup, o: Uuid, records: seq<Record>, i: nat)
    requires i < |records|
    ensures Trim(CoreFold(setup, o, map[], records))
    ensures Absorbed(setup, o, CoreFold(setup, o, map[], records), records[i])
    decreases |records|
  {
    var n := |records| - 1;
    FoldTrim(setup, o, records[..n]);
    StepAbsorbs(setup, o, CoreFold(setup, o, map[], records[..n]), records[n], records[i]);
    if i < n {
      assert records[..n][i] == records[i];
      FoldAbsorbs(setup, o, records[..n], i);
    }
  }

  lemma {:induction false} FoldTrim(setup: Setup, o: Uuid, records: seq<Record>)
    ensures Trim(CoreFold(setup, o, map[], records))
    decreases |records|
  {
    if |records| > 0 {
      var n := |records| - 1;
      FoldTrim(setup, o, records[..n]);
      StepAbsorbs(setup, o, CoreFold(setup, o, map[], records[..n]), records[n], records[n]);
    }
  }

  lemma {:induction false} CoreFoldConcat(setup: Setup, o: Uuid, cores: Cores, a: seq<Record>, b: seq<Record>)
    ensures CoreFold(setup, o, cores, a + b) == CoreFold(setup, o, CoreFold(setup, o, cores, a), b)
    decreases |b|
  {
    if |b| == 0 {
      assert a + b == a;
    } else {
      assert (a + b)[..|a + b| - 1] == a + b[..|b| - 1];
      CoreFoldConcat(setup, o, cores, a, b[..|b| - 1]);
    }
  }

  lemma {:induction false} OldRecordsChangeNothing(setup: Setup, o: Uuid, cores: Cores, records: seq<Record>)
    requires forall i :: 0 <= i < |records| ==> Absorbed(setup, o, cores, records[i])
    ensures CoreFold(setup, o, cores, records) == cores
    decreases |records|
  {
    if |records| > 0 {
      OldRecordsChangeNothing(setup, o, cores, records[..|records| - 1]);
      AbsorbedChangesNothing(setup, o, cores, records[|records| - 1]);
    }
  }

  // Folding records [from, to) again, or for the first time, after the first p of them leaves
  // what one pass over the longer of the two prefixes leaves.
  lemma ReplayConverges(setup: Setup, o: Uuid, all: seq<Record>, p: nat, from: nat, to: nat)
    requires from <= p <= |all| && from <= to <= |all|
    ensures CoreFold(setup, o, CoreFold(setup, o, map[], all[..p]), all[from..to])
         == CoreFold(setup, o, map[], all[..Max(p, to)])
  {
    var cores, seen := CoreFold(setup, o, map[], all[..p]), Min(p, to);
    forall i | 0 <= i < |all[from..seen]| ensures Absorbed(setup, o, cores, all[from..seen][i]) {
      assert all[..p][from + i] == all[from..seen][i];
      FoldAbsorbs(setup, o, all[..p], from + i);
    }
    OldRecordsChangeNothing(setup, o, cores, all[from..seen]);
    CoreFoldConcat(setup, o, cores, all[from..seen], all[seen..to]);
    assert all[from..seen] + all[seen..to] == all[from..to];
    CoreFoldConcat(setup, o, map[], all[..p], all[seen..to]);
    if to > p {
      assert all[..p] + all[seen..to] == all[..to];
    } else {
      assert all[seen..to] == [];
      assert all[..p] + all[seen..to] == all[..p];
    }
  }

  // ---- What a converged finding says about its records ----

  predicate Admits(setup: Setup, o: Uuid, r: Record, id: Identity) {
    r.organization == Some(o) && Decide(setup, o, r).Admit? && Decide(setup, o, r).identity == id
  }

  lemma StepOnFinding(setup: Setup, o: Uuid, cores: Cores, r: Record, id: Identity)
    ensures id in CoreStep(setup, o, cores, r) <==> id in cores || Admits(setup, o, r, id)
    ensures !Admits(setup, o, r, id) && id in cores ==> CoreStep(setup, o, cores, r)[id] == cores[id]
    ensures Admits(setup, o, r, id) ==>
              var d := Decide(setup, o, r);
              CoreStep(setup, o, cores, r)[id]
              == Touched(if id in cores then cores[id] else CoreOf(Created(setup, d.hit)), d.context, d.hit, r.observedAt)
  {
  }

  // A tenant has a finding exactly when one of its records was admitted to it.
  lemma {:induction false} FoundExactlyWhenAdmitted(setup: Setup, o: Uuid, records: seq<Record>, id: Identity)
    ensures id in CoreFold(setup, o, map[], records)
       <==> exists i :: 0 <= i < |records| && Admits(setup, o, records[i], id)
    decreases |records|
  {
    if |records| > 0 {
      var n := |records| - 1;
      FoundExactlyWhenAdmitted(setup, o, records[..n], id);
      StepOnFinding(setup, o, CoreFold(setup, o, map[], records[..n]), records[n], id);
      if i :| 0 <= i < n && Admits(setup, o, records[..n][i], id) {
        assert Admits(setup, o, records[i], id);
      }
      if i :| 0 <= i < |records| && Admits(setup, o, records[i], id) && i < n {
        assert Admits(setup, o, records[..n][i], id);
      }
    }
  }

  // The first admitted record fixes title, severity, signature and first sighting for good.
  lemma {:induction false} FirstRecordFixes(setup: Setup, o: Uuid, records: seq<Record>, i: nat, id: Identity)
    requires i < |records| && Admits(setup, o, records[i], id)
    requires forall j :: 0 <= j < i ==> !Admits(setup, o, records[j], id)
    ensures id in CoreFold(setup, o, map[], records)
    ensures var c, hit := CoreFold(setup, o, map[], records)[id], Decide(setup, o, records[i]).hit;
            && c.ruleKey == hit.ruleKey && c.severity == hit.severity && c.firstSeen == Some(records[i].observedAt)
            && c.title == Title(setup.titles[hit.ruleKey], hit.frames)
            && c.signature == if |hit.signature| <= 400 then hit.signature else hit.signature[..400]
    decreases |records|
  {
    var n := |records| - 1;
    StepOnFinding(setup, o, CoreFold(setup, o, map[], records[..n]), records[n], id);
    if i < n {
      FirstRecordFixes(setup, o, records[..n], i, id);
    } else {
      FoundExactlyWhenAdmitted(setup, o, records[..n], id);
    }
  }

  // The confidence is the highest any admitted record reported: none above it, and one that has it.
  lemma {:induction false} ConfidenceIsTheHighest(setup: Setup, o: Uuid, records: seq<Record>, id: Identity)
    requires id in CoreFold(setup, o, map[], records)
    ensures var c := CoreFold(setup, o, map[], records)[id];
            && (forall i :: 0 <= i < |records| && Admits(setup, o, records[i], id) ==>
                  Rank(Decide(setup, o, records[i]).hit.confidence) <= Rank(c.confidence))
            && exists i :: 0 <= i < |records| && Admits(setup, o, records[i], id)
                           && Decide(setup, o, records[i]).hit.confidence == c.confidence
    decreases |records|
  {
    forall i | 0 <= i < |records| && Admits(setup, o, records[i], id)
      ensures Rank(Decide(setup, o, records[i]).hit.confidence)
           <= Rank(CoreFold(setup, o, map[], records)[id].confidence)
    {
      FoldAbsorbs(setup, o, records, i);
    }
    ConfidenceWasReported(setup, o, records, id);
  }

  lemma {:induction false} ConfidenceWasReported(setup: Setup, o: Uuid, records: seq<Record>, id: Identity)
    requires id in CoreFold(setup, o, map[], records)
    ensures exists i :: 0 <= i < |records| && Admits(setup, o, records[i], id)
                        && Decide(setup, o, records[i]).hit.confidence == CoreFold(setup, o, map[], records)[id].confidence
    decreases |records|
  {
    var n := |records| - 1;
    var before := CoreFold(setup, o, map[], records[..n]);
    StepOnFinding(setup, o, before, records[n], id);
    if !Admits(setup, o, records[n], id)
       || (id in before && Rank(Decide(setup, o, records[n]).hit.confidence) <= Rank(before[id].confidence)) {
      ConfidenceWasReported(setup, o, records[..n], id);
      var i :| 0 <= i < n && Admits(setup, o, records[..n][i], id)
               && Decide(setup, o, records[..n][i]).hit.confidence == before[id].confidence;
      assert records[..n][i] == records[i];
    }
  }

  // ---- Counters never fall short ----

  function Sightings(rows: Rows, id: Identity): nat {
    if id in rows then rows[id].finding.occurrences + rows[id].finding.suppressed else 0
  }

  function Hits(setup: Setup, o: Uuid, records: seq<Record>, id: Identity): nat
    decreases |records|
  {
    if |records| == 0 then 0
    else
      var r := records[|records| - 1];
      Hits(setup, o, records[..|records| - 1], id) + if Admits(setup, o, r, id) then 1 else 0
  }

  lemma {:induction false} StreamSightings(setup: Setup, store: Store, records: seq<Record>, o: Uuid, id: Identity)
    ensures Sightings(At(FoldStream(Applying(setup), store, records).0, o), id)
         == Sightings(At(store, o), id) + Hits(setup, o, records, id)
    decreases |records|
  {
    if |records| > 0 {
      var before, r := records[..|records| - 1], records[|records| - 1];
      StreamSightings(setup, store, before, o, id);
      if r.organization == Some(o) {
        ApplySightings(setup, o, At(FoldStream(Applying(setup), store, before).0, o), r, id);
      }
    }
  }

  lemma UpsertSightings(setup: Setup, row: Option<Row>, context: AgentContext, hit: Hit, at: int)
    requires hit.ruleKey in setup.titles
    ensures var f := Upsert(setup, row, context, hit, at).0.finding;
            f.occurrences + f.suppressed
            == 1 + if row.Some? then row.value.finding.occurrences + row.value.finding.suppressed else 0
  {
  }

  lemma ApplySightings(setup: Setup, o: Uuid, rows: Rows, r: Record, id: Identity)
    requires r.organization == Some(o)
    ensures Sightings(Apply(setup, o, rows, r).0, id)
         == Sightings(rows, id) + if Admits(setup, o, r, id) then 1 else 0
  {
    match Decide(setup, o, r)
    case Ignore =>
    case Refuse(_) =>
    case Admit(id', context, hit) =>
      UpsertSightings(setup, Find(rows, id'), context, hit, r.observedAt);
  }

  lemma {:induction false} HitsSplit(setup: Setup, o: Uuid, a: seq<Record>, b: seq<Record>, id: Identity)
    ensures Hits(setup, o, a + b, id) == Hits(setup, o, a, id) + Hits(setup, o, b, id)
    decreases |b|
  {
    if |b| == 0 {
      assert a + b == a;
    } else {
      assert (a + b)[..|a + b| - 1] == a + b[..|b| - 1];
      HitsSplit(setup, o, a, b[..|b| - 1], id);
    }
  }

  lemma HitsOverlap(setup: Setup, o: Uuid, all: seq<Record>, p: nat, from: nat, to: nat, id: Identity)
    requires from <= p <= |all| && from <= to <= |all|
    ensures Hits(setup, o, all[..Max(p, to)], id)
         <= Hits(setup, o, all[..p], id) + Hits(setup, o, all[from..to], id)
  {
    if to > p {
      assert all[..to] == all[..p] + all[p..to];
      HitsSplit(setup, o, all[..p], all[p..to], id);
      assert all[from..to] == all[from..p] + all[p..to];
      HitsSplit(setup, o, all[from..p], all[p..to], id);
    }
  }

  // ---- Nor do the requests blocking would have stopped ----

  function Blocks(rows: Rows, id: Identity): nat {
    if id in rows then rows[id].finding.wouldBlock else 0
  }

  // Whether this record is one more request that blocking would have stopped; a finding once exploited
  // stays exploited, so this depends on what was folded before.
  predicate StopsOne(setup: Setup, o: Uuid, cores: Cores, r: Record, id: Identity) {
    && Admits(setup, o, r, id) && !Decide(setup, o, r).context.blocking
    && CoreStep(setup, o, cores, r)[id].confidence == EXPLOITED
  }

  function Stops(setup: Setup, o: Uuid, cores: Cores, records: seq<Record>, id: Identity): nat
    decreases |records|
  {
    if |records| == 0 then 0
    else
      var before := records[..|records| - 1];
      Stops(setup, o, cores, before, id)
      + if StopsOne(setup, o, CoreFold(setup, o, cores, before), records[|records| - 1], id) then 1 else 0
  }

  lemma UpsertBlocks(setup: Setup, row: Option<Row>, context: AgentContext, hit: Hit, at: int)
    requires hit.ruleKey in setup.titles
    ensures var f := Upsert(setup, row, context, hit, at).0.finding;
            f.wouldBlock == (if row.Some? then row.value.finding.wouldBlock else 0)
                            + if f.confidence == EXPLOITED && !context.blocking then 1 else 0
  {
  }

  lemma ApplyBlocks(setup: Setup, o: Uuid, rows: Rows, r: Record, id: Identity)
    requires r.organization == Some(o)
    ensures Blocks(Apply(setup, o, rows, r).0, id)
         == Blocks(rows, id) + if StopsOne(setup, o, CoresOf(rows), r, id) then 1 else 0
  {
    ApplyCore(setup, o, rows, r);
    match Decide(setup, o, r)
    case Ignore =>
    case Refuse(_) =>
    case Admit(id', context, hit) =>
      UpsertBlocks(setup, Find(rows, id'), context, hit, r.observedAt);
      assert CoresOf(Apply(setup, o, rows, r).0)[id'].confidence
          == Apply(setup, o, rows, r).0[id'].finding.confidence;
  }

  lemma {:induction false} StreamBlocks(setup: Setup, store: Store, records: seq<Record>, o: Uuid, id: Identity)
    ensures Blocks(At(FoldStream(Applying(setup), store, records).0, o), id)
         == Blocks(At(store, o), id) + Stops(setup, o, CoresOf(At(store, o)), records, id)
    decreases |records|
  {
    if |records| > 0 {
      var before, r := records[..|records| - 1], records[|records| - 1];
      StreamBlocks(setup, store, before, o, id);
      StreamCore(setup, store, before, o);
      if r.organization == Some(o) {
        ApplyBlocks(setup, o, At(FoldStream(Applying(setup), store, before).0, o), r, id);
      }
    }
  }

  lemma {:induction false} StopsSplit(setup: Setup, o: Uuid, cores: Cores, a: seq<Record>, b: seq<Record>, id: Identity)
    ensures Stops(setup, o, cores, a + b, id)
         == Stops(setup, o, cores, a, id) + Stops(setup, o, CoreFold(setup, o, cores, a), b, id)
    decreases |b|
  {
    if |b| == 0 {
      assert a + b == a;
    } else {
      var n := |b| - 1;
      assert (a + b)[..|a + b| - 1] == a + b[..n];
      StopsSplit(setup, o, cores, a, b[..n], id);
      CoreFoldConcat(setup, o, cores, a, b[..n]);
    }
  }

  // Refolding a stretch that starts no later than p counts at least what the longer prefix adds.
  lemma StopsOverlap(setup: Setup, o: Uuid, all: seq<Record>, p: nat, from: nat, to: nat, id: Identity)
    requires from <= p <= |all| && from <= to <= |all|
    ensures Stops(setup, o, map[], all[..Max(p, to)], id)
         <= Stops(setup, o, map[], all[..p], id) + Stops(setup, o, CoreFold(setup, o, map[], all[..p]), all[from..to], id)
  {
    if to > p {
      var cores := CoreFold(setup, o, map[], all[..p]);
      assert all[..to] == all[..p] + all[p..to];
      StopsSplit(setup, o, map[], all[..p], all[p..to], id);
      assert all[from..to] == all[from..p] + all[p..to];
      StopsSplit(setup, o, cores, all[from..p], all[p..to], id);
      ReplayConverges(setup, o, all, p, from, p);
    }
  }
}
