// The worker pipeline as it runs: the grouping loop, the per-tenant transactions with their agent
// cache, and the batching of apps/api/src/aegis_api/operations.py, against the folds of Findings.
module Pipeline {
  import opened Prelude
  import opened Findings

  const MAX_REASONS: nat := 50

  // Counters are exact; at most fifty reasons are kept.
  datatype ProcessingResult = ProcessingResult(tally: Tally, reasons: seq<string>) {
    predicate Bounded() {
      |reasons| <= MAX_REASONS
    }

    // One reason for every rejection, up to fifty of them.
    predicate Explained() {
      |reasons| == Min(50, tally[REJECTED])
    }

    function Rejecting(reason: string): (r: ProcessingResult)
      requires Bounded()
      ensures r.Bounded() && r.tally == tally + multiset{REJECTED}
      ensures r.reasons == if |reasons| < 50 then reasons + [reason] else reasons
    {
      ProcessingResult(tally + multiset{REJECTED}, if |reasons| < MAX_REASONS then reasons + [reason] else reasons)
    }
  }

  function Resolve(setup: Setup, organization: Uuid, agent: string): Option<AgentContext> {
    if (organization, agent) in setup.registry then Some(setup.registry[(organization, agent)]) else None
  }

  type Cache = map<string, Option<AgentContext>>

  // Every cached answer is the registry's own.
  predicate Current(setup: Setup, organization: Uuid, cache: Cache) {
    forall a :: a in cache ==> cache[a] == Resolve(setup, organization, a)
  }

  // The dictionary _group_by_tenant fills.
  function Grouped(records: seq<Record>): map<Uuid, seq<Record>>
    decreases |records|
  {
    if |records| == 0 then map[]
    else
      var before, r := Grouped(records[..|records| - 1]), records[|records| - 1];
      if r.organization.None? then before
      else
        var o := r.organization.value;
        before[o := if o in before then before[o] + [r] else [r]]
  }

  lemma {:induction false} GroupedAt(records: seq<Record>, o: Uuid)
    ensures o in Grouped(records) <==> o in Tenants(records)
    ensures For(records, o) == if o in Grouped(records) then Grouped(records)[o] else []
    decreases |records|
  {
    if |records| > 0 {
      var before, r := records[..|records| - 1], records[|records| - 1];
      GroupedAt(before, o);
      if r.organization.Some? && r.organization.value != o {
        GroupedAt(before, r.organization.value);
      }
    }
  }

  // One pass over the records fills the tenants' lists in order of first appearance.
  method GroupByTenant(records: seq<Record>)
    returns (order: seq<Uuid>, grouped: map<Uuid, seq<Record>>, result: ProcessingResult)
    ensures result.Explained() && result.tally == Rejects(Unusable(records))
    ensures order == Tenants(records) && grouped == Grouped(records)
  {
    order, grouped, result := [], map[], ProcessingResult(multiset{}, []);
    var i := 0;
    while i < |records|
      invariant i <= |records| && result.Explained()
      invariant order == Tenants(records[..i]) && grouped == Grouped(records[..i])
      invariant result.tally == Rejects(Unusable(records[..i]))
    {
      var record := records[i];
      assert records[..i + 1][..i] == records[..i];
      if record.organization.None? {
        RejectsOne(Unusable(records[..i]));
        result := result.Rejecting("unusable organization id");
      } else {
        var o := record.organization.value;
        GroupedAt(records[..i], o);
        ghost var before := grouped;
        if o !in grouped {
          order := order + [o];
          grouped := grouped[o := []];
        }
        var longer := grouped[o] + [record];
        assert longer == if o in before then before[o] + [record] else [record];
        grouped := grouped[o := longer];
        assert grouped == before[o := longer];
      }
      i := i + 1;
    }
    assert records[..i] == records;
  }

  // An agent's context, asked for once per transaction.
  method LookUp(setup: Setup, organization: Uuid, agent: string, cache: Cache)
    returns (context: Option<AgentContext>, cached: Cache)
    requires Current(setup, organization, cache)
    ensures Current(setup, organization, cached) && cached.Keys == cache.Keys + {agent}
    ensures context == Resolve(setup, organization, agent)
  {
    cached := cache;
    if agent !in cached {
      cached := cached[agent := Resolve(setup, organization, agent)];
    }
    context := cached[agent];
  }

  // One record on the rows its transaction sees: the outcome, or why it is refused.
  method ApplyRecord(setup: Setup, organization: Uuid, before: Rows, record: Record, cache: Cache)
    returns (rows: Rows, marks: Tally, cached: Cache, refusal: Option<Refusal>)
    requires Current(setup, organization, cache)
    ensures Current(setup, organization, cached)
    ensures rows == Apply(setup, organization, before, record).0
    ensures Apply(setup, organization, before, record).1 == if refusal.Some? then multiset{REJECTED} else marks
    ensures refusal.Some? <==> Decide(setup, organization, record).Refuse?
    ensures marks[REJECTED] == 0
  {
    rows, marks, cached, refusal := before, multiset{}, cache, None;
    if !record.taintHit {
      marks := multiset{IGNORED};
      return;
    }
    if record.agent == "" {
      refusal := Some(NoAgent);
      return;
    }
    var known;
    known, cached := LookUp(setup, organization, record.agent, cache);
    if known.None? {
      refusal := Some(UnknownAgent);
      return;
    }
    var context := known.value;
    if record.hit.None? {
      refusal := Some(NoPayload);
      return;
    }
    var hit := record.hit.value;
    if hit.ruleKey !in setup.titles {
      refusal := Some(UnknownRule);
      return;
    }
    var identity := Identity(organization, context.application, hit.ruleKey, hit.signatureKey,
                             hit.sourceKind, StackKey(hit.frames));
    var row;
    row, marks := UpsertRow(setup, Find(rows, identity), context, hit, record.observedAt);
    rows := rows[identity := row];
  }

  // The entity is built or raised, then counted, then sampled.
  method UpsertRow(setup: Setup, existing: Option<Row>, context: AgentContext, hit: Hit, at: int)
    returns (row: Row, marks: Tally)
    requires hit.ruleKey in setup.titles
    ensures (row, marks) == Upsert(setup, existing, context, hit, at) && marks[REJECTED] == 0
  {
    var f := BuildOrRaise(setup, existing, context, hit);
    var evidence := if existing.None? then [] else existing.value.evidence;
    var regressed;
    f, regressed := RecordOccurrence(f, context.environment, hit.route, at);
    var keep := KeepEvidence(setup, f, evidence, at);
    if keep {
      evidence := evidence + [at];
    }
    row, marks := Row(f, evidence), Marks(existing.None?, regressed, keep);
  }

  method BuildOrRaise(setup: Setup, existing: Option<Row>, context: AgentContext, hit: Hit) returns (f: Finding)
    requires hit.ruleKey in setup.titles
    ensures f == WouldBlock(if existing.None? then Created(setup, hit)
                            else Raised(existing.value.finding, hit.confidence), context)
    ensures Rank(f.confidence)
         == if existing.None? then Rank(hit.confidence)
            else Max(Rank(existing.value.finding.confidence), Rank(hit.confidence))
    ensures existing.Some? ==>
              f.title == existing.value.finding.title && f.severity == existing.value.finding.severity
  {
    if existing.None? {
      f := Created(setup, hit);
    } else {
      f := existing.value.finding;
      if Rank(hit.confidence) > Rank(f.confidence) {
        f := f.(confidence := hit.confidence);
      }
    }
    if f.confidence == EXPLOITED && !context.blocking {
      f := f.(wouldBlock := f.wouldBlock + 1);
    }
  }

  // A sighting appends its environment and its route if they are named and new, the route while fewer
  // than twenty are listed.
  lemma SightingKeepsPlaces(before: Finding, environment: string, route: string, at: int)
    requires |before.routes| <= 20
    ensures var f := Sighted(before, environment, route, at).0;
            && f.environments == (if environment == "" || environment in before.environments then before.environments
                                  else before.environments + [environment])
            && f.routes == (if route == "" || route in before.routes || |before.routes| == 20 then before.routes
                            else before.routes + [route])
  {
    assert (before.routes + [route])[..|before.routes|] == before.routes;
  }

  // It raises one of the two counts, that of the suppressed sightings for a false positive or an accepted
  // risk; and a remediated finding reopens.
  lemma SightingCounts(before: Finding, environment: string, route: string, at: int)
    ensures var (f, regressed) := Sighted(before, environment, route, at);
            var apart := before.status == FALSE_POSITIVE || before.status == ACCEPTED_RISK;
            && f.occurrences == before.occurrences + (if apart then 0 else 1)
            && f.suppressed == before.suppressed + (if apart then 1 else 0)
            && (regressed <==> before.status == REMEDIATED)
            && f.status == (if before.status == REMEDIATED then OPEN else before.status)
  {
  }

  // Its time becomes the last and, of a finding never seen, the first; what the finding is stays.
  lemma SightingKeepsFinding(before: Finding, environment: string, route: string, at: int)
    ensures var (f, regressed) := Sighted(before, environment, route, at);
            && f.lastSeen == Some(at) && f.firstSeen == (if before.firstSeen.None? then Some(at) else before.firstSeen)
            && f.ruleKey == before.ruleKey && f.title == before.title && f.severity == before.severity
            && f.confidence == before.confidence && f.signature == before.signature && f.wouldBlock == before.wouldBlock
            && f.regressed == (before.regressed || before.status == REMEDIATED)
  {
  }

  method RecordOccurrence(before: Finding, environment: string, route: string, at: int)
    returns (f: Finding, regressed: bool)
    ensures (f, regressed) == Sighted(before, environment, route, at)
  {
    f, regressed := before.(lastSeen := Some(at)), false;
    if f.firstSeen.None? {
      f := f.(firstSeen := Some(at));
    }
    if environment != "" && environment !in f.environments {
      f := f.(environments := f.environments + [environment]);
    }
    if route != "" && route !in f.routes {
      var longer := f.routes + [route];
      f := f.(routes := if |longer| <= MAX_ROUTES then longer else longer[..MAX_ROUTES]);
    }
    if f.status.Suppressed() {
      f := f.(suppressed := f.suppressed + 1);
      return;
    }
    f := f.(occurrences := f.occurrences + 1);
    if f.status == REMEDIATED {
      f, regressed := f.(status := OPEN, regressed := true), true;
    }
  }

  // The try block of the loop: a refusal is counted and its reason kept.
  method CountRecord(setup: Setup, organization: Uuid, before: Rows, record: Record, cache: Cache, sofar: ProcessingResult)
    returns (rows: Rows, cached: Cache, result: ProcessingResult)
    requires Current(setup, organization, cache) && sofar.Explained()
    ensures Current(setup, organization, cached) && result.Explained()
    ensures rows == Apply(setup, organization, before, record).0
    ensures result.tally == sofar.tally + Apply(setup, organization, before, record).1
  {
    var marks: Tally;
    var refusal: Option<Refusal>;
    rows, marks, cached, refusal := ApplyRecord(setup, organization, before, record, cache);
    if refusal.Some? {
      result := sofar.Rejecting("rejected");
    } else {
      result := sofar.(tally := sofar.tally + marks);
    }
  }

  // One tenant's records inside one transaction, with the contexts looked up once per agent.
  method FoldTenantBatch(setup: Setup, organization: Uuid, before: Rows, batch: seq<Record>, sofar: ProcessingResult)
    returns (rows: Rows, result: ProcessingResult)
    requires sofar.Explained()
    ensures result.Explained()
    ensures rows == FoldTenant(Applying(setup), organization, before, batch).0
    ensures result.tally == sofar.tally + FoldTenant(Applying(setup), organization, before, batch).1
  {
    rows, result := before, sofar;
    var cache: Cache := map[];
    var i := 0;
    PlusNone(sofar.tally);
    while i < |batch|
      invariant i <= |batch| && result.Explained()
      invariant Current(setup, organization, cache)
      invariant rows == FoldTenant(Applying(setup), organization, before, batch[..i]).0
      invariant result.tally == sofar.tally + FoldTenant(Applying(setup), organization, before, batch[..i]).1
    {
      assert batch[..i + 1][..i] == batch[..i];
      PlusAssociates(sofar.tally, FoldTenant(Applying(setup), organization, before, batch[..i]).1,
                     Apply(setup, organization, rows, batch[i]).1);
      rows, cache, result := CountRecord(setup, organization, rows, batch[i], cache, result);
      i := i + 1;
    }
    assert batch[..i] == batch;
  }

  // One tenant's transaction, committed on top of those before it.
  method CommitTenant(setup: Setup, ghost before: Store, ghost records: seq<Record>, ghost order: seq<Uuid>, o: Uuid,
                      batch: seq<Record>, ghost start: Tally, store: Store, sofar: ProcessingResult)
    returns (after: Store, result: ProcessingResult)
    requires sofar.Explained() && batch == For(records, o)
    requires store == FoldGroups(Applying(setup), before, records, order).0
    requires sofar.tally == start + FoldGroups(Applying(setup), before, records, order).1
    ensures result.Explained()
    ensures after == FoldGroups(Applying(setup), before, records, order + [o]).0
    ensures result.tally == start + FoldGroups(Applying(setup), before, records, order + [o]).1
  {
    assert (order + [o])[..|order|] == order;
    PlusAssociates(start, FoldGroups(Applying(setup), before, records, order).1,
                   FoldTenant(Applying(setup), o, At(store, o), batch).1);
    var rows;
    rows, result := FoldTenantBatch(setup, o, At(store, o), batch, sofar);
    after := store[o := rows];
  }

  // The loop over the tenants, one committed transaction each.
  method RunTransactions(setup: Setup, before: Store, ghost records: seq<Record>, order: seq<Uuid>,
                         grouped: map<Uuid, seq<Record>>, failAt: Option<nat>, sofar: ProcessingResult)
    returns (store: Store, result: ProcessingResult, failed: bool)
    requires forall k :: 0 <= k < |order| ==> order[k] in grouped && grouped[order[k]] == For(records, order[k])
    requires sofar.Explained()
    ensures result.Explained()
    ensures failed <==> failAt.Some? && failAt.value <= |order| && order != []
    ensures failed ==> store == FoldGroups(Applying(setup), before, records, order[..failAt.value]).0
    ensures !failed ==> store == FoldGroups(Applying(setup), before, records, order).0
    ensures !failed ==> result.tally == sofar.tally + FoldGroups(Applying(setup), before, records, order).1
  {
    store, result := before, sofar;
    var k := 0;
    assert order[..0] == [];
    PlusNone(sofar.tally);
    while k < |order|
      invariant k <= |order| && result.Explained()
      invariant failAt.Some? ==> k <= failAt.value
      invariant store == FoldGroups(Applying(setup), before, records, order[..k]).0
      invariant result.tally == sofar.tally + FoldGroups(Applying(setup), before, records, order[..k]).1
    {
      if failAt == Some(k) {
        return store, result, true;
      }
      var o := order[k];
      assert order[..k + 1] == order[..k] + [o];
      store, result := CommitTenant(setup, before, records, order[..k], o, grouped[o], sofar.tally, store, result);
      k := k + 1;
    }
    assert order[..k] == order;
    failed := failAt == Some(k) && k > 0;
  }

  class ProcessRuntimeEvents {
    const setup: Setup
    // The committed database.
    var store: Store

    constructor (setup: Setup)
      ensures this.setup == setup && store == map[]
    {
      this.setup := setup;
      store := map[];
    }

    // A whole batch, one transaction per tenant. The database may fail once failAt tenants are
    // committed: the next one is rolled back, or the last commit raised although it went through.
    method Execute(records: seq<Record>, failAt: Option<nat>) returns (outcome: Option<ProcessingResult>)
      modifies this`store
      ensures outcome.None? <==> failAt.Some? && failAt.value <= |Tenants(records)| && Tenants(records) != []
      ensures outcome.None? ==>
                store == FoldGroups(Applying(setup), old(store), records, Tenants(records)[..failAt.value]).0
      ensures outcome.Some? ==> outcome.value.Explained()
      ensures outcome.Some? ==>
                (store, outcome.value.tally) == FoldStream(Applying(setup), old(store), records)
    {
      var order, grouped, result := GroupByTenant(records);
      forall k | 0 <= k < |order| ensures order[k] in grouped && grouped[order[k]] == For(records, order[k]) {
        GroupedAt(records, order[k]);
      }
      var failed;
      store, result, failed := RunTransactions(setup, store, records, order, grouped, failAt, result);
      if failed {
        return None;
      }
      GroupingKeepsMeaning(Applying(setup), old(store), records);
      outcome := Some(result);
    }

    // process_runtime_events: parsed lines cut into batches, each executed, the results merged.
    method Replay(lines: seq<Parsed>, batchSize: int) returns (total: ProcessingResult)
      modifies this`store
      ensures total.Bounded()
      ensures store == FoldStream(Applying(setup), old(store), Records(lines)).0
      ensures total.tally == Rejects(BadLines(lines)) + FoldStream(Applying(setup), old(store), Records(lines)).1
    {
      total := ProcessingResult(multiset{}, []);
      ghost var done: seq<Record> := [];
      var batch: seq<Record> := [];
      var i := 0;
      while i < |lines|
        invariant i <= |lines| && total.Bounded()
        invariant Records(lines[..i]) == done + batch
        invariant store == FoldStream(Applying(setup), old(store), done).0
        invariant total.tally == Rejects(BadLines(lines[..i])) + FoldStream(Applying(setup), old(store), done).1
      {
        var line := lines[i];
        OneMoreLine(lines, i);
        i := i + 1;
        if line == BlankLine {
          continue;
        }
        if line == BadJson {
          OneMoreBad(BadLines(lines[..i - 1]), FoldStream(Applying(setup), old(store), done).1);
          total := total.(tally := total.tally + multiset{REJECTED});
          continue;
        }
        assert done + batch + [line.record] == done + (batch + [line.record]);
        batch := batch + [line.record];
        if |batch| >= batchSize {
          total := ExecuteInto(total, batch, old(store), done, BadLines(lines[..i]));
          done := done + batch;
          batch := [];
        }
      }
      assert lines[..i] == lines;
      if |batch| > 0 {
        total := ExecuteInto(total, batch, old(store), done, BadLines(lines));
        done := done + batch;
      }
      assert Records(lines) == done;
    }

    // One batch of a replay, its counters merged into the total.
    method ExecuteInto(sofar: ProcessingResult, batch: seq<Record>, ghost start: Store, ghost done: seq<Record>,
                       ghost bad: nat)
      returns (total: ProcessingResult)
      requires sofar.Bounded()
      requires store == FoldStream(Applying(setup), start, done).0
      requires sofar.tally == Rejects(bad) + FoldStream(Applying(setup), start, done).1
      modifies this`store
      ensures total.Bounded()
      ensures store == FoldStream(Applying(setup), start, done + batch).0
      ensures total.tally == Rejects(bad) + FoldStream(Applying(setup), start, done + batch).1
    {
      CuttingKeepsMeaning(Applying(setup), start, done, batch);
      PlusAssociates(Rejects(bad), FoldStream(Applying(setup), start, done).1,
                     FoldStream(Applying(setup), store, batch).1);
      var outcome := Execute(batch, None);
      total := Merge(sofar, outcome.value);
    }
  }

  // _merge: adds another result's counters and as many of its reasons as still fit.
  method Merge(into: ProcessingResult, batch: ProcessingResult) returns (total: ProcessingResult)
    requires into.Bounded()
    ensures total.Bounded() && total.tally == into.tally + batch.tally
    ensures total.reasons == (into.reasons + batch.reasons)[..Min(50, |into.reasons + batch.reasons|)]
  {
    total := into.(tally := into.tally + batch.tally);
    var i := 0;
    while i < |batch.reasons|
      invariant i <= |batch.reasons|
      invariant total.Bounded() && total.tally == into.tally + batch.tally
      invariant total.reasons == (into.reasons + batch.reasons)[..Min(MAX_REASONS, |into.reasons| + i)]
    {
      if |total.reasons| < MAX_REASONS {
        total := total.(reasons := total.reasons + [batch.reasons[i]]);
      }
      i := i + 1;
    }
  }

  // A line of a replayed capture after json.loads.
  datatype Parsed = BlankLine | BadJson | Json(record: Record)

  function Records(lines: seq<Parsed>): seq<Record>
    decreases |lines|
  {
    if |lines| == 0 then []
    else
      var before := Records(lines[..|lines| - 1]);
      match lines[|lines| - 1] case Json(r) => before + [r] case _ => before
  }

  function BadLines(lines: seq<Parsed>): nat
    decreases |lines|
  {
    if |lines| == 0 then 0
    else BadLines(lines[..|lines| - 1]) + if lines[|lines| - 1] == BadJson then 1 else 0
  }

  // A replay folds every parsed line, in order, and counts every bad one.
  lemma OneMoreLine(lines: seq<Parsed>, i: nat)
    requires i < |lines|
    ensures Records(lines[..i + 1]) == Records(lines[..i]) + if lines[i].Json? then [lines[i].record] else []
    ensures BadLines(lines[..i + 1]) == BadLines(lines[..i]) + if lines[i].BadJson? then 1 else 0
  {
    assert lines[..i + 1][..i] == lines[..i];
  }

  lemma OneMoreBad(n: nat, rest: Tally)
    ensures Rejects(n) + rest + multiset{REJECTED} == Rejects(n + 1) + rest
  {
    RejectsOne(n);
    PlusSwaps(Rejects(n), rest, multiset{REJECTED});
  }
}
