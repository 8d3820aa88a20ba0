// The sampling of evidence over whole runs of the worker: replays, failed folds and crashes included.
module EvidenceRuns {
  import opened Prelude
  import opened Findings
  import opened FileTail
  import opened Worker
  import Evidence

  // Samples an interval apart, the first one there, all of them taken between two times.
  predicate Sampled(setup: Setup, row: Row, earliest: int, latest: int) {
    && Evidence.SampledOnce(Some(row)) && Evidence.Unsuppressed(Some(row))
    && Evidence.Spaced(row.evidence, setup.evidenceInterval)
    && forall t :: t in row.evidence ==> earliest <= t <= latest
  }

  predicate RowsSampled(setup: Setup, rows: Rows, earliest: int, latest: int) {
    forall id :: id in rows ==> Sampled(setup, rows[id], earliest, latest)
  }

  predicate StoreSampled(setup: Setup, store: Store, earliest: int, latest: int) {
    forall o :: o in store ==> RowsSampled(setup, store[o], earliest, latest)
  }

  predicate Timed(records: seq<Record>, earliest: int, latest: int) {
    forall i :: 0 <= i < |records| ==> earliest <= records[i].observedAt <= latest
  }

  lemma UpsertSampled(setup: Setup, row: Option<Row>, context: AgentContext, hit: Hit, at: int,
                      earliest: int, latest: int)
    requires hit.ruleKey in setup.titles && earliest <= at <= latest
    requires row.Some? ==> Sampled(setup, row.value, earliest, latest)
    ensures Sampled(setup, Upsert(setup, row, context, hit, at).0, earliest, latest)
  {
    var op := Evidence.Seen(context, hit, at);
    Evidence.StepSpacing(setup, row, op);
    Evidence.SeenStaysUnsuppressed(setup, row, op);
    assert Evidence.After(setup, row, op) == Some(Upsert(setup, row, context, hit, at).0);
    if row.None? {
      Evidence.FirstIsSampled(setup, op);
    } else {
      Evidence.SeenSamples(setup, row.value, op);
    }
  }

  lemma ApplySampled(setup: Setup, o: Uuid, rows: Rows, r: Record, earliest: int, latest: int)
    requires RowsSampled(setup, rows, earliest, latest) && earliest <= r.observedAt <= latest
    ensures RowsSampled(setup, Apply(setup, o, rows, r).0, earliest, latest)
  {
    match Decide(setup, o, r)
    case Ignore =>
    case Refuse(_) =>
    case Admit(id, context, hit) =>
      UpsertSampled(setup, Find(rows, id), context, hit, r.observedAt, earliest, latest);
  }

  // Tenant by tenant and record by record, a step that keeps rows sampled keeps the store sampled.
  ghost predicate Keeps(step: Step, setup: Setup, earliest: int, latest: int) {
    forall o: Uuid, rows: Rows, r: Record ::
      RowsSampled(setup, rows, earliest, latest) && earliest <= r.observedAt <= latest ==>
        RowsSampled(setup, step(o, rows, r).0, earliest, latest)
  }

  lemma ApplyingKeeps(setup: Setup, earliest: int, latest: int)
    ensures Keeps(Applying(setup), setup, earliest, latest)
  {
    forall o: Uuid, rows: Rows, r: Record | RowsSampled(setup, rows, earliest, latest) && earliest <= r.observedAt <= latest
      ensures RowsSampled(setup, Applying(setup)(o, rows, r).0, earliest, latest)
    {
      ApplySampled(setup, o, rows, r, earliest, latest);
    }
  }

  lemma {:induction false} StreamSampled(step: Step, setup: Setup, store: Store, records: seq<Record>,
                                         earliest: int, latest: int)
    requires Keeps(step, setup, earliest, latest)
    requires StoreSampled(setup, store, earliest, latest) && Timed(records, earliest, latest)
    ensures StoreSampled(setup, FoldStream(step, store, records).0, earliest, latest)
    decreases |records|
  {
    if |records| > 0 {
      StreamSampled(step, setup, store, records[..|records| - 1], earliest, latest);
    }
  }

  lemma {:induction false} TenantSampled(step: Step, setup: Setup, o: Uuid, rows: Rows, records: seq<Record>,
                                         earliest: int, latest: int)
    requires Keeps(step, setup, earliest, latest)
    requires RowsSampled(setup, rows, earliest, latest) && Timed(records, earliest, latest)
    ensures RowsSampled(setup, FoldTenant(step, o, rows, records).0, earliest, latest)
    decreases |records|
  {
    if |records| > 0 {
      TenantSampled(step, setup, o, rows, records[..|records| - 1], earliest, latest);
    }
  }

  lemma {:induction false} ForTimed(records: seq<Record>, o: Uuid, earliest: int, latest: int)
    requires Timed(records, earliest, latest)
    ensures Timed(For(records, o), earliest, latest)
    decreases |records|
  {
    if |records| > 0 {
      ForTimed(records[..|records| - 1], o, earliest, latest);
    }
  }

  lemma {:induction false} GroupsSampled(step: Step, setup: Setup, store: Store, records: seq<Record>, order: seq<Uuid>,
                                         earliest: int, latest: int)
    requires Keeps(step, setup, earliest, latest)
    requires StoreSampled(setup, store, earliest, latest) && Timed(records, earliest, latest)
    ensures StoreSampled(setup, FoldGroups(step, store, records, order).0, earliest, latest)
    decreases |order|
  {
    if |order| > 0 {
      var n := |order| - 1;
      GroupsSampled(step, setup, store, records, order[..n], earliest, latest);
      ForTimed(records, order[n], earliest, latest);
      TenantSampled(step, setup, order[n], At(FoldGroups(step, store, records, order[..n]).0, order[n]),
                    For(records, order[n]), earliest, latest);
    }
  }

  // The pending batch is a stretch of the file.
  lemma BatchTimed(sys: System, w: World, earliest: int, latest: int)
    requires Tidy(w) && Waiting(w) && Timed(All(sys, w.file), earliest, latest)
    ensures Timed(Batched(sys, w), earliest, latest)
  {
    Stretch(sys, w.file, w.tail.value.committed, w.tail.value.pending.value.offset);
  }

  lemma StepSampled(sys: System, w: World, e: Event, earliest: int, latest: int)
    requires Tidy(w) && !e.Triage? && Timed(All(sys, w.file), earliest, latest)
    requires StoreSampled(sys.setup, w.store, earliest, latest)
    ensures StoreSampled(sys.setup, Next(sys, w, e).store, earliest, latest)
  {
    if Waiting(w) {
      BatchTimed(sys, w, earliest, latest);
      ApplyingKeeps(sys.setup, earliest, latest);
      match e
      case FoldSucceeds =>
        StreamSampled(Applying(sys.setup), sys.setup, w.store, Batched(sys, w), earliest, latest);
      case FoldFails(k) =>
        if k <= |Tenants(Batched(sys, w))| {
          GroupsSampled(Applying(sys.setup), sys.setup, w.store, Batched(sys, w), Tenants(Batched(sys, w))[..k],
                        earliest, latest);
        }
      case _ =>
    }
  }

  lemma FileGrows(sys: System, w: World, e: Event)
    ensures All(sys, w.file) <= All(sys, Next(sys, w, e).file)
  {
    if e.Append? {
      UptoGrows(sys, w.file, e.more, 0);
    }
  }

  lemma {:induction false} RunSampled(sys: System, events: seq<Event>, earliest: int, latest: int)
    requires forall i :: 0 <= i < |events| ==> !events[i].Triage?
    requires Timed(All(sys, Run(sys, events).file), earliest, latest)
    ensures StoreSampled(sys.setup, Run(sys, events).store, earliest, latest)
    decreases |events|
  {
    if |events| > 0 {
      var n := |events| - 1;
      var w := Run(sys, events[..n]);
      FileGrows(sys, w, events[n]);
      EarlierTimed(All(sys, w.file), All(sys, Run(sys, events).file), earliest, latest);
      RunSampled(sys, events[..n], earliest, latest);
      RunKeepsInvariant(sys, events[..n]);
      StepSampled(sys, w, events[n], earliest, latest);
    }
  }

  lemma EarlierTimed(some: seq<Record>, all: seq<Record>, earliest: int, latest: int)
    requires some <= all && Timed(all, earliest, latest)
    ensures Timed(some, earliest, latest)
  {
    assert forall i :: 0 <= i < |some| ==> some[i] == all[i];
  }

  // In every run without triage, however often records are replayed and folds fail part-way, each finding
  // stores at least one sample, samples an interval apart, and at most one more than there are whole
  // intervals between the earliest and the latest record of the file.
  lemma EveryRunBoundsEvidence(sys: System, events: seq<Event>, earliest: int, latest: int, o: Uuid, id: Identity)
    requires sys.setup.evidenceInterval > 0
    requires forall i :: 0 <= i < |events| ==> !events[i].Triage?
    requires Timed(All(sys, Run(sys, events).file), earliest, latest)
    requires id in At(Run(sys, events).store, o)
    ensures var samples := At(Run(sys, events).store, o)[id].evidence;
            && Evidence.Spaced(samples, sys.setup.evidenceInterval)
            && 1 <= |samples| <= 1 + (latest - earliest) / sys.setup.evidenceInterval
  {
    RunSampled(sys, events, earliest, latest);
    assert Sampled(sys.setup, At(Run(sys, events).store, o)[id], earliest, latest);
    Evidence.FewSamples(At(Run(sys, events).store, o)[id].evidence, sys.setup.evidenceInterval, earliest, latest);
  }
}
