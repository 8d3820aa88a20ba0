// How much evidence one finding can store: _should_keep_evidence of
// apps/api/src/aegis_api/application/findings.py, with triage happening in between.
module Evidence {
  import opened Prelude
  import opened Findings

  // What can happen to one finding: an admitted event, or a change of status by a human.
  datatype Op = Seen(context: AgentContext, hit: Hit, at: int) | Triage(status: Status)

  predicate Known(setup: Setup, ops: seq<Op>) {
    forall i :: 0 <= i < |ops| && ops[i].Seen? ==> ops[i].hit.ruleKey in setup.titles
  }

  function After(setup: Setup, row: Option<Row>, op: Op): Option<Row>
    requires op.Seen? ==> op.hit.ruleKey in setup.titles
  {
    match op
    case Seen(context, hit, at) => Some(Upsert(setup, row, context, hit, at).0)
    case Triage(status) =>
      if row.None? then None else Some(row.value.(finding := row.value.finding.(status := status)))
  }

  function History(setup: Setup, ops: seq<Op>): Option<Row>
    requires Known(setup, ops)
    decreases |ops|
  {
    if |ops| == 0 then None
    else After(setup, History(setup, ops[..|ops| - 1]), ops[|ops| - 1])
  }

  // Every sample is at least one interval later than every sample before it.
  predicate Spaced(times: seq<int>, interval: int) {
    forall i, j :: 0 <= i < j < |times| ==> times[i] + interval <= times[j]
  }

  // The guard that lets a sample through early: a suppressed finding stays at one occurrence.
  predicate Unlimited(setup: Setup, row: Option<Row>, op: Op) {
    && op.Seen? && row.Some? && row.value.finding.status.Suppressed() && row.value.finding.occurrences <= 1
    && |row.value.evidence| > 0 && op.at < Latest(row.value.evidence) + setup.evidenceInterval
  }

  predicate SampledOnce(row: Option<Row>) {
    row.Some? ==> row.value.finding.occurrences >= 1 && |row.value.evidence| > 0
  }

  lemma SpacedSnoc(times: seq<int>, at: int, interval: int)
    requires |times| > 0
    ensures Spaced(times + [at], interval) <==> Spaced(times, interval) && Latest(times) + interval <= at
  {
    var more := times + [at];
    if Spaced(more, interval) {
      assert forall i :: 0 <= i < |times| ==> times[i] == more[i];
      var i :| 0 <= i < |times| && times[i] == Latest(times);
      assert more[i] + interval <= more[|times|];
    }
    if Spaced(times, interval) && Latest(times) + interval <= at {
      forall i, j | 0 <= i < j < |more| ensures more[i] + interval <= more[j] {
        if j == |times| {
          assert times[i] in times;
        }
      }
    }
  }

  lemma FirstIsSampled(setup: Setup, op: Op)
    requires op.Seen? && op.hit.ruleKey in setup.titles
    ensures var row := After(setup, None, op).value;
            row.evidence == [op.at] && row.finding.occurrences == 1
  {
  }

  lemma SeenSamples(setup: Setup, row: Row, op: Op)
    requires op.Seen? && op.hit.ruleKey in setup.titles && SampledOnce(Some(row))
    ensures var after := After(setup, Some(row), op).value;
            && after.finding.occurrences >= 1
            && after.evidence ==
               if Unlimited(setup, Some(row), op) || Latest(row.evidence) + setup.evidenceInterval <= op.at
               then row.evidence + [op.at] else row.evidence
  {
  }

  // One step keeps the samples spaced exactly when it does not go through that guard.
  lemma StepSpacing(setup: Setup, row: Option<Row>, op: Op)
    requires op.Seen? ==> op.hit.ruleKey in setup.titles
    requires SampledOnce(row)
    ensures SampledOnce(After(setup, row, op))
    ensures var after := After(setup, row, op);
            after.Some? ==>
              (Spaced(after.value.evidence, setup.evidenceInterval) <==>
               (row.Some? ==> Spaced(row.value.evidence, setup.evidenceInterval)) && !Unlimited(setup, row, op))
  {
    if op.Seen? {
      if row.None? {
        FirstIsSampled(setup, op);
      } else {
        SeenSamples(setup, row.value, op);
        SpacedSnoc(row.value.evidence, op.at, setup.evidenceInterval);
      }
    }
  }

  predicate NeverUnlimited(setup: Setup, ops: seq<Op>)
    requires Known(setup, ops)
    decreases |ops|
  {
    |ops| == 0 ||
    var n := |ops| - 1;
    NeverUnlimited(setup, ops[..n]) && !Unlimited(setup, History(setup, ops[..n]), ops[n])
  }

  // Over any history the samples are spaced exactly when no event met the finding suppressed,
  // seen only once, and less than an interval after a sample.
  lemma {:induction false} EvidenceIsSpacedExactlyWhen(setup: Setup, ops: seq<Op>)
    requires Known(setup, ops)
    ensures SampledOnce(History(setup, ops))
    ensures History(setup, ops).Some? ==>
              (Spaced(History(setup, ops).value.evidence, setup.evidenceInterval) <==> NeverUnlimited(setup, ops))
    ensures History(setup, ops).None? ==> NeverUnlimited(setup, ops)
    decreases |ops|
  {
    if |ops| > 0 {
      var n := |ops| - 1;
      EvidenceIsSpacedExactlyWhen(setup, ops[..n]);
      StepSpacing(setup, History(setup, ops[..n]), ops[n]);
    }
  }

  predicate Unsuppressed(row: Option<Row>) {
    row.Some? ==> !row.value.finding.status.Suppressed()
  }

  lemma SeenStaysUnsuppressed(setup: Setup, row: Option<Row>, op: Op)
    requires op.Seen? && op.hit.ruleKey in setup.titles && Unsuppressed(row)
    ensures Unsuppressed(After(setup, row, op)) && !Unlimited(setup, row, op)
  {
  }

  // Without triage nothing is ever suppressed, and the documented rule holds.
  lemma {:induction false} WithoutTriageNeverUnlimited(setup: Setup, ops: seq<Op>)
    requires Known(setup, ops) && forall i :: 0 <= i < |ops| ==> ops[i].Seen?
    ensures NeverUnlimited(setup, ops) && Unsuppressed(History(setup, ops))
    decreases |ops|
  {
    if |ops| > 0 {
      var n := |ops| - 1;
      WithoutTriageNeverUnlimited(setup, ops[..n]);
      SeenStaysUnsuppressed(setup, History(setup, ops[..n]), ops[n]);
    }
  }

  // Spaced samples are few: one, plus one for each interval between the first and the last.
  lemma {:induction false} SpacedIsBounded(times: seq<int>, interval: int)
    requires |times| > 0 && interval > 0 && Spaced(times, interval)
    ensures (|times| - 1) * interval <= times[|times| - 1] - times[0]
    ensures |times| <= 1 + (times[|times| - 1] - times[0]) / interval
    decreases |times|
  {
    var n := |times| - 1;
    if n > 0 {
      SpacedIsBounded(times[..n], interval);
      assert times[n - 1] + interval <= times[n];
      assert n * interval == (n - 1) * interval + interval;
    }
    QuotientBound(n, interval, times[n] - times[0]);
  }

  lemma QuotientBound(n: int, k: int, total: int)
    requires k > 0 && n * k <= total
    ensures n <= total / k
  {
    var gap := n - total / k;
    assert gap * k <= total % k < k;
    NotPositive(gap, k);
  }

  lemma NotPositive(gap: int, k: int)
    requires k > 0 && gap * k < k
    ensures gap <= 0
  {
  }

  predicate Within(ops: seq<Op>, earliest: int, latest: int) {
    forall i :: 0 <= i < |ops| && ops[i].Seen? ==> earliest <= ops[i].at <= latest
  }

  lemma {:induction false} SamplesWereSeen(setup: Setup, ops: seq<Op>, earliest: int, latest: int)
    requires Known(setup, ops) && Within(ops, earliest, latest)
    ensures History(setup, ops).Some? ==>
              forall t :: t in History(setup, ops).value.evidence ==> earliest <= t <= latest
    decreases |ops|
  {
    if |ops| > 0 {
      var n := |ops| - 1;
      SamplesWereSeen(setup, ops[..n], earliest, latest);
      EvidenceIsSpacedExactlyWhen(setup, ops[..n]);
      if ops[n].Seen? && History(setup, ops[..n]).Some? {
        SeenSamples(setup, History(setup, ops[..n]).value, ops[n]);
      }
    }
  }

  // One sample, plus one for each whole interval between the earliest and the latest sighting.
  lemma EvidenceIsBounded(setup: Setup, ops: seq<Op>, earliest: int, latest: int)
    requires Known(setup, ops) && Within(ops, earliest, latest)
    requires setup.evidenceInterval > 0 && NeverUnlimited(setup, ops)
    requires History(setup, ops).Some?
    ensures 1 <= |History(setup, ops).value.evidence| <= 1 + (latest - earliest) / setup.evidenceInterval
  {
    EvidenceIsSpacedExactlyWhen(setup, ops);
    SamplesWereSeen(setup, ops, earliest, latest);
    FewSamples(History(setup, ops).value.evidence, setup.evidenceInterval, earliest, latest);
  }

  lemma FewSamples(times: seq<int>, interval: int, earliest: int, latest: int)
    requires |times| > 0 && interval > 0 && Spaced(times, interval)
    requires forall t :: t in times ==> earliest <= t <= latest
    ensures |times| <= 1 + (latest - earliest) / interval
  {
    SpacedIsBounded(times, interval);
    assert times[0] in times && times[|times| - 1] in times;
    QuotientBound(|times| - 1, interval, latest - earliest);
  }

  lemma HistorySnoc(setup: Setup, ops: seq<Op>, op: Op)
    requires Known(setup, ops) && (op.Seen? ==> op.hit.ruleKey in setup.titles)
    ensures Known(setup, ops + [op])
    ensures History(setup, ops + [op]) == After(setup, History(setup, ops), op)
  {
    assert (ops + [op])[..|ops|] == ops;
  }

  // A finding suppressed at its first occurrence stores a sample of every event, and stays so.
  lemma SuppressedOnceStoresEverything(setup: Setup, row: Row, op: Op)
    requires op.Seen? && op.hit.ruleKey in setup.titles
    requires row.finding.status.Suppressed() && row.finding.occurrences <= 1
    ensures var after := After(setup, Some(row), op).value;
            && after.evidence == row.evidence + [op.at]
            && after.finding.status == row.finding.status && after.finding.occurrences == row.finding.occurrences
  {
  }

  // Two events at one instant, with a suppression between them, store two samples.
  lemma SuppressionLiftsTheLimit(setup: Setup, context: AgentContext, hit: Hit, at: int)
    requires hit.ruleKey in setup.titles && setup.evidenceInterval > 0
    ensures var ops := [] + [Seen(context, hit, at)] + [Triage(FALSE_POSITIVE)] + [Seen(context, hit, at)];
            && Known(setup, ops) && History(setup, ops).Some?
            && History(setup, ops).value.evidence == [at] + [at]
  {
    var seen, triaged := Seen(context, hit, at), Triage(FALSE_POSITIVE);
    HistorySnoc(setup, [], seen);
    FirstIsSampled(setup, seen);
    HistorySnoc(setup, [] + [seen], triaged);
    HistorySnoc(setup, [] + [seen] + [triaged], seen);
    SuppressedOnceStoresEverything(setup, History(setup, [] + [seen] + [triaged]).value, seen);
  }
}
