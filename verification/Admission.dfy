// What the gateway charges its tenants, in tokens and not through the admission policy: when exactly a
// line passes, and how much can pass in any stretch of a run.
module Admission {
  import opened Prelude
  import opened Quota
  import opened Ingest
  import opened Reserve

  // ---- One line ----

  lemma UnderHalf(f: real, whole: real)
    requires f < 0.5 && whole > 0.0
    ensures f * whole < whole / 2.0
  {
    assert (0.5 - f) * whole > 0.0;
  }

  lemma HalfExactlyWhen(b: Bucket)
    requires Sane(b) && b.capacity > 0.0
    ensures RemainingFraction(b) >= 0.5 <==> b.tokens >= b.capacity / 2.0
  {
    if b.tokens >= b.capacity / 2.0 {
      var f := b.tokens / b.capacity;
      Share(b.tokens, b.capacity);
      if f < 0.5 {
        UnderHalf(f, b.capacity);
      }
    } else if RemainingFraction(b) >= 0.5 {
      AtLeastHalf(b);
    }
  }

  // A line about to be offered to the bucket: a new event, in a pass that still looks at lines.
  predicate Offered(cfg: Config, s: Scan, line: Line) {
    && s.stop == Running && s.seen < cfg.maxEvents
    && line.content.Event? && line.content.id !in s.remembered
  }

  // The tenant's bucket refilled at the first clock reading, and then at the second.
  function Seen(cfg: Config, s: Scan, line: Line): Bucket {
    Refilled(if s.bucket.Some? then s.bucket.value else Fresh(cfg.capacity, cfg.rate, line.readAt), line.readAt)
  }

  function Charged(cfg: Config, s: Scan, line: Line): Bucket {
    Refilled(Seen(cfg, s, line), line.chargeAt)
  }

  lemma ChargedIsSane(cfg: Config, s: Scan, line: Line)
    requires Sound(cfg) && Level(cfg, s.bucket, 0.0)
    ensures Sane(Seen(cfg, s, line)) && Sane(Charged(cfg, s, line))
    ensures Level(cfg, Some(Seen(cfg, s, line)), 0.0) && Level(cfg, Some(Charged(cfg, s, line)), 0.0)
  {
    RefillGrows(BucketAt(cfg, s.bucket, line.readAt), line.readAt);
    RefillGrows(Seen(cfg, s, line), line.chargeAt);
  }

  // A new finding passes exactly when half a token is left, and is charged for it; without one it stops
  // the batch, with the hint for half a token.
  lemma FindingPassesExactlyWhen(cfg: Config, s: Scan, line: Line, number: nat)
    requires Sound(cfg) && Level(cfg, s.bucket, 0.0) && Offered(cfg, s, line) && line.content.security
    ensures var b := Charged(cfg, s, line);
            Step(cfg, s, line, number)
            == if b.tokens >= 0.5 then
                 s.(seen := s.seen + 1, bucket := Some(b.(tokens := b.tokens - 0.5)),
                    remembered := s.remembered + {line.content.id}, publishable := s.publishable + [line.content.id])
               else
                 s.(seen := s.seen + 1, bucket := Some(Refilled(b, line.hintAt)),
                    stop := Stop.OverQuota(Hint(b, 0.5, line.hintAt)))
  {
    ChargedIsSane(cfg, s, line);
    var seen := Seen(cfg, s, line);
    assert seen.(tokens := seen.tokens - 0.0) == seen;
  }

  // New telemetry passes exactly when the bucket is at least half full and a whole token is left, and is
  // charged for it; otherwise it is shed and nothing else happens to the pass.
  lemma TelemetryPassesExactlyWhen(cfg: Config, s: Scan, line: Line, number: nat)
    requires Sound(cfg) && Level(cfg, s.bucket, 0.0) && Offered(cfg, s, line) && !line.content.security
    ensures var seen, b := Seen(cfg, s, line), Charged(cfg, s, line);
            Step(cfg, s, line, number)
            == if seen.tokens >= cfg.capacity / 2.0 && b.tokens >= 1.0 then
                 s.(seen := s.seen + 1, bucket := Some(b.(tokens := b.tokens - 1.0)),
                    remembered := s.remembered + {line.content.id}, publishable := s.publishable + [line.content.id])
               else
                 s.(seen := s.seen + 1, shed := s.shed + 1,
                    bucket := Some(if cfg.capacity > 0.0 && seen.tokens >= cfg.capacity / 2.0 then b else seen))
  {
    ChargedIsSane(cfg, s, line);
    var seen := Seen(cfg, s, line);
    assert seen.(tokens := seen.tokens - 0.0) == seen;
    if cfg.capacity > 0.0 {
      HalfExactlyWhen(seen);
    }
  }

  // Every other line: nothing after a stop or of a blank one; past the event limit a last rejection; of a
  // bad line a rejection, listed while fewer than twenty are; of a repeated event an acknowledgement.
  lemma OtherLines(cfg: Config, s: Scan, line: Line, number: nat)
    requires !Offered(cfg, s, line)
    ensures Step(cfg, s, line, number)
         == if s.stop != Running || line.content == Blank then s
            else if s.seen >= cfg.maxEvents then
              s.(stop := LimitHit, rejected := s.rejected + 1,
                 rejections := s.rejections + [Rejection(number, "batch event limit exceeded")])
            else if line.content.Bad? then
              s.(seen := s.seen + 1, rejected := s.rejected + 1,
                 rejections := if |s.rejections| < 20 then s.rejections + [Rejection(number, line.content.reason)]
                               else s.rejections)
            else s.(seen := s.seen + 1, duplicates := s.duplicates + 1, ackCursor := line.content.id)
  {
  }

  // ---- One call ----

  // Which answer a batch gets, the first that applies, and what an accepted one reports.
  lemma AnswerExactlyWhen(cfg: Config, g: Gateway, batch: Batch)
    ensures var s, (g', answer) := Scanned(cfg, g, batch), Ingested(cfg, g, batch);
            && (answer.TooLarge? <==> batch.bytes > cfg.maxBytes)
            && (answer.QuotaExceeded? <==> batch.bytes <= cfg.maxBytes && s.stop.OverQuota?)
            && (answer.Invalid? <==>
                  batch.bytes <= cfg.maxBytes && !s.stop.OverQuota? && cfg.strict && s.rejections != [])
            && (answer.SinkDown? <==>
                  && batch.bytes <= cfg.maxBytes && !s.stop.OverQuota? && !(cfg.strict && s.rejections != [])
                  && s.publishable != [] && batch.sink.Down?)
            && (answer.TooLarge? ==> g' == g)
            && (answer.QuotaExceeded? ==> answer.hint == s.stop.hint)
            && (answer.Invalid? ==> answer.first == s.rejections[0])
            && (answer.Accepted? ==>
                  && batch.sender.organization in g'.buckets
                  && answer.report.credit == Credit(cfg, g'.buckets[batch.sender.organization])
                  && answer.report.accepted == |s.publishable| && answer.report.duplicates == s.duplicates
                  && answer.report.shed == s.shed && answer.report.rejected == s.rejected
                  && answer.report.rejections == s.rejections
                  && answer.report.ackCursor == (if s.publishable == [] then s.ackCursor
                                                 else s.publishable[|s.publishable| - 1]))
  {
  }

  // The credit of an accepted batch is the event limit times the part of the capacity that is left, rounded
  // down, and at least one.
  lemma CreditIsTheShare(cfg: Config, b: Bucket)
    requires Sane(b) && b.capacity > 0.0
    ensures RemainingFraction(b) * b.capacity == b.tokens
    ensures var share := cfg.maxEvents as real * RemainingFraction(b);
            Credit(cfg, b) == if share < 1.0 then 1 else share.Floor
  {
    Share(b.tokens, b.capacity);
    AtLeastOne(cfg.maxEvents as real * RemainingFraction(b));
  }

  lemma AtLeastOne(x: real)
    ensures Max(1, Truncated(x)) == if x < 1.0 then 1 else x.Floor
  {
  }

  // ---- What passes over a run ----

  // An event that was let through, at the time its tenant's bucket had then reached.
  datatype Passing = Passing(at: real, security: bool)

  // Half a token for a finding and one for telemetry, from entry i up to entry j.
  function Weight(trace: seq<Passing>, i: nat, j: nat): real
    requires i <= j <= |trace|
    decreases j
  {
    if i == j then 0.0 else Weight(trace, i, j - 1) + if trace[j - 1].security then 0.5 else 1.0
  }

  // What one line adds: the event it carries, if the pass took it.
  function Passed(before: Scan, line: Line, after: Scan): seq<Passing> {
    if line.content.Event? && |after.publishable| > |before.publishable| && after.bucket.Some?
    then [Passing(after.bucket.value.updatedAt, line.content.security)] else []
  }

  function ScanTrace(cfg: Config, s: Scan, lines: seq<Line>): seq<Passing>
    decreases |lines|
  {
    if |lines| == 0 then []
    else
      var n := |lines| - 1;
      ScanTrace(cfg, s, lines[..n]) + Passed(ScanAll(cfg, s, lines[..n]), lines[n], ScanAll(cfg, s, lines))
  }

  function BatchTrace(cfg: Config, g: Gateway, batch: Batch, organization: string): seq<Passing> {
    if batch.sender.organization == organization && batch.bytes <= cfg.maxBytes
    then ScanTrace(cfg, Started(g, organization), batch.lines) else []
  }

  // The events of a tenant let through over a run, in order.
  function RunTrace(cfg: Config, batches: seq<Batch>, organization: string): seq<Passing>
    decreases |batches|
  {
    if |batches| == 0 then []
    else
      var n := |batches| - 1;
      RunTrace(cfg, batches[..n], organization)
      + BatchTrace(cfg, RunAll(cfg, EMPTY, batches[..n]), batches[n], organization)
  }

  // Every event a pass means to publish is on its trace.
  lemma {:induction false} EveryPassIsCounted(cfg: Config, s: Scan, lines: seq<Line>)
    ensures |ScanTrace(cfg, s, lines)| == |ScanAll(cfg, s, lines).publishable| - |s.publishable|
    decreases |lines|
  {
    if |lines| > 0 {
      EveryPassIsCounted(cfg, s, lines[..|lines| - 1]);
    }
  }

  lemma {:induction false} WeightOfPrefix(trace: seq<Passing>, more: seq<Passing>, i: nat, j: nat)
    requires i <= j <= |trace|
    ensures Weight(trace + more, i, j) == Weight(trace, i, j)
    decreases j
  {
    if i < j {
      WeightOfPrefix(trace, more, i, j - 1);
    }
  }

  // Entries i to j against the allowance, the refill by time t being p(t).
  predicate Within(capacity: real, p: real -> real, trace: seq<Passing>, i: nat, j: nat)
    requires i <= j < |trace|
  {
    Weight(trace, i, j + 1) <= capacity + p(trace[j].at) - p(trace[i].at)
  }

  // Every window keeps its allowance, and the tokens are covered by what each has left.
  ghost predicate Metered(capacity: real, p: real -> real, bucket: Option<Bucket>, trace: seq<Passing>) {
    && (forall i: nat, j: nat :: i <= j < |trace| ==> Within(capacity, p, trace, i, j))
    && (trace != [] ==> bucket.Some?)
    && (bucket.Some? ==>
          var b := bucket.value;
          forall i: nat :: i < |trace| ==>
            Weight(trace, i, |trace|) + b.tokens <= capacity + p(b.updatedAt) - p(trace[i].at))
  }

  lemma RefillKeepsMetered(cfg: Config, b: Bucket, trace: seq<Passing>, now: real)
    requires Level(cfg, Some(b), 0.0) && Metered(cfg.capacity, Potential(cfg.rate), Some(b), trace)
    ensures Metered(cfg.capacity, Potential(cfg.rate), Some(Refilled(b, now)), trace)
  {
    RefilledTokens(b, now);
  }

  lemma PassKeepsMetered(capacity: real, p: real -> real, b: Bucket, trace: seq<Passing>, security: bool)
    requires Metered(capacity, p, Some(b), trace)
    requires var cost := if security then 0.5 else 1.0; cost <= b.tokens <= capacity
    ensures var cost := if security then 0.5 else 1.0;
            Metered(capacity, p, Some(b.(tokens := b.tokens - cost)), trace + [Passing(b.updatedAt, security)])
  {
    var trace' := trace + [Passing(b.updatedAt, security)];
    forall i: nat, j: nat | i <= j < |trace'| ensures Within(capacity, p, trace', i, j) {
      if j < |trace| {
        WeightOfPrefix(trace, [Passing(b.updatedAt, security)], i, j + 1);
        assert Within(capacity, p, trace, i, j);
      } else {
        WeightOfPrefix(trace, [Passing(b.updatedAt, security)], i, j);
      }
    }
    forall i: nat | i < |trace| ensures Weight(trace', i, |trace|) == Weight(trace, i, |trace|) {
      WeightOfPrefix(trace, [Passing(b.updatedAt, security)], i, |trace|);
    }
    assert Weight(trace', |trace|, |trace|) == 0.0;
  }

  // One line keeps the account, whatever is on it.
  lemma StepKeepsMetered(cfg: Config, s: Scan, line: Line, number: nat, trace: seq<Passing>)
    requires Sound(cfg) && Level(cfg, s.bucket, 0.0)
    requires Metered(cfg.capacity, Potential(cfg.rate), s.bucket, trace)
    ensures var t := Step(cfg, s, line, number);
            Level(cfg, t.bucket, 0.0) && (s.bucket.Some? ==> t.bucket.Some?)
            && Metered(cfg.capacity, Potential(cfg.rate), t.bucket, trace + Passed(s, line, t))
  {
    var t := Step(cfg, s, line, number);
    if Offered(cfg, s, line) {
      ChargedIsSane(cfg, s, line);
      OfferKeepsMetered(cfg, s, line, number, trace);
    } else {
      assert t.bucket == s.bucket && t.publishable == s.publishable;
      assert trace + [] == trace;
    }
  }

  lemma OfferKeepsMetered(cfg: Config, s: Scan, line: Line, number: nat, trace: seq<Passing>)
    requires Sound(cfg) && Level(cfg, s.bucket, 0.0) && Offered(cfg, s, line)
    requires Metered(cfg.capacity, Potential(cfg.rate), s.bucket, trace)
    ensures var t := Step(cfg, s, line, number);
            Level(cfg, t.bucket, 0.0) && (s.bucket.Some? ==> t.bucket.Some?)
            && Metered(cfg.capacity, Potential(cfg.rate), t.bucket, trace + Passed(s, line, t))
  {
    var p := Potential(cfg.rate);
    var first, seen, b := BucketAt(cfg, s.bucket, line.readAt), Seen(cfg, s, line), Charged(cfg, s, line);
    ChargedIsSane(cfg, s, line);
    RefillKeepsMetered(cfg, first, trace, line.readAt);
    RefillKeepsMetered(cfg, seen, trace, line.chargeAt);
    assert trace + [] == trace;
    if line.content.security {
      FindingPassesExactlyWhen(cfg, s, line, number);
      if b.tokens >= 0.5 {
        PassKeepsMetered(cfg.capacity, p, b, trace, true);
      } else {
        RefillKeepsMetered(cfg, b, trace, line.hintAt);
        RefillGrows(b, line.hintAt);
      }
    } else {
      TelemetryPassesExactlyWhen(cfg, s, line, number);
      if seen.tokens >= cfg.capacity / 2.0 && b.tokens >= 1.0 {
        PassKeepsMetered(cfg.capacity, p, b, trace, false);
      }
    }
  }

  lemma {:induction false} ScanKeepsMetered(cfg: Config, s: Scan, lines: seq<Line>, trace: seq<Passing>)
    requires Sound(cfg) && Level(cfg, s.bucket, 0.0)
    requires Metered(cfg.capacity, Potential(cfg.rate), s.bucket, trace)
    ensures var t := ScanAll(cfg, s, lines);
            Level(cfg, t.bucket, 0.0) && (s.bucket.Some? ==> t.bucket.Some?)
            && Metered(cfg.capacity, Potential(cfg.rate), t.bucket, trace + ScanTrace(cfg, s, lines))
    decreases |lines|
  {
    if |lines| == 0 {
      assert trace + [] == trace;
    } else {
      var n := |lines| - 1;
      var before := ScanAll(cfg, s, lines[..n]);
      var added := Passed(before, lines[n], ScanAll(cfg, s, lines));
      ScanKeepsMetered(cfg, s, lines[..n], trace);
      StepKeepsMetered(cfg, before, lines[n], |lines|, trace + ScanTrace(cfg, s, lines[..n]));
      assert trace + ScanTrace(cfg, s, lines) == trace + ScanTrace(cfg, s, lines[..n]) + added;
    }
  }

  // A call leaves the tenant's bucket where its pass left it, refilled once more if the batch is answered.
  lemma CallKeepsMetered(cfg: Config, g: Gateway, batch: Batch, trace: seq<Passing>, organization: string)
    requires Sound(cfg) && Level(cfg, BucketOf(g, organization), 0.0)
    requires Metered(cfg.capacity, Potential(cfg.rate), BucketOf(g, organization), trace)
    ensures var g' := Ingested(cfg, g, batch).0;
            Level(cfg, BucketOf(g', organization), 0.0)
            && Metered(cfg.capacity, Potential(cfg.rate), BucketOf(g', organization),
                       trace + BatchTrace(cfg, g, batch, organization))
  {
    if batch.sender.organization != organization {
      OthersDoNotMatter(cfg, g, batch, organization);
      assert trace + [] == trace;
    } else if batch.bytes > cfg.maxBytes {
      assert trace + [] == trace;
    } else {
      var s := Started(g, organization);
      ScanKeepsMetered(cfg, s, batch.lines, trace);
      CallLeavesBucket(cfg, g, batch, trace + ScanTrace(cfg, s, batch.lines));
    }
  }

  lemma CallLeavesBucket(cfg: Config, g: Gateway, batch: Batch, trace: seq<Passing>)
    requires Sound(cfg) && batch.bytes <= cfg.maxBytes
    requires var s := Scanned(cfg, g, batch);
             Level(cfg, s.bucket, 0.0) && Metered(cfg.capacity, Potential(cfg.rate), s.bucket, trace)
             && (s.bucket.None? ==> BucketOf(g, batch.sender.organization).None?)
    ensures var g' := Ingested(cfg, g, batch).0;
            Level(cfg, BucketOf(g', batch.sender.organization), 0.0)
            && Metered(cfg.capacity, Potential(cfg.rate), BucketOf(g', batch.sender.organization), trace)
  {
    var b := BucketAt(cfg, Scanned(cfg, g, batch).bucket, batch.creditAt);
    var r := Refilled(b, batch.creditAt);
    RefillGrows(b, batch.creditAt);
    RefillKeepsMetered(cfg, b, trace, batch.creditAt);
    assert r.(tokens := r.tokens - 0.0) == r;
  }

  lemma {:induction false} RunIsMetered(cfg: Config, batches: seq<Batch>, organization: string)
    requires Sound(cfg)
    ensures var bucket := BucketOf(RunAll(cfg, EMPTY, batches), organization);
            Level(cfg, bucket, 0.0)
            && Metered(cfg.capacity, Potential(cfg.rate), bucket, RunTrace(cfg, batches, organization))
    decreases |batches|
  {
    if |batches| > 0 {
      var n := |batches| - 1;
      RunIsMetered(cfg, batches[..n], organization);
      CallKeepsMetered(cfg, RunAll(cfg, EMPTY, batches[..n]), batches[n], RunTrace(cfg, batches[..n], organization),
                       organization);
    }
  }

  // What passed from entry i to entry j, against the capacity and the refill of that long.
  predicate Allowed(cfg: Config, trace: seq<Passing>, i: nat, j: nat)
    requires i <= j < |trace|
  {
    Weight(trace, i, j + 1) <= cfg.capacity + cfg.rate * (trace[j].at - trace[i].at)
  }

  lemma MeteredIsAllowed(cfg: Config, bucket: Option<Bucket>, trace: seq<Passing>)
    requires Metered(cfg.capacity, Potential(cfg.rate), bucket, trace)
    ensures forall i: nat, j: nat :: i <= j < |trace| ==> Allowed(cfg, trace, i, j)
  {
    forall i: nat, j: nat | i <= j < |trace| ensures Allowed(cfg, trace, i, j) {
      assert Within(cfg.capacity, Potential(cfg.rate), trace, i, j);
      BoundIsBound(Weight(trace, i, j + 1), cfg.capacity, cfg.rate, trace[i].at, trace[j].at);
    }
  }

  // In every window of every run, half a token for each finding and one for each telemetry event that
  // got through come to no more than the capacity and the refill of that long, whatever the batches,
  // their answers and the other tenants were.
  lemma EveryRunIsMetered(cfg: Config, batches: seq<Batch>, organization: string)
    requires Sound(cfg)
    ensures var trace := RunTrace(cfg, batches, organization);
            forall i: nat, j: nat :: i <= j < |trace| ==> Allowed(cfg, trace, i, j)
  {
    RunIsMetered(cfg, batches, organization);
    MeteredIsAllowed(cfg, BucketOf(RunAll(cfg, EMPTY, batches), organization), RunTrace(cfg, batches, organization));
  }
}
