// The reserve that shedding keeps for findings, over whole runs of the gateway: batches of every
// tenant, duplicates, malformed lines, aborted batches and credit readings included.
module Reserve {
  import opened Prelude
  import opened Quota
  import opened Ingest

  predicate Sound(cfg: Config) {
    cfg.capacity >= 0.0 && cfg.rate >= 0.0
  }

  // A tenant's bucket, if it has one yet, is the configured one and holds at least so much.
  predicate Level(cfg: Config, bucket: Option<Bucket>, floor: real) {
    bucket.Some? ==>
      var b := bucket.value;
      Sane(b) && b.capacity == cfg.capacity && b.rate == cfg.rate && b.tokens >= floor
  }

  function BucketOf(g: Gateway, organization: string): Option<Bucket> {
    if organization in g.buckets then Some(g.buckets[organization]) else None
  }

  predicate Telemetry(line: Line) {
    line.content.Event? ==> !line.content.security
  }

  predicate Security(line: Line) {
    line.content.Event? ==> line.content.security
  }

  predicate TelemetryOnly(lines: seq<Line>) {
    forall i :: 0 <= i < |lines| ==> Telemetry(lines[i])
  }

  predicate SecurityOnly(lines: seq<Line>) {
    forall i :: 0 <= i < |lines| ==> Security(lines[i])
  }

  function Events(lines: seq<Line>): nat {
    if |lines| == 0 then 0
    else Events(lines[..|lines| - 1]) + if lines[|lines| - 1].content.Event? then 1 else 0
  }

  // ---- One line ----

  lemma AdmitTelemetry(b: Bucket, floor: real, readAt: real, chargeAt: real)
    requires Sane(b) && b.tokens >= floor && floor <= b.capacity / 2.0 - 1.0
    ensures Admit(b, false, readAt, chargeAt).0.tokens >= floor
    ensures Admit(b, false, readAt, chargeAt).1 != Admission.OverQuota
  {
    if Admit(b, false, readAt, chargeAt).1 == Pass {
      TelemetryLeavesReserve(b, readAt, chargeAt);
    } else {
      RefillGrows(b, readAt);
      RefillGrows(Take(b, 0.0, readAt).0, chargeAt);
    }
  }

  lemma TelemetryStep(cfg: Config, s: Scan, line: Line, number: nat, floor: real)
    requires Sound(cfg) && Telemetry(line) && Level(cfg, s.bucket, floor) && !s.stop.OverQuota?
    requires floor <= cfg.capacity / 2.0 - 1.0
    ensures Level(cfg, Step(cfg, s, line, number).bucket, floor) && !Step(cfg, s, line, number).stop.OverQuota?
  {
    if line.content.Event? {
      var b := BucketAt(cfg, s.bucket, line.readAt);
      AdmitKeepsSane(b, false, line.readAt, line.chargeAt);
      AdmitTelemetry(b, floor, line.readAt, line.chargeAt);
    }
  }

  lemma SecurityStep(cfg: Config, s: Scan, line: Line, number: nat, level: real)
    requires Sound(cfg) && Security(line) && Level(cfg, s.bucket, level) && !s.stop.OverQuota?
    requires level <= cfg.capacity && (line.content.Event? ==> level >= 0.5)
    ensures Level(cfg, Step(cfg, s, line, number).bucket, if line.content.Event? then level - 0.5 else level)
    ensures !Step(cfg, s, line, number).stop.OverQuota?
  {
    if line.content.Event? {
      var b := BucketAt(cfg, s.bucket, line.readAt);
      AdmitKeepsSane(b, true, line.readAt, line.chargeAt);
      SecurityPasses(b, line.readAt, line.chargeAt);
    }
  }

  // ---- One batch ----

  lemma {:induction false} TelemetryScan(cfg: Config, s: Scan, lines: seq<Line>, floor: real)
    requires Sound(cfg) && TelemetryOnly(lines) && Level(cfg, s.bucket, floor) && s.stop == Running
    requires floor <= cfg.capacity / 2.0 - 1.0
    ensures Level(cfg, ScanAll(cfg, s, lines).bucket, floor) && !ScanAll(cfg, s, lines).stop.OverQuota?
    decreases |lines|
  {
    if |lines| > 0 {
      var n := |lines| - 1;
      TelemetryScan(cfg, s, lines[..n], floor);
      TelemetryStep(cfg, ScanAll(cfg, s, lines[..n]), lines[n], |lines|, floor);
    }
  }

  function Spent(level: real, events: nat): real {
    level - 0.5 * events as real
  }

  lemma {:induction false} SecurityScan(cfg: Config, s: Scan, lines: seq<Line>, level: real)
    requires Sound(cfg) && SecurityOnly(lines) && Level(cfg, s.bucket, level) && s.stop == Running
    requires level <= cfg.capacity && Spent(level, Events(lines)) >= 0.0
    ensures Level(cfg, ScanAll(cfg, s, lines).bucket, Spent(level, Events(lines)))
    ensures !ScanAll(cfg, s, lines).stop.OverQuota?
    decreases |lines|
  {
    if |lines| > 0 {
      var n := |lines| - 1;
      assert Events(lines[..n]) <= Events(lines);
      SecurityScan(cfg, s, lines[..n], level);
      SecurityStep(cfg, ScanAll(cfg, s, lines[..n]), lines[n], |lines|, Spent(level, Events(lines[..n])));
    }
  }

  // What a pass leaves in the bucket is what the call leaves, whatever its answer.
  lemma CallKeepsLevel(cfg: Config, g: Gateway, batch: Batch, level: real)
    requires Sound(cfg) && level <= cfg.capacity
    requires Level(cfg, BucketOf(g, batch.sender.organization), level)
    requires Level(cfg, Scanned(cfg, g, batch).bucket, level)
    ensures Level(cfg, BucketOf(Ingested(cfg, g, batch).0, batch.sender.organization), level)
  {
    RefillGrows(BucketAt(cfg, Scanned(cfg, g, batch).bucket, batch.creditAt), batch.creditAt);
  }

  lemma LevelFalls(cfg: Config, bucket: Option<Bucket>, level: real, lower: real)
    requires Level(cfg, bucket, level) && lower <= level
    ensures Level(cfg, bucket, lower)
  {
  }

  lemma OthersDoNotMatter(cfg: Config, g: Gateway, batch: Batch, organization: string)
    requires batch.sender.organization != organization
    ensures BucketOf(Ingested(cfg, g, batch).0, organization) == BucketOf(g, organization)
  {
  }

  lemma TelemetryBatch(cfg: Config, g: Gateway, batch: Batch, organization: string, floor: real)
    requires Sound(cfg) && Level(cfg, BucketOf(g, organization), floor) && floor <= cfg.capacity / 2.0 - 1.0
    requires batch.sender.organization == organization ==> TelemetryOnly(batch.lines)
    ensures Level(cfg, BucketOf(Ingested(cfg, g, batch).0, organization), floor)
  {
    if batch.sender.organization == organization {
      TelemetryScan(cfg, Started(g, organization), batch.lines, floor);
      CallKeepsLevel(cfg, g, batch, floor);
    } else {
      OthersDoNotMatter(cfg, g, batch, organization);
    }
  }

  // The findings this batch brings for the tenant, repeated ones included.
  function Brought(batch: Batch, organization: string): nat {
    if batch.sender.organization == organization then Events(batch.lines) else 0
  }

  lemma SecurityBatch(cfg: Config, g: Gateway, batch: Batch, organization: string, level: real)
    requires Sound(cfg) && Level(cfg, BucketOf(g, organization), level) && level <= cfg.capacity
    requires batch.sender.organization == organization ==> SecurityOnly(batch.lines)
    requires Spent(level, Brought(batch, organization)) >= 0.0
    ensures Level(cfg, BucketOf(Ingested(cfg, g, batch).0, organization), Spent(level, Brought(batch, organization)))
    ensures batch.sender.organization == organization ==> !Ingested(cfg, g, batch).1.QuotaExceeded?
  {
    var left := Spent(level, Brought(batch, organization));
    LevelFalls(cfg, BucketOf(g, organization), level, left);
    if batch.sender.organization == organization {
      SecurityScan(cfg, Started(g, organization), batch.lines, level);
      CallKeepsLevel(cfg, g, batch, left);
    } else {
      OthersDoNotMatter(cfg, g, batch, organization);
    }
  }

  // ---- Whole runs ----

  predicate OnlyTelemetryFrom(organization: string, batches: seq<Batch>) {
    forall i :: 0 <= i < |batches| && batches[i].sender.organization == organization ==> TelemetryOnly(batches[i].lines)
  }

  predicate OnlyFindingsFrom(organization: string, batches: seq<Batch>) {
    forall i :: 0 <= i < |batches| && batches[i].sender.organization == organization ==> SecurityOnly(batches[i].lines)
  }

  function AllBrought(batches: seq<Batch>, organization: string): nat {
    if |batches| == 0 then 0
    else AllBrought(batches[..|batches| - 1], organization) + Brought(batches[|batches| - 1], organization)
  }

  lemma {:induction false} TelemetryRun(cfg: Config, batches: seq<Batch>, organization: string, floor: real)
    requires Sound(cfg) && OnlyTelemetryFrom(organization, batches) && floor <= cfg.capacity / 2.0 - 1.0
    ensures Level(cfg, BucketOf(RunAll(cfg, EMPTY, batches), organization), floor)
    decreases |batches|
  {
    if |batches| > 0 {
      var n := |batches| - 1;
      TelemetryRun(cfg, batches[..n], organization, floor);
      TelemetryBatch(cfg, RunAll(cfg, EMPTY, batches[..n]), batches[n], organization, floor);
    }
  }

  lemma {:induction false} SecurityRun(cfg: Config, g: Gateway, batches: seq<Batch>, organization: string, level: real)
    requires Sound(cfg) && Level(cfg, BucketOf(g, organization), level) && level <= cfg.capacity
    requires OnlyFindingsFrom(organization, batches)
    requires Spent(level, AllBrought(batches, organization)) >= 0.0
    ensures Level(cfg, BucketOf(RunAll(cfg, g, batches), organization), Spent(level, AllBrought(batches, organization)))
    decreases |batches|
  {
    if |batches| > 0 {
      var n := |batches| - 1;
      SecurityRun(cfg, g, batches[..n], organization, level);
      SecurityBatch(cfg, RunAll(cfg, g, batches[..n]), batches[n], organization,
                    Spent(level, AllBrought(batches[..n], organization)));
    }
  }

  // After any run in which a tenant sent telemetry only, and whatever the others send, its next
  // capacity - 2 findings are never answered with a quota error, however they are cut into batches.
  lemma FindingsAlwaysPass(cfg: Config, organization: string, history: seq<Batch>, burst: seq<Batch>, next: Batch)
    requires Sound(cfg) && next.sender.organization == organization
    requires OnlyTelemetryFrom(organization, history) && OnlyFindingsFrom(organization, burst + [next])
    requires (AllBrought(burst, organization) + Events(next.lines)) as real <= cfg.capacity - 2.0
    ensures !Ingested(cfg, RunAll(cfg, RunAll(cfg, EMPTY, history), burst), next).1.QuotaExceeded?
  {
    var floor := cfg.capacity / 2.0 - 1.0;
    assert forall i :: 0 <= i < |burst| ==> (burst + [next])[i] == burst[i];
    assert (burst + [next])[|burst|] == next;
    TelemetryRun(cfg, history, organization, floor);
    SecurityRun(cfg, RunAll(cfg, EMPTY, history), burst, organization, floor);
    SecurityBatch(cfg, RunAll(cfg, RunAll(cfg, EMPTY, history), burst), next, organization,
                  Spent(floor, AllBrought(burst, organization)));
  }
}
