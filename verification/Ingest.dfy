// IngestEvents of apps/gateway/src/aegis_gateway/application/ingest.py, with the per-tenant bucket
// of infrastructure/limits.py and a deduplication cache large enough never to evict.
module Ingest {
  import opened Prelude
  import opened Quota

  // A line of the body, already decoded; a bad line carries the reason it is refused.
  datatype Content = Blank | Bad(reason: string) | Event(id: string, security: bool)

  // The clock readings a line may take: for the fraction, for the charge, for the retry hint.
  datatype Line = Line(content: Content, readAt: real, chargeAt: real, hintAt: real)

  // The verified credential a batch arrives with.
  datatype Sender = Sender(organization: string, agent: string)

  // What becomes of a publish: the sink takes everything, or raises after taking the first few events,
  // possibly all of them when only the last acknowledgement is lost.
  datatype Sink = Up | Down(taken: nat)

  datatype Batch = Batch(sender: Sender, bytes: nat, lines: seq<Line>, sink: Sink, creditAt: real)

  datatype Config = Config(maxBytes: nat, maxEvents: nat, strict: bool, capacity: real, rate: real)

  datatype Rejection = Rejection(line: nat, reason: string)

  // What one pass over the lines has done so far.
  datatype Stop = Running | LimitHit | OverQuota(hint: int)

  datatype Scan = Scan(
    bucket: Option<Bucket>, remembered: set<string>, publishable: seq<string>,
    duplicates: nat, shed: nat, rejected: nat, rejections: seq<Rejection>,
    ackCursor: string, seen: nat, stop: Stop)

  datatype Report = Report(accepted: nat, duplicates: nat, shed: nat, rejected: nat,
                           rejections: seq<Rejection>, ackCursor: string, credit: int)

  datatype Answer =
    | TooLarge
    | QuotaExceeded(hint: int)
    | Invalid(first: Rejection)
    | SinkDown
    | Accepted(report: Report)

  // An event as the sink writes it: its id, stamped with who sent it.
  datatype Entry = Entry(sender: Sender, id: string)

  // The replica's memory, shared by all tenants and keyed by the bare id; the stream behind it; and
  // the events remembered in batches that were then given up on.
  datatype Gateway = Gateway(buckets: map<string, Bucket>, remembered: set<string>,
                             published: seq<Entry>, lost: seq<Entry>)

  const MAX_REJECTIONS: nat := 20

  function Started(g: Gateway, organization: string): Scan {
    Scan(if organization in g.buckets then Some(g.buckets[organization]) else None,
         g.remembered, [], 0, 0, 0, [], "", 0, Running)
  }

  function BucketAt(cfg: Config, bucket: Option<Bucket>, now: real): Bucket {
    match bucket case Some(b) => b case None => Fresh(cfg.capacity, cfg.rate, now)
  }

  function Refuse(s: Scan, number: nat, reason: string): Scan {
    s.(rejected := s.rejected + 1,
       rejections := if |s.rejections| < MAX_REJECTIONS then s.rejections + [Rejection(number, reason)]
                     else s.rejections)
  }

  function Offer(cfg: Config, s: Scan, id: string, security: bool, line: Line): Scan {
    if id in s.remembered then s.(duplicates := s.duplicates + 1, ackCursor := id)
    else
      var (b, admission) := Admit(BucketAt(cfg, s.bucket, line.readAt), security, line.readAt, line.chargeAt);
      match admission
      case Shed => s.(bucket := Some(b), shed := s.shed + 1)
      case OverQuota =>
        s.(bucket := Some(Refilled(b, line.hintAt)), stop := Stop.OverQuota(Hint(b, Cost(security), line.hintAt)))
      case Pass =>
        s.(bucket := Some(b), remembered := s.remembered + {id}, publishable := s.publishable + [id])
  }

  function Step(cfg: Config, s: Scan, line: Line, number: nat): Scan {
    if s.stop != Running || line.content == Blank then s
    else if s.seen >= cfg.maxEvents then
      s.(rejected := s.rejected + 1,
         rejections := s.rejections + [Rejection(number, "batch event limit exceeded")], stop := LimitHit)
    else
      var t := s.(seen := s.seen + 1);
      match line.content
      case Bad(reason) => Refuse(t, number, reason)
      case Event(id, security) => Offer(cfg, t, id, security, line)
  }

  function ScanAll(cfg: Config, s: Scan, lines: seq<Line>): Scan
    decreases |lines|
  {
    if |lines| == 0 then s
    else Step(cfg, ScanAll(cfg, s, lines[..|lines| - 1]), lines[|lines| - 1], |lines|)
  }

  function Credit(cfg: Config, b: Bucket): int {
    Max(1, Truncated(cfg.maxEvents as real * RemainingFraction(b)))
  }

  function Kept(g: Gateway, organization: string, bucket: Option<Bucket>): map<string, Bucket> {
    if bucket.Some? then g.buckets[organization := bucket.value] else g.buckets
  }

  function Stamped(sender: Sender, ids: seq<string>): (entries: seq<Entry>)
    ensures |entries| == |ids|
    ensures forall i :: 0 <= i < |ids| ==> entries[i] == Entry(sender, ids[i])
  {
    seq(|ids|, i requires 0 <= i < |ids| => Entry(sender, ids[i]))
  }

  // A batch given up on after its first events reached the stream.
  function Abandoned(g: Gateway, sender: Sender, s: Scan, taken: nat): Gateway
    requires taken <= |s.publishable|
  {
    Gateway(Kept(g, sender.organization, s.bucket), s.remembered,
            g.published + Stamped(sender, s.publishable[..taken]), g.lost + Stamped(sender, s.publishable[taken..]))
  }

  lemma TakingNothing(g: Gateway, sender: Sender, s: Scan)
    ensures Abandoned(g, sender, s, 0)
         == Gateway(Kept(g, sender.organization, s.bucket), s.remembered, g.published,
                    g.lost + Stamped(sender, s.publishable))
  {
    assert s.publishable[0..] == s.publishable && s.publishable[..0] == [];
    assert g.published + Stamped(sender, []) == g.published;
  }

  // How many of these events the sink takes.
  function TakenBy(sink: Sink, ids: seq<string>): (n: nat)
    ensures n <= |ids|
  {
    match sink case Up => |ids| case Down(taken) => Min(taken, |ids|)
  }

  // The pass over a batch.
  function Scanned(cfg: Config, g: Gateway, batch: Batch): Scan {
    ScanAll(cfg, Started(g, batch.sender.organization), batch.lines)
  }

  function Ingested(cfg: Config, g: Gateway, batch: Batch): (Gateway, Answer) {
    if batch.bytes > cfg.maxBytes then (g, TooLarge)
    else
      var s := Scanned(cfg, g, batch);
      if s.stop.OverQuota? then (Abandoned(g, batch.sender, s, 0), QuotaExceeded(s.stop.hint))
      else if cfg.strict && |s.rejections| > 0 then (Abandoned(g, batch.sender, s, 0), Invalid(s.rejections[0]))
      else if |s.publishable| > 0 && batch.sink.Down? then
        (Abandoned(g, batch.sender, s, TakenBy(batch.sink, s.publishable)), SinkDown)
      else
        var b := Take(BucketAt(cfg, s.bucket, batch.creditAt), 0.0, batch.creditAt).0;
        var ack := if |s.publishable| > 0 then s.publishable[|s.publishable| - 1] else s.ackCursor;
        (Gateway(g.buckets[batch.sender.organization := b], s.remembered,
                 g.published + Stamped(batch.sender, s.publishable), g.lost),
         Accepted(Report(|s.publishable|, s.duplicates, s.shed, s.rejected, s.rejections, ack, Credit(cfg, b))))
  }

  // The ids a batch is the first to remember and then gives up on.
  function GivenUp(cfg: Config, g: Gateway, batch: Batch): seq<string> {
    var s := Scanned(cfg, g, batch);
    match Ingested(cfg, g, batch).1
    case QuotaExceeded(_) => s.publishable
    case Invalid(_) => s.publishable
    case SinkDown => s.publishable[TakenBy(batch.sink, s.publishable)..]
    case _ => []
  }

  // The ids a batch is the first to remember and then puts on the stream.
  function Delivered(cfg: Config, g: Gateway, batch: Batch): seq<string> {
    var s := Scanned(cfg, g, batch);
    match Ingested(cfg, g, batch).1
    case Accepted(_) => s.publishable
    case SinkDown => s.publishable[..TakenBy(batch.sink, s.publishable)]
    case _ => []
  }

  function RunAll(cfg: Config, g: Gateway, batches: seq<Batch>): Gateway
    decreases |batches|
  {
    if |batches| == 0 then g
    else Ingested(cfg, RunAll(cfg, g, batches[..|batches| - 1]), batches[|batches| - 1]).0
  }

  const EMPTY := Gateway(map[], {}, [], [])

  predicate Aborted(a: Answer) {
    a.QuotaExceeded? || a.Invalid? || a.SinkDown?
  }

  // ---- Deduplication over whole runs ----

  predicate Distinct(ids: seq<string>) {
    forall i, j :: 0 <= i < j < |ids| ==> ids[i] != ids[j]
  }

  predicate OneEach(entries: seq<Entry>) {
    forall i, j :: 0 <= i < j < |entries| ==> entries[i].id != entries[j].id
  }

  function Ids(ids: seq<string>): set<string> {
    set id | id in ids
  }

  function IdsOf(entries: seq<Entry>): set<string> {
    set e | e in entries :: e.id
  }

  // Every remembered id belongs to exactly one event of one sender, published or given up on.
  predicate Accounted(g: Gateway) {
    && g.remembered == IdsOf(g.published) + IdsOf(g.lost)
    && IdsOf(g.published) !! IdsOf(g.lost)
    && OneEach(g.published) && OneEach(g.lost)
  }

  // During a pass: what this batch has remembered is new, listed once, and still unpublished.
  predicate ScanAccounted(g: Gateway, s: Scan) {
    && s.remembered == g.remembered + Ids(s.publishable)
    && g.remembered !! Ids(s.publishable)
    && Distinct(s.publishable)
  }

  lemma {:induction false} ScanKeepsAccount(cfg: Config, g: Gateway, organization: string, lines: seq<Line>)
    ensures ScanAccounted(g, ScanAll(cfg, Started(g, organization), lines))
    decreases |lines|
  {
    if |lines| > 0 {
      ScanKeepsAccount(cfg, g, organization, lines[..|lines| - 1]);
      var s := ScanAll(cfg, Started(g, organization), lines[..|lines| - 1]);
      var t := Step(cfg, s, lines[|lines| - 1], |lines|);
      if t.publishable != s.publishable {
        var id := lines[|lines| - 1].content.id;
        assert t.publishable == s.publishable + [id];
        assert Ids(t.publishable) == Ids(s.publishable) + {id};
      }
    }
  }

  lemma StampedIds(sender: Sender, ids: seq<string>)
    ensures IdsOf(Stamped(sender, ids)) == Ids(ids)
    ensures forall e :: e in Stamped(sender, ids) <==> e.sender == sender && e.id in ids
  {
    var entries := Stamped(sender, ids);
    forall e ensures e in entries <==> e.sender == sender && e.id in ids {
      if e in entries {
        var i :| 0 <= i < |entries| && entries[i] == e;
        assert ids[i] in ids;
      }
      if e.sender == sender && e.id in ids {
        var i :| 0 <= i < |ids| && ids[i] == e.id;
        assert entries[i] == e;
      }
    }
    forall id ensures id in IdsOf(entries) <==> id in Ids(ids) {
      assert Entry(sender, id) in entries <==> id in ids;
    }
  }

  // New events of one sender join a list that has none of their ids.
  lemma Joins(entries: seq<Entry>, sender: Sender, ids: seq<string>)
    requires OneEach(entries) && Distinct(ids) && IdsOf(entries) !! Ids(ids)
    ensures OneEach(entries + Stamped(sender, ids))
    ensures IdsOf(entries + Stamped(sender, ids)) == IdsOf(entries) + Ids(ids)
  {
    var more := Stamped(sender, ids);
    var all := entries + more;
    StampedIds(sender, ids);
    forall i, j | 0 <= i < j < |all| ensures all[i].id != all[j].id {
      if i < |entries| <= j {
        assert all[i] in entries && all[i].id in IdsOf(entries);
        assert all[j] in more && all[j].id in IdsOf(more);
      }
    }
    forall id ensures id in IdsOf(all) <==> id in IdsOf(entries) + Ids(ids) {
      if id in IdsOf(all) {
        var e :| e in all && e.id == id;
        assert e in entries || e in more;
      }
    }
  }

  lemma CutIds(ids: seq<string>, n: nat)
    requires n <= |ids| && Distinct(ids)
    ensures Distinct(ids[..n]) && Distinct(ids[n..])
    ensures Ids(ids[..n]) + Ids(ids[n..]) == Ids(ids) && Ids(ids[..n]) !! Ids(ids[n..])
  {
    assert ids == ids[..n] + ids[n..];
  }

  // However many events the sink took, they and the rest part the new ids between them.
  lemma AbandonKeepsAccount(g: Gateway, sender: Sender, s: Scan, taken: nat)
    requires Accounted(g) && ScanAccounted(g, s) && taken <= |s.publishable|
    ensures Accounted(Abandoned(g, sender, s, taken))
  {
    CutIds(s.publishable, taken);
    Joins(g.published, sender, s.publishable[..taken]);
    Joins(g.lost, sender, s.publishable[taken..]);
  }

  lemma ExecuteKeepsAccount(cfg: Config, g: Gateway, batch: Batch)
    requires Accounted(g)
    ensures Accounted(Ingested(cfg, g, batch).0)
  {
    ScanKeepsAccount(cfg, g, batch.sender.organization, batch.lines);
    var s := Scanned(cfg, g, batch);
    AbandonKeepsAccount(g, batch.sender, s, 0);
    AbandonKeepsAccount(g, batch.sender, s, TakenBy(batch.sink, s.publishable));
    Joins(g.published, batch.sender, s.publishable);
  }

  lemma {:induction false} RunKeepsAccount(cfg: Config, g: Gateway, batches: seq<Batch>)
    requires Accounted(g)
    ensures Accounted(RunAll(cfg, g, batches))
    decreases |batches|
  {
    if |batches| > 0 {
      RunKeepsAccount(cfg, g, batches[..|batches| - 1]);
      ExecuteKeepsAccount(cfg, RunAll(cfg, g, batches[..|batches| - 1]), batches[|batches| - 1]);
    }
  }

  // Over every run each remembered id has one owner: an event published once, or one given up on.
  lemma EveryRunAccounts(cfg: Config, batches: seq<Batch>)
    ensures Accounted(RunAll(cfg, EMPTY, batches))
  {
    RunKeepsAccount(cfg, EMPTY, batches);
  }

  // A call parts the new ids of its pass: the stream gets the first of them, the rest are given up on.
  lemma CallParts(cfg: Config, g: Gateway, batch: Batch)
    ensures var (g', answer) := Ingested(cfg, g, batch);
            && g'.published == g.published + Stamped(batch.sender, Delivered(cfg, g, batch))
            && g'.lost == g.lost + Stamped(batch.sender, GivenUp(cfg, g, batch))
            && (GivenUp(cfg, g, batch) != [] ==> Aborted(answer))
            && g'.remembered == g.remembered + Ids(Delivered(cfg, g, batch)) + Ids(GivenUp(cfg, g, batch))
            && g.remembered !! Ids(Delivered(cfg, g, batch)) + Ids(GivenUp(cfg, g, batch))
  {
    ScanKeepsAccount(cfg, g, batch.sender.organization, batch.lines);
    var s := Scanned(cfg, g, batch);
    assert s.publishable[0..] == s.publishable && s.publishable[..0] == [];
    assert Stamped(batch.sender, []) == [];
    assert g.lost + [] == g.lost && g.published + [] == g.published;
    CutIds(s.publishable, TakenBy(batch.sink, s.publishable));
  }

  // The same, of one event of the sender.
  lemma CallPartsEvent(cfg: Config, g: Gateway, batch: Batch, e: Entry)
    requires e.sender == batch.sender
    ensures var g' := Ingested(cfg, g, batch).0;
            && (e in g'.published <==> e in g.published || e.id in Delivered(cfg, g, batch))
            && (e in g'.lost <==> e in g.lost || e.id in GivenUp(cfg, g, batch))
            && (e.id in g'.remembered <==>
                  e.id in g.remembered || e.id in Delivered(cfg, g, batch) || e.id in GivenUp(cfg, g, batch))
            && (e.id in Delivered(cfg, g, batch) || e.id in GivenUp(cfg, g, batch) ==> e.id !in g.remembered)
  {
    CallParts(cfg, g, batch);
    StampedIds(batch.sender, Delivered(cfg, g, batch));
    StampedIds(batch.sender, GivenUp(cfg, g, batch));
    assert e.id in Delivered(cfg, g, batch) <==> e.id in Ids(Delivered(cfg, g, batch));
    assert e.id in GivenUp(cfg, g, batch) <==> e.id in Ids(GivenUp(cfg, g, batch));
  }

  lemma OwnersAreRemembered(g: Gateway, e: Entry)
    requires Accounted(g)
    ensures e in g.published ==> e.id in g.remembered && e !in g.lost
    ensures e in g.lost ==> e.id in g.remembered && e !in g.published
  {
    assert e in g.published ==> e.id in IdsOf(g.published);
    assert e in g.lost ==> e.id in IdsOf(g.lost);
  }

  // An aborted batch gives up exactly on its sender's events that it was the first to remember and
  // that the sink had not taken.
  lemma LostExactlyWhenAborted(cfg: Config, g: Gateway, batch: Batch, e: Entry)
    requires Accounted(g)
    ensures var (g', answer) := Ingested(cfg, g, batch);
            e in g'.lost
            <==> e in g.lost || (Aborted(answer) && e.sender == batch.sender && e !in g'.published
                                 && e.id in g'.remembered && e.id !in g.remembered)
  {
    ExecuteKeepsAccount(cfg, g, batch);
    OwnersAreRemembered(Ingested(cfg, g, batch).0, e);
    CallParts(cfg, g, batch);
    if e.sender == batch.sender {
      CallPartsEvent(cfg, g, batch, e);
    } else {
      StampedIds(batch.sender, GivenUp(cfg, g, batch));
    }
  }

  // What is given up on stays given up on: no continuation of the run publishes it.
  lemma {:induction false} LostForever(cfg: Config, g: Gateway, batches: seq<Batch>, e: Entry)
    requires Accounted(g) && e in g.lost
    ensures e in RunAll(cfg, g, batches).lost && e !in RunAll(cfg, g, batches).published
    decreases |batches|
  {
    RunKeepsAccount(cfg, g, batches);
    if |batches| > 0 {
      LostForever(cfg, g, batches[..|batches| - 1], e);
      CallParts(cfg, RunAll(cfg, g, batches[..|batches| - 1]), batches[|batches| - 1]);
    }
    var g' := RunAll(cfg, g, batches);
    assert e.id in IdsOf(g'.lost);
  }

  predicate NeverAborts(cfg: Config, g: Gateway, batches: seq<Batch>)
    decreases |batches|
  {
    |batches| > 0 ==>
      && NeverAborts(cfg, g, batches[..|batches| - 1])
      && !Aborted(Ingested(cfg, RunAll(cfg, g, batches[..|batches| - 1]), batches[|batches| - 1]).1)
  }

  // Without an abort nothing is given up on.
  lemma {:induction false} CleanRunsLoseNothing(cfg: Config, batches: seq<Batch>)
    requires NeverAborts(cfg, EMPTY, batches)
    ensures RunAll(cfg, EMPTY, batches).lost == []
    decreases |batches|
  {
    if |batches| > 0 {
      CleanRunsLoseNothing(cfg, batches[..|batches| - 1]);
    }
  }

  // ---- When an answered event is on the stream ----

  // What the sender can rely on: its id is new, or the event with it on the stream is its own.
  predicate Deliverable(g: Gateway, e: Entry) {
    e.id !in g.remembered || e in g.published
  }

  // Event i of the batch is looked up after everything before it has been handled.
  predicate AnsweredDuplicate(cfg: Config, g: Gateway, batch: Batch, i: nat)
    requires i < |batch.lines|
  {
    var before := ScanAll(cfg, Started(g, batch.sender.organization), batch.lines[..i]);
    && before.stop == Running && before.seen < cfg.maxEvents
    && batch.lines[i].content.Event? && batch.lines[i].content.id in before.remembered
  }

  lemma {:induction false} ScanGrows(cfg: Config, s: Scan, lines: seq<Line>, i: nat)
    requires i <= |lines|
    ensures ScanAll(cfg, s, lines[..i]).remembered <= ScanAll(cfg, s, lines).remembered
    ensures ScanAll(cfg, s, lines).stop == Running ==> ScanAll(cfg, s, lines[..i]).stop == Running
    decreases |lines|
  {
    if i < |lines| {
      ScanGrows(cfg, s, lines[..|lines| - 1], i);
      assert lines[..|lines| - 1][..i] == lines[..i];
    } else {
      assert lines[..i] == lines;
    }
  }

  // An id the pass of an accepted batch knows is on the stream as its sender's exactly when it was
  // deliverable before the call.
  lemma KnownIsPublishedExactlyWhen(cfg: Config, g: Gateway, batch: Batch, id: string)
    requires Accounted(g) && Ingested(cfg, g, batch).1.Accepted? && id in Scanned(cfg, g, batch).remembered
    ensures Entry(batch.sender, id) in Ingested(cfg, g, batch).0.published <==> Deliverable(g, Entry(batch.sender, id))
  {
    ScanKeepsAccount(cfg, g, batch.sender.organization, batch.lines);
    StampedIds(batch.sender, Scanned(cfg, g, batch).publishable);
    var e := Entry(batch.sender, id);
    assert e in g.published ==> e.id in IdsOf(g.published);
  }

  // A duplicate answer is a truthful receipt exactly when the event was deliverable before the call.
  lemma DuplicateIsPublishedExactlyWhen(cfg: Config, g: Gateway, batch: Batch, i: nat)
    requires Accounted(g) && i < |batch.lines| && AnsweredDuplicate(cfg, g, batch, i)
    requires Ingested(cfg, g, batch).1.Accepted?
    ensures var e := Entry(batch.sender, batch.lines[i].content.id);
            e in Ingested(cfg, g, batch).0.published <==> Deliverable(g, e)
  {
    ScanGrows(cfg, Started(g, batch.sender.organization), batch.lines, i);
    KnownIsPublishedExactlyWhen(cfg, g, batch, batch.lines[i].content.id);
  }

  // Why an event cannot be delivered: its sender's own copy was given up on, or the id is another's.
  lemma UndeliverableExactlyWhen(g: Gateway, e: Entry)
    requires Accounted(g)
    ensures !Deliverable(g, e)
       <==> e in g.lost || exists other :: other in g.published + g.lost && other.id == e.id && other.sender != e.sender
  {
    if e.id in g.remembered {
      var owner :| owner in g.published + g.lost && owner.id == e.id;
      OneOwner(g, e, owner);
      assert owner.sender == e.sender ==> owner == e;
    } else {
      assert forall x :: x in g.published + g.lost ==> x.id in IdsOf(g.published) + IdsOf(g.lost);
    }
  }

  lemma OneOwner(g: Gateway, a: Entry, b: Entry)
    requires Accounted(g) && b in g.published + g.lost && a.id == b.id
    ensures a in g.published + g.lost ==> a == b
    ensures b.id in g.remembered && (b in g.published ==> a !in g.lost)
  {
    assert b.id in IdsOf(g.published) || b.id in IdsOf(g.lost);
    if a in g.published + g.lost {
      assert a.id in IdsOf(g.published) || a.id in IdsOf(g.lost);
    }
  }

  // ---- Accounting ----

  function Count(lines: seq<Line>): nat {
    if |lines| == 0 then 0
    else Count(lines[..|lines| - 1]) + if lines[|lines| - 1].content == Blank then 0 else 1
  }

  // The refusals among the lines looked at, in order and with their line numbers.
  function BadLines(max: nat, lines: seq<Line>): seq<Rejection> {
    if |lines| == 0 then []
    else
      var n := |lines|;
      var before := BadLines(max, lines[..n - 1]);
      match lines[n - 1].content
      case Bad(reason) => if Count(lines[..n - 1]) < max then before + [Rejection(n, reason)] else before
      case _ => before
  }

  // The first line beyond the batch limit.
  function OverLimit(max: nat, lines: seq<Line>): seq<Rejection> {
    if |lines| == 0 then []
    else
      var before := OverLimit(max, lines[..|lines| - 1]);
      if before == [] && Count(lines) == max + 1 then [Rejection(|lines|, "batch event limit exceeded")] else before
  }

  function FirstOnes(rejections: seq<Rejection>): seq<Rejection> {
    rejections[..Min(|rejections|, MAX_REJECTIONS)]
  }

  lemma {:induction false} OverLimitExactlyWhen(max: nat, lines: seq<Line>)
    ensures |OverLimit(max, lines)| == if Count(lines) > max then 1 else 0
    decreases |lines|
  {
    if |lines| > 0 {
      OverLimitExactlyWhen(max, lines[..|lines| - 1]);
    }
  }

  lemma {:induction false} ScanAccounts(cfg: Config, g: Gateway, organization: string, lines: seq<Line>)
    ensures var s := ScanAll(cfg, Started(g, organization), lines);
            && s.seen <= cfg.maxEvents
            && (s.stop == Running ==> s.seen == Count(lines) <= cfg.maxEvents)
            && (s.stop == LimitHit ==> s.seen == cfg.maxEvents < Count(lines))
            && |s.publishable| + s.duplicates + s.shed + s.rejected
               == s.seen + (if s.stop == LimitHit then 1 else 0) - (if s.stop.OverQuota? then 1 else 0)
    decreases |lines|
  {
    if |lines| > 0 {
      ScanAccounts(cfg, g, organization, lines[..|lines| - 1]);
    }
  }

  lemma RefusedLine(bads: seq<Rejection>, r: Rejection)
    ensures FirstOnes(bads + [r])
         == if |FirstOnes(bads)| < MAX_REJECTIONS then FirstOnes(bads) + [r] else FirstOnes(bads)
  {
  }

  predicate Listed(s: Scan, bads: seq<Rejection>, over: seq<Rejection>) {
    s.rejections == FirstOnes(bads) + over && s.rejected == |bads| + |over|
  }

  // Every way one line can go, as far as the list of rejections is concerned.
  lemma StepLists(cfg: Config, s: Scan, line: Line, number: nat, bads: seq<Rejection>, over: seq<Rejection>)
    requires Listed(s, bads, over)
    ensures var t := Step(cfg, s, line, number);
            if s.stop != Running || line.content == Blank then Listed(t, bads, over)
            else if s.seen >= cfg.maxEvents then
              over == [] ==> Listed(t, bads, [Rejection(number, "batch event limit exceeded")])
            else if line.content.Bad? then
              over == [] ==> Listed(t, bads + [Rejection(number, line.content.reason)], [])
            else Listed(t, bads, over)
  {
    if line.content.Bad? {
      RefusedLine(bads, Rejection(number, line.content.reason));
    }
  }

  lemma {:induction false} ScanLists(cfg: Config, g: Gateway, organization: string, lines: seq<Line>)
    ensures var s := ScanAll(cfg, Started(g, organization), lines);
            !s.stop.OverQuota? ==> Listed(s, BadLines(cfg.maxEvents, lines), OverLimit(cfg.maxEvents, lines))
    decreases |lines|
  {
    if |lines| > 0 {
      var n := |lines| - 1;
      var s := ScanAll(cfg, Started(g, organization), lines[..n]);
      ScanLists(cfg, g, organization, lines[..n]);
      ScanAccounts(cfg, g, organization, lines[..n]);
      OverLimitExactlyWhen(cfg.maxEvents, lines[..n]);
      if !s.stop.OverQuota? {
        StepLists(cfg, s, lines[n], |lines|, BadLines(cfg.maxEvents, lines[..n]), OverLimit(cfg.maxEvents, lines[..n]));
      }
    }
  }

  // An accepted batch answers for every line it holds, up to the first one over the limit. It lists the
  // first twenty refused lines, and on top of them the line over the limit.
  lemma ReportAccountsForEveryLine(cfg: Config, g: Gateway, batch: Batch)
    requires Ingested(cfg, g, batch).1.Accepted?
    ensures var r := Ingested(cfg, g, batch).1.report;
            var bads, over := BadLines(cfg.maxEvents, batch.lines), OverLimit(cfg.maxEvents, batch.lines);
            && r.accepted + r.duplicates + r.shed + r.rejected == Min(Count(batch.lines), cfg.maxEvents + 1)
            && r.rejections == FirstOnes(bads) + over && r.rejected == |bads| + |over|
            && |over| == (if Count(batch.lines) > cfg.maxEvents then 1 else 0)
            && 1 <= r.credit <= Max(1, cfg.maxEvents)
  {
    ScanAccounts(cfg, g, batch.sender.organization, batch.lines);
    ScanLists(cfg, g, batch.sender.organization, batch.lines);
    OverLimitExactlyWhen(cfg.maxEvents, batch.lines);
    var s := Scanned(cfg, g, batch);
    CreditBound(cfg, Take(BucketAt(cfg, s.bucket, batch.creditAt), 0.0, batch.creditAt).0);
  }

  lemma Above(f: real, whole: real)
    requires f > 1.0 && whole > 0.0
    ensures f * whole > whole
  {
    assert (f - 1.0) * whole > 0.0;
  }

  lemma Below(f: real, whole: real)
    requires f < 0.0 && whole > 0.0
    ensures f * whole < 0.0
  {
  }

  lemma ProperShare(f: real, part: real, whole: real)
    requires f * whole == part && 0.0 <= part <= whole && whole > 0.0
    ensures 0.0 <= f <= 1.0
  {
    if f > 1.0 {
      Above(f, whole);
    } else if f < 0.0 {
      Below(f, whole);
    }
  }

  lemma FractionBound(b: Bucket)
    ensures 0.0 <= RemainingFraction(b) <= 1.0
  {
    if b.capacity > 0.0 && 0.0 <= b.tokens <= b.capacity {
      Share(b.tokens, b.capacity);
      ProperShare(b.tokens / b.capacity, b.tokens, b.capacity);
    }
  }

  lemma ShareOfWhole(whole: real, f: real)
    requires whole >= 0.0 && f <= 1.0
    ensures whole * f <= whole
  {
    assert whole * (1.0 - f) >= 0.0;
  }

  lemma CreditBound(cfg: Config, b: Bucket)
    ensures 1 <= Credit(cfg, b) <= Max(1, cfg.maxEvents)
  {
    FractionBound(b);
    ShareOfWhole(cfg.maxEvents as real, RemainingFraction(b));
  }

  // ---- No finding is dropped in silence ----

  // A line that is shed is a telemetry event, and so is every one of them.
  lemma OnlyTelemetryIsShed(cfg: Config, s: Scan, lines: seq<Line>, i: nat)
    requires i < |lines| && ScanAll(cfg, s, lines[..i + 1]).shed != ScanAll(cfg, s, lines[..i]).shed
    ensures lines[i].content.Event? && !lines[i].content.security
    ensures ScanAll(cfg, s, lines[..i + 1]).shed == ScanAll(cfg, s, lines[..i]).shed + 1
  {
    assert lines[..i + 1][..i] == lines[..i];
    var before := ScanAll(cfg, s, lines[..i]);
    SecurityIsNeverShed(BucketAt(cfg, before.bucket, lines[i].readAt), lines[i].readAt, lines[i].chargeAt);
  }

  lemma {:induction false} SecurityIsRemembered(cfg: Config, s: Scan, lines: seq<Line>, i: nat)
    requires i < |lines| && lines[i].content.Event? && lines[i].content.security
    requires ScanAll(cfg, s, lines).stop == Running
    ensures lines[i].content.id in ScanAll(cfg, s, lines).remembered
    decreases |lines|
  {
    var n := |lines| - 1;
    ScanGrows(cfg, s, lines, n);
    if i < n {
      assert lines[..n][i] == lines[i];
      SecurityIsRemembered(cfg, s, lines[..n], i);
    } else {
      var before := ScanAll(cfg, s, lines[..n]);
      SecurityIsNeverShed(BucketAt(cfg, before.bucket, lines[i].readAt), lines[i].readAt, lines[i].chargeAt);
    }
  }

  predicate Finding(batch: Batch, i: nat) {
    i < |batch.lines| && batch.lines[i].content.Event? && batch.lines[i].content.security
  }

  // A security event of an accepted batch within the limit is on the stream as its sender's exactly
  // when it was deliverable before the call.
  lemma SecurityIsPublishedExactlyWhen(cfg: Config, g: Gateway, batch: Batch, i: nat)
    requires Accounted(g) && Finding(batch, i)
    requires Ingested(cfg, g, batch).1.Accepted? && Count(batch.lines) <= cfg.maxEvents
    ensures var e := Entry(batch.sender, batch.lines[i].content.id);
            e in Ingested(cfg, g, batch).0.published <==> Deliverable(g, e)
  {
    ScanAccounts(cfg, g, batch.sender.organization, batch.lines);
    SecurityIsRemembered(cfg, Started(g, batch.sender.organization), batch.lines, i);
    KnownIsPublishedExactlyWhen(cfg, g, batch, batch.lines[i].content.id);
  }

  // After an aborted batch, a retry leaves an event on the stream exactly when it was deliverable
  // before and is not among those the aborted batch gave up on.
  lemma RetryDeliversExactlyWhen(cfg: Config, g: Gateway, first: Batch, retry: Batch, i: nat)
    requires Accounted(g) && Finding(retry, i) && retry.sender == first.sender
    requires Aborted(Ingested(cfg, g, first).1)
    requires Ingested(cfg, Ingested(cfg, g, first).0, retry).1.Accepted? && Count(retry.lines) <= cfg.maxEvents
    ensures var e := Entry(retry.sender, retry.lines[i].content.id);
            e in Ingested(cfg, Ingested(cfg, g, first).0, retry).0.published
            <==> Deliverable(g, e) && e.id !in GivenUp(cfg, g, first)
  {
    var e := Entry(retry.sender, retry.lines[i].content.id);
    ExecuteKeepsAccount(cfg, g, first);
    SecurityIsPublishedExactlyWhen(cfg, Ingested(cfg, g, first).0, retry, i);
    CallKeepsDeliverable(cfg, g, first, e);
  }

  lemma CallKeepsDeliverable(cfg: Config, g: Gateway, batch: Batch, e: Entry)
    requires Accounted(g) && e.sender == batch.sender
    ensures Deliverable(Ingested(cfg, g, batch).0, e) <==> Deliverable(g, e) && e.id !in GivenUp(cfg, g, batch)
  {
    ExecuteKeepsAccount(cfg, g, batch);
    OwnersAreRemembered(g, e);
    OwnersAreRemembered(Ingested(cfg, g, batch).0, e);
    CallPartsEvent(cfg, g, batch, e);
  }

  // ---- The acknowledged id ----

  lemma {:induction false} ScanAcknowledges(cfg: Config, g: Gateway, organization: string, lines: seq<Line>)
    ensures var s := ScanAll(cfg, Started(g, organization), lines);
            s.duplicates > 0 ==> s.ackCursor in s.remembered
    decreases |lines|
  {
    if |lines| > 0 {
      ScanAcknowledges(cfg, g, organization, lines[..|lines| - 1]);
    }
  }

  // The id the agent trims its spool by names an event of its own on the stream exactly when that was
  // deliverable before the call; after an acceptance it always does.
  lemma AckIsPublishedExactlyWhen(cfg: Config, g: Gateway, batch: Batch)
    requires Accounted(g) && Ingested(cfg, g, batch).1.Accepted?
    requires Ingested(cfg, g, batch).1.report.accepted + Ingested(cfg, g, batch).1.report.duplicates > 0
    ensures var (g', answer) := Ingested(cfg, g, batch);
            var e := Entry(batch.sender, answer.report.ackCursor);
            && (e in g'.published <==> Deliverable(g, e))
            && (answer.report.accepted > 0 ==> e in g'.published)
  {
    var s := Scanned(cfg, g, batch);
    ScanKeepsAccount(cfg, g, batch.sender.organization, batch.lines);
    ScanAcknowledges(cfg, g, batch.sender.organization, batch.lines);
    var id := Ingested(cfg, g, batch).1.report.ackCursor;
    if |s.publishable| > 0 {
      assert id in Ids(s.publishable);
    }
    KnownIsPublishedExactlyWhen(cfg, g, batch, id);
  }

  // ---- The use case, as it runs ----

  class IngestEvents {
    const cfg: Config
    var buckets: map<string, Bucket>
    var remembered: set<string>
    var published: seq<Entry>
    ghost var lost: seq<Entry>

    ghost function State(): Gateway
      reads this
    {
      Gateway(buckets, remembered, published, lost)
    }

    constructor (cfg: Config)
      ensures State() == EMPTY && this.cfg == cfg && Accounted(State())
    {
      this.cfg := cfg;
      buckets, remembered, published, lost := map[], {}, [], [];
    }

    method Execute(batch: Batch) returns (answer: Answer)
      modifies this
      ensures (State(), answer) == Ingested(cfg, old(State()), batch)
    {
      if batch.bytes > cfg.maxBytes {
        return TooLarge;
      }
      ghost var g := State();
      var s := ScanLines(batch);
      if s.bucket.Some? {
        buckets := buckets[batch.sender.organization := s.bucket.value];
      }
      remembered := s.remembered;
      if s.stop.OverQuota? {
        lost := lost + Stamped(batch.sender, s.publishable);
        TakingNothing(g, batch.sender, s);
        return QuotaExceeded(s.stop.hint);
      }
      if cfg.strict && |s.rejections| > 0 {
        lost := lost + Stamped(batch.sender, s.publishable);
        TakingNothing(g, batch.sender, s);
        return Invalid(s.rejections[0]);
      }
      var ack := s.ackCursor;
      if |s.publishable| > 0 {
        var raised := Hand(batch.sender, s.publishable, batch.sink);
        if raised {
          return SinkDown;
        }
        ack := s.publishable[|s.publishable| - 1];
      }
      var b := Take(BucketAt(cfg, s.bucket, batch.creditAt), 0.0, batch.creditAt).0;
      buckets := buckets[batch.sender.organization := b];
      assert buckets == g.buckets[batch.sender.organization := b];
      assert published == g.published + Stamped(batch.sender, s.publishable);
      answer := Accepted(Report(|s.publishable|, s.duplicates, s.shed, s.rejected, s.rejections, ack, Credit(cfg, b)));
    }

    // What a raising sink has not taken is given up on.
    method Hand(sender: Sender, ids: seq<string>, sink: Sink) returns (raised: bool)
      modifies this`published, this`lost
      ensures raised <==> sink.Down?
      ensures raised ==> published == old(published) + Stamped(sender, ids[..TakenBy(sink, ids)])
      ensures raised ==> lost == old(lost) + Stamped(sender, ids[TakenBy(sink, ids)..])
      ensures !raised ==> published == old(published) + Stamped(sender, ids) && lost == old(lost)
    {
      raised := Publish(sender, ids, sink);
      if raised {
        lost := lost + Stamped(sender, ids[TakenBy(sink, ids)..]);
      } else {
        assert ids[..|ids|] == ids;
      }
    }

    // The sink sends event by event, each stamped with its sender, and raises on the first it cannot.
    method Publish(sender: Sender, ids: seq<string>, sink: Sink) returns (raised: bool)
      modifies this`published
      ensures raised <==> sink.Down?
      ensures published == old(published) + Stamped(sender, ids[..TakenBy(sink, ids)])
    {
      var sent := 0;
      while sent < |ids| && (sink.Up? || sent < sink.taken)
        invariant sent <= TakenBy(sink, ids)
        invariant published == old(published) + Stamped(sender, ids[..sent])
        decreases |ids| - sent
      {
        assert Stamped(sender, ids[..sent + 1]) == Stamped(sender, ids[..sent]) + [Entry(sender, ids[sent])];
        published := published + [Entry(sender, ids[sent])];
        sent := sent + 1;
      }
      raised := sink.Down?;
    }

    // The loop over the body's lines, updating the running result one line at a time.
    method ScanLines(batch: Batch) returns (s: Scan)
      ensures s == ScanAll(cfg, Started(State(), batch.sender.organization), batch.lines)
    {
      ghost var start := Started(State(), batch.sender.organization);
      s := Scan(if batch.sender.organization in buckets then Some(buckets[batch.sender.organization]) else None,
                remembered, [], 0, 0, 0, [], "", 0, Running);
      var k := 0;
      while k < |batch.lines| && s.stop == Running
        invariant k <= |batch.lines|
        invariant s == ScanAll(cfg, start, batch.lines[..k])
        decreases |batch.lines| - k
      {
        var line := batch.lines[k];
        assert batch.lines[..k + 1][..k] == batch.lines[..k];
        k := k + 1;
        if line.content == Blank {
          continue;
        }
        if s.seen >= cfg.maxEvents {
          s := s.(rejected := s.rejected + 1, stop := LimitHit,
                  rejections := s.rejections + [Rejection(k, "batch event limit exceeded")]);
          break;
        }
        s := s.(seen := s.seen + 1);
        match line.content {
          case Bad(reason) =>
            s := s.(rejected := s.rejected + 1);
            if |s.rejections| < MAX_REJECTIONS {
              s := s.(rejections := s.rejections + [Rejection(k, reason)]);
            }
          case Event(id, security) =>
            s := OfferEvent(s, id, security, line);
        }
      }
      StoppedScan(cfg, start, batch.lines, k);
    }

    // One decoded event: duplicate, shed, over quota, or on its way to the stream.
    method OfferEvent(before: Scan, id: string, security: bool, line: Line) returns (s: Scan)
      ensures s == Offer(cfg, before, id, security, line)
    {
      s := before;
      if id in s.remembered {
        s := s.(duplicates := s.duplicates + 1, ackCursor := id);
        return;
      }
      var cost := Cost(security);
      var b := Take(BucketAt(cfg, s.bucket, line.readAt), 0.0, line.readAt).0;
      if !ShouldAccept(security, RemainingFraction(b)) {
        s := s.(bucket := Some(b), shed := s.shed + 1);
        return;
      }
      var (charged, ok) := Take(b, cost, line.chargeAt);
      s := s.(bucket := Some(charged));
      if !ok {
        if security {
          s := s.(bucket := Some(Refilled(charged, line.hintAt)),
                  stop := Stop.OverQuota(Hint(charged, cost, line.hintAt)));
        } else {
          s := s.(shed := s.shed + 1);
        }
        return;
      }
      s := s.(remembered := s.remembered + {id});
      s := s.(publishable := s.publishable + [id]);
    }
  }

  // Once a pass has stopped, the remaining lines change nothing.
  lemma {:induction false} StoppedScan(cfg: Config, s: Scan, lines: seq<Line>, k: nat)
    requires k <= |lines| && (k < |lines| ==> ScanAll(cfg, s, lines[..k]).stop != Running)
    ensures ScanAll(cfg, s, lines) == ScanAll(cfg, s, lines[..k])
    decreases |lines|
  {
    if k < |lines| {
      assert lines[..|lines| - 1][..k] == lines[..k];
      StoppedScan(cfg, s, lines[..|lines| - 1], k);
    } else {
      assert lines[..k] == lines;
    }
  }
}
