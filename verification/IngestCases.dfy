// Concrete runs of the gateway in which it does not do what its documentation says.
module IngestCases {
  import opened Prelude
  import opened Ingest

  const LENIENT := Config(1000, 20, false, 10.0, 1.0)

  const HERE := Sender("here", "a")

  const ELSEWHERE := Sender("elsewhere", "a")

  const FINDING := Line(Event("e", true), 0.0, 0.0, 0.0)

  // One finding with the id "e".
  function Sent(sender: Sender, sink: Sink): Batch {
    Batch(sender, 100, [FINDING], sink, 0.0)
  }

  lemma OneLine(cfg: Config, s: Scan, line: Line)
    ensures ScanAll(cfg, s, [line]) == Step(cfg, s, line, 1)
  {
    assert [line][..0] == [];
  }

  // The first batch of all passes the quota, and is published or lost with the sink.
  lemma FirstBatch(sink: Sink)
    requires sink == Up || sink == Down(0)
    ensures var (g, answer) := Ingested(LENIENT, EMPTY, Sent(HERE, sink));
            && g.remembered == {"e"}
            && g.published == (if sink.Up? then [Entry(HERE, "e")] else [])
            && g.lost == (if sink.Up? then [] else [Entry(HERE, "e")])
            && (if sink.Up? then answer.Accepted? else answer == SinkDown)
  {
    OneLine(LENIENT, Started(EMPTY, "here"), FINDING);
    var ids := Scanned(LENIENT, EMPTY, Sent(HERE, sink)).publishable;
    assert ids == ["e"] && ids[..0] == [] && ids[0..] == ids;
    assert Stamped(HERE, ["e"]) == [Entry(HERE, "e")] && Stamped(HERE, []) == [];
  }

  // Any later batch with the id is accepted as a duplicate and publishes nothing.
  lemma LaterBatch(g: Gateway, sender: Sender)
    requires "e" in g.remembered
    ensures var (g', answer) := Ingested(LENIENT, g, Sent(sender, Up));
            && answer.Accepted? && answer.report.accepted == 0 && answer.report.duplicates == 1
            && answer.report.ackCursor == "e"
            && g'.published == g.published && g'.lost == g.lost
  {
    OneLine(LENIENT, Started(g, sender.organization), FINDING);
    assert Stamped(sender, []) == [];
  }

  lemma OneBatch(cfg: Config, batch: Batch)
    ensures RunAll(cfg, EMPTY, [batch]) == Ingested(cfg, EMPTY, batch).0
  {
    assert [batch][..0] == [];
  }

  // One tenant publishes an event; another tenant's finding with the same id is answered as a duplicate
  // and never reaches the stream. Ids need only be unique per agent, and the cache is shared.
  lemma AnotherTenantsIdSwallowsAFinding()
    ensures var g := RunAll(LENIENT, EMPTY, [Sent(HERE, Up)]);
            var (g', answer) := Ingested(LENIENT, g, Sent(ELSEWHERE, Up));
            && answer.Accepted? && answer.report.duplicates == 1 && answer.report.ackCursor == "e"
            && g'.published == [Entry(HERE, "e")] && g'.lost == []
  {
    OneBatch(LENIENT, Sent(HERE, Up));
    FirstBatch(Up);
    LaterBatch(Ingested(LENIENT, EMPTY, Sent(HERE, Up)).0, ELSEWHERE);
  }

  // The sink is down, the agent retries as it is told to: a duplicate, acknowledged and not on the stream.
  lemma RetryAfterSinkDownLosesAFinding()
    ensures var (g, first) := Ingested(LENIENT, EMPTY, Sent(HERE, Down(0)));
            var (g', answer) := Ingested(LENIENT, g, Sent(HERE, Up));
            && first == SinkDown && answer.Accepted? && answer.report.duplicates == 1
            && answer.report.ackCursor == "e"
            && g'.published == [] && g'.lost == [Entry(HERE, "e")]
  {
    FirstBatch(Down(0));
    LaterBatch(Ingested(LENIENT, EMPTY, Sent(HERE, Down(0))).0, HERE);
  }

  // Two findings in one batch, and a sink that fails on the second.
  const PAIR := [Line(Event("x", true), 0.0, 0.0, 0.0), Line(Event("y", true), 0.0, 0.0, 0.0)]

  lemma TwoLines(cfg: Config, s: Scan, lines: seq<Line>)
    requires |lines| == 2
    ensures ScanAll(cfg, s, lines) == Step(cfg, Step(cfg, s, lines[0], 1), lines[1], 2)
  {
    assert lines[..1] == [lines[0]];
    OneLine(cfg, s, lines[0]);
  }

  lemma PairScan()
    ensures var s := ScanAll(LENIENT, Started(EMPTY, "here"), PAIR);
            s.publishable == ["x", "y"] && s.remembered == {"x", "y"} && s.stop == Running && s.rejections == []
  {
    TwoLines(LENIENT, Started(EMPTY, "here"), PAIR);
    var first := Step(LENIENT, Started(EMPTY, "here"), PAIR[0], 1);
    assert first.publishable == ["x"] && first.remembered == {"x"} && first.bucket == Some(first.bucket.value);
    assert first.bucket.value.tokens == 9.5;
  }

  lemma PairAgain(g: Gateway)
    requires "x" in g.remembered && "y" in g.remembered
    ensures var (g', answer) := Ingested(LENIENT, g, Batch(HERE, 100, PAIR, Up, 0.0));
            answer.Accepted? && answer.report.duplicates == 2 && g'.published == g.published && g'.lost == g.lost
  {
    TwoLines(LENIENT, Started(g, "here"), PAIR);
    assert Stamped(HERE, []) == [];
  }

  // The batch is answered as if nothing had arrived; its first finding is on the stream, its second
  // one is given up on, and a retry changes neither.
  lemma SinkFailsHalfWay()
    ensures var (g, first) := Ingested(LENIENT, EMPTY, Batch(HERE, 100, PAIR, Down(1), 0.0));
            var (g', answer) := Ingested(LENIENT, g, Batch(HERE, 100, PAIR, Up, 0.0));
            && first == SinkDown && answer.Accepted? && answer.report.duplicates == 2
            && g'.published == [Entry(HERE, "x")] && g'.lost == [Entry(HERE, "y")]
  {
    PairScan();
    var ids := ["x", "y"];
    assert ids[..1] == ["x"] && ids[1..] == ["y"];
    assert Stamped(HERE, ["x"]) == [Entry(HERE, "x")] && Stamped(HERE, ["y"]) == [Entry(HERE, "y")];
    PairAgain(Ingested(LENIENT, EMPTY, Batch(HERE, 100, PAIR, Down(1), 0.0)).0);
  }

  const MALFORMED := Line(Bad("malformed JSON"), 0.0, 0.0, 0.0)

  function Malformed(n: nat): seq<Line> {
    if n == 0 then [] else Malformed(n - 1) + [MALFORMED]
  }

  lemma {:induction false} MalformedCounts(n: nat, max: nat)
    ensures |Malformed(n)| == n && Count(Malformed(n)) == n
    ensures |BadLines(max, Malformed(n))| == Min(n, max)
  {
    if n > 0 {
      MalformedCounts(n - 1, max);
      assert Malformed(n)[..n - 1] == Malformed(n - 1);
    }
  }

  lemma MalformedStep(cfg: Config, s: Scan, number: nat)
    ensures Step(cfg, s, MALFORMED, number).publishable == s.publishable
    ensures !s.stop.OverQuota? ==> !Step(cfg, s, MALFORMED, number).stop.OverQuota?
  {
  }

  lemma {:induction false} MalformedPublishNothing(cfg: Config, s: Scan, n: nat)
    requires s.publishable == [] && !s.stop.OverQuota?
    ensures ScanAll(cfg, s, Malformed(n)).publishable == [] && !ScanAll(cfg, s, Malformed(n)).stop.OverQuota?
  {
    if n > 0 {
      MalformedPublishNothing(cfg, s, n - 1);
      assert Malformed(n)[..|Malformed(n)| - 1] == Malformed(n - 1);
      MalformedStep(cfg, ScanAll(cfg, s, Malformed(n - 1)), |Malformed(n)|);
    }
  }

  // Twenty-one malformed lines against a limit of twenty: twenty-one rejections are listed.
  lemma TwentyFirstRejection()
    ensures var batch := Batch(HERE, 100, Malformed(21), Up, 0.0);
            var answer := Ingested(LENIENT, EMPTY, batch).1;
            answer.Accepted? && |answer.report.rejections| == 21
  {
    MalformedCounts(21, 20);
    MalformedPublishNothing(LENIENT, Started(EMPTY, "here"), 21);
    ReportAccountsForEveryLine(LENIENT, EMPTY, Batch(HERE, 100, Malformed(21), Up, 0.0));
  }
}
