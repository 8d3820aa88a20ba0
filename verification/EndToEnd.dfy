// From the gateway's stream to the findings: the tailed file is what the gateway published, one line
// an event, and the worker may have had any history.
module EndToEnd {
  import opened Prelude
  import opened Findings
  import opened FileTail
  import opened Convergence
  import opened Worker
  import Ingest

  // How the sink writes an event, and what the worker reads back.
  datatype Wire = Wire(line: Ingest.Entry -> Bytes, record: Ingest.Entry -> Record)

  // A JSON object on one line, which parses to the event's record.
  ghost predicate Readable(sys: System, wire: Wire) {
    forall e :: LineOf(sys, wire, e)
  }

  predicate LineOf(sys: System, wire: Wire, e: Ingest.Entry) {
    var text := wire.line(e);
    && JsonObject(text)
    && sys.parse(text) == Some(wire.record(e))
  }

  function Serialized(wire: Wire, entries: seq<Ingest.Entry>): Bytes {
    if |entries| == 0 then []
    else Serialized(wire, entries[..|entries| - 1]) + (wire.line(entries[|entries| - 1]) + [NEWLINE])
  }

  function Written(wire: Wire, entries: seq<Ingest.Entry>): seq<Record> {
    if |entries| == 0 then [] else Written(wire, entries[..|entries| - 1]) + [wire.record(entries[|entries| - 1])]
  }

  // ---- One line a published event ----

  lemma {:induction false} WrittenIsRead(sys: System, wire: Wire, entries: seq<Ingest.Entry>)
    requires Readable(sys, wire)
    ensures var file := Serialized(wire, entries);
            Boundary(file, |file|) && All(sys, file) == Written(wire, entries)
    decreases |entries|
  {
    if |entries| > 0 {
      var e := entries[|entries| - 1];
      var before := Serialized(wire, entries[..|entries| - 1]);
      var file := Serialized(wire, entries);
      assert LineOf(sys, wire, e);
      WrittenIsRead(sys, wire, entries[..|entries| - 1]);
      LineIsReadBack(before, wire.line(e));
      UptoGrows(sys, before, wire.line(e) + [NEWLINE], |before|);
      UptoSplit(sys, file, |before|, |file|);
      RecsOfLine(sys.parse, wire.line(e));
    }
  }

  lemma {:induction false} WrittenAt(wire: Wire, entries: seq<Ingest.Entry>, k: nat)
    requires k < |entries|
    ensures |Written(wire, entries)| == |entries| && Written(wire, entries)[k] == wire.record(entries[k])
    decreases |entries|
  {
    var n := |entries| - 1;
    if n > 0 {
      WrittenAt(wire, entries[..n], if k < n then k else 0);
    }
  }

  // ---- What is published stays published ----

  lemma {:induction false} PublishedStays(cfg: Ingest.Config, g: Ingest.Gateway, later: seq<Ingest.Batch>,
                                          e: Ingest.Entry)
    requires e in g.published
    ensures e in Ingest.RunAll(cfg, g, later).published
    decreases |later|
  {
    if |later| > 0 {
      var n := |later| - 1;
      PublishedStays(cfg, g, later[..n], e);
      Ingest.CallParts(cfg, Ingest.RunAll(cfg, g, later[..n]), later[n]);
    }
  }

  // ---- The two halves together ----

  // A worker past the end of the stream has exactly the findings of the published events.
  lemma FindingsOfTheStream(sys: System, wire: Wire, events: seq<Event>, published: seq<Ingest.Entry>, o: Uuid)
    requires Readable(sys, wire)
    requires Run(sys, events).file == Serialized(wire, published) && CaughtUpWithFile(Run(sys, events))
    ensures CoresOf(At(Run(sys, events).store, o)) == CoreFold(sys.setup, o, map[], Written(wire, published))
  {
    WrittenIsRead(sys, wire, published);
    EveryRunConverges(sys, events);
    StreamCore(sys.setup, map[], Written(wire, published), o);
    assert CoresOf(map[]) == map[];
  }

  // A security event of an accepted batch that was deliverable is, once the worker has caught up, in the
  // finding of its identity, at no lower confidence, whatever the gateway took in afterwards and whatever
  // the worker went through.
  lemma DeliverableFindingsArrive(sys: System, wire: Wire, events: seq<Event>, cfg: Ingest.Config, g: Ingest.Gateway,
                                  batch: Ingest.Batch, i: nat, later: seq<Ingest.Batch>, o: Uuid)
    requires Readable(sys, wire) && Ingest.Accounted(g) && Ingest.Finding(batch, i)
    requires Ingest.Ingested(cfg, g, batch).1.Accepted? && Ingest.Count(batch.lines) <= cfg.maxEvents
    requires Ingest.Deliverable(g, Ingest.Entry(batch.sender, batch.lines[i].content.id))
    requires Run(sys, events).file
          == Serialized(wire, Ingest.RunAll(cfg, Ingest.Ingested(cfg, g, batch).0, later).published)
    requires CaughtUpWithFile(Run(sys, events))
    requires var r := wire.record(Ingest.Entry(batch.sender, batch.lines[i].content.id));
             r.organization == Some(o) && Decide(sys.setup, o, r).Admit?
    ensures var d := Decide(sys.setup, o, wire.record(Ingest.Entry(batch.sender, batch.lines[i].content.id)));
            var rows := At(Run(sys, events).store, o);
            d.identity in rows && Rank(d.hit.confidence) <= Rank(rows[d.identity].finding.confidence)
  {
    var e := Ingest.Entry(batch.sender, batch.lines[i].content.id);
    var g' := Ingest.Ingested(cfg, g, batch).0;
    var published := Ingest.RunAll(cfg, g', later).published;
    Ingest.SecurityIsPublishedExactlyWhen(cfg, g, batch, i);
    PublishedStays(cfg, g', later, e);
    FindingsOfTheStream(sys, wire, events, published, o);
    PublishedIsFound(sys, wire, published, e, o);
    InRows(At(Run(sys, events).store, o), Decide(sys.setup, o, wire.record(e)).identity);
  }

  lemma PublishedIsFound(sys: System, wire: Wire, published: seq<Ingest.Entry>, e: Ingest.Entry, o: Uuid)
    requires e in published && wire.record(e).organization == Some(o) && Decide(sys.setup, o, wire.record(e)).Admit?
    ensures var d := Decide(sys.setup, o, wire.record(e));
            var cores := CoreFold(sys.setup, o, map[], Written(wire, published));
            d.identity in cores && Rank(d.hit.confidence) <= Rank(cores[d.identity].confidence)
  {
    var k :| 0 <= k < |published| && published[k] == e;
    var id := Decide(sys.setup, o, wire.record(e)).identity;
    WrittenAt(wire, published, k);
    assert Admits(sys.setup, o, Written(wire, published)[k], id);
    FoundExactlyWhenAdmitted(sys.setup, o, Written(wire, published), id);
    ConfidenceIsTheHighest(sys.setup, o, Written(wire, published), id);
  }

  lemma InRows(rows: Rows, id: Identity)
    ensures id in CoresOf(rows) <==> id in rows
    ensures id in rows ==> CoresOf(rows)[id].confidence == rows[id].finding.confidence
  {
  }

  // And no finding comes from anywhere else: each has an event on the stream that was admitted to it.
  lemma FindingsComeFromTheStream(sys: System, wire: Wire, events: seq<Event>, published: seq<Ingest.Entry>,
                                  o: Uuid, id: Identity)
    requires Readable(sys, wire)
    requires Run(sys, events).file == Serialized(wire, published) && CaughtUpWithFile(Run(sys, events))
    requires id in At(Run(sys, events).store, o)
    ensures exists e :: e in published && Admits(sys.setup, o, wire.record(e), id)
  {
    FindingsOfTheStream(sys, wire, events, published, o);
    InRows(At(Run(sys, events).store, o), id);
    FoundExactlyWhenAdmitted(sys.setup, o, Written(wire, published), id);
    var k :| 0 <= k < |Written(wire, published)| && Admits(sys.setup, o, Written(wire, published)[k], id);
    WrittenLength(wire, published);
    WrittenAt(wire, published, k);
    assert published[k] in published;
  }

  lemma WrittenLength(wire: Wire, entries: seq<Ingest.Entry>)
    ensures |Written(wire, entries)| == |entries|
  {
    if |entries| > 0 {
      WrittenAt(wire, entries, 0);
    }
  }
}
