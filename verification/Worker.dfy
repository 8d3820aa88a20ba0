// The worker as a step machine over what survives a crash (file, cursor, database) and what does not
// (the tail): apps/worker/src/aegis_worker/main.py, consumer.py and cursor.py around the fold.
module Worker {
  import opened Prelude
  import opened Findings
  import opened FileTail
  import opened Convergence

  // The fold's collaborators, and what json.loads and the field readers make of a line.
  datatype System = System(setup: Setup, parse: Bytes -> Option<Record>)

  datatype World = World(
    file: Bytes, cursor: CursorText, store: Store,
    tail: Option<Tail>,        // None while no worker is running
    folded: bool,              // the pending batch is folded and waits for its commit
    committed: seq<Bytes>,     // history: the lines of the committed batches
    delivered: seq<Record>)    // history: the records of the folds that succeeded

  datatype Event =
    | Append(more: Bytes)                            // the writer, not always up to a whole line
    | Start
    | Poll(size: nat)
    | FoldFails(transactions: nat)                   // so many tenants were committed before it failed
    | FoldSucceeds
    | Commit
    | Crash                                          // or a shutdown before the commit
    | CrashInCommit                                  // the cursor is replaced, memory is lost
    | Corrupt(text: CursorText)
    | Triage(organization: Uuid, id: Identity, status: Status)

  const INITIAL := World([], Missing, map[], None, false, [], [])

  predicate Waiting(w: World) {
    w.tail.Some? && w.tail.value.pending.Some?
  }

  function Recs(parse: Bytes -> Option<Record>, lines: seq<Bytes>): seq<Record>
    decreases |lines|
  {
    if |lines| == 0 then []
    else
      var before := Recs(parse, lines[..|lines| - 1]);
      match parse(lines[|lines| - 1])
      case Some(r) => before + [r]
      case None => before
  }

  function Batched(sys: System, w: World): seq<Record>
    requires Waiting(w)
  {
    Recs(sys.parse, w.tail.value.pending.value.records)
  }

  function Relabelled(store: Store, organization: Uuid, id: Identity, status: Status): Store {
    if organization in store && id in store[organization] then
      var row := store[organization][id];
      store[organization := store[organization][id := row.(finding := row.finding.(status := status))]]
    else store
  }

  function Persisted(w: World): World
    requires Waiting(w)
  {
    var p := w.tail.value.pending.value;
    w.(cursor := Number(p.offset), committed := w.committed + p.records)
  }

  // An event that cannot happen in this state changes nothing.
  function Next(sys: System, w: World, e: Event): World {
    match e
    case Append(more) => w.(file := w.file + more)
    case Start => if w.tail.Some? || w.cursor.Unreadable? then w else w.(tail := Some(Tail(ReadCursor(w.cursor), None)))
    case Poll(size) =>
      if w.tail.None? || w.folded then w else w.(tail := Some(Polled(w.tail.value, w.file, size)))
    case FoldFails(k) =>
      if !Waiting(w) || w.folded || k > |Tenants(Batched(sys, w))| then w
      else w.(store := FoldGroups(Applying(sys.setup), w.store, Batched(sys, w), Tenants(Batched(sys, w))[..k]).0)
    case FoldSucceeds =>
      if !Waiting(w) || w.folded then w
      else w.(store := FoldStream(Applying(sys.setup), w.store, Batched(sys, w)).0, folded := true,
              delivered := w.delivered + Batched(sys, w))
    case Commit =>
      if !Waiting(w) || !w.folded then w
      else Persisted(w).(tail := Some(Confirmed(w.tail.value)), folded := false)
    case Crash => w.(tail := None, folded := false)
    case CrashInCommit => if !Waiting(w) || !w.folded then w else Persisted(w).(tail := None, folded := false)
    case Corrupt(text) => if ReadCursor(text) == 0 then w.(cursor := text) else w
    case Triage(o, id, status) => w.(store := Relabelled(w.store, o, id, status))
  }

  function Run(sys: System, events: seq<Event>): World
    decreases |events|
  {
    if |events| == 0 then INITIAL else Next(sys, Run(sys, events[..|events| - 1]), events[|events| - 1])
  }

  // ---- The records of a file ----

  // The records of the complete lines up to an offset.
  function Upto(sys: System, file: Bytes, offset: nat): seq<Record> {
    Recs(sys.parse, Lines(file, 0, offset))
  }

  function All(sys: System, file: Bytes): seq<Record> {
    Upto(sys, file, |file|)
  }

  lemma {:induction false} RecsPlus(parse: Bytes -> Option<Record>, a: seq<Bytes>, b: seq<Bytes>)
    ensures Recs(parse, a + b) == Recs(parse, a) + Recs(parse, b)
    decreases |b|
  {
    if |b| == 0 {
      assert a + b == a;
    } else {
      assert (a + b)[..|a + b| - 1] == a + b[..|b| - 1];
      RecsPlus(parse, a, b[..|b| - 1]);
    }
  }

  lemma RecsOfLine(parse: Bytes -> Option<Record>, line: Bytes)
    ensures Recs(parse, [line]) == if parse(line).Some? then [parse(line).value] else []
  {
    assert [line][..0] == [];
  }

  lemma UptoSplit(sys: System, file: Bytes, from: nat, to: nat)
    requires Boundary(file, from) && from <= to
    ensures Upto(sys, file, to) == Upto(sys, file, from) + Recs(sys.parse, Lines(file, from, to))
  {
    LinesSplit(file, 0, from, to);
    RecsPlus(sys.parse, Lines(file, 0, from), Lines(file, from, to));
  }

  // The batch between two boundaries is a stretch of the file's records.
  lemma Stretch(sys: System, file: Bytes, from: nat, to: nat)
    requires Boundary(file, from) && Boundary(file, to) && from <= to
    ensures |Upto(sys, file, from)| <= |Upto(sys, file, to)| <= |All(sys, file)|
    ensures All(sys, file)[..|Upto(sys, file, to)|] == Upto(sys, file, to)
    ensures All(sys, file)[|Upto(sys, file, from)|..|Upto(sys, file, to)|] == Recs(sys.parse, Lines(file, from, to))
  {
    UptoSplit(sys, file, from, to);
    UptoSplit(sys, file, to, |file|);
    Slices(Upto(sys, file, from), Recs(sys.parse, Lines(file, from, to)), Recs(sys.parse, Lines(file, to, |file|)));
  }

  lemma Slices<T>(a: seq<T>, b: seq<T>, c: seq<T>)
    ensures (a + b + c)[..|a + b|] == a + b
    ensures (a + b + c)[|a|..|a + b|] == b
  {
  }

  lemma UptoGrows(sys: System, file: Bytes, more: Bytes, offset: nat)
    requires Boundary(file, offset)
    ensures Upto(sys, file + more, offset) == Upto(sys, file, offset)
    ensures All(sys, file) <= All(sys, file + more)
  {
    LinesGrow(file, more, 0, offset);
    var last := LastBoundary(file, |file|);
    LinesGrow(file, more, 0, last);
    UptoSplit(sys, file, last, |file|);
    assert Lines(file, last, |file|) == [];
    UptoSplit(sys, file + more, last, |file + more|);
  }

  // The end of the last complete line.
  function LastBoundary(file: Bytes, n: nat): (last: nat)
    requires n <= |file|
    ensures Boundary(file, last) && last <= n
    ensures forall k :: last <= k < n ==> file[k] != NEWLINE
  {
    if n == 0 || file[n - 1] == NEWLINE then n else LastBoundary(file, n - 1)
  }

  // ---- What one tenant's rows have caught up with ----

  // The rows are those of the first p records, but for counters that may be larger.
  ghost predicate RowsAt(setup: Setup, o: Uuid, rows: Rows, records: seq<Record>) {
    && CoresOf(rows) == CoreFold(setup, o, map[], records)
    && (forall id :: Hits(setup, o, records, id) <= Sightings(rows, id))
    && forall id :: Stops(setup, o, map[], records, id) <= Blocks(rows, id)
  }

  ghost predicate CaughtUp(setup: Setup, o: Uuid, rows: Rows, all: seq<Record>, n: nat) {
    exists p :: n <= p <= |all| && RowsAt(setup, o, rows, all[..p])
  }

  lemma RefoldedRows(setup: Setup, store: Store, all: seq<Record>, p: nat, from: nat, to: nat, o: Uuid)
    requires from <= p <= |all| && from <= to <= |all|
    requires RowsAt(setup, o, At(store, o), all[..p])
    ensures RowsAt(setup, o, At(FoldStream(Applying(setup), store, all[from..to]).0, o), all[..Max(p, to)])
  {
    StreamCore(setup, store, all[from..to], o);
    ReplayConverges(setup, o, all, p, from, to);
    forall id
      ensures Hits(setup, o, all[..Max(p, to)], id)
           <= Sightings(At(FoldStream(Applying(setup), store, all[from..to]).0, o), id)
    {
      StreamSightings(setup, store, all[from..to], o, id);
      HitsOverlap(setup, o, all, p, from, to, id);
    }
    forall id
      ensures Stops(setup, o, map[], all[..Max(p, to)], id)
           <= Blocks(At(FoldStream(Applying(setup), store, all[from..to]).0, o), id)
    {
      StreamBlocks(setup, store, all[from..to], o, id);
      StopsOverlap(setup, o, all, p, from, to, id);
    }
  }

  lemma FoldCatchesUp(setup: Setup, store: Store, all: seq<Record>, n: nat, from: nat, to: nat, o: Uuid)
    requires from <= n && from <= to <= |all|
    requires CaughtUp(setup, o, At(store, o), all, n)
    ensures CaughtUp(setup, o, At(FoldStream(Applying(setup), store, all[from..to]).0, o), all, Max(n, to))
  {
    var p :| n <= p <= |all| && RowsAt(setup, o, At(store, o), all[..p]);
    RefoldedRows(setup, store, all, p, from, to, o);
  }

  lemma PartialFoldKeepsUp(setup: Setup, store: Store, all: seq<Record>, n: nat, from: nat, to: nat, k: nat, o: Uuid)
    requires from <= n && from <= to <= |all| && k <= |Tenants(all[from..to])|
    requires CaughtUp(setup, o, At(store, o), all, n)
    ensures CaughtUp(setup, o, At(FoldGroups(Applying(setup), store, all[from..to], Tenants(all[from..to])[..k]).0, o),
                     all, n)
  {
    PartialCore(setup, store, all[from..to], k, o);
    FoldCatchesUp(setup, store, all, n, from, to, o);
  }

  lemma CaughtUpGrows(setup: Setup, o: Uuid, rows: Rows, all: seq<Record>, all': seq<Record>, n: nat)
    requires CaughtUp(setup, o, rows, all, n) && all <= all'
    ensures CaughtUp(setup, o, rows, all', n)
  {
    var p :| n <= p <= |all| && RowsAt(setup, o, rows, all[..p]);
    assert all'[..p] == all[..p];
  }

  lemma TriageKeepsUp(setup: Setup, store: Store, all: seq<Record>, n: nat, o: Uuid, o': Uuid, id: Identity, status: Status)
    requires CaughtUp(setup, o, At(store, o), all, n)
    ensures CaughtUp(setup, o, At(Relabelled(store, o', id, status), o), all, n)
  {
    var p :| n <= p <= |all| && RowsAt(setup, o, At(store, o), all[..p]);
    var rows, rows' := At(store, o), At(Relabelled(store, o', id, status), o);
    assert CoresOf(rows') == CoresOf(rows);
    assert forall i :: Sightings(rows', i) == Sightings(rows, i) && Blocks(rows', i) == Blocks(rows, i);
  }

  // ---- The invariant of every run ----

  // Everything up to here has been folded.
  function Covered(w: World): nat {
    Max(ReadCursor(w.cursor),
        if w.tail.None? then 0
        else if w.folded && w.tail.value.pending.Some? then w.tail.value.pending.value.offset
        else w.tail.value.committed)
  }

  predicate Tidy(w: World) {
    && Boundary(w.file, ReadCursor(w.cursor))
    && (w.tail.Some? ==> TailOk(w.tail.value, w.file))
    && (w.folded ==> Waiting(w))
  }

  ghost predicate StoreCaughtUp(sys: System, w: World) {
    forall o :: CaughtUp(sys.setup, o, At(w.store, o), All(sys, w.file), |Upto(sys, w.file, Covered(w))|)
  }

  ghost predicate Invariant(sys: System, w: World) {
    && Tidy(w)
    && StoreCaughtUp(sys, w)
    && multiset(Upto(sys, w.file, Covered(w))) <= multiset(w.delivered)
  }

  lemma CoveredIsBoundary(w: World)
    requires Tidy(w)
    ensures Boundary(w.file, Covered(w))
  {
  }

  lemma AppendKeeps(sys: System, w: World, more: Bytes)
    requires Invariant(sys, w)
    ensures Invariant(sys, Next(sys, w, Append(more)))
  {
    var w' := Next(sys, w, Append(more));
    if w.tail.Some? {
      AppendKeepsTailOk(w.tail.value, w.file, more);
    }
    CoveredIsBoundary(w);
    UptoGrows(sys, w.file, more, Covered(w));
    forall o ensures CaughtUp(sys.setup, o, At(w'.store, o), All(sys, w'.file), |Upto(sys, w'.file, Covered(w'))|) {
      CaughtUpGrows(sys.setup, o, At(w.store, o), All(sys, w.file), All(sys, w'.file), |Upto(sys, w.file, Covered(w))|);
    }
  }

  // Falling back to an earlier boundary keeps the invariant.
  lemma CoveringLess(sys: System, w: World, w': World)
    requires Invariant(sys, w) && Tidy(w')
    requires w'.file == w.file && w'.store == w.store && w'.delivered == w.delivered && Covered(w') <= Covered(w)
    ensures Invariant(sys, w')
  {
    CoveredIsBoundary(w);
    CoveredIsBoundary(w');
    Stretch(sys, w.file, Covered(w'), Covered(w));
    UptoSplit(sys, w.file, Covered(w'), Covered(w));
    forall o ensures CaughtUp(sys.setup, o, At(w'.store, o), All(sys, w'.file), |Upto(sys, w'.file, Covered(w'))|) {
      assert CaughtUp(sys.setup, o, At(w.store, o), All(sys, w.file), |Upto(sys, w.file, Covered(w))|);
    }
  }

  lemma FoldSucceedsKeeps(sys: System, w: World)
    requires Invariant(sys, w) && Waiting(w) && !w.folded
    ensures Invariant(sys, Next(sys, w, FoldSucceeds))
  {
    var w' := Next(sys, w, FoldSucceeds);
    var from, to, c := w.tail.value.committed, w.tail.value.pending.value.offset, Covered(w);
    CoveredIsBoundary(w);
    Stretch(sys, w.file, from, to);
    Stretch(sys, w.file, from, c);
    UptoOrder(sys, w.file, c, to);
    assert Covered(w') == Max(c, to);
    forall o ensures CaughtUp(sys.setup, o, At(w'.store, o), All(sys, w'.file), |Upto(sys, w'.file, Covered(w'))|) {
      assert CaughtUp(sys.setup, o, At(w.store, o), All(sys, w.file), |Upto(sys, w.file, c)|);
      FoldCatchesUp(sys.setup, w.store, All(sys, w.file), |Upto(sys, w.file, c)|,
                    |Upto(sys, w.file, from)|, |Upto(sys, w.file, to)|, o);
    }
    UptoSplit(sys, w.file, from, to);
    UptoSplit(sys, w.file, from, c);
  }

  lemma UptoOrder(sys: System, file: Bytes, a: nat, b: nat)
    requires Boundary(file, a) && Boundary(file, b)
    ensures |Upto(sys, file, Max(a, b))| == Max(|Upto(sys, file, a)|, |Upto(sys, file, b)|)
  {
    if a <= b {
      Stretch(sys, file, a, b);
    } else {
      Stretch(sys, file, b, a);
    }
  }

  lemma FoldFailsKeeps(sys: System, w: World, k: nat)
    requires Invariant(sys, w) && Waiting(w) && !w.folded && k <= |Tenants(Batched(sys, w))|
    ensures Invariant(sys, Next(sys, w, FoldFails(k)))
  {
    var w' := Next(sys, w, FoldFails(k));
    var from, to, c := w.tail.value.committed, w.tail.value.pending.value.offset, Covered(w);
    CoveredIsBoundary(w);
    Stretch(sys, w.file, from, to);
    Stretch(sys, w.file, from, c);
    forall o ensures CaughtUp(sys.setup, o, At(w'.store, o), All(sys, w'.file), |Upto(sys, w'.file, Covered(w'))|) {
      assert CaughtUp(sys.setup, o, At(w.store, o), All(sys, w.file), |Upto(sys, w.file, c)|);
      PartialFoldKeepsUp(sys.setup, w.store, All(sys, w.file), |Upto(sys, w.file, c)|,
                         |Upto(sys, w.file, from)|, |Upto(sys, w.file, to)|, k, o);
    }
  }

  lemma TriageKeeps(sys: System, w: World, o': Uuid, id: Identity, status: Status)
    requires Invariant(sys, w)
    ensures Invariant(sys, Next(sys, w, Triage(o', id, status)))
  {
    var w' := Next(sys, w, Triage(o', id, status));
    forall o ensures CaughtUp(sys.setup, o, At(w'.store, o), All(sys, w'.file), |Upto(sys, w'.file, Covered(w'))|) {
      assert CaughtUp(sys.setup, o, At(w.store, o), All(sys, w.file), |Upto(sys, w.file, Covered(w))|);
      TriageKeepsUp(sys.setup, w.store, All(sys, w.file), |Upto(sys, w.file, Covered(w))|, o, o', id, status);
    }
  }

  // Only memory or the cursor moves, and never past what is covered.
  lemma QuietStep(sys: System, w: World, e: Event)
    requires Tidy(w)
    requires e.Start? || e.Poll? || e.Commit? || e.Crash? || e.CrashInCommit? || e.Corrupt?
    ensures var w' := Next(sys, w, e);
            && Tidy(w') && Covered(w') <= Covered(w)
            && w'.file == w.file && w'.store == w.store && w'.delivered == w.delivered
  {
    if e.Poll? && w.tail.Some? {
      PollKeepsTailOk(w.tail.value, w.file, e.size);
    }
  }

  lemma StepKeepsInvariant(sys: System, w: World, e: Event)
    requires Invariant(sys, w)
    ensures Invariant(sys, Next(sys, w, e))
  {
    match e
    case Append(more) => AppendKeeps(sys, w, more);
    case FoldSucceeds => if Waiting(w) && !w.folded { FoldSucceedsKeeps(sys, w); }
    case FoldFails(k) => if Waiting(w) && !w.folded && k <= |Tenants(Batched(sys, w))| { FoldFailsKeeps(sys, w, k); }
    case Triage(o, id, status) => TriageKeeps(sys, w, o, id, status);
    case _ =>
      QuietStep(sys, w, e);
      CoveringLess(sys, w, Next(sys, w, e));
  }

  lemma InitialInvariant(sys: System)
    ensures Invariant(sys, INITIAL)
  {
    forall o ensures CaughtUp(sys.setup, o, At(INITIAL.store, o), All(sys, INITIAL.file), 0) {
      assert RowsAt(sys.setup, o, map[], All(sys, INITIAL.file)[..0]);
    }
  }

  lemma {:induction false} RunKeepsInvariant(sys: System, events: seq<Event>)
    ensures Invariant(sys, Run(sys, events))
    decreases |events|
  {
    if |events| == 0 {
      InitialInvariant(sys);
    } else {
      RunKeepsInvariant(sys, events[..|events| - 1]);
      StepKeepsInvariant(sys, Run(sys, events[..|events| - 1]), events[|events| - 1]);
    }
  }

  // ---- What every run delivers ----

  // At least once: in every reachable state the cursor is 0 or just after a newline, and every record
  // of a complete line before it has been folded, as often as it stands there.
  lemma EveryRunDelivers(sys: System, events: seq<Event>)
    ensures var w := Run(sys, events);
            && Boundary(w.file, ReadCursor(w.cursor))
            && multiset(Upto(sys, w.file, ReadCursor(w.cursor))) <= multiset(w.delivered)
  {
    var w := Run(sys, events);
    RunKeepsInvariant(sys, events);
    CoveredIsBoundary(w);
    UptoSplit(sys, w.file, ReadCursor(w.cursor), Covered(w));
  }

  // No complete line is left to read.
  predicate CaughtUpWithFile(w: World) {
    Lines(w.file, ReadCursor(w.cursor), |w.file|) == []
  }

  // Rows with the content of a crash-free fold of these records, and counters at least as large.
  ghost predicate Converged(setup: Setup, store: Store, records: seq<Record>) {
    var once := FoldStream(Applying(setup), map[], records).0;
    forall o ::
      && CoresOf(At(store, o)) == CoresOf(At(once, o))
      && (forall id :: Sightings(At(store, o), id) >= Sightings(At(once, o), id))
      && forall id :: Blocks(At(store, o), id) >= Blocks(At(once, o), id)
  }

  lemma RowsAtConverged(setup: Setup, o: Uuid, rows: Rows, records: seq<Record>)
    requires RowsAt(setup, o, rows, records)
    ensures var once := At(FoldStream(Applying(setup), map[], records).0, o);
            && CoresOf(rows) == CoresOf(once)
            && (forall id :: Sightings(rows, id) >= Sightings(once, id))
            && forall id :: Blocks(rows, id) >= Blocks(once, id)
  {
    StreamCore(setup, map[], records, o);
    assert CoresOf(map[]) == map[];
    var once := At(FoldStream(Applying(setup), map[], records).0, o);
    forall id ensures Sightings(rows, id) >= Sightings(once, id) {
      StreamSightings(setup, map[], records, o, id);
      assert Hits(setup, o, records, id) <= Sightings(rows, id);
    }
    forall id ensures Blocks(rows, id) >= Blocks(once, id) {
      StreamBlocks(setup, map[], records, o, id);
      assert Stops(setup, o, map[], records, id) <= Blocks(rows, id);
    }
  }

  // Once everything up to the last complete line is covered, nothing is missing from the rows.
  lemma CoveredConverges(sys: System, events: seq<Event>, c: nat)
    requires var w := Run(sys, events);
             Boundary(w.file, c) && c <= Covered(w) && Lines(w.file, c, |w.file|) == []
    ensures Converged(sys.setup, Run(sys, events).store, All(sys, Run(sys, events).file))
  {
    var w := Run(sys, events);
    var all := All(sys, w.file);
    RunKeepsInvariant(sys, events);
    UptoSplit(sys, w.file, c, |w.file|);
    CoveredIsBoundary(w);
    Stretch(sys, w.file, c, Covered(w));
    assert |Upto(sys, w.file, Covered(w))| == |all|;
    var once := FoldStream(Applying(sys.setup), map[], all).0;
    forall o
      ensures CoresOf(At(w.store, o)) == CoresOf(At(once, o))
      ensures forall id :: Sightings(At(w.store, o), id) >= Sightings(At(once, o), id)
      ensures forall id :: Blocks(At(w.store, o), id) >= Blocks(At(once, o), id)
    {
      assert CaughtUp(sys.setup, o, At(w.store, o), all, |all|);
      var p :| |all| <= p <= |all| && RowsAt(sys.setup, o, At(w.store, o), all[..p]);
      assert all[..p] == all;
      RowsAtConverged(sys.setup, o, At(w.store, o), all);
    }
  }

  // Whatever appends, failed folds, triage, crashes and corrupt cursors came before, once the cursor
  // is past the last complete line the findings are those of one crash-free fold of the file.
  lemma EveryRunConverges(sys: System, events: seq<Event>)
    requires CaughtUpWithFile(Run(sys, events))
    ensures Converged(sys.setup, Run(sys, events).store, All(sys, Run(sys, events).file))
  {
    RunKeepsInvariant(sys, events);
    CoveredConverges(sys, events, ReadCursor(Run(sys, events).cursor));
  }

  // ---- Nothing skipped, nothing committed twice ----

  // The committed batches are the lines before the cursor, each once and in order.
  predicate InStep(w: World) {
    && Tidy(w)
    && w.committed == Lines(w.file, 0, ReadCursor(w.cursor))
    && (w.tail.Some? ==> w.tail.value.committed == ReadCursor(w.cursor))
  }

  lemma StepStaysInStep(sys: System, w: World, e: Event)
    requires InStep(w) && !e.Corrupt?
    ensures InStep(Next(sys, w, e))
  {
    match e
    case Append(more) =>
      LinesGrow(w.file, more, 0, ReadCursor(w.cursor));
      if w.tail.Some? {
        AppendKeepsTailOk(w.tail.value, w.file, more);
      }
    case Poll(size) =>
      if w.tail.Some? {
        PollKeepsTailOk(w.tail.value, w.file, size);
      }
    case Commit =>
      if Waiting(w) {
        LinesSplit(w.file, 0, w.tail.value.committed, w.tail.value.pending.value.offset);
      }
    case CrashInCommit =>
      if Waiting(w) {
        LinesSplit(w.file, 0, w.tail.value.committed, w.tail.value.pending.value.offset);
      }
    case _ =>
  }

  // With a sound cursor file, crashes and failed folds included, the committed batches put end to
  // end are exactly the complete non-blank lines before the cursor, in file order.
  lemma {:induction false} CommittedAreTheLines(sys: System, events: seq<Event>)
    requires forall i :: 0 <= i < |events| ==> !events[i].Corrupt?
    ensures InStep(Run(sys, events))
    decreases |events|
  {
    if |events| > 0 {
      CommittedAreTheLines(sys, events[..|events| - 1]);
      StepStaysInStep(sys, Run(sys, events[..|events| - 1]), events[|events| - 1]);
    }
  }

  // A step that neither repeats nor touches a fold: a crash may fall anywhere but between a fold and
  // its commit, a failed fold may have committed no tenant.
  predicate Gentle(w: World, e: Event) {
    && !e.Corrupt? && !e.Triage?
    && (e.Crash? ==> !w.folded)
    && (e.FoldFails? ==> e.transactions == 0)
  }

  predicate GentleRun(sys: System, events: seq<Event>)
    decreases |events|
  {
    |events| > 0 ==> GentleRun(sys, events[..|events| - 1])
                     && Gentle(Run(sys, events[..|events| - 1]), events[|events| - 1])
  }

  function Folded(w: World): nat {
    if w.folded && Waiting(w) then w.tail.value.pending.value.offset else ReadCursor(w.cursor)
  }

  // Every record folded once, in order, counters included.
  predicate OnceEach(sys: System, w: World) {
    && InStep(w)
    && w.delivered == Upto(sys, w.file, Folded(w))
    && w.store == FoldStream(Applying(sys.setup), map[], w.delivered).0
  }

  lemma FoldOnce(sys: System, w: World)
    requires OnceEach(sys, w) && Waiting(w) && !w.folded
    ensures OnceEach(sys, Next(sys, w, FoldSucceeds))
  {
    UptoSplit(sys, w.file, w.tail.value.committed, w.tail.value.pending.value.offset);
    CuttingKeepsMeaning(Applying(sys.setup), map[], w.delivered, Batched(sys, w));
  }

  lemma StepFoldsOnce(sys: System, w: World, e: Event)
    requires OnceEach(sys, w) && Gentle(w, e)
    ensures OnceEach(sys, Next(sys, w, e))
  {
    StepStaysInStep(sys, w, e);
    match e
    case Append(more) => UptoGrows(sys, w.file, more, Folded(w));
    case FoldSucceeds => if Waiting(w) && !w.folded { FoldOnce(sys, w); }
    case FoldFails(k) => if Waiting(w) { assert Tenants(Batched(sys, w))[..0] == []; }
    case _ =>
  }

  lemma {:induction false} GentleRunsFoldOnce(sys: System, events: seq<Event>)
    requires GentleRun(sys, events)
    ensures OnceEach(sys, Run(sys, events))
    decreases |events|
  {
    if |events| > 0 {
      GentleRunsFoldOnce(sys, events[..|events| - 1]);
      StepFoldsOnce(sys, Run(sys, events[..|events| - 1]), events[|events| - 1]);
    }
  }

  // ---- Every run can be finished ----

  function Resume(sys: System, w: World, events: seq<Event>): World
    decreases |events|
  {
    if |events| == 0 then w else Resume(sys, Next(sys, w, events[0]), events[1..])
  }

  lemma {:induction false} ResumePlus(sys: System, w: World, a: seq<Event>, b: seq<Event>)
    ensures Resume(sys, w, a + b) == Resume(sys, Resume(sys, w, a), b)
    decreases |a|
  {
    if |a| == 0 {
      assert a + b == b;
    } else {
      assert (a + b)[1..] == a[1..] + b;
      ResumePlus(sys, Next(sys, w, a[0]), a[1..], b);
    }
  }

  // Resuming a reachable state is a longer run.
  lemma {:induction false} RunResume(sys: System, events: seq<Event>, more: seq<Event>)
    ensures Resume(sys, Run(sys, events), more) == Run(sys, events + more)
    decreases |more|
  {
    if |more| == 0 {
      assert events + more == events;
    } else {
      RunOn(sys, events, more[0]);
      RunResume(sys, events + [more[0]], more[1..]);
      assert events + [more[0]] + more[1..] == events + more;
    }
  }

  lemma ResumeOne(sys: System, w: World, e: Event)
    ensures Resume(sys, w, [e]) == Next(sys, w, e)
  {
  }

  lemma ResumeTwo(sys: System, w: World, e: Event, f: Event)
    ensures Resume(sys, w, [e, f]) == Next(sys, Next(sys, w, e), f)
  {
    assert [e, f][1..] == [f];
    ResumeOne(sys, Next(sys, w, e), f);
  }

  function Round(size: nat): seq<Event> {
    [Crash, Start, Poll(size), FoldSucceeds, Commit]
  }

  function Left(w: World): nat {
    |Lines(w.file, ReadCursor(w.cursor), |w.file|)|
  }

  lemma RunOn(sys: System, events: seq<Event>, e: Event)
    ensures Run(sys, events + [e]) == Next(sys, Run(sys, events), e)
  {
    assert (events + [e])[..|events|] == events;
  }

  lemma Restarts(sys: System, w: World)
    requires !w.cursor.Unreadable?
    ensures Resume(sys, w, [Crash, Start]) == w.(tail := Some(Tail(ReadCursor(w.cursor), None)), folded := false)
  {
    ResumeTwo(sys, w, Crash, Start);
  }

  lemma FoldAndCommit(sys: System, w: World)
    requires Tidy(w) && w.tail.Some? && !w.folded
    ensures var w' := Resume(sys, w, [FoldSucceeds, Commit]);
            && Tidy(w') && w'.file == w.file
            && w'.cursor == if Waiting(w) then Number(w.tail.value.pending.value.offset) else w.cursor
  {
    ResumeTwo(sys, w, FoldSucceeds, Commit);
  }

  // A restart whose fold succeeds leaves fewer lines to read.
  lemma RoundProgresses(sys: System, w: World, size: nat)
    requires Tidy(w) && size > 0 && !w.cursor.Unreadable?
    ensures var w' := Resume(sys, w, Round(size));
            Tidy(w') && !w'.cursor.Unreadable? && Left(w') <= Max(Left(w) - 1, 0) && w'.file == w.file
  {
    var t := Tail(ReadCursor(w.cursor), None);
    var restarted := w.(tail := Some(t), folded := false);
    Restarts(sys, w);
    assert Round(size) == [Crash, Start] + ([Poll(size)] + [FoldSucceeds, Commit]);
    ResumePlus(sys, w, [Crash, Start], [Poll(size)] + [FoldSucceeds, Commit]);
    ResumePlus(sys, restarted, [Poll(size)], [FoldSucceeds, Commit]);
    ResumeOne(sys, restarted, Poll(size));
    PollAdvances(w.file, t, size);
    FoldAndCommit(sys, restarted.(tail := Some(Polled(t, w.file, size))));
  }

  lemma PollAdvances(file: Bytes, t: Tail, size: nat)
    requires TailOk(t, file) && t.pending.None? && size > 0
    ensures TailOk(Polled(t, file, size), file)
    ensures var p := Polled(t, file, size).pending;
            if p.Some? then |Lines(file, p.value.offset, |file|)| < |Lines(file, t.committed, |file|)|
            else Lines(file, t.committed, |file|) == []
  {
    PollKeepsTailOk(t, file, size);
    var p := Polled(t, file, size).pending;
    if p.Some? {
      LinesSplit(file, t.committed, p.value.offset, |file|);
    }
  }

  function Rounds(n: nat, size: nat): seq<Event> {
    if n == 0 then [] else Rounds(n - 1, size) + Round(size)
  }

  // The rounds below take one round as a function, so that they need not look inside it.
  function Rounding(sys: System, size: nat): World -> World {
    (w: World) => Resume(sys, w, Round(size))
  }

  function Repeat<W>(round: W -> W, w: W, n: nat): W {
    if n == 0 then w else round(Repeat(round, w, n - 1))
  }

  ghost predicate Shrinks<W(!new)>(round: W -> W, good: W -> bool, left: W -> nat) {
    forall w: W :: good(w) ==> good(round(w)) && left(round(w)) <= Max(left(w) - 1, 0)
  }

  lemma {:induction false} RoundsProgress<W(!new)>(round: W -> W, good: W -> bool, left: W -> nat, w: W, n: nat)
    requires Shrinks(round, good, left) && good(w)
    ensures good(Repeat(round, w, n)) && left(Repeat(round, w, n)) <= Max(left(w) - n, 0)
    decreases n
  {
    if n > 0 {
      RoundsProgress(round, good, left, w, n - 1);
    }
  }

  lemma {:induction false} RunRounds(sys: System, events: seq<Event>, n: nat, size: nat, round: World -> World)
    requires forall es: seq<Event> :: Run(sys, es + Round(size)) == round(Run(sys, es))
    ensures Run(sys, events + Rounds(n, size)) == Repeat(round, Run(sys, events), n)
    decreases n
  {
    if n == 0 {
      assert events + Rounds(0, size) == events;
    } else {
      RunRounds(sys, events, n - 1, size, round);
      var sofar := events + Rounds(n - 1, size);
      assert Run(sys, sofar + Round(size)) == round(Run(sys, sofar));
      assert sofar + Round(size) == events + Rounds(n, size);
    }
  }

  predicate TidyOver(file: Bytes, w: World) {
    Tidy(w) && w.file == file && !w.cursor.Unreadable?
  }

  // From every reachable state with a readable cursor file, as many restarts with a successful fold as
  // there are lines left bring the findings to those of one crash-free fold of the file.
  lemma EveryRunCanFinish(sys: System, events: seq<Event>, size: nat)
    requires size > 0 && !Run(sys, events).cursor.Unreadable?
    ensures var w := Run(sys, events);
            Converged(sys.setup, Run(sys, events + Rounds(Left(w), size)).store, All(sys, w.file))
  {
    var w, round := Run(sys, events), Rounding(sys, size);
    var good, n := v => TidyOver(w.file, v), Left(w);
    forall v: World | good(v) ensures good(round(v)) && Left(round(v)) <= Max(Left(v) - 1, 0) {
      RoundProgresses(sys, v, size);
    }
    forall es: seq<Event> ensures Run(sys, es + Round(size)) == round(Run(sys, es)) {
      RunResume(sys, es, Round(size));
    }
    FinishedBy(sys, events, n, size, round, good, v => Left(v));
  }

  lemma FinishedBy(sys: System, events: seq<Event>, n: nat, size: nat, round: World -> World,
                   good: World -> bool, left: World -> nat)
    requires Shrinks(round, good, left)
    requires forall v: World :: good(v) == TidyOver(Run(sys, events).file, v)
    requires forall v: World :: left(v) == Left(v)
    requires n == Left(Run(sys, events)) && !Run(sys, events).cursor.Unreadable?
    requires forall es: seq<Event> :: Run(sys, es + Round(size)) == round(Run(sys, es))
    ensures Converged(sys.setup, Run(sys, events + Rounds(n, size)).store, All(sys, Run(sys, events).file))
  {
    RunKeepsInvariant(sys, events);
    RoundsProgress(round, good, left, Run(sys, events), n);
    RunRounds(sys, events, n, size, round);
    EveryRunConverges(sys, events + Rounds(n, size));
  }

  // With an unreadable one nothing moves until somebody repairs it: no worker starts, whatever happens.
  lemma {:induction false} UnreadableCursorStopsTheWorker(sys: System, w: World, events: seq<Event>)
    requires w.tail.None? && w.cursor.Unreadable?
    requires forall i :: 0 <= i < |events| ==> !events[i].Corrupt?
    ensures var w' := Resume(sys, w, events);
            w'.tail.None? && w'.cursor.Unreadable? && w'.committed == w.committed && w'.delivered == w.delivered
    decreases |events|
  {
    if |events| > 0 {
      UnreadableCursorStopsTheWorker(sys, Next(sys, w, events[0]), events[1..]);
    }
  }
}
