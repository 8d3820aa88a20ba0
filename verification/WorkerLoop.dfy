// The run loop of apps/worker/src/aegis_worker/main.py over the tailing source and the pipeline,
// and its refinement of the step machine of module Worker.
module WorkerLoop {
  import opened Prelude
  import opened Findings
  import opened FileTail
  import opened Pipeline
  import opened Worker

  const MAX_BACKOFF: nat := 30

  // What befalls one try at a batch: the database may fail after any number of commits, and a shutdown may
  // arrive by the end of the sleep that follows.
  datatype Attempt = Attempt(failAt: Option<nat>, shutdown: bool)

  // One pass of the loop: whether a shutdown was requested before it, what the writer appended by its
  // poll, and the tries at its batch. When the tries run out the process has been killed.
  datatype Turn = Turn(shutdown: bool, arrives: Bytes, attempts: seq<Attempt>)

  datatype Ending = SUCCEEDED | STOPPED | KILLED

  predicate Fails(records: seq<Record>, a: Attempt) {
    a.failAt.Some? && a.failAt.value <= |Tenants(records)| && Tenants(records) != []
  }

  // ---- The steps a schedule stands for ----

  function RetryEvents(records: seq<Record>, attempts: seq<Attempt>): seq<Event> {
    if |attempts| == 0 then []
    else if !Fails(records, attempts[0]) then [FoldSucceeds]
    else [FoldFails(attempts[0].failAt.value)]
         + if attempts[0].shutdown then [] else RetryEvents(records, attempts[1..])
  }

  function RetryEnding(records: seq<Record>, attempts: seq<Attempt>): Ending {
    if |attempts| == 0 then KILLED
    else if !Fails(records, attempts[0]) then SUCCEEDED
    else if attempts[0].shutdown then STOPPED
    else RetryEnding(records, attempts[1..])
  }

  // The database after one try.
  function TryStore(setup: Setup, store: Store, records: seq<Record>, a: Attempt): Store {
    if Fails(records, a) then FoldGroups(Applying(setup), store, records, Tenants(records)[..a.failAt.value]).0
    else FoldStream(Applying(setup), store, records).0
  }

  // How one try moves the database, and whether it failed; the loop does not look inside it.
  type Trying = (Store, Attempt) -> (Store, bool)

  function TryingOn(setup: Setup, records: seq<Record>): Trying {
    (store: Store, a: Attempt) => (TryStore(setup, store, records, a), Fails(records, a))
  }

  // The database after the tries, how they ended, and how many failed.
  function Retried(trying: Trying, store: Store, attempts: seq<Attempt>, failures: nat): (Store, Ending, nat)
    decreases |attempts|
  {
    if |attempts| == 0 then (store, KILLED, failures)
    else
      var (tried, failed) := trying(store, attempts[0]);
      if !failed then (tried, SUCCEEDED, failures)
      else if attempts[0].shutdown then (tried, STOPPED, failures + 1)
      else Retried(trying, tried, attempts[1..], failures + 1)
  }

  // A batch without one parseable line needs no try.
  function BatchEvents(records: seq<Record>, attempts: seq<Attempt>): seq<Event> {
    if records == [] then [FoldSucceeds] else RetryEvents(records, attempts)
  }

  function BatchEnding(records: seq<Record>, attempts: seq<Attempt>): Ending {
    if records == [] then SUCCEEDED else RetryEnding(records, attempts)
  }

  function Polling(sys: System, w: World, size: nat, arrives: Bytes): World {
    Next(sys, Next(sys, w, Append(arrives)), Poll(size))
  }

  // What follows a poll that found a batch.
  function BatchSteps(sys: System, w: World, attempts: seq<Attempt>): seq<Event>
    requires Waiting(w)
  {
    var records := Batched(sys, w);
    BatchEvents(records, attempts) + if BatchEnding(records, attempts) == SUCCEEDED then [Commit] else []
  }

  // One turn from a running worker without an unfinished fold.
  function TurnEvents(sys: System, w: World, size: nat, t: Turn): seq<Event> {
    var polled := Polling(sys, w, size, t.arrives);
    [Append(t.arrives), Poll(size)] + if Waiting(polled) then BatchSteps(sys, polled, t.attempts) else []
  }

  predicate GoesOn(sys: System, w: World, size: nat, t: Turn) {
    var polled := Polling(sys, w, size, t.arrives);
    Waiting(polled) ==> BatchEnding(Batched(sys, polled), t.attempts) == SUCCEEDED
  }

  function Script(sys: System, w: World, size: nat, turns: seq<Turn>): seq<Event>
    decreases |turns|
  {
    if |turns| == 0 || turns[0].shutdown then []
    else
      var events := TurnEvents(sys, w, size, turns[0]);
      events + if GoesOn(sys, w, size, turns[0]) then Script(sys, Resume(sys, w, events), size, turns[1..]) else []
  }

  // ---- Retrying a batch ----

  // Seconds slept after failure number n: doubling from one, capped.
  function Backoff(n: nat): nat {
    if n == 0 then 1 else Min(2 * Backoff(n - 1), MAX_BACKOFF)
  }

  function Backoffs(failures: nat): seq<nat> {
    if failures == 0 then [] else Backoffs(failures - 1) + [Backoff(failures - 1)]
  }

  function Power(n: nat): nat {
    if n == 0 then 1 else 2 * Power(n - 1)
  }

  lemma {:induction false} BackoffIsCappedDoubling(n: nat)
    ensures Backoff(n) == Min(Power(n), 30)
  {
    if n > 0 {
      BackoffIsCappedDoubling(n - 1);
    }
  }

  method Try(pipeline: ProcessRuntimeEvents, records: seq<Record>, a: Attempt)
    returns (result: Option<ProcessingResult>)
    modifies pipeline`store
    ensures (pipeline.store, result.None?) == TryingOn(pipeline.setup, records)(old(pipeline.store), a)
  {
    result := pipeline.Execute(records, a.failAt);
  }

  lemma RetriedStep(trying: Trying, store: Store, attempts: seq<Attempt>, i: nat)
    requires i < |attempts|
    ensures var (tried, failed) := trying(store, attempts[i]);
            Retried(trying, store, attempts[i..], i)
            == if !failed then (tried, SUCCEEDED, i)
               else if attempts[i].shutdown then (tried, STOPPED, i + 1)
               else Retried(trying, tried, attempts[i + 1..], i + 1)
  {
    assert attempts[i..][0] == attempts[i] && attempts[i..][1..] == attempts[i + 1..];
  }

  // _process_with_retry.
  method ProcessWithRetry(pipeline: ProcessRuntimeEvents, records: seq<Record>, attempts: seq<Attempt>)
    returns (result: Option<ProcessingResult>, ending: Ending, waits: seq<nat>)
    modifies pipeline`store
    ensures (pipeline.store, ending, |waits|)
         == Retried(TryingOn(pipeline.setup, records), old(pipeline.store), attempts, 0)
    ensures result.Some? <==> ending == SUCCEEDED
    ensures waits == Backoffs(|waits|)
  {
    ghost var trying := TryingOn(pipeline.setup, records);
    var backoff := 1;
    waits := [];
    var i := 0;
    while i < |attempts|
      invariant i <= |attempts| && |waits| == i && waits == Backoffs(i) && backoff == Backoff(i)
      invariant Retried(trying, old(pipeline.store), attempts, 0) == Retried(trying, pipeline.store, attempts[i..], i)
    {
      RetriedStep(trying, pipeline.store, attempts, i);
      result := Try(pipeline, records, attempts[i]);
      if result.Some? {
        ending := SUCCEEDED;
        return;
      }
      waits := waits + [backoff];
      if attempts[i].shutdown {
        ending := STOPPED;
        return;
      }
      backoff := Min(backoff * 2, MAX_BACKOFF);
      i := i + 1;
    }
    result, ending := None, KILLED;
  }

  // The tries move the step machine as they move the database.
  lemma {:induction false} RetryRefines(sys: System, w: World, records: seq<Record>, attempts: seq<Attempt>,
                                        failures: nat)
    requires Waiting(w) && !w.folded && records == Batched(sys, w)
    ensures var w' := Resume(sys, w, RetryEvents(records, attempts));
            var done := RetryEnding(records, attempts) == SUCCEEDED;
            && w'.store == Retried(TryingOn(sys.setup, records), w.store, attempts, failures).0
            && RetryEnding(records, attempts) == Retried(TryingOn(sys.setup, records), w.store, attempts, failures).1
            && w'.file == w.file && w'.cursor == w.cursor && w'.tail == w.tail
            && w'.folded == done
    decreases |attempts|
  {
    if |attempts| > 0 {
      if Fails(records, attempts[0]) {
        var e := FoldFails(attempts[0].failAt.value);
        var rest := if attempts[0].shutdown then [] else RetryEvents(records, attempts[1..]);
        assert ([e] + rest)[1..] == rest;
        RetryRefines(sys, Next(sys, w, e), records, attempts[1..], failures + 1);
      }
    }
  }

  // json.loads over the lines of a batch.
  method ParseLines(parse: Bytes -> Option<Record>, lines: seq<Bytes>) returns (records: seq<Record>, rejected: nat)
    ensures records == Recs(parse, lines) && rejected + |records| == |lines|
  {
    records, rejected := [], 0;
    for i := 0 to |lines|
      invariant records == Recs(parse, lines[..i]) && rejected + |records| == i
    {
      assert lines[..i + 1][..i] == lines[..i];
      var record := parse(lines[i]);
      if record.Some? {
        records := records + [record.value];
      } else {
        rejected := rejected + 1;
      }
    }
    assert lines[..|lines|] == lines;
  }

  // ---- The loop ----

  // The objects are in the state the step machine is in.
  ghost predicate Matches(sys: System, w: World, file: Bytes, source: FileTailSource, pipeline: ProcessRuntimeEvents)
    reads source, source.cursor, pipeline
  {
    && w.file == file && w.cursor == source.cursor.text && w.tail == Some(source.State())
    && w.store == pipeline.store && pipeline.setup == sys.setup
  }

  // A running worker between two batches.
  predicate Ready(w: World) {
    !w.folded && w.tail.Some? && (Waiting(w) ==> w.tail.value.pending.value.records != [])
  }

  lemma TurnUnfolds(sys: System, w: World, size: nat, t: Turn)
    ensures var polled := Polling(sys, w, size, t.arrives);
            Resume(sys, w, TurnEvents(sys, w, size, t))
            == if Waiting(polled) then Resume(sys, polled, BatchSteps(sys, polled, t.attempts)) else polled
  {
    var polled := Polling(sys, w, size, t.arrives);
    var rest := if Waiting(polled) then BatchSteps(sys, polled, t.attempts) else [];
    assert TurnEvents(sys, w, size, t) == [Append(t.arrives), Poll(size)] + rest;
    ResumePlus(sys, w, [Append(t.arrives), Poll(size)], rest);
    ResumeTwo(sys, w, Append(t.arrives), Poll(size));
  }

  lemma EmptyBatch(sys: System, w: World)
    requires Waiting(w) && !w.folded && Batched(sys, w) == []
    ensures var w' := Resume(sys, w, [FoldSucceeds]);
            w'.store == w.store && w'.file == w.file && w'.cursor == w.cursor && w'.tail == w.tail && w'.folded
  {
    ResumeOne(sys, w, FoldSucceeds);
  }

  lemma Commits(sys: System, w: World)
    requires Waiting(w) && w.folded
    ensures var w' := Resume(sys, w, [Commit]);
            && w'.store == w.store && w'.file == w.file && !w'.folded
            && w'.cursor == Number(w.tail.value.pending.value.offset) && w'.tail == Some(Confirmed(w.tail.value))
  {
    ResumeOne(sys, w, Commit);
  }

  // What the two objects hold after a batch.
  lemma BatchRefines(sys: System, w: World, attempts: seq<Attempt>)
    requires Waiting(w) && !w.folded
    ensures var records, p := Batched(sys, w), w.tail.value.pending.value;
            var retried := Retried(TryingOn(sys.setup, records), w.store, attempts, 0);
            var w' := Resume(sys, w, BatchSteps(sys, w, attempts));
            && w'.file == w.file
            && (records == [] ==> w'.store == w.store)
            && (records != [] ==> w'.store == retried.0 && BatchEnding(records, attempts) == retried.1)
            && (BatchEnding(records, attempts) == SUCCEEDED ==>
                  w'.cursor == Number(p.offset) && w'.tail == Some(Confirmed(w.tail.value)) && !w'.folded)
            && (BatchEnding(records, attempts) != SUCCEEDED ==> w'.cursor == w.cursor && w'.tail == w.tail)
  {
    var records := Batched(sys, w);
    var events := BatchEvents(records, attempts);
    if records == [] {
      EmptyBatch(sys, w);
    } else {
      RetryRefines(sys, w, records, attempts, 0);
    }
    if BatchEnding(records, attempts) == SUCCEEDED {
      ResumePlus(sys, w, events, [Commit]);
      Commits(sys, Resume(sys, w, events));
    } else {
      assert events + [] == events;
    }
  }

  // One pass: poll, parse, fold with retries, commit only after the fold succeeded.
  method RunTurn(sys: System, source: FileTailSource, pipeline: ProcessRuntimeEvents, size: nat, before: Bytes, t: Turn,
                 ghost w: World)
    returns (file: Bytes, goesOn: bool)
    requires Matches(sys, w, before, source, pipeline) && Ready(w)
    modifies source, source.cursor, pipeline`store
    ensures Matches(sys, Resume(sys, w, TurnEvents(sys, w, size, t)), file, source, pipeline)
    ensures goesOn == GoesOn(sys, w, size, t)
    ensures goesOn ==> Ready(Resume(sys, w, TurnEvents(sys, w, size, t)))
  {
    ghost var polled := Polling(sys, w, size, t.arrives);
    TurnUnfolds(sys, w, size, t);
    file := before + t.arrives;
    var lines := source.Poll(file, size);
    if lines == [] {
      return file, true;
    }
    BatchRefines(sys, polled, t.attempts);
    var records, _ := ParseLines(sys.parse, lines);
    var ending := SUCCEEDED;
    if records != [] {
      var _, end, _ := ProcessWithRetry(pipeline, records, t.attempts);
      ending := end;
    }
    if ending != SUCCEEDED {
      return file, false;
    }
    source.Commit();
    goesOn := true;
  }

  // _run_loop: the objects end where the step machine ends on the schedule's script.
  method RunLoop(sys: System, source: FileTailSource, pipeline: ProcessRuntimeEvents, size: nat, before: Bytes,
                 turns: seq<Turn>, ghost start: World)
    returns (file: Bytes)
    requires Matches(sys, start, before, source, pipeline) && Ready(start)
    modifies source, source.cursor, pipeline`store
    ensures Matches(sys, Resume(sys, start, Script(sys, start, size, turns)), file, source, pipeline)
  {
    file := before;
    ghost var w := start;
    var i := 0;
    assert turns[0..] == turns;
    while i < |turns| && !turns[i].shutdown
      invariant i <= |turns|
      invariant Matches(sys, w, file, source, pipeline) && Ready(w)
      invariant Resume(sys, start, Script(sys, start, size, turns)) == Resume(sys, w, Script(sys, w, size, turns[i..]))
    {
      ghost var events := TurnEvents(sys, w, size, turns[i]);
      ghost var next := Resume(sys, w, events);
      assert turns[i..][0] == turns[i] && turns[i..][1..] == turns[i + 1..];
      ResumePlus(sys, w, events, if GoesOn(sys, w, size, turns[i]) then Script(sys, next, size, turns[i + 1..]) else []);
      var goesOn;
      file, goesOn := RunTurn(sys, source, pipeline, size, file, turns[i], w);
      w := next;
      if !goesOn {
        return;
      }
      i := i + 1;
    }
  }

  // So whatever happened before, and whatever this schedule brings, a loop that ends past the last
  // complete line leaves the findings of one crash-free fold of the file.
  lemma EveryLoopConverges(sys: System, events: seq<Event>, size: nat, turns: seq<Turn>)
    ensures var start := Run(sys, events);
            var end := Resume(sys, start, Script(sys, start, size, turns));
            && Boundary(end.file, ReadCursor(end.cursor))
            && multiset(Upto(sys, end.file, ReadCursor(end.cursor))) <= multiset(end.delivered)
            && (CaughtUpWithFile(end) ==> Converged(sys.setup, end.store, All(sys, end.file)))
  {
    var script := Script(sys, Run(sys, events), size, turns);
    RunResume(sys, events, script);
    EveryRunDelivers(sys, events + script);
    if CaughtUpWithFile(Run(sys, events + script)) {
      EveryRunConverges(sys, events + script);
    }
  }
}
