// The run loop gets somewhere: from what a schedule asks of the database and the operator alone, a loop
// with turns enough reads everything there is.
module LoopProgress {
  import opened Prelude
  import opened Findings
  import opened FileTail
  import opened Worker
  import opened WorkerLoop

  // Some try meets a working database, and no shutdown arrives after a try before it.
  predicate Recovers(attempts: seq<Attempt>) {
    exists k :: 0 <= k < |attempts| && attempts[k].failAt.None?
                && forall j :: 0 <= j < k ==> !attempts[j].shutdown
  }

  // Nobody asks for a shutdown, and every outage ends.
  predicate Steady(turns: seq<Turn>) {
    forall i :: 0 <= i < |turns| ==> !turns[i].shutdown && Recovers(turns[i].attempts)
  }

  // Nothing more is written.
  predicate Quiet(turns: seq<Turn>) {
    forall i :: 0 <= i < |turns| ==> turns[i].arrives == []
  }

  // Lines the tail has not committed yet.
  function Unread(w: World): nat {
    if w.tail.None? then 0 else |Lines(w.file, w.tail.value.committed, |w.file|)|
  }

  // A failed batch is retried until it succeeds.
  lemma {:induction false} RecoveredRetrySucceeds(records: seq<Record>, attempts: seq<Attempt>)
    requires Recovers(attempts)
    ensures RetryEnding(records, attempts) == SUCCEEDED
    decreases |attempts|
  {
    var k :| 0 <= k < |attempts| && attempts[k].failAt.None? && forall j :: 0 <= j < k ==> !attempts[j].shutdown;
    if k > 0 && Fails(records, attempts[0]) {
      var rest := attempts[1..];
      assert rest[k - 1] == attempts[k];
      assert forall j :: 0 <= j < k - 1 ==> rest[j] == attempts[j + 1];
      RecoveredRetrySucceeds(records, rest);
    }
  }

  // What a poll finds: a batch, or nothing left to read.
  lemma PollingFinds(sys: System, w: World, size: nat, arrives: Bytes)
    requires Ready(w) && Tidy(w) && size > 0
    ensures var polled := Polling(sys, w, size, arrives);
            && Ready(polled) && Tidy(polled) && polled.file == w.file + arrives && polled.cursor == w.cursor
            && polled.tail.value.committed == w.tail.value.committed
            && (!Waiting(polled) ==> Unread(polled) == 0)
  {
    AppendKeepsTailOk(w.tail.value, w.file, arrives);
    PollKeepsTailOk(w.tail.value, w.file + arrives, size);
  }

  // A batch whose outage ends is committed, and the tail moves past its lines.
  lemma SteadyBatch(sys: System, w: World, attempts: seq<Attempt>)
    requires Waiting(w) && Ready(w) && Tidy(w) && Recovers(attempts)
    ensures BatchEnding(Batched(sys, w), attempts) == SUCCEEDED
    ensures var w' := Resume(sys, w, BatchSteps(sys, w, attempts));
            && Ready(w') && Tidy(w') && w'.file == w.file && Unread(w') < Unread(w)
            && w'.tail.value.committed == ReadCursor(w'.cursor)
  {
    var records := Batched(sys, w);
    if records != [] {
      RecoveredRetrySucceeds(records, attempts);
    }
    BatchRefines(sys, w, attempts);
    LinesSplit(w.file, w.tail.value.committed, w.tail.value.pending.value.offset, |w.file|);
  }

  // A steady turn goes on, and commits a batch if there is one.
  lemma SteadyTurn(sys: System, w: World, size: nat, t: Turn)
    requires Ready(w) && Tidy(w) && size > 0 && Recovers(t.attempts)
    ensures GoesOn(sys, w, size, t)
    ensures var w' := Resume(sys, w, TurnEvents(sys, w, size, t));
            && Ready(w') && Tidy(w') && w'.file == w.file + t.arrives
            && (t.arrives == [] ==> Unread(w') <= Max(Unread(w) - 1, 0))
            && (w.tail.value.committed == ReadCursor(w.cursor) ==> w'.tail.value.committed == ReadCursor(w'.cursor))
  {
    var polled := Polling(sys, w, size, t.arrives);
    PollingFinds(sys, w, size, t.arrives);
    TurnUnfolds(sys, w, size, t);
    assert w.file + [] == w.file;
    if Waiting(polled) {
      SteadyBatch(sys, polled, t.attempts);
    }
  }

  // Every turn of a steady schedule is taken.
  lemma SteadyScript(sys: System, w: World, size: nat, turns: seq<Turn>)
    requires |turns| > 0 && Ready(w) && Tidy(w) && size > 0 && Steady(turns)
    ensures var next := Resume(sys, w, TurnEvents(sys, w, size, turns[0]));
            Resume(sys, w, Script(sys, w, size, turns)) == Resume(sys, next, Script(sys, next, size, turns[1..]))
  {
    SteadyTurn(sys, w, size, turns[0]);
    var events := TurnEvents(sys, w, size, turns[0]);
    ResumePlus(sys, w, events, Script(sys, Resume(sys, w, events), size, turns[1..]));
  }

  lemma SteadyTail(turns: seq<Turn>)
    requires |turns| > 0 && Steady(turns)
    ensures Steady(turns[1..]) && Recovers(turns[0].attempts)
  {
    assert forall i :: 0 <= i < |turns| - 1 ==> turns[1..][i] == turns[i + 1];
  }

  // Where a steady schedule takes the worker.
  function End(sys: System, w: World, size: nat, turns: seq<Turn>): World {
    Resume(sys, w, Script(sys, w, size, turns))
  }

  lemma {:induction false} SteadyLoop(sys: System, w: World, size: nat, turns: seq<Turn>)
    requires Ready(w) && Tidy(w) && size > 0 && Steady(turns)
    ensures var end := End(sys, w, size, turns);
            && Ready(end) && Tidy(end)
            && (w.tail.value.committed == ReadCursor(w.cursor) ==> end.tail.value.committed == ReadCursor(end.cursor))
            && (Quiet(turns) ==> end.file == w.file && Unread(end) <= Max(Unread(w) - |turns|, 0))
    decreases |turns|
  {
    if |turns| > 0 {
      SteadyTail(turns);
      SteadyTurn(sys, w, size, turns[0]);
      SteadyScript(sys, w, size, turns);
      var next := Resume(sys, w, TurnEvents(sys, w, size, turns[0]));
      SteadyLoop(sys, next, size, turns[1..]);
      assert Quiet(turns) ==> Quiet(turns[1..]) && w.file + turns[0].arrives == w.file;
    }
  }

  lemma {:induction false} LoopInTwo(sys: System, w: World, size: nat, a: seq<Turn>, b: seq<Turn>)
    requires Ready(w) && Tidy(w) && size > 0 && Steady(a + b)
    ensures Steady(a) && Steady(b)
    ensures End(sys, w, size, a + b) == End(sys, End(sys, w, size, a), size, b)
    decreases |a|
  {
    assert forall i :: 0 <= i < |a| ==> (a + b)[i] == a[i];
    assert forall i :: 0 <= i < |b| ==> (a + b)[|a| + i] == b[i];
    if |a| == 0 {
      assert a + b == b;
    } else {
      assert (a + b)[1..] == a[1..] + b;
      SteadyTail(a + b);
      SteadyTurn(sys, w, size, a[0]);
      SteadyScript(sys, w, size, a + b);
      SteadyScript(sys, w, size, a);
      LoopInTwo(sys, Resume(sys, w, TurnEvents(sys, w, size, a[0])), size, a[1..], b);
    }
  }

  // The findings of a worker whose tail has committed everything, whatever the cursor file says.
  lemma CommittedTailConverges(sys: System, events: seq<Event>)
    requires Run(sys, events).tail.Some? && Unread(Run(sys, events)) == 0
    ensures Converged(sys.setup, Run(sys, events).store, All(sys, Run(sys, events).file))
  {
    RunKeepsInvariant(sys, events);
    CoveredConverges(sys, events, Run(sys, events).tail.value.committed);
  }

  // A steady loop that runs, after the last write, as many turns as there are lines left ends with
  // everything read: the findings are those of one crash-free fold of the file, from any reachable
  // state, whatever arrived on the way and however often folds failed before they succeeded.
  lemma SteadyLoopFinishes(sys: System, events: seq<Event>, size: nat, turns: seq<Turn>, last: seq<Turn>)
    requires Ready(Run(sys, events)) && size > 0
    requires Steady(turns + last) && Quiet(last)
    requires |last| >= Unread(End(sys, Run(sys, events), size, turns))
    ensures var start, end := Run(sys, events), End(sys, Run(sys, events), size, turns + last);
            && Converged(sys.setup, end.store, All(sys, end.file))
            && (start.tail.value.committed == ReadCursor(start.cursor) ==> CaughtUpWithFile(end))
  {
    var start := Run(sys, events);
    RunKeepsInvariant(sys, events);
    LoopInTwo(sys, start, size, turns, last);
    SteadyLoop(sys, start, size, turns);
    var middle := End(sys, start, size, turns);
    SteadyLoop(sys, middle, size, last);
    var script := Script(sys, start, size, turns + last);
    RunResume(sys, events, script);
    CommittedTailConverges(sys, events + script);
  }

  // ---- Shutdown ----

  // A turn that finds a shutdown requested is not taken, nor is any after it.
  lemma {:induction false} ShutdownEndsTheLoop(sys: System, w: World, size: nat, before: seq<Turn>, t: Turn,
                                               after: seq<Turn>)
    requires t.shutdown
    ensures Script(sys, w, size, before + [t] + after) == Script(sys, w, size, before)
    decreases |before|
  {
    var turns := before + [t] + after;
    if |before| == 0 {
      assert turns[0] == t;
    } else if !before[0].shutdown {
      assert turns[0] == before[0] && turns[1..] == before[1..] + [t] + after;
      ShutdownEndsTheLoop(sys, Resume(sys, w, TurnEvents(sys, w, size, before[0])), size, before[1..], t, after);
    }
  }

  // A failed try during whose sleep the shutdown arrives is the last one, and nothing is committed.
  lemma {:induction false} ShutdownEndsTheTries(sys: System, w: World, failed: seq<Attempt>, last: Attempt,
                                                more: seq<Attempt>)
    requires Waiting(w) && Batched(sys, w) != [] && last.shutdown
    requires forall i :: 0 <= i < |failed| ==> Fails(Batched(sys, w), failed[i])
    requires Fails(Batched(sys, w), last)
    ensures BatchEnding(Batched(sys, w), failed + [last] + more) == STOPPED
    ensures Commit !in BatchSteps(sys, w, failed + [last] + more)
    ensures |BatchSteps(sys, w, failed + [last] + more)| <= |failed| + 1
    decreases |failed|
  {
    var attempts := failed + [last] + more;
    if |failed| == 0 {
      assert attempts[0] == last;
    } else {
      assert attempts[0] == failed[0] && attempts[1..] == failed[1..] + [last] + more;
      ShutdownEndsTheTries(sys, w, failed[1..], last, more);
    }
  }
}
