// The token bucket and the shedding rule of apps/gateway/src/aegis_gateway/domain/quota.py, over
// the reals, with the reading of the remaining fraction in infrastructure/limits.py.
module Quota {

  datatype Bucket = Bucket(capacity: real, rate: real, tokens: real, updatedAt: real)

  function Later(a: real, b: real): real {
    if a < b then b else a
  }

  function Least(a: real, b: real): real {
    if a < b then a else b
  }

  function Fresh(capacity: real, rate: real, now: real): Bucket {
    Bucket(capacity, rate, capacity, now)
  }

  function Gain(elapsed: real, rate: real): real {
    elapsed * rate
  }

  function Refilled(b: Bucket, now: real): Bucket {
    if now > b.updatedAt
    then b.(tokens := Least(b.capacity, b.tokens + Gain(now - b.updatedAt, b.rate)), updatedAt := now)
    else b
  }

  function Take(b: Bucket, amount: real, now: real): (Bucket, bool) {
    var r := Refilled(b, now);
    if r.tokens >= amount then (r.(tokens := r.tokens - amount), true) else (r, false)
  }

  // Rounded with int(...) + 1, and an hour when the bucket never refills.
  function Hint(b: Bucket, amount: real, now: real): int {
    var r := Refilled(b, now);
    if r.tokens >= amount then 0
    else if r.rate <= 0.0 then 3600
    else
      var whole := Truncated((amount - r.tokens) / r.rate) + 1;
      if whole < 1 then 1 else whole
  }

  // Python's int of a float: toward zero.
  function Truncated(x: real): int {
    if x < 0.0 then -((-x).Floor) else x.Floor
  }

  // ---- The specification the bucket stands in for: a full ledger of admissions ----

  // One call: the running maximum of the clock, and how much was let through.
  datatype Use = Use(at: real, admitted: real)

  function Admitted(uses: seq<Use>): real {
    if |uses| == 0 then 0.0 else uses[0].admitted + Admitted(uses[1..])
  }

  predicate Ledger(uses: seq<Use>) {
    |uses| > 0
    && (forall i :: 0 <= i < |uses| ==> uses[i].admitted >= 0.0)
    && (forall i, j :: 0 <= i <= j < |uses| ==> uses[i].at <= uses[j].at)
  }

  // No window that ends now, back to any earlier call or to this one, may exceed its allowance.
  predicate WindowsAllow(capacity: real, rate: real, uses: seq<Use>, amount: real, now: real) {
    amount <= capacity && forall j :: 0 <= j < |uses| ==> WindowOk(capacity, rate, uses, j, amount, now)
  }

  // What was admitted since call j, plus this amount, against the allowance for that long.
  predicate WindowOk(capacity: real, rate: real, uses: seq<Use>, j: nat, amount: real, now: real)
    requires j < |uses|
  {
    Admitted(uses[j..]) + amount <= capacity + rate * (now - uses[j].at)
  }

  // Refill received by time t, up to a constant: the windows differ only through it.
  function Potential(rate: real): real -> real {
    (t: real) => rate * t
  }

  // The tightest of those windows.
  function Headroom(capacity: real, p: real -> real, uses: seq<Use>, now: real): real
    requires |uses| > 0
    decreases |uses|
  {
    var whole := capacity + p(now) - p(uses[0].at) - Admitted(uses);
    if |uses| == 1 then whole else Least(whole, Headroom(capacity, p, uses[1..], now))
  }

  predicate Represents(b: Bucket, uses: seq<Use>) {
    && Ledger(uses)
    && b.updatedAt == uses[|uses| - 1].at
    && b.tokens <= b.capacity
    && b.tokens == Headroom(b.capacity, Potential(b.rate), uses, b.updatedAt)
  }

  lemma {:induction false} AdmittedSnoc(uses: seq<Use>, u: Use)
    ensures Admitted(uses + [u]) == Admitted(uses) + u.admitted
    decreases |uses|
  {
    if |uses| == 0 {
      assert uses + [u] == [u];
    } else {
      assert (uses + [u])[1..] == uses[1..] + [u];
      AdmittedSnoc(uses[1..], u);
    }
  }

  lemma {:induction false} HeadroomSnoc(capacity: real, p: real -> real, uses: seq<Use>, u: Use, now: real)
    requires |uses| > 0
    ensures Headroom(capacity, p, uses + [u], now)
         == Least(Headroom(capacity, p, uses, now), capacity + p(now) - p(u.at)) - u.admitted
    decreases |uses|
  {
    AdmittedSnoc(uses, u);
    assert (uses + [u])[1..] == uses[1..] + [u];
    if |uses| == 1 {
      assert uses[1..] + [u] == [u];
      assert Admitted([u]) == u.admitted;
    } else {
      HeadroomSnoc(capacity, p, uses[1..], u, now);
    }
  }

  lemma {:induction false} HeadroomLater(capacity: real, p: real -> real, uses: seq<Use>, from: real, to: real)
    requires |uses| > 0
    ensures Headroom(capacity, p, uses, to) == Headroom(capacity, p, uses, from) + p(to) - p(from)
    decreases |uses|
  {
    if |uses| > 1 {
      HeadroomLater(capacity, p, uses[1..], from, to);
    }
  }

  // Refill, cap and charge on the one number are what a new ledger line does to the windows.
  lemma HeadroomAfterUse(capacity: real, p: real -> real, uses: seq<Use>, tokens: real, u: Use)
    requires |uses| > 0
    requires tokens == Headroom(capacity, p, uses, uses[|uses| - 1].at)
    ensures Least(capacity, tokens + p(u.at) - p(uses[|uses| - 1].at)) - u.admitted
         == Headroom(capacity, p, uses + [u], u.at)
  {
    HeadroomLater(capacity, p, uses, uses[|uses| - 1].at, u.at);
    HeadroomSnoc(capacity, p, uses, u, u.at);
  }

  predicate WindowFits(capacity: real, p: real -> real, uses: seq<Use>, j: nat, amount: real, now: real)
    requires j < |uses|
  {
    Admitted(uses[j..]) + amount <= capacity + p(now) - p(uses[j].at)
  }

  lemma {:induction false} HeadroomIsTightest(capacity: real, p: real -> real, uses: seq<Use>, amount: real, now: real)
    requires |uses| > 0
    ensures amount <= Headroom(capacity, p, uses, now)
       <==> forall j :: 0 <= j < |uses| ==> WindowFits(capacity, p, uses, j, amount, now)
    decreases |uses|
  {
    assert uses[0..] == uses;
    assert WindowFits(capacity, p, uses, 0, amount, now)
      <==> amount <= capacity + p(now) - p(uses[0].at) - Admitted(uses);
    if |uses| > 1 {
      HeadroomIsTightest(capacity, p, uses[1..], amount, now);
      forall j | 0 <= j < |uses| - 1
        ensures WindowFits(capacity, p, uses[1..], j, amount, now)
            <==> WindowFits(capacity, p, uses, j + 1, amount, now)
      {
        assert uses[1..][j..] == uses[j + 1..];
      }
      if amount <= Headroom(capacity, p, uses, now) {
        forall j | 0 <= j < |uses| ensures WindowFits(capacity, p, uses, j, amount, now) {
          if j > 0 {
            assert WindowFits(capacity, p, uses[1..], j - 1, amount, now);
          }
        }
      }
    }
  }

  lemma GainIsPotential(rate: real, from: real, to: real)
    ensures Gain(to - from, rate) == Potential(rate)(to) - Potential(rate)(from)
    ensures rate * (to - from) == Potential(rate)(to) - Potential(rate)(from)
  {
  }

  lemma BoundIsBound(x: real, capacity: real, rate: real, from: real, to: real)
    ensures x <= capacity + rate * (to - from)
       <==> x <= capacity + Potential(rate)(to) - Potential(rate)(from)
  {
    var p := Potential(rate);
    GainIsPotential(rate, from, to);
    var a, b, c := rate * (to - from), p(to), p(from);
    assert a == b - c;
  }

  lemma WindowsAreFits(capacity: real, rate: real, uses: seq<Use>, amount: real, now: real)
    ensures (forall j :: 0 <= j < |uses| ==> WindowFits(capacity, Potential(rate), uses, j, amount, now))
       <==> (forall j :: 0 <= j < |uses| ==> WindowOk(capacity, rate, uses, j, amount, now))
  {
    forall j | 0 <= j < |uses|
      ensures WindowFits(capacity, Potential(rate), uses, j, amount, now)
          <==> WindowOk(capacity, rate, uses, j, amount, now)
    {
      BoundIsBound(Admitted(uses[j..]) + amount, capacity, rate, uses[j].at, now);
    }
  }

  lemma FreshRepresents(capacity: real, rate: real, now: real)
    ensures Represents(Fresh(capacity, rate, now), [Use(now, 0.0)])
  {
    assert Admitted([Use(now, 0.0)]) == 0.0;
  }

  function Recorded(uses: seq<Use>, now: real, admitted: real): seq<Use>
    requires |uses| > 0
  {
    uses + [Use(Later(uses[|uses| - 1].at, now), admitted)]
  }

  lemma RefilledTokens(b: Bucket, now: real)
    requires b.tokens <= b.capacity
    ensures var p := Potential(b.rate);
            Refilled(b, now).tokens == Least(b.capacity, b.tokens + p(Later(b.updatedAt, now)) - p(b.updatedAt))
  {
    GainIsPotential(b.rate, b.updatedAt, now);
  }

  lemma RecordedLedger(uses: seq<Use>, now: real, admitted: real)
    requires Ledger(uses) && admitted >= 0.0
    ensures Ledger(Recorded(uses, now, admitted))
  {
  }

  lemma RecordedRepresents(b: Bucket, uses: seq<Use>, now: real, admitted: real)
    requires Represents(b, uses) && admitted >= 0.0
    ensures var r := Refilled(b, now);
            Represents(r.(tokens := r.tokens - admitted), Recorded(uses, now, admitted))
  {
    RecordedLedger(uses, now, admitted);
    RefilledTokens(b, now);
    HeadroomAfterUse(b.capacity, Potential(b.rate), uses, b.tokens, Use(Later(b.updatedAt, now), admitted));
  }

  // The amount fits into what is left after the refill exactly when every window allows it.
  lemma RefilledIsWindows(b: Bucket, uses: seq<Use>, amount: real, now: real)
    requires Represents(b, uses)
    ensures amount <= Refilled(b, now).tokens
       <==> WindowsAllow(b.capacity, b.rate, uses, amount, Later(b.updatedAt, now))
  {
    var at := Later(b.updatedAt, now);
    RefilledTokens(b, now);
    HeadroomLater(b.capacity, Potential(b.rate), uses, b.updatedAt, at);
    HeadroomIsTightest(b.capacity, Potential(b.rate), uses, amount, at);
    WindowsAreFits(b.capacity, b.rate, uses, amount, at);
  }

  // One call: the single number decides exactly as the ledger would, and goes on standing for it.
  lemma TakeRefinesLedger(b: Bucket, uses: seq<Use>, amount: real, now: real)
    requires Represents(b, uses) && amount >= 0.0
    ensures var (b', ok) := Take(b, amount, now);
            && (ok <==> WindowsAllow(b.capacity, b.rate, uses, amount, Later(b.updatedAt, now)))
            && Represents(b', Recorded(uses, now, if ok then amount else 0.0))
  {
    RefilledIsWindows(b, uses, amount, now);
    var r := Refilled(b, now);
    RecordedRepresents(b, uses, now, if r.tokens >= amount then amount else 0.0);
    assert r.(tokens := r.tokens - 0.0) == r;
  }

  // Looking at the bucket is a call that admits nothing.
  lemma RefillRefinesLedger(b: Bucket, uses: seq<Use>, now: real)
    requires Represents(b, uses)
    ensures Represents(Refilled(b, now), Recorded(uses, now, 0.0))
  {
    RecordedRepresents(b, uses, now, 0.0);
    var r := Refilled(b, now);
    assert r.(tokens := r.tokens - 0.0) == r;
  }

  // ---- Whole runs ----

  datatype Call = Call(amount: real, now: real)

  function After(b: Bucket, calls: seq<Call>): Bucket
    decreases |calls|
  {
    if |calls| == 0 then b else Take(After(b, calls[..|calls| - 1]), calls[|calls| - 1].amount, calls[|calls| - 1].now).0
  }

  function LedgerAfter(b: Bucket, uses: seq<Use>, calls: seq<Call>): (r: seq<Use>)
    requires |uses| > 0
    ensures |r| == |uses| + |calls|
    decreases |calls|
  {
    if |calls| == 0 then uses
    else
      var before, c := calls[..|calls| - 1], calls[|calls| - 1];
      var (_, ok) := Take(After(b, before), c.amount, c.now);
      Recorded(LedgerAfter(b, uses, before), c.now, if ok then c.amount else 0.0)
  }

  lemma {:induction false} RunRefinesLedger(b: Bucket, uses: seq<Use>, calls: seq<Call>)
    requires Represents(b, uses)
    requires forall c :: c in calls ==> c.amount >= 0.0
    ensures Represents(After(b, calls), LedgerAfter(b, uses, calls))
    ensures After(b, calls).capacity == b.capacity && After(b, calls).rate == b.rate
    decreases |calls|
  {
    if |calls| > 0 {
      var before, c := calls[..|calls| - 1], calls[|calls| - 1];
      assert c in calls;
      RunRefinesLedger(b, uses, before);
      TakeRefinesLedger(After(b, before), LedgerAfter(b, uses, before), c.amount, c.now);
    }
  }

  // The next call of any run from a new bucket succeeds exactly when every window allows it.
  lemma BucketDecidesByWindows(capacity: real, rate: real, start: real, calls: seq<Call>, next: Call)
    requires next.amount >= 0.0 && forall c :: c in calls ==> c.amount >= 0.0
    ensures var b0 := Fresh(capacity, rate, start);
            var uses := LedgerAfter(b0, [Use(start, 0.0)], calls);
            Take(After(b0, calls), next.amount, next.now).1
            <==> WindowsAllow(capacity, rate, uses, next.amount, Later(uses[|uses| - 1].at, next.now))
  {
    var b0 := Fresh(capacity, rate, start);
    FreshRepresents(capacity, rate, start);
    RunRefinesLedger(b0, [Use(start, 0.0)], calls);
    TakeRefinesLedger(After(b0, calls), LedgerAfter(b0, [Use(start, 0.0)], calls), next.amount, next.now);
  }

  lemma {:induction false} AdmittedSplit(a: seq<Use>, b: seq<Use>)
    ensures Admitted(a + b) == Admitted(a) + Admitted(b)
    decreases |a|
  {
    if |a| == 0 {
      assert a + b == b;
    } else {
      assert (a + b)[1..] == a[1..] + b;
      AdmittedSplit(a[1..], b);
    }
  }

  lemma {:induction false} TokensStayNonNegative(b: Bucket, calls: seq<Call>)
    requires Sane(b)
    requires forall c :: c in calls ==> c.amount >= 0.0
    ensures Sane(After(b, calls))
    ensures After(b, calls).capacity == b.capacity && After(b, calls).rate == b.rate
    decreases |calls|
  {
    if |calls| > 0 {
      assert calls[|calls| - 1] in calls;
      TokensStayNonNegative(b, calls[..|calls| - 1]);
      RefillGrows(After(b, calls[..|calls| - 1]), calls[|calls| - 1].now);
    }
  }

  lemma {:induction false} LedgerPrefix(b: Bucket, uses: seq<Use>, calls: seq<Call>, n: nat)
    requires |uses| > 0 && n <= |calls|
    ensures LedgerAfter(b, uses, calls)[..|uses| + n] == LedgerAfter(b, uses, calls[..n])
    decreases |calls|
  {
    if n < |calls| {
      var before := calls[..|calls| - 1];
      LedgerPrefix(b, uses, before, n);
      assert before[..n] == calls[..n];
    } else {
      assert calls[..n] == calls;
    }
  }

  // Calls i to j let through no more than the capacity plus what the time between them refills.
  predicate WithinAllowance(capacity: real, rate: real, uses: seq<Use>, i: nat, j: nat)
    requires i <= j < |uses|
  {
    Admitted(uses[i..j + 1]) <= capacity + rate * (uses[j].at - uses[i].at)
  }

  lemma WindowOfPrefix(b: Bucket, uses: seq<Use>, upTo: seq<Use>, i: nat, j: nat)
    requires i <= j < |uses| && upTo == uses[..j + 1]
    requires Represents(b, upTo) && b.tokens >= 0.0
    ensures WithinAllowance(b.capacity, b.rate, uses, i, j)
  {
    RefilledIsWindows(b, upTo, 0.0, b.updatedAt);
    assert WindowOk(b.capacity, b.rate, upTo, i, 0.0, b.updatedAt);
    assert upTo[i..] == uses[i..j + 1];
  }

  // No window of any run exceeds capacity + rate * length, even when the clock goes back.
  lemma EveryWindowIsBounded(b: Bucket, start: real, calls: seq<Call>, i: nat, j: nat)
    requires b == Fresh(b.capacity, b.rate, start) && b.capacity >= 0.0 && b.rate >= 0.0
    requires forall c :: c in calls ==> c.amount >= 0.0
    requires i <= j <= |calls|
    ensures WithinAllowance(b.capacity, b.rate, LedgerAfter(b, [Use(start, 0.0)], calls), i, j)
  {
    var first, done := [Use(start, 0.0)], calls[..j];
    FreshRepresents(b.capacity, b.rate, start);
    RunRefinesLedger(b, first, done);
    TokensStayNonNegative(b, done);
    LedgerPrefix(b, first, calls, j);
    assert |first| + j == j + 1;
    WindowOfPrefix(After(b, done), LedgerAfter(b, first, calls), LedgerAfter(b, first, done), i, j);
  }

  // ---- The retry hint ----

  predicate Settled(b: Bucket) {
    b.tokens <= b.capacity
  }

  // A non-zero hint overshoots the exact wait by more than nothing and at most one second.
  lemma HintIsTight(b: Bucket, amount: real, now: real)
    requires b.rate > 0.0
    requires Refilled(b, now).tokens < amount
    ensures var wait := (amount - Refilled(b, now).tokens) / b.rate;
            0.0 < Hint(b, amount, now) as real - wait <= 1.0
  {
    var wait := (amount - Refilled(b, now).tokens) / b.rate;
    assert wait * b.rate == amount - Refilled(b, now).tokens;
    assert wait > 0.0;
  }

  lemma LongEnough(deficit: real, rate: real, wait: real)
    requires rate > 0.0 && wait > deficit / rate
    ensures Gain(wait, rate) >= deficit
  {
    assert deficit / rate * rate == deficit;
    MulMonotone(deficit / rate, wait, rate);
  }

  // Waiting that long is enough exactly when the bucket can ever hold that much.
  lemma HintIsSound(b: Bucket, amount: real, now: real)
    requires b.rate > 0.0 && now >= b.updatedAt
    requires Refilled(b, now).tokens < amount
    ensures Take(Refilled(b, now), amount, now + Hint(b, amount, now) as real).1 <==> amount <= b.capacity
  {
    HintIsTight(b, amount, now);
    var r, hint := Refilled(b, now), Hint(b, amount, now) as real;
    LongEnough(amount - r.tokens, b.rate, hint);
    assert hint > 0.0 && r.updatedAt == now;
    var later := Refilled(r, now + hint);
    assert now + hint - r.updatedAt == hint;
    assert later.tokens == Least(b.capacity, r.tokens + Gain(hint, b.rate));
  }

  lemma MulMonotone(x: real, y: real, k: real)
    requires x <= y && k >= 0.0
    ensures x * k <= y * k
  {
    assert (y - x) * k >= 0.0;
  }

  // The documented "rounded up to a whole second" fails when the wait is already whole.
  lemma HintRoundsUpExactlyWhen(b: Bucket, amount: real, now: real)
    requires b.rate > 0.0
    requires Refilled(b, now).tokens < amount
    ensures var wait := (amount - Refilled(b, now).tokens) / b.rate;
            (wait <= Hint(b, amount, now) as real < wait + 1.0) <==> wait.Floor as real != wait
  {
    HintIsTight(b, amount, now);
  }

  // A bucket that never refills asks for an hour, and one that holds the amount for no wait.
  lemma HintWithoutRefill(b: Bucket, amount: real, now: real)
    ensures Refilled(b, now).tokens >= amount ==> Hint(b, amount, now) == 0
    ensures Refilled(b, now).tokens < amount && b.rate <= 0.0 ==> Hint(b, amount, now) == 3600
  {
  }

  // A wait of exactly one second is answered with two.
  lemma WholeWaitGetsASecondMore()
    ensures var b := Bucket(10.0, 1.0, 0.0, 0.0);
            (1.0 - Refilled(b, 0.0).tokens) / b.rate == 1.0 && Hint(b, 1.0, 0.0) == 2
  {
  }

  lemma GainSplits(x: real, y: real, rate: real)
    ensures Gain(x + y, rate) == Gain(x, rate) + Gain(y, rate)
    ensures y >= 0.0 && rate >= 0.0 ==> Gain(y, rate) >= 0.0
  {
    if y >= 0.0 && rate >= 0.0 {
      MulMonotone(0.0, y, rate);
    }
  }

  // Refilling in two steps gives the tokens one refill would have given.
  lemma RefillSplits(b: Bucket, middle: real, now: real)
    requires Settled(b) && b.rate >= 0.0 && middle <= now
    ensures Refilled(Refilled(b, middle), now) == Refilled(b, now)
  {
    if b.updatedAt < middle < now {
      var first, second := middle - b.updatedAt, now - middle;
      GainSplits(first, second, b.rate);
      assert first + second == now - b.updatedAt;
    }
  }

  // ---- Shedding ----

  function RemainingFraction(b: Bucket): real {
    if b.capacity <= 0.0 then 0.0
    else if b.tokens < 0.0 then 0.0
    else if b.tokens > b.capacity then 1.0
    else b.tokens / b.capacity
  }

  const COMFORTABLE_FRACTION := 0.5

  predicate ShouldAccept(security: bool, remaining: real) {
    security || remaining >= 1.0 - COMFORTABLE_FRACTION
  }

  function Cost(security: bool): real {
    if security then 0.5 else 1.0
  }

  datatype Admission = Pass | Shed | OverQuota

  // One event at the gate: the fraction is read at one clock reading, the charge made at the next.
  function Admit(b: Bucket, security: bool, readAt: real, chargeAt: real): (Bucket, Admission) {
    var seen := Take(b, 0.0, readAt).0;
    if !ShouldAccept(security, RemainingFraction(seen)) then (seen, Shed)
    else
      var (charged, ok) := Take(seen, Cost(security), chargeAt);
      (charged, if ok then Pass else if security then OverQuota else Shed)
  }

  lemma SecurityIsNeverShed(b: Bucket, readAt: real, chargeAt: real)
    ensures Admit(b, true, readAt, chargeAt).1 != Shed
  {
  }

  predicate Sane(b: Bucket) {
    0.0 <= b.tokens <= b.capacity && b.rate >= 0.0
  }

  lemma AdmitKeepsSane(b: Bucket, security: bool, readAt: real, chargeAt: real)
    requires Sane(b)
    ensures var b' := Admit(b, security, readAt, chargeAt).0;
            Sane(b') && b'.capacity == b.capacity && b'.rate == b.rate
  {
    RefillGrows(b, readAt);
    RefillGrows(Take(b, 0.0, readAt).0, chargeAt);
  }

  lemma RefillGrows(b: Bucket, now: real)
    requires Sane(b)
    ensures b.tokens <= Refilled(b, now).tokens <= b.capacity
  {
    if now > b.updatedAt {
      MulMonotone(0.0, now - b.updatedAt, b.rate);
    }
  }

  // Telemetry that is let in leaves half the allowance, less the one event, for findings.
  lemma TelemetryLeavesReserve(b: Bucket, readAt: real, chargeAt: real)
    requires Sane(b)
    requires Admit(b, false, readAt, chargeAt).1 == Pass
    ensures Admit(b, false, readAt, chargeAt).0.tokens >= b.capacity / 2.0 - 1.0
  {
    var seen := Take(b, 0.0, readAt).0;
    RefillGrows(b, readAt);
    RefillGrows(seen, chargeAt);
    AtLeastHalf(seen);
  }

  lemma AtLeastHalf(b: Bucket)
    requires Sane(b) && RemainingFraction(b) >= 0.5
    ensures b.tokens >= b.capacity / 2.0
  {
    Share(b.tokens, b.capacity);
    MulMonotone(0.5, b.tokens / b.capacity, b.capacity);
  }

  lemma Share(part: real, whole: real)
    requires whole > 0.0
    ensures part / whole * whole == part
  {
  }

  type Readings = seq<(real, real)>

  function AdmitAll(b: Bucket, security: bool, times: Readings): Bucket
    decreases |times|
  {
    if |times| == 0 then b
    else Admit(AdmitAll(b, security, times[..|times| - 1]), security, times[|times| - 1].0, times[|times| - 1].1).0
  }

  lemma {:induction false} ReserveAfterTelemetry(b: Bucket, times: Readings)
    requires Sane(b) && b.tokens >= b.capacity / 2.0 - 1.0
    ensures var b' := AdmitAll(b, false, times);
            Sane(b') && b'.capacity == b.capacity && b'.tokens >= b.capacity / 2.0 - 1.0
    decreases |times|
  {
    if |times| > 0 {
      ReserveAfterTelemetry(b, times[..|times| - 1]);
      var before := AdmitAll(b, false, times[..|times| - 1]);
      var (readAt, chargeAt) := times[|times| - 1];
      AdmitKeepsSane(before, false, readAt, chargeAt);
      if Admit(before, false, readAt, chargeAt).1 == Pass {
        TelemetryLeavesReserve(before, readAt, chargeAt);
      } else {
        RefillGrows(before, readAt);
        RefillGrows(Take(before, 0.0, readAt).0, chargeAt);
      }
    }
  }

  lemma SecurityPasses(b: Bucket, readAt: real, chargeAt: real)
    requires Sane(b) && b.tokens >= 0.5
    ensures var (b', admission) := Admit(b, true, readAt, chargeAt);
            admission == Pass && Sane(b') && b'.tokens >= b.tokens - 0.5
  {
    RefillGrows(b, readAt);
    RefillGrows(Take(b, 0.0, readAt).0, chargeAt);
  }

  // While half a token is left for each, every event of a burst of findings gets through.
  lemma {:induction false} SecurityBurst(b: Bucket, times: Readings, i: nat)
    requires Sane(b) && i <= |times| && b.tokens >= 0.5 * i as real
    ensures Sane(AdmitAll(b, true, times[..i]))
    ensures AdmitAll(b, true, times[..i]).tokens >= b.tokens - 0.5 * i as real
    decreases i
  {
    if i > 0 {
      SecurityBurst(b, times, i - 1);
      assert times[..i][..i - 1] == times[..i - 1];
      var before := AdmitAll(b, true, times[..i - 1]);
      assert 0.5 * i as real == 0.5 * (i - 1) as real + 0.5;
      SecurityPasses(before, times[i - 1].0, times[i - 1].1);
    } else {
      assert times[..i] == [];
    }
  }

  // After any telemetry-only history, capacity - 2 findings in a row get through.
  lemma SecurityReserve(capacity: real, rate: real, start: real, telemetry: Readings, burst: Readings)
    requires capacity >= 0.0 && rate >= 0.0
    requires |burst| as real <= capacity - 2.0
    ensures var b := AdmitAll(Fresh(capacity, rate, start), false, telemetry);
            forall i :: 0 <= i < |burst| ==>
              Admit(AdmitAll(b, true, burst[..i]), true, burst[i].0, burst[i].1).1 == Pass
  {
    ReserveAfterTelemetry(Fresh(capacity, rate, start), telemetry);
    var b := AdmitAll(Fresh(capacity, rate, start), false, telemetry);
    forall i | 0 <= i < |burst|
      ensures Admit(AdmitAll(b, true, burst[..i]), true, burst[i].0, burst[i].1).1 == Pass
    {
      assert 0.5 * i as real + 0.5 <= 0.5 * |burst| as real;
      SecurityBurst(b, burst, i);
      SecurityPasses(AdmitAll(b, true, burst[..i]), burst[i].0, burst[i].1);
    }
  }

  // ---- The class ----

  class TokenBucket {
    const capacity: real
    const refillPerSecond: real
    var tokens: real
    var updatedAt: real
    ghost var uses: seq<Use>

    function State(): Bucket
      reads this
    {
      Bucket(capacity, refillPerSecond, tokens, updatedAt)
    }

    ghost predicate Valid()
      reads this
    {
      Represents(State(), uses)
    }

    constructor (capacity: real, refillPerSecond: real, now: real)
      ensures Valid()
      ensures State() == Fresh(capacity, refillPerSecond, now)
      ensures uses == [Use(now, 0.0)]
    {
      this.capacity := capacity;
      this.refillPerSecond := refillPerSecond;
      this.tokens := capacity;
      this.updatedAt := now;
      this.uses := [Use(now, 0.0)];
      new;
      FreshRepresents(capacity, refillPerSecond, now);
    }

    method Refill(now: real)
      modifies this`tokens, this`updatedAt
      ensures State() == Refilled(old(State()), now)
    {
      var elapsed := Later(0.0, now - updatedAt);
      if elapsed > 0.0 {
        tokens := Least(capacity, tokens + Gain(elapsed, refillPerSecond));
        updatedAt := now;
      }
    }

    method TryConsume(amount: real, now: real) returns (ok: bool)
      requires Valid() && amount >= 0.0
      modifies this
      ensures Valid()
      ensures State() == Take(old(State()), amount, now).0
      ensures uses == Recorded(old(uses), now, if ok then amount else 0.0)
      ensures ok <==> WindowsAllow(capacity, refillPerSecond, old(uses), amount, updatedAt)
    {
      TakeRefinesLedger(State(), uses, amount, now);
      Refill(now);
      ok := tokens >= amount;
      if ok {
        tokens := tokens - amount;
      }
      uses := Recorded(uses, now, if ok then amount else 0.0);
    }

    method RetryAfterSeconds(amount: real, now: real) returns (hint: int)
      requires Valid()
      modifies this
      ensures Valid()
      ensures State() == Refilled(old(State()), now)
      ensures hint == Hint(old(State()), amount, now)
      ensures uses == Recorded(old(uses), now, 0.0)
    {
      RefillRefinesLedger(State(), uses, now);
      Refill(now);
      uses := Recorded(uses, now, 0.0);
      if tokens >= amount {
        return 0;
      }
      if refillPerSecond <= 0.0 {
        return 3600;
      }
      var deficit := amount - tokens;
      var whole := Truncated(deficit / refillPerSecond) + 1;
      hint := if whole < 1 then 1 else whole;
    }
  }
}
