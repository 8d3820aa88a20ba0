// new_id of apps/api/src/aegis_api/domain/value_objects.py: UUIDv7 packing and its counter. The
// disjoint bit fields joined by | and << are written as a sum of weighted fields.
module Uuid7 {

  const TIME_UNIT: nat := 0x1_0000_0000_0000_0000_0000      // 2^80
  const VERSION_UNIT: nat := 0x1000_0000_0000_0000_0000     // 2^76
  const COUNTER_UNIT: nat := 0x1_0000_0000_0000_0000        // 2^64
  const VARIANT_UNIT: nat := 0x4000_0000_0000_0000          // 2^62
  const TIME_RANGE: nat := 0x1_0000_0000_0000               // 2^48

  datatype Fields = Fields(ms: nat, version: nat, counter: nat, variant: nat, random: nat)

  function Pack(ms: nat, counter: nat, random: nat): nat {
    ms % TIME_RANGE * TIME_UNIT + 7 * VERSION_UNIT + counter % 4096 * COUNTER_UNIT
    + 2 * VARIANT_UNIT + random % VARIANT_UNIT
  }

  // Section 5.7 of RFC 9562 read from the most significant bit down.
  function Unpack(id: nat): Fields {
    Fields(id / TIME_UNIT, id / VERSION_UNIT % 16, id / COUNTER_UNIT % 4096,
           id / VARIANT_UNIT % 4, id % VARIANT_UNIT)
  }

  lemma SplitAt(q: nat, unit: nat, rest: nat)
    requires 0 < unit && rest < unit
    ensures (q * unit + rest) / unit == q
  {
    var d, r := (q * unit + rest) / unit, (q * unit + rest) % unit;
    var gap := q - d;
    assert gap * unit == r - rest;
    SmallMultiple(gap, unit);
  }

  lemma SmallMultiple(gap: int, unit: int)
    requires 0 < unit && -unit < gap * unit < unit
    ensures gap == 0
  {
  }

  lemma LowDigit(q: nat, unit: nat, rest: nat)
    requires 0 < unit && rest < unit
    ensures (q * unit + rest) % unit == rest
  {
    SplitAt(q, unit, rest);
  }

  // What is left of the id when everything below one field is cut off.
  lemma Quotients(ms: nat, c: nat, r: nat, id: nat)
    requires c < 4096 && r < VARIANT_UNIT
    requires id == ms * TIME_UNIT + 7 * VERSION_UNIT + c * COUNTER_UNIT + 2 * VARIANT_UNIT + r
    ensures id / TIME_UNIT == ms
    ensures id / VERSION_UNIT == ms * 16 + 7
    ensures id / COUNTER_UNIT == (ms * 16 + 7) * 4096 + c
    ensures id / VARIANT_UNIT == ((ms * 16 + 7) * 4096 + c) * 4 + 2
    ensures id % VARIANT_UNIT == r
  {
    var low := 2 * VARIANT_UNIT + r;
    SplitAt(ms, TIME_UNIT, 7 * VERSION_UNIT + c * COUNTER_UNIT + low);
    SplitAt(ms * 16 + 7, VERSION_UNIT, c * COUNTER_UNIT + low);
    SplitAt((ms * 16 + 7) * 4096 + c, COUNTER_UNIT, low);
    SplitAt(((ms * 16 + 7) * 4096 + c) * 4 + 2, VARIANT_UNIT, r);
    LowDigit(((ms * 16 + 7) * 4096 + c) * 4 + 2, VARIANT_UNIT, r);
  }

  lemma UnpackPack(ms: nat, counter: nat, random: nat)
    requires ms < TIME_RANGE
    ensures Unpack(Pack(ms, counter, random)) == Fields(ms, 7, counter % 4096, 2, random % VARIANT_UNIT)
  {
    var c := counter % 4096;
    Quotients(ms, c, random % VARIANT_UNIT, Pack(ms, counter, random));
    LowDigit(ms, 16, 7);
    LowDigit(ms * 16 + 7, 4096, c);
    LowDigit((ms * 16 + 7) * 4096 + c, 4, 2);
  }

  // From the top of 128 bits: the low 48 bits of the millisecond, 4 of the version, the low 12 of the
  // counter, 2 of the variant and the low 62 of the random number.
  lemma Layout(ms: nat, counter: nat, random: nat)
    ensures var id := Pack(ms, counter, random);
            && id < 0x1_0000_0000_0000_0000_0000_0000_0000_0000
            && id / 0x1_0000_0000_0000_0000_0000 == ms % 0x1_0000_0000_0000
            && id / 0x1000_0000_0000_0000_0000 % 0x10 == 7
            && id / 0x1_0000_0000_0000_0000 % 0x1000 == counter % 0x1000
            && id / 0x4000_0000_0000_0000 % 4 == 2
            && id % 0x4000_0000_0000_0000 == random % 0x4000_0000_0000_0000
  {
    UnpackPack(ms % TIME_RANGE, counter, random);
    LowDigit(0, TIME_RANGE, ms % TIME_RANGE);
  }

  // Whatever the random bits, order is decided by the millisecond and then the counter.
  lemma PackOrder(ms: nat, c: nat, r: nat, ms': nat, c': nat, r': nat)
    requires ms < TIME_RANGE && ms' < TIME_RANGE && c < 4096 && c' < 4096
    ensures ms < ms' || (ms == ms' && c < c') ==> Pack(ms, c, r) < Pack(ms', c', r')
  {
    assert ms % TIME_RANGE == ms && ms' % TIME_RANGE == ms';
    if ms < ms' {
      assert ms' * TIME_UNIT >= (ms + 1) * TIME_UNIT;
    }
  }

  // The two module-level lists.
  datatype Memory = Memory(lastMs: nat, counter: nat)

  // One reading of the clock, the random start of a new millisecond, and the random tail.
  datatype Draw = Draw(nowMs: nat, seed: nat, random: nat)

  predicate DrawOk(d: Draw) {
    d.seed < 0x100 && d.nowMs + 1 < TIME_RANGE
  }

  function Next(s: Memory, d: Draw): Memory {
    if d.nowMs == s.lastMs then
      var counter := (s.counter + 1) % 4096;
      Memory(if counter == 0 then d.nowMs + 1 else s.lastMs, counter)
    else Memory(d.nowMs, d.seed)
  }

  function Id(s: Memory, d: Draw): nat {
    var n := Next(s, d);
    Pack(n.lastMs, n.counter, d.random)
  }

  predicate Wraps(s: Memory, d: Draw) {
    d.nowMs == s.lastMs && s.counter == 4095
  }

  // An id exceeds its predecessor exactly when the clock has not fallen behind the last
  // millisecond handed out, which a wrap pushes one ahead of the clock.
  lemma IncreasesExactlyWhen(s: Memory, d: Draw, d': Draw)
    requires s.counter < 4096 && DrawOk(d) && DrawOk(d')
    ensures Id(s, d) < Id(Next(s, d), d') <==> Next(s, d).lastMs <= d'.nowMs
  {
    var a := Next(s, d);
    var b := Next(a, d');
    PackOrder(a.lastMs, a.counter, d.random, b.lastMs, b.counter, d'.random);
    PackOrder(b.lastMs, b.counter, d'.random, a.lastMs, a.counter, d.random);
  }

  function States(s: Memory, draws: seq<Draw>): Memory
    decreases |draws|
  {
    if |draws| == 0 then s else Next(States(s, draws[..|draws| - 1]), draws[|draws| - 1])
  }

  function IdAt(s: Memory, draws: seq<Draw>, i: nat): nat
    requires i < |draws|
  {
    Id(States(s, draws[..i]), draws[i])
  }

  predicate ClockNeverGoesBack(draws: seq<Draw>) {
    forall i, j :: 0 <= i <= j < |draws| ==> draws[i].nowMs <= draws[j].nowMs
  }

  predicate NeverWraps(s: Memory, draws: seq<Draw>) {
    forall i :: 0 <= i < |draws| ==> !Wraps(States(s, draws[..i]), draws[i])
  }

  lemma {:induction false} LastIsTheClock(s: Memory, draws: seq<Draw>, i: nat)
    requires s.counter < 4096 && forall d :: d in draws ==> DrawOk(d)
    requires NeverWraps(s, draws) && i < |draws|
    ensures States(s, draws[..i + 1]).lastMs == draws[i].nowMs
    ensures States(s, draws[..i + 1]).counter < 4096
    decreases i
  {
    assert draws[i] in draws;
    assert draws[..i + 1][..i] == draws[..i];
    if i > 0 {
      LastIsTheClock(s, draws, i - 1);
    } else {
      assert draws[..0] == [];
    }
    assert !Wraps(States(s, draws[..i]), draws[i]);
  }

  lemma StateAfter(s: Memory, draws: seq<Draw>, k: nat)
    requires k < |draws|
    ensures States(s, draws[..k + 1]) == Next(States(s, draws[..k]), draws[k])
  {
    assert draws[..k + 1][..k] == draws[..k];
  }

  lemma StateBefore(s: Memory, draws: seq<Draw>, k: nat)
    requires s.counter < 4096 && forall d :: d in draws ==> DrawOk(d)
    requires NeverWraps(s, draws) && k < |draws|
    ensures States(s, draws[..k]).counter < 4096
  {
    if k > 0 {
      LastIsTheClock(s, draws, k - 1);
    } else {
      assert draws[..0] == [];
    }
  }

  // Each id exceeds the one before it.
  lemma NextIncreases(s: Memory, draws: seq<Draw>, k: nat)
    requires s.counter < 4096 && forall d :: d in draws ==> DrawOk(d)
    requires ClockNeverGoesBack(draws) && NeverWraps(s, draws)
    requires k + 1 < |draws|
    ensures IdAt(s, draws, k) < IdAt(s, draws, k + 1)
  {
    StateBefore(s, draws, k);
    StateAfter(s, draws, k);
    LastIsTheClock(s, draws, k);
    assert draws[k] in draws && draws[k + 1] in draws;
    IncreasesExactlyWhen(States(s, draws[..k]), draws[k], draws[k + 1]);
  }

  // What increases at every step increases over any distance.
  lemma {:induction false} Ascends(ids: seq<nat>, i: nat, j: nat)
    requires forall k, m :: 0 <= k && m == k + 1 < |ids| ==> ids[k] < ids[m]
    requires i < j < |ids|
    ensures ids[i] < ids[j]
    decreases j
  {
    assert ids[j - 1] < ids[j];
    if i < j - 1 {
      Ascends(ids, i, j - 1);
    }
  }

  // A run whose clock never goes back and whose counter never wraps hands out increasing ids.
  lemma RunIncreases(s: Memory, draws: seq<Draw>, i: nat, j: nat)
    requires s.counter < 4096 && forall d :: d in draws ==> DrawOk(d)
    requires ClockNeverGoesBack(draws) && NeverWraps(s, draws)
    requires i < j < |draws|
    ensures IdAt(s, draws, i) < IdAt(s, draws, j)
  {
    var ids := seq(|draws|, k requires 0 <= k < |draws| => IdAt(s, draws, k));
    forall k, m | 0 <= k && m == k + 1 < |ids| ensures ids[k] < ids[m] {
      NextIncreases(s, draws, k);
    }
    Ascends(ids, i, j);
  }

  // Within one millisecond the counter only counts.
  lemma {:induction false} SameMillisecond(ms: nat, counter: nat, draws: seq<Draw>)
    requires counter + |draws| < 4096 && forall d :: d in draws ==> d.nowMs == ms
    ensures States(Memory(ms, counter), draws) == Memory(ms, counter + |draws|)
    decreases |draws|
  {
    if |draws| > 0 {
      var n := |draws| - 1;
      assert draws[n] in draws;
      SameMillisecond(ms, counter, draws[..n]);
    }
  }

  // Four thousand and ninety-five ids in one millisecond, from the generator's first state: the next
  // one wraps, and the one after it is smaller.
  lemma WrapIsReachable(ms: nat, random: nat)
    requires 0 < ms && ms + 1 < TIME_RANGE
    ensures var d := Draw(ms, 0, random);
            var s := States(Memory(0, 0), [d] + seq(4095, _ => d));
            s == Memory(ms, 4095) && Wraps(s, d) && Id(Next(s, d), d) < Id(s, d)
  {
    var d := Draw(ms, 0, random);
    var rest := seq(4095, _ => d);
    StatesPlus(Memory(0, 0), [d], rest);
    assert [d][..0] == [];
    SameMillisecond(ms, 0, rest);
    WrapBreaksTheOrder(ms, d, d);
  }

  lemma {:induction false} StatesPlus(s: Memory, a: seq<Draw>, b: seq<Draw>)
    ensures States(s, a + b) == States(States(s, a), b)
    decreases |b|
  {
    if |b| == 0 {
      assert a + b == a;
    } else {
      assert (a + b)[..|a + b| - 1] == a + b[..|b| - 1];
      StatesPlus(s, a, b[..|b| - 1]);
    }
  }

  // After a wrap, an honest clock still inside the same millisecond takes the ids back.
  lemma WrapBreaksTheOrder(ms: nat, d: Draw, d': Draw)
    requires DrawOk(d) && DrawOk(d') && d.nowMs == ms == d'.nowMs
    ensures var s := Memory(ms, 4095);
            Wraps(s, d) && Id(Next(s, d), d') < Id(s, d)
  {
    var s := Memory(ms, 4095);
    IncreasesExactlyWhen(s, d, d');
    var a := Next(s, d);
    var b := Next(a, d');
    PackOrder(b.lastMs, b.counter, d'.random, a.lastMs, a.counter, d.random);
  }

  class Generator {
    var lastMs: nat
    var counter: nat

    function Current(): Memory
      reads this
    {
      Memory(lastMs, counter)
    }

    constructor ()
      ensures Current() == Memory(0, 0)
    {
      lastMs := 0;
      counter := 0;
    }

    method NewId(d: Draw) returns (id: nat)
      requires counter < 4096 && DrawOk(d)
      modifies this
      ensures Current() == Next(old(Current()), d)
      ensures id == Id(old(Current()), d)
      ensures d.nowMs != old(lastMs) ==> lastMs == d.nowMs && counter == d.seed
      ensures d.nowMs == old(lastMs) ==>
                && counter == (if old(counter) == 4095 then 0 else old(counter) + 1)
                && lastMs == (if old(counter) == 4095 then d.nowMs + 1 else d.nowMs)
      ensures counter < 4096
      ensures Unpack(id) == Fields(lastMs, 7, counter, 2, d.random % VARIANT_UNIT)
    {
      var nowMs := d.nowMs;
      if nowMs == lastMs {
        counter := (counter + 1) % 4096;
        if counter == 0 {
          nowMs := nowMs + 1;
          lastMs := nowMs;
        }
      } else {
        lastMs := nowMs;
        counter := d.seed;
      }
      id := Pack(nowMs, counter, d.random);
      UnpackPack(nowMs, counter, d.random);
    }
  }
}
