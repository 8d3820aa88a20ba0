// FileTailSource of apps/worker/src/aegis_worker/consumer.py and FileCursor of cursor.py: tailing a
// file that only grows, one batch of complete lines at a time, from a persisted byte offset.
module FileTail {
  import opened Prelude

  type Byte = b: int | 0 <= b < 256

  type Bytes = seq<Byte>

  const NEWLINE: Byte := 10

  // The bytes Python's bytes.strip removes.
  predicate Space(b: Byte) {
    b == 32 || 9 <= b <= 13
  }

  function StripLeft(s: Bytes): Bytes
    decreases |s|
  {
    if |s| > 0 && Space(s[0]) then StripLeft(s[1..]) else s
  }

  function StripRight(s: Bytes): Bytes
    decreases |s|
  {
    if |s| > 0 && Space(s[|s| - 1]) then StripRight(s[..|s| - 1]) else s
  }

  function Strip(s: Bytes): Bytes {
    StripRight(StripLeft(s))
  }

  // What bytes.strip leaves: everything around the stretch is a space or one of the control bytes 9 to
  // 13, and the stretch neither starts nor ends with one.
  ghost predicate Trims(s: Bytes, i: nat, j: nat)
    requires i <= j <= |s|
  {
    && (forall k :: 0 <= k < i || j <= k < |s| ==> s[k] == 32 || 9 <= s[k] <= 13)
    && (i < j ==> s[i] != 32 && !(9 <= s[i] <= 13) && s[j - 1] != 32 && !(9 <= s[j - 1] <= 13))
  }

  lemma {:induction false} StripLeftAt(s: Bytes) returns (i: nat)
    ensures i <= |s| && StripLeft(s) == s[i..]
    ensures forall k :: 0 <= k < i ==> s[k] == 32 || 9 <= s[k] <= 13
    ensures i < |s| ==> s[i] != 32 && !(9 <= s[i] <= 13)
    decreases |s|
  {
    if |s| > 0 && Space(s[0]) {
      var rest := StripLeftAt(s[1..]);
      i := rest + 1;
      assert s[1..][rest..] == s[i..];
      assert forall k :: 0 < k < i ==> s[k] == s[1..][k - 1];
    } else {
      i := 0;
    }
  }

  lemma {:induction false} StripRightAt(s: Bytes) returns (j: nat)
    ensures j <= |s| && StripRight(s) == s[..j]
    ensures forall k :: j <= k < |s| ==> s[k] == 32 || 9 <= s[k] <= 13
    ensures j > 0 ==> s[j - 1] != 32 && !(9 <= s[j - 1] <= 13)
    decreases |s|
  {
    if |s| > 0 && Space(s[|s| - 1]) {
      j := StripRightAt(s[..|s| - 1]);
      assert s[..|s| - 1][..j] == s[..j];
    } else {
      j := |s|;
    }
  }

  lemma BothEnds(s: Bytes, i: nat, n: nat)
    requires i + n <= |s|
    requires forall k :: 0 <= k < i ==> s[k] == 32 || 9 <= s[k] <= 13
    requires forall k :: n <= k < |s| - i ==> s[i..][k] == 32 || 9 <= s[i..][k] <= 13
    requires n > 0 ==> s[i] != 32 && !(9 <= s[i] <= 13) && s[i..][n - 1] != 32 && !(9 <= s[i..][n - 1] <= 13)
    ensures Trims(s, i, i + n) && s[i..][..n] == s[i..i + n]
  {
    assert forall k :: i <= k < |s| ==> s[k] == s[i..][k - i];
  }

  // Stripping takes the blank bytes off both ends, all of them, and nothing else.
  lemma StripTrims(s: Bytes)
    ensures exists i, j :: 0 <= i <= j <= |s| && Trims(s, i, j) && Strip(s) == s[i..j]
  {
    var i := StripLeftAt(s);
    var n := StripRightAt(s[i..]);
    BothEnds(s, i, n);
  }

  // A text that starts and ends with something visible survives its newline.
  lemma TextSurvives(text: Bytes)
    requires text != [] && text[0] != 32 && !(9 <= text[0] <= 13)
    requires text[|text| - 1] != 32 && !(9 <= text[|text| - 1] <= 13)
    ensures Strip(text + [10]) == text
  {
    var s := text + [10];
    StripTrims(s);
    var i, j :| 0 <= i <= j <= |s| && Trims(s, i, j) && Strip(s) == s[i..j];
    assert s[0] == text[0] && s[|text| - 1] == text[|text| - 1] && s[|text|] == 10;
    assert i == 0;
    assert j == |text|;
    assert s[..|text|] == text;
  }

  // The offset just after the next newline at or after i, or 0 when the line is not complete yet.
  function LineEnd(file: Bytes, i: nat): (end: nat)
    ensures end > 0 ==> i < end <= |file| && file[end - 1] == NEWLINE
    ensures forall k :: i <= k < (if end > 0 then end - 1 else |file|) ==> file[k] != NEWLINE
    decreases |file| - i
  {
    if i >= |file| then 0
    else if file[i] == NEWLINE then i + 1
    else LineEnd(file, i + 1)
  }

  // A blank line is skipped.
  function Then(text: Bytes, rest: seq<Bytes>): seq<Bytes> {
    if text == [] then rest else [text] + rest
  }

  function Counted(text: Bytes): nat {
    if text == [] then 0 else 1
  }

  // The complete lines from one offset up to another, stripped, in file order, without blank ones.
  function Lines(file: Bytes, from: nat, to: nat): seq<Bytes>
    decreases |file| - from
  {
    var end := LineEnd(file, from);
    if end == 0 || end > to then [] else Then(Strip(file[from..end]), Lines(file, end, to))
  }

  // The start of the file, or just after a newline.
  predicate Boundary(file: Bytes, offset: nat) {
    offset <= |file| && (offset == 0 || file[offset - 1] == NEWLINE)
  }

  // What one read returns: at most size lines, and the offset after the last complete line looked at.
  function Batch(file: Bytes, offset: nat, size: nat): (seq<Bytes>, nat)
    decreases |file| - offset
  {
    var end := LineEnd(file, offset);
    if size == 0 || end == 0 then ([], offset)
    else
      var text := Strip(file[offset..end]);
      var (rest, last) := Batch(file, end, size - Counted(text));
      (Then(text, rest), last)
  }

  // A line boundary cuts the lines in two.
  lemma {:induction false} LinesSplit(file: Bytes, from: nat, mid: nat, to: nat)
    requires from <= mid <= to && Boundary(file, mid)
    ensures Lines(file, from, to) == Lines(file, from, mid) + Lines(file, mid, to)
    decreases |file| - from
  {
    var end := LineEnd(file, from);
    if from < mid {
      assert file[mid - 1] == NEWLINE;
      LinesSplit(file, end, mid, to);
      ThenPlus(Strip(file[from..end]), Lines(file, end, mid), Lines(file, mid, to));
    }
  }

  lemma ThenPlus(text: Bytes, a: seq<Bytes>, b: seq<Bytes>)
    ensures Then(text, a + b) == Then(text, a) + b
  {
  }

  lemma {:induction false} LineEndGrows(file: Bytes, more: Bytes, i: nat)
    requires LineEnd(file, i) > 0
    ensures LineEnd(file + more, i) == LineEnd(file, i)
    decreases |file| - i
  {
    if file[i] != NEWLINE {
      LineEndGrows(file, more, i + 1);
    }
  }

  // Appending bytes, whole lines or not, leaves the lines already there.
  lemma {:induction false} LinesGrow(file: Bytes, more: Bytes, from: nat, to: nat)
    requires to <= |file|
    ensures Lines(file + more, from, to) == Lines(file, from, to)
    decreases |file| - from
  {
    var end := LineEnd(file, from);
    if end > 0 {
      LineEndGrows(file, more, from);
      if end <= to {
        assert (file + more)[from..end] == file[from..end];
        LinesGrow(file, more, end, to);
      }
    }
  }

  lemma {:induction false} BatchEnds(file: Bytes, offset: nat, size: nat)
    requires Boundary(file, offset)
    ensures var (records, end) := Batch(file, offset, size);
            offset <= end && Boundary(file, end) && |records| <= size
    decreases |file| - offset
  {
    var end := LineEnd(file, offset);
    if size > 0 && end > 0 {
      BatchEnds(file, end, size - Counted(Strip(file[offset..end])));
    }
  }

  lemma {:induction false} BatchStopsShort(file: Bytes, offset: nat, size: nat)
    requires Boundary(file, offset)
    ensures var (records, end) := Batch(file, offset, size);
            |records| < size ==> Lines(file, end, |file|) == []
    decreases |file| - offset
  {
    var end := LineEnd(file, offset);
    if size > 0 && end > 0 {
      BatchStopsShort(file, end, size - Counted(Strip(file[offset..end])));
    }
  }

  lemma {:induction false} BatchRecords(file: Bytes, offset: nat, size: nat)
    requires Boundary(file, offset)
    ensures var (records, end) := Batch(file, offset, size); records == Lines(file, offset, end)
    decreases |file| - offset
  {
    var end := LineEnd(file, offset);
    if size > 0 && end > 0 {
      var left := size - Counted(Strip(file[offset..end]));
      BatchRecords(file, end, left);
      BatchEnds(file, end, left);
    }
  }

  // A read delivers exactly the lines between the two offsets, and stops short of its size only
  // when no complete line is left.
  lemma BatchIsLines(file: Bytes, offset: nat, size: nat)
    requires Boundary(file, offset)
    ensures var (records, end) := Batch(file, offset, size);
            && offset <= end && Boundary(file, end)
            && records == Lines(file, offset, end)
            && |records| <= size
            && (|records| < size ==> Lines(file, end, |file|) == [])
  {
    BatchEnds(file, offset, size);
    BatchStopsShort(file, offset, size);
    BatchRecords(file, offset, size);
  }

  // ---- A written line is read back ----

  lemma {:induction false} NextNewline(file: Bytes, i: nat, end: nat)
    requires i < end <= |file| && file[end - 1] == NEWLINE
    requires forall k :: i <= k < end - 1 ==> file[k] != NEWLINE
    ensures LineEnd(file, i) == end
    decreases end - i
  {
    if i < end - 1 {
      NextNewline(file, i + 1, end);
    }
  }

  // A JSON object: no line break in it, a brace at each end.
  predicate JsonObject(text: Bytes) {
    |text| >= 2 && text[0] == 123 && text[|text| - 1] == 125 && 10 !in text
  }

  // Whatever is written on a line of its own at the end of a file is what is read from there: stripped,
  // and nothing if it is blank.
  lemma LineIsRead(file: Bytes, text: Bytes)
    requires 10 !in text
    ensures var longer, stripped := file + (text + [10]), Strip(text + [10]);
            Lines(longer, |file|, |longer|) == if stripped == [] then [] else [stripped]
  {
    var longer := file + (text + [10]);
    assert forall k :: 0 <= k < |text| ==> longer[|file| + k] == text[k] && text[k] in text;
    assert forall k :: |file| <= k < |longer| - 1 ==> longer[k] == text[k - |file|];
    NextNewline(longer, |file|, |longer|);
    assert longer[|file|..|longer|] == text + [10];
    assert LineEnd(longer, |longer|) == 0;
    assert Lines(longer, |longer|, |longer|) == [];
  }

  // A JSON object is read byte for byte.
  lemma LineIsReadBack(file: Bytes, text: Bytes)
    requires JsonObject(text)
    ensures var longer := file + (text + [10]);
            Lines(longer, |file|, |longer|) == [text]
  {
    LineIsRead(file, text);
    TextSurvives(text);
  }

  // And it is the next read from there.
  lemma LineIsPolled(file: Bytes, text: Bytes, size: nat)
    requires JsonObject(text) && Boundary(file, |file|) && size > 0
    ensures var longer := file + (text + [10]);
            Batch(longer, |file|, size) == ([text], |longer|)
  {
    var longer := file + (text + [10]);
    LineIsReadBack(file, text);
    BatchIsLines(longer, |file|, size);
    var end := Batch(longer, |file|, size).1;
    LinesSplit(longer, |file|, end, |longer|);
    assert forall k :: 0 <= k < |text| ==> longer[|file| + k] == text[k] && text[k] in text;
    BatchTakesALine(longer, |file|, size);
  }

  lemma BatchTakesALine(file: Bytes, offset: nat, size: nat)
    requires size > 0 && offset < |file| && LineEnd(file, offset) == |file|
    ensures Batch(file, offset, size).1 == |file|
  {
    assert LineEnd(file, |file|) == 0;
  }

  // ---- The cursor file ----

  // What the cursor file holds: nothing, text that is no integer, an integer, or something that
  // cannot be read as text at all.
  datatype CursorText = Missing | Blank | Garbage | Number(value: int) | Unreadable

  // The offset a start reads; an unreadable file raises instead, and lets no worker start.
  function ReadCursor(text: CursorText): nat {
    match text
    case Number(value) => Max(value, 0)
    case _ => 0
  }

  // How far a write-then-replace gets before its process dies, if it does; a torn write may leave
  // anything in the temporary file.
  datatype Reach = Writing(torn: CursorText) | Written | Replaced

  class FileCursor {
    var text: CursorText
    var temporary: CursorText

    constructor (text: CursorText)
      ensures this.text == text
    {
      this.text := text;
      this.temporary := Missing;
    }

    // None when reading raises: only a missing file and a text that is no integer are caught.
    method Read() returns (offset: Option<nat>)
      ensures offset == if text.Unreadable? then None else Some(ReadCursor(text))
      ensures text.Missing? || text.Blank? || text.Garbage? ==> offset == Some(0)
      ensures text.Number? ==> offset == Some(if text.value < 0 then 0 else text.value)
    {
      if text == Missing || text == Blank {
        return Some(0);
      }
      if text.Unreadable? {
        return None;
      }
      if text == Garbage {
        return Some(0);
      }
      offset := Some(if text.value < 0 then 0 else text.value);
    }

    // Wherever it is cut off, the next start reads the old offset or the new one.
    method Advance(offset: nat, reach: Reach)
      modifies this
      ensures ReadCursor(text) == ReadCursor(old(text)) || ReadCursor(text) == offset
      ensures text == if reach == Replaced then Number(offset) else old(text)
    {
      if reach.Writing? {
        temporary := reach.torn;
        return;
      }
      temporary := Number(offset);
      if reach == Written {
        return;
      }
      text, temporary := temporary, Missing;
    }
  }

  // ---- The source ----

  datatype Pending = Pending(offset: nat, records: seq<Bytes>)

  datatype Tail = Tail(committed: nat, pending: Option<Pending>)

  // An uncommitted batch is handed back; otherwise the next one is read and remembered.
  function Polled(t: Tail, file: Bytes, size: nat): Tail {
    if t.pending.Some? then t
    else
      var (records, end) := Batch(file, t.committed, size);
      if records == [] then t else t.(pending := Some(Pending(end, records)))
  }

  function Handed(t: Tail): seq<Bytes> {
    if t.pending.Some? then t.pending.value.records else []
  }

  function Confirmed(t: Tail): Tail {
    if t.pending.Some? then Tail(t.pending.value.offset, None) else t
  }

  // Offsets sit on line boundaries and a pending batch is the lines up to its own.
  predicate TailOk(t: Tail, file: Bytes) {
    && Boundary(file, t.committed)
    && (t.pending.Some? ==>
          var p := t.pending.value;
          && t.committed < p.offset && Boundary(file, p.offset)
          && p.records == Lines(file, t.committed, p.offset) && p.records != [])
  }

  lemma PollKeepsTailOk(t: Tail, file: Bytes, size: nat)
    requires TailOk(t, file)
    ensures TailOk(Polled(t, file, size), file)
    ensures t.pending.None? && size > 0 && Polled(t, file, size).pending.None? ==> Lines(file, t.committed, |file|) == []
  {
    if t.pending.None? {
      BatchIsLines(file, t.committed, size);
      var (records, end) := Batch(file, t.committed, size);
      LinesSplit(file, t.committed, end, |file|);
    }
  }

  lemma AppendKeepsTailOk(t: Tail, file: Bytes, more: Bytes)
    requires TailOk(t, file)
    ensures TailOk(t, file + more)
  {
    if t.pending.Some? {
      LinesGrow(file, more, t.committed, t.pending.value.offset);
    }
  }

  class FileTailSource {
    const cursor: FileCursor
    var committedOffset: nat
    var pendingOffset: Option<nat>
    var pendingRecords: seq<Bytes>

    function State(): Tail
      reads this
    {
      Tail(committedOffset, if pendingOffset.Some? then Some(Pending(pendingOffset.value, pendingRecords)) else None)
    }

    constructor (cursor: FileCursor, offset: nat)
      ensures this.cursor == cursor && State() == Tail(offset, None)
    {
      this.cursor := cursor;
      committedOffset, pendingOffset, pendingRecords := offset, None, [];
    }

    // Building a source reads the cursor, and fails with it.
    static method Open(cursor: FileCursor) returns (source: FileTailSource?)
      ensures source == null <==> cursor.text.Unreadable?
      ensures source != null ==>
                fresh(source) && source.cursor == cursor && source.State() == Tail(ReadCursor(cursor.text), None)
    {
      var offset := cursor.Read();
      if offset.None? {
        return null;
      }
      source := new FileTailSource(cursor, offset.value);
    }

    // The file is passed as it stands at this moment; an absent file reads as an empty one.
    method Poll(file: Bytes, batchSize: nat) returns (records: seq<Bytes>)
      modifies this`pendingOffset, this`pendingRecords
      ensures State() == Polled(old(State()), file, batchSize)
      ensures records == Handed(State())
      ensures old(State()).pending.Some? ==> State() == old(State()) && records == old(State()).pending.value.records
    {
      if pendingOffset.Some? {
        return pendingRecords;
      }
      var newOffset;
      records, newOffset := ReadBatch(file, committedOffset, batchSize);
      if records != [] {
        pendingOffset := Some(newOffset);
        pendingRecords := records;
      }
    }

    method Commit()
      modifies this, cursor
      ensures State() == Confirmed(old(State()))
      ensures cursor.text == if old(State()).pending.Some? then Number(old(State()).pending.value.offset)
                             else old(cursor.text)
    {
      if pendingOffset.None? {
        return;
      }
      var offset := pendingOffset.value;
      cursor.Advance(offset, Replaced);
      committedOffset := offset;
      pendingOffset := None;
      pendingRecords := [];
    }
  }

  // What is still to be read after the records so far.
  function Rest(file: Bytes, offset: nat, size: nat, records: seq<Bytes>): (seq<Bytes>, nat)
    requires |records| <= size
  {
    var (rest, end) := Batch(file, offset, size - |records|);
    (records + rest, end)
  }

  function Longer(records: seq<Bytes>, text: Bytes): seq<Bytes> {
    if text == [] then records else records + [text]
  }

  lemma ReadStep(file: Bytes, offset: nat, size: nat, records: seq<Bytes>)
    requires |records| < size && LineEnd(file, offset) > 0
    ensures var end := LineEnd(file, offset);
            Rest(file, offset, size, records) == Rest(file, end, size, Longer(records, Strip(file[offset..end])))
  {
    var end := LineEnd(file, offset);
    LongerThen(records, Strip(file[offset..end]), Batch(file, end, size - |records| - Counted(Strip(file[offset..end]))).0);
  }

  lemma LongerThen(records: seq<Bytes>, text: Bytes, rest: seq<Bytes>)
    ensures records + Then(text, rest) == Longer(records, text) + rest
    ensures |Longer(records, text)| == |records| + Counted(text)
  {
  }

  // The readline loop of _read_batch.
  method ReadBatch(file: Bytes, start: nat, batchSize: nat) returns (records: seq<Bytes>, offset: nat)
    ensures (records, offset) == Batch(file, start, batchSize)
  {
    records, offset := [], start;
    RestOfNothing(file, start, batchSize);
    while |records| < batchSize
      invariant |records| <= batchSize
      invariant Rest(file, offset, batchSize, records) == Batch(file, start, batchSize)
      decreases |file| - offset
    {
      var end := LineEnd(file, offset);
      if end == 0 {
        break;
      }
      ReadStep(file, offset, batchSize, records);
      var stripped := Strip(file[offset..end]);
      offset := end;
      if stripped != [] {
        records := records + [stripped];
      }
    }
    NothingLeft(file, offset, batchSize, records);
  }

  lemma RestOfNothing(file: Bytes, offset: nat, size: nat)
    ensures Rest(file, offset, size, []) == Batch(file, offset, size)
  {
    assert [] + Batch(file, offset, size).0 == Batch(file, offset, size).0;
  }

  lemma NothingLeft(file: Bytes, offset: nat, size: nat, records: seq<Bytes>)
    requires |records| <= size && (|records| == size || LineEnd(file, offset) == 0)
    ensures Rest(file, offset, size, records) == (records, offset)
  {
    assert records + [] == records;
  }
}
