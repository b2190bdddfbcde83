/** The growable I/O buffer. */
module BufferModel {
  import opened Common
  import opened Kernel

  const DEFAULT_CAP := 64
  const DEFAULT_STEP := 1024

  /** c doubled k times. */
  function Doubled(c: nat, k: nat): nat {
    if k == 0 then c else 2 * Doubled(c, k - 1)
  }

  /** The capacity after doubling c until it reaches need. */
  function Grown(c: nat, need: int): (g: nat)
    requires c > 0
    ensures g >= need && g >= c
    ensures g > c ==> 2 * c <= g < 2 * need
    decreases need - c
  {
    if c >= need then c else Grown(2 * c, need)
  }

  lemma {:induction false} DoubledTwice(c: nat, k: nat, j: nat)
    ensures Doubled(Doubled(c, k), j) == Doubled(c, k + j)
  {
    if j > 0 {
      DoubledTwice(c, k, j - 1);
    }
  }

  lemma {:induction false} GrownSteps(c: nat, need: int) returns (j: nat)
    requires c > 0
    ensures Grown(c, need) == Doubled(c, j)
    decreases need - c
  {
    if c >= need {
      j := 0;
    } else {
      var i := GrownSteps(2 * c, need);
      DoubledTwice(c, 1, i);
      assert Doubled(c, 1) == 2 * c by { assert Doubled(c, 0) == c; }
      j := 1 + i;
    }
  }

  /** Growing keeps the capacity a power of two times the first one. */
  lemma {:induction false} GrownIsDoubled(first: nat, c: nat, need: int)
    requires c > 0 && exists k: nat :: c == Doubled(first, k)
    ensures exists k: nat :: Grown(c, need) == Doubled(first, k)
  {
    var k: nat :| c == Doubled(first, k);
    var j := GrownSteps(c, need);
    DoubledTwice(first, k, j);
    assert Grown(c, need) == Doubled(first, k + j);
  }

  /** The part of a C string before its terminator. */
  function CString(s: string): string {
    if s == "" || s[0] == '\0' then "" else [s[0]] + CString(s[1..])
  }

  lemma {:induction false} NoZeroByte(s: string)
    requires '\0' !in s
    ensures CString(s) == s
  {
    if s != "" {
      assert s[0] in s && forall c :: c in s[1..] ==> c in s;
      NoZeroByte(s[1..]);
      assert s == [s[0]] + s[1..];
    }
  }

  /** What a C string is: everything in front of the first zero byte, or all if there is none. */
  lemma {:induction false} UpToZeroByte(s: string)
    ensures CString(s) <= s && '\0' !in CString(s)
    ensures CString(s) == s || s[|CString(s)|] == '\0'
  {
    if s != "" && s[0] != '\0' {
      UpToZeroByte(s[1..]);
      assert s == [s[0]] + s[1..];
    }
  }

  predicate IsZero(s: string) {
    forall i :: 0 <= i < |s| ==> s[i] == '\0'
  }

  /** The length of s without its trailing run of c. */
  function Stripped(s: string, c: char): (n: nat)
    ensures n <= |s|
  {
    if s == "" || s[|s| - 1] != c then |s| else Stripped(s[..|s| - 1], c)
  }

  /** Does an occurrence of end finish at index i of raw? */
  predicate EndsAt(raw: string, i: int, end: string) {
    |end| - 1 <= i < |raw| && raw[i - |end| + 1..i + 1] == end
  }

  /** No occurrence of end finishes in [from, to). */
  predicate NoneEnds(raw: string, from: int, to: int, end: string) {
    forall i :: from <= i < to ==> !EndsAt(raw, i, end)
  }

  /** The buffer is full and ends with all of end but its last byte: comparing that byte
      means looking behind the allocation. */
  predicate LooksBehind(raw: string, cap: nat, end: string)
    requires end != ""
  {
    |raw| == cap && |end| - 1 <= |raw| && raw[|raw| - |end| + 1..] == end[..|end| - 1]
  }

  lemma {:induction false} MismatchAt(raw: string, i: nat, end: string, k: nat)
    requires |end| - 1 <= i < |raw| && k < |end| && raw[i - |end| + 1 + k] != end[k]
    ensures !EndsAt(raw, i, end)
  {
    assert raw[i - |end| + 1..i + 1][k] == raw[i - |end| + 1 + k];
  }

  lemma {:induction false} MismatchBehind(raw: string, end: string, k: nat)
    requires |end| - 1 <= |raw| && k < |end| - 1 && raw[|raw| - |end| + 1 + k] != end[k]
    ensures !LooksBehind(raw, |raw|, end)
  {
    assert raw[|raw| - |end| + 1..][k] == raw[|raw| - |end| + 1 + k];
  }

  /** How a search ends: at the start of an occurrence, with the outcome of the read that
      did not return (the first `scanned` bytes were searched), or by reading the byte
      behind the allocation. */
  datatype Search = Found(at: nat) | Stopped(out: Outcome, scanned: nat) | Overread

  /** What a search leaves of a stream: nothing if a read did not return. */
  function Ahead(r: Search, a: seq<ReadAnswer>): (string, Outcome) {
    if r.Stopped? && !r.out.Count? then ("", r.out) else Ending(a)
  }

  /** Zeroing bytes and adding bytes behind makes no occurrence appear in the old part. */
  lemma {:induction false} ZeroingHidesNothing(raw: string, raw': string, from: int, end: string)
    requires end != "" && '\0' !in end && |raw| <= |raw'|
    requires forall j :: 0 <= j < |raw| ==> raw'[j] == raw[j] || raw'[j] == '\0'
    requires NoneEnds(raw, from, |raw|, end)
    ensures NoneEnds(raw', from, |raw|, end)
  {
    forall i | from <= i < |raw| ensures !EndsAt(raw', i, end) {
      OccurredBefore(raw, raw', i, end);
    }
  }

  lemma {:induction false} OccurredBefore(raw: string, raw': string, i: int, end: string)
    requires end != "" && '\0' !in end && i < |raw| <= |raw'|
    requires forall j :: 0 <= j < |raw| ==> raw'[j] == raw[j] || raw'[j] == '\0'
    ensures EndsAt(raw', i, end) ==> EndsAt(raw, i, end)
  {
    if EndsAt(raw', i, end) {
      var begin := i - |end| + 1;
      forall k | 0 <= k < |end| ensures raw[begin + k] == end[k] {
        assert raw'[begin..i + 1][k] == end[k];
        assert end[k] in end;
      }
      assert raw[begin..i + 1] == end;
    }
  }

  /** Bytes that stay in a sequence whose front may have been zeroed. */
  lemma {:induction false} OldBytes(before: string, after: string, start: nat)
    requires start <= |before| <= |after| && after[start..|before|] == before[start..]
    requires after[..start] == before[..start] || IsZero(after[..start])
    ensures forall j :: 0 <= j < |before| ==> after[j] == before[j] || after[j] == '\0'
  {
    forall j | 0 <= j < |before| ensures after[j] == before[j] || after[j] == '\0' {
      if j >= start {
        assert after[start..|before|][j - start] == before[start..][j - start];
      } else {
        assert after[j] == after[..start][j] && before[j] == before[..start][j];
      }
    }
  }

  /** Moving the first n of len pending bytes from one side of a sum to the other. */
  lemma {:induction false} FrontGoes(before: string, pending: string, len: nat, n: nat)
    requires n <= len <= |pending|
    ensures pending[..len][..n] == pending[..n]
    ensures (before + pending[..n]) + pending[n..] == before + pending
  {
    assert pending == pending[..n] + pending[n..];
    Assoc(before, pending[..n], pending[n..]);
  }

  lemma {:induction false} FrontLeft(gone: string, all: string, gone': string, n: nat)
    requires n <= |all| && gone + all == gone' + all[n..]
    ensures gone' == gone + all[..n]
  {
    assert all == all[..n] + all[n..];
    Assoc(gone, all[..n], all[n..]);
    var whole := gone + all;
    assert gone' == whole[..|gone'|];
    assert gone + all[..n] == whole[..|gone| + n];
  }

  /** One read of a step against the whole stream, came and gave being what came in and what
      was delivered before. */
  lemma {:induction false} StreamAhead(a: seq<ReadAnswer>, step: pos, came: string, gave: string)
    ensures var run := ReadUpTo(a, step);
            && |run.got| <= step && (!run.out.Count? ==> |run.got| < step)
            && (came + run.got) + Bytes(run.rest) == came + Bytes(a)
            && (gave + run.got) + Bytes(run.rest) == gave + Bytes(a)
            && (run.out.Count? ==> run.out.n == |run.got| && Weight(run.rest) < Weight(a))
            && (run.out.Blocked? ==> run.rest == [])
            && (came + run.got) + (if run.out.Count? then Ending(run.rest).0 else "") == came + Ending(a).0
            && Ending(a).1 == (if run.out.Count? then Ending(run.rest).1 else run.out)
  {
    ReadUpToConserves(a, step);
    ReadUpToCounts(a, step);
    EndingAhead(a, step);
    var run := ReadUpTo(a, step);
    Assoc(came, run.got, Bytes(run.rest));
    Assoc(gave, run.got, Bytes(run.rest));
    Assoc(came, run.got, if run.out.Count? then Ending(run.rest).0 else "");
    assert run.got + "" == run.got;
  }

  /** Slices of an array through a longer slice. */
  lemma {:induction false} Slices(a: array<char>, i: nat, j: nat, k: nat)
    requires i <= j <= k <= a.Length
    ensures a[..k][i..j] == a[i..j] && a[..k][..i] == a[..i]
    ensures a[i..k][j - i..] == a[j..k] && a[i..k][..j - i] == a[i..j]
  {
  }

  class Buffer {
    var data: array<char>   // `_buffer`; its length is `_cap`
    var start: nat          // `_start`
    var offset: nat         // `_offset`
    ghost var gone: string     // history: bytes that left by the front, written or cleared
    ghost var received: string // history: bytes that came in, read or appended
    ghost var firstCap: nat    // history: the capacity at construction
    ghost var copied: nat      // history: bytes copied by all resizes
    ghost var largest: int     // history: the largest capacity ever requested

    /** The bytes waiting in the buffer. */
    function Contents(): string
      reads this, data
      requires start <= offset <= data.Length
    {
      data[start..offset]
    }

    /** Every byte up to `_offset`, consumed ones included. */
    function Raw(): string
      reads this, data
      requires offset <= data.Length
    {
      data[..offset]
    }

    /** The growth bound: all copying so far has been paid for by the growth so far. */
    ghost predicate GrowthOk()
      reads this
    {
      && 0 < firstCap <= data.Length
      && (exists k: nat :: data.Length == Doubled(firstCap, k))
      && copied <= data.Length - firstCap
      && (data.Length > firstCap ==> data.Length < 2 * largest)
    }

    ghost predicate TailOk()
      reads this, data
    {
      offset <= data.Length && IsZero(data[offset..])
    }

    ghost predicate Valid()
      reads this, data
    {
      && start <= offset <= data.Length
      && TailOk()
      && GrowthOk()
      && received == gone + Contents()
    }

    constructor (cap: nat)
      requires cap > 0
      ensures Valid() && fresh(data)
      ensures data.Length == cap == firstCap && start == offset == 0 && Contents() == ""
      ensures received == gone == "" && copied == 0
    {
      data := new char[cap](_ => '\0');
      start, offset := 0, 0;
      gone, received := "", "";
      firstCap, copied, largest := cap, 0, 0;
      new;
      assert data.Length == Doubled(firstCap, 0);
    }

    /** Makes room for cap bytes.  Pending bytes stay, consumed ones become zero if the
        allocation moved; the copying is paid for by the growth. */
    method Resize(cap: int)
      requires Valid()
      modifies this
      ensures Valid() && (data == old(data) || fresh(data))
      ensures start == old(start) && offset == old(offset) && gone == old(gone) && received == old(received)
      ensures firstCap == old(firstCap) && largest == (if cap > old(largest) then cap else old(largest))
      ensures copied == old(copied) + if data.Length > old(data.Length) then offset - start else 0
      ensures data.Length == Grown(old(data.Length), cap)
      ensures Contents() == old(Contents())
      ensures data.Length == old(data.Length) ==> data == old(data)
      ensures data != old(data) ==> IsZero(data[..start])
    {
      largest := if cap > largest then cap else largest;
      if data.Length >= cap {
        return;
      }
      GrownIsDoubled(firstCap, data.Length, cap);
      var size := NextSize(data.Length, cap);
      var next := Moved(size);
      copied := copied + (offset - start);
      data := next;
    }

    static method NextSize(c: nat, need: int) returns (size: nat)
      requires 0 < c < need
      ensures size == Grown(c, need) && 2 * c <= size < 2 * need
    {
      size := c;
      while size < need
        invariant c <= size && Grown(size, need) == Grown(c, need)
        invariant size == c || 2 * c <= size
      {
        size := size * 2;
      }
    }

    /** A larger allocation, zeroed, with the pending bytes in their places. */
    method Moved(size: nat) returns (next: array<char>)
      requires start <= offset <= data.Length <= size
      ensures fresh(next) && next.Length == size
      ensures IsZero(next[..start]) && next[start..offset] == data[start..offset] && IsZero(next[offset..])
    {
      next := new char[size](_ => '\0');
      var i := start;
      while i < offset
        invariant start <= i <= offset
        invariant forall j :: 0 <= j < size ==> next[j] == if start <= j < i then data[j] else '\0'
      {
        next[i] := data[i];
        i := i + 1;
      }
    }

    method Clear()
      requires Valid()
      modifies this, data
      ensures Valid() && data == old(data)
      ensures start == offset == 0 && Contents() == ""
      ensures gone == old(gone) + old(Contents()) && received == old(received)
      ensures copied == old(copied) && largest == old(largest) && firstCap == old(firstCap)
    {
      gone := gone + Contents();
      forall i | 0 <= i < data.Length {
        data[i] := '\0';
      }
      start, offset := 0, 0;
    }

    /** The kernel, or a copying loop, fills in bytes behind the pending ones. */
    method Store(bytes: string)
      requires Valid() && offset + |bytes| <= data.Length
      modifies this, data
      ensures Valid() && data == old(data)
      ensures start == old(start) && offset == old(offset) + |bytes|
      ensures gone == old(gone) && firstCap == old(firstCap) && copied == old(copied) && largest == old(largest)
      ensures received == old(received) + bytes
      ensures Contents() == old(Contents()) + bytes
      ensures Raw() == old(Raw()) + bytes
    {
      Place(bytes);
      assert data[offset..offset + |bytes|] == bytes;
      assert data[..offset] == old(data[..offset]);
      assert data[start..offset] == old(data[start..offset]);
      assert data[start..offset + |bytes|] == data[start..offset] + data[offset..offset + |bytes|];
      assert data[..offset + |bytes|] == data[..offset] + data[offset..offset + |bytes|];
      assert forall j :: offset <= j < data.Length ==> old(data[j]) == old(data[offset..])[j - offset];
      assert IsZero(data[offset + |bytes|..]);
      offset := offset + |bytes|;
      received := received + bytes;
      Assoc(gone, old(Contents()), bytes);
    }

    /** The copying loop. */
    method Place(bytes: string)
      requires offset + |bytes| <= data.Length
      modifies data
      ensures forall j :: 0 <= j < data.Length ==>
                data[j] == if offset <= j < offset + |bytes| then bytes[j - offset] else old(data[j])
    {
      var i := 0;
      while i < |bytes|
        invariant 0 <= i <= |bytes|
        invariant forall j :: 0 <= j < data.Length ==>
                    data[j] == if offset <= j < offset + i then bytes[j - offset] else old(data[j])
      {
        data[offset + i] := bytes[i];
        i := i + 1;
      }
    }

    /** Reads until len bytes came, the kernel has no more, or it reports the end or an error. */
    method ReadNio(src: Source, len: nat) returns (r: Outcome)
      requires Valid()
      modifies this, data, src
      ensures Valid() && (data == old(data) || fresh(data))
      ensures var run := ReadUpTo(old(src.answers), len);
              && r == run.out && src.answers == run.rest
              && src.delivered == old(src.delivered) + run.got
              && received == old(received) + run.got
              && offset == old(offset) + |run.got|
              && Raw() == data[..old(offset)] + run.got
      ensures start == old(start) && gone == old(gone) && firstCap == old(firstCap)
      ensures data.Length == Grown(old(data.Length), old(offset) + len)
      ensures data[start..old(offset)] == old(Contents())
      ensures data[..start] == old(data[..start]) || IsZero(data[..start])
      ensures copied == old(copied) + if data.Length > old(data.Length) then old(offset) - start else 0
      ensures largest == if old(offset) + len > old(largest) then old(offset) + len else old(largest)
    {
      Resize(offset + len);
      label Resized:
      r := Fill(src, len);
      assert data[..old(offset)] == old@Resized(data[..offset]);
      assert data[start..old(offset)] == data[..old(offset)][start..];
      assert data[..start] == data[..old(offset)][..start] == old@Resized(data[..start]);
    }

    /** What one call added to the buffer, everything else being as it was. */
    twostate predicate Appended(bytes: string)
      reads this, data
    {
      && Framed()
      && old(offset) <= old(data.Length) && offset <= data.Length
      && offset == old(offset) + |bytes|
      && Raw() == old(Raw()) + bytes
      && received == old(received) + bytes
    }

    /** What reading by steps costs: no request goes more than one step behind the last byte
        read, and the copying is paid for by the growth. */
    twostate predicate Cheap(step: nat)
      reads this
    {
      && old(copied) <= copied <= old(copied) + (data.Length - old(data.Length))
      && old(largest) <= largest && (largest == old(largest) || largest <= offset + step)
    }

    /** One system call and what it puts into the buffer. */
    method ReadOnce(src: Source, want: nat) returns (curr: Sys)
      requires Valid() && offset + want <= data.Length
      modifies this, data, src
      ensures Valid()
      ensures var c := ReadCall(old(src.answers), want);
              Appended(c.0) && src.answers == c.1 && curr == c.2 && src.delivered == old(src.delivered) + c.0
    {
      ReadCallConserves(src.answers, want);
      var bytes;
      bytes, curr := src.Read(want);
      Store(bytes);
    }

    /** Only bytes were added. */
    twostate predicate Framed()
      reads this
    {
      && data == old(data) && start == old(start) && gone == old(gone)
      && firstCap == old(firstCap) && copied == old(copied) && largest == old(largest)
    }

    /** The buffer and the descriptor after got has been read, since raw, came and gave. */
    ghost predicate Reached(src: Source, raw: string, came: string, gave: string, got: string)
      reads this, data, src
    {
      && Valid() && offset == |raw| + |got|
      && Raw() == raw + got && received == came + got && src.delivered == gave + got
    }

    /** One round of the reading loop, against what is still to be done. */
    method FillOnce(src: Source, left: nat, ghost got: string, ghost run: ReadRun, ghost raw: string,
          ghost came: string, ghost gave: string)
      returns (curr: Sys, ghost more: string)
      requires Reached(src, raw, came, gave, got)
      requires offset + left <= data.Length && run == ReadFrom(got, src.answers, left)
      modifies this, data, src
      ensures Reached(src, raw, came, gave, more)
      ensures Framed()
      ensures |got| <= |more| <= |got| + left && Weight(src.answers) + |more| <= old(Weight(src.answers)) + |got|
      ensures curr.Moved? ==> |more| == |got| + curr.n
      ensures run == if curr.Moved? && 0 < curr.n < left then ReadFrom(more, src.answers, left - curr.n)
                     else if curr.Moved? && 0 < curr.n then ReadRun(more, src.answers, Count(|more|))
                     else ReadRun(more, src.answers, StopOf(curr, |got|))
    {
      ReadCallConserves(src.answers, left);
      ghost var bytes := ReadCall(src.answers, left).0;
      Assoc(raw, got, bytes);
      Assoc(came, got, bytes);
      Assoc(gave, got, bytes);
      more := got + bytes;
      curr := ReadOnce(src, left);
    }

    /** The reading loop proper, into room that is there. */
    method Fill(src: Source, len: nat) returns (r: Outcome)
      requires Valid() && offset + len <= data.Length
      modifies this, data, src
      ensures Valid()
      ensures var run := ReadUpTo(old(src.answers), len);
              && Appended(run.got) && r == run.out
              && src.answers == run.rest && src.delivered == old(src.delivered) + run.got
    {
      ghost var run := ReadUpTo(src.answers, len);
      ghost var raw, came, gave, got := Raw(), received, src.delivered, "";
      var total, left := 0, len;
      ReadFromIs("", src.answers, len);
      assert run == After("", run);
      while true
        invariant Reached(src, raw, came, gave, got)
        invariant Framed()
        invariant |got| == total && total + left == len && left >= 0 && run == ReadFrom(got, src.answers, left)
        decreases Weight(src.answers)
      {
        var curr;
        curr, got := FillOnce(src, left, got, run, raw, came, gave);
        if !curr.Moved? || curr.n == 0 {
          return StopOf(curr, total);
        }
        total, left := total + curr.n, left - curr.n;
        if left == 0 {
          return Count(total);
        }
      }
    }

    /** One round of the loop that reads all that is available, which began with came in and gave
        delivered. */
    method BlockRound(src: Source, ghost got: string, ghost run: ReadRun, ghost came: string, ghost gave: string)
      returns (curr: Outcome, ghost more: string)
      requires Valid() && received == came + got && src.delivered == gave + got
      requires run == ReadAllFrom(got, src.answers, DEFAULT_STEP)
      modifies this, data, src
      ensures Valid() && (data == old(data) || fresh(data))
      ensures received == came + more && src.delivered == gave + more
      ensures start == old(start) && gone == old(gone) && firstCap == old(firstCap)
      ensures |more| >= |got| && offset == old(offset) + |more| - |got|
      ensures copied == old(copied) + if data.Length > old(data.Length) then old(offset) - start else 0
      ensures data.Length == Grown(old(data.Length), old(offset) + DEFAULT_STEP)
      ensures largest == if old(offset) + DEFAULT_STEP > old(largest) then old(offset) + DEFAULT_STEP else old(largest)
      ensures curr.Count? ==> |more| == |got| + curr.n && Weight(src.answers) < old(Weight(src.answers))
      ensures run == if curr.Count? && curr.n > 0 then ReadAllFrom(more, src.answers, DEFAULT_STEP)
                     else ReadRun(more, src.answers, if curr.Count? then Count(|got|) else curr)
    {
      ReadUpToCounts(src.answers, DEFAULT_STEP);
      ghost var part := ReadUpTo(src.answers, DEFAULT_STEP);
      Assoc(came, got, part.got);
      Assoc(gave, got, part.got);
      more := got + part.got;
      curr := ReadNio(src, DEFAULT_STEP);
    }

    /** Reads all that is available.  Room for another step is left. */
    method ReadNioTillBlock(src: Source) returns (r: Outcome)
      requires Valid()
      modifies this, data, src
      ensures Valid() && (data == old(data) || fresh(data))
      ensures var run := ReadAll(old(src.answers), DEFAULT_STEP);
              && r == run.out && src.answers == run.rest
              && src.delivered == old(src.delivered) + run.got
              && received == old(received) + run.got
      ensures offset == old(offset) + |ReadAll(old(src.answers), DEFAULT_STEP).got|
      ensures start == old(start) && gone == old(gone) && firstCap == old(firstCap)
      ensures r.Count? ==> offset + DEFAULT_STEP <= data.Length
      ensures Cheap(DEFAULT_STEP) && old(offset) + DEFAULT_STEP <= largest
    {
      ghost var run := ReadAll(src.answers, DEFAULT_STEP);
      ghost var came, gave, got, asked := received, src.delivered, "", false;
      var total := 0;
      ReadAllFromIs("", src.answers, DEFAULT_STEP);
      assert run == After("", run);
      while true
        invariant Valid() && (data == old(data) || fresh(data))
        invariant start == old(start) && gone == old(gone) && firstCap == old(firstCap)
        invariant Cheap(DEFAULT_STEP)
        invariant if asked then old(offset) + DEFAULT_STEP <= largest else offset == old(offset)
        invariant offset == old(offset) + |got| && |got| == total
        invariant received == came + got && src.delivered == gave + got
        invariant run == ReadAllFrom(got, src.answers, DEFAULT_STEP)
        decreases Weight(src.answers)
      {
        var curr;
        curr, got := BlockRound(src, got, run, came, gave);
        asked := true;
        if !curr.Count? {
          return curr;
        }
        total := total + curr.n;
        if curr.n == 0 {
          return Count(total);
        }
      }
    }

    /** The same, with the end of file taken as one more way to stop. */
    method ReadNioTillBlockOrEOF(src: Source) returns (r: Outcome)
      requires Valid()
      modifies this, data, src
      ensures Valid() && (data == old(data) || fresh(data))
      ensures var run := ReadAll(old(src.answers), DEFAULT_STEP);
              && r == (if run.out.Count? || run.out.EndOfFile? then Count(|run.got|) else run.out)
              && src.answers == run.rest
              && src.delivered == old(src.delivered) + run.got
              && received == old(received) + run.got
      ensures start == old(start) && gone == old(gone) && firstCap == old(firstCap)
      ensures Cheap(DEFAULT_STEP) && old(offset) + DEFAULT_STEP <= largest
    {
      var begin := offset;
      ReadAllConserves(src.answers, DEFAULT_STEP);
      r := ReadNioTillBlock(src);
      if r.Count? || r.EndOfFile? {
        assert |received| == |gone| + (offset - start);
        r := Count(offset - begin);
      }
    }

    /** Does the string occur so that it ends at index i?  None: the comparison read the
        byte behind the allocation. */
    method OccursAt(i: nat, end: string) returns (found: Option<bool>)
      requires Valid() && |end| > 0 && |end| - 1 <= i <= offset && '\0' !in end
      ensures i < offset ==> found == Some(EndsAt(Raw(), i, end))
      ensures i == offset && offset < data.Length ==> found == Some(false)
      ensures found != Some(true) || i < offset
      ensures found == None <==> i == offset && LooksBehind(Raw(), data.Length, end)
    {
      var begin := i - |end| + 1;
      var k := 0;
      while k < |end|
        invariant 0 <= k <= |end|
        invariant forall j :: 0 <= j < k ==> begin + j < data.Length && data[begin + j] == end[j]
      {
        if begin + k == data.Length {
          assert Raw()[begin..] == end[..|end| - 1];
          return None;
        }
        if data[begin + k] != end[k] {
          if i < offset {
            MismatchAt(Raw(), i, end, k);
          } else if offset == data.Length {
            MismatchBehind(Raw(), end, k);
          }
          return Some(false);
        }
        k := k + 1;
      }
      assert end[|end| - 1] in end && end[|end| - 1] != '\0';
      assert i < data.Length && data[i] == end[|end| - 1];
      assert offset < data.Length ==> data[offset..][0] == '\0';
      assert i < offset;
      assert Raw()[begin..i + 1] == end;
      return Some(true);
    }

    /** The scan after a read of curr bytes: only occurrences that end among those bytes
        are looked for, and the byte at `_offset` is looked at too. */
    method Scan(curr: nat, end: string) returns (r: Search)
      requires Valid() && curr <= offset && |end| > 0 && '\0' !in end
      ensures !r.Stopped? || r == Stopped(Count(0), offset)
      ensures r.Found? ==>
                && offset - curr <= r.at + |end| - 1
                && EndsAt(Raw(), r.at + |end| - 1, end)
                && NoneEnds(Raw(), offset - curr, r.at + |end| - 1, end)
      ensures !r.Found? ==> NoneEnds(Raw(), offset - curr, offset, end)
      ensures r.Overread? ==> LooksBehind(Raw(), data.Length, end)
      ensures r.Stopped? ==> !LooksBehind(Raw(), data.Length, end)
    {
      var i := Max(offset - curr, |end| - 1);
      while i <= offset
        invariant Max(offset - curr, |end| - 1) <= i
        invariant NoneEnds(Raw(), offset - curr, Min(i, offset), end)
        invariant i > offset ==> !LooksBehind(Raw(), data.Length, end)
        decreases offset + 1 - i
      {
        var found := OccursAt(i, end);
        if found.None? {
          return Overread;
        }
        if found.value {
          return Found(i - |end| + 1);
        }
        i := i + 1;
      }
      return Stopped(Count(0), offset);
    }

    /** What a search that began when from bytes were in the buffer has established. */
    ghost predicate SearchOk(r: Search, from: nat, end: string, step: pos)
      reads this, data
      requires offset <= data.Length && end != ""
    {
      match r
      case Found(at) =>
        && from <= at + |end| - 1 && offset - step <= at + |end| - 1
        && EndsAt(Raw(), at + |end| - 1, end)
        && NoneEnds(Raw(), from, at + |end| - 1, end)
      case Stopped(_, scanned) =>
        from <= scanned <= offset < scanned + step && NoneEnds(Raw(), from, scanned, end)
      case Overread =>
        NoneEnds(Raw(), from, offset, end) && LooksBehind(Raw(), data.Length, end)
    }

    /** Reads by steps until an occurrence of end finishes among the bytes read. */
    method ReadNioTillEnd(src: Source, end: string, step: pos) returns (r: Search)
      requires Valid() && end != "" && '\0' !in end
      modifies this, data, src
      ensures Valid() && (data == old(data) || fresh(data))
      ensures start == old(start) && gone == old(gone) && firstCap == old(firstCap)
      ensures Cheap(step) && old(offset) + step <= largest
      ensures old(received) <= received && received + Bytes(src.answers) == old(received + Bytes(src.answers))
      ensures src.delivered + Bytes(src.answers) == old(src.delivered + Bytes(src.answers))
      ensures old(offset) <= offset && SearchOk(r, old(offset), end, step)
      ensures r.Stopped? ==> !r.out.Count? && (r.out.Blocked? ==> src.answers == [])
      ensures received + Ahead(r, src.answers).0 == old(received + Ending(src.answers).0)
      ensures Ahead(r, src.answers).1 == Ending(old(src.answers)).1
      ensures step == |end| == 1 && old(offset < data.Length) ==>
                data.Length == old(data.Length) && (r.Stopped? ==> offset < data.Length)
    {
      ghost var from, asked := offset, false;
      r := Stopped(Count(0), offset);
      while r.Stopped? && r.out.Count?
        invariant Valid() && (data == old(data) || fresh(data))
        invariant start == old(start) && gone == old(gone) && firstCap == old(firstCap)
        invariant old(received) <= received && received + Bytes(src.answers) == old(received + Bytes(src.answers))
        invariant src.delivered + Bytes(src.answers) == old(src.delivered + Bytes(src.answers))
        invariant from <= offset && SearchOk(r, from, end, step)
        invariant Cheap(step) && (if asked then old(offset) + step <= largest else r.Stopped? && r.out.Count?)
        invariant r.Stopped? ==>
                    && (r.out.Count? ==> r.scanned == offset)
                    && (r.out.Blocked? ==> src.answers == [])
        invariant received + Ahead(r, src.answers).0 == old(received + Ending(src.answers).0)
        invariant Ahead(r, src.answers).1 == Ending(old(src.answers)).1
        invariant step == |end| == 1 && old(offset < data.Length) ==>
                    data.Length == old(data.Length) && (r.Stopped? ==> offset < data.Length)
        decreases r.Stopped? && r.out.Count?, Weight(src.answers)
      {
        r := ReadAndScan(src, end, step, from);
        asked := true;
      }
    }

    /** One round: a step read, then, if it brought something, a scan. */
    method ReadAndScan(src: Source, end: string, step: pos, ghost from: nat) returns (r: Search)
      requires Valid() && end != "" && '\0' !in end
      requires from <= offset && NoneEnds(Raw(), from, offset, end)
      modifies this, data, src
      ensures Valid() && (data == old(data) || fresh(data))
      ensures start == old(start) && gone == old(gone) && firstCap == old(firstCap)
      ensures Cheap(step) && old(offset) + step <= largest
      ensures old(received) <= received && received + Bytes(src.answers) == old(received + Bytes(src.answers))
      ensures src.delivered + Bytes(src.answers) == old(src.delivered + Bytes(src.answers))
      ensures old(offset) <= offset && SearchOk(r, from, end, step)
      ensures r.Stopped? ==>
                && (r.out.Count? ==> r.scanned == offset && Weight(src.answers) < old(Weight(src.answers)))
                && (r.out.Blocked? ==> src.answers == [])
      ensures received + Ahead(r, src.answers).0 == old(received + Ending(src.answers).0)
      ensures Ahead(r, src.answers).1 == Ending(old(src.answers)).1
      ensures step == |end| == 1 && old(offset < data.Length) ==>
                data.Length == old(data.Length) && (r.Stopped? ==> offset < data.Length)
    {
      var searched := offset;
      var curr := ReadStep(src, end, step, from);
      if !curr.Count? {
        return Stopped(curr, searched);
      }
      r := Stopped(curr, offset);
      if curr.n > 0 {
        r := Scan(curr.n, end);
      }
    }

    /** One step of that loop: occurrences that finish in the old bytes do not appear. */
    method ReadStep(src: Source, end: string, step: pos, ghost from: nat) returns (curr: Outcome)
      requires Valid() && end != "" && '\0' !in end
      requires from <= offset && NoneEnds(Raw(), from, offset, end)
      modifies this, data, src
      ensures Valid() && (data == old(data) || fresh(data))
      ensures start == old(start) && gone == old(gone) && firstCap == old(firstCap)
      ensures Cheap(step) && old(offset) + step <= largest
      ensures Advanced(src, step, curr)
      ensures NoneEnds(Raw(), from, old(offset), end)
      ensures data.Length == Grown(old(data.Length), old(offset) + step)
    {
      ghost var raw := Raw();
      Slices(data, start, offset, offset);
      curr := Advance(src, step);
      Slices(data, start, |raw|, offset);
      OldBytes(raw, Raw(), start);
      ZeroingHidesNothing(raw, Raw(), from, end);
    }

    /** What one read of a step takes from the stream. */
    twostate predicate Advanced(src: Source, step: pos, curr: Outcome)
      reads this, src
    {
      && old(offset) <= offset <= old(offset) + step && (!curr.Count? ==> offset < old(offset) + step)
      && old(received) <= received && received + Bytes(src.answers) == old(received + Bytes(src.answers))
      && src.delivered + Bytes(src.answers) == old(src.delivered + Bytes(src.answers))
      && curr == ReadUpTo(old(src.answers), step).out
      && (curr.Count? ==> offset == old(offset) + curr.n && Weight(src.answers) < old(Weight(src.answers)))
      && (curr.Blocked? ==> src.answers == [])
      && received + (if curr.Count? then Ending(src.answers).0 else "") == old(received + Ending(src.answers).0)
      && Ending(old(src.answers)).1 == (if curr.Count? then Ending(src.answers).1 else curr)
    }

    /** That read.  Consumed bytes may become zero. */
    method Advance(src: Source, step: pos) returns (curr: Outcome)
      requires Valid()
      modifies this, data, src
      ensures Valid() && (data == old(data) || fresh(data))
      ensures start == old(start) && gone == old(gone) && firstCap == old(firstCap)
      ensures Cheap(step) && old(offset) + step <= largest
      ensures Advanced(src, step, curr)
      ensures data.Length == Grown(old(data.Length), old(offset) + step)
      ensures old(offset) <= offset && data[start..old(offset)] == old(Contents())
      ensures data[..start] == old(data[..start]) || IsZero(data[..start])
    {
      StreamAhead(src.answers, step, received, src.delivered);
      curr := ReadNio(src, step);
    }

    /** The first n pending bytes left by the front, everything else being as it was. */
    twostate predicate Left(n: nat)
      reads this, data
    {
      && data == old(data) && offset == old(offset) && received == old(received)
      && firstCap == old(firstCap) && copied == old(copied) && largest == old(largest)
      && old(start) + n == start <= offset <= old(data.Length)
    }

    /** The first n pending bytes are gone. */
    method Consume(n: nat)
      requires Valid() && n <= offset - start
      modifies this`start, this`gone
      ensures Valid() && Left(n) && Contents() == old(Contents())[n..]
      ensures gone == old(gone) + old(Contents())[..n]
    {
      ghost var pending := Contents();
      Slices(data, start, start + n, offset);
      assert pending == pending[..n] + pending[n..];
      Assoc(gone, pending[..n], pending[n..]);
      gone := gone + pending[..n];
      start := start + n;
    }

    /** One system call: what the descriptor accepts of the first bytes. */
    method SendFront(dst: Sink, len: nat) returns (curr: Sys)
      requires Valid() && 0 < len <= offset - start
      modifies dst
      ensures var c := WriteCall(old(dst.answers), len);
              c.0 <= len && dst.answers == c.1 && curr == c.2 && dst.accepted == old(dst.accepted) + Contents()[..c.0]
    {
      var bytes := data[start..start + len];
      Slices(data, start, start + len, offset);
      curr := dst.Write(bytes);
    }

    /** One system call and what it takes out of the buffer. */
    method WriteOnce(dst: Sink, len: nat) returns (curr: Sys)
      requires Valid() && 0 < len <= offset - start
      modifies this, dst
      ensures Valid()
      ensures var c := WriteCall(old(dst.answers), len);
              Left(c.0) && dst.answers == c.1 && curr == c.2
      ensures dst.accepted + Contents() == old(dst.accepted + Contents())
    {
      ghost var before, pending := dst.accepted, Contents();
      curr := SendFront(dst, len);
      if curr.Moved? {
        FrontGoes(before, pending, len, curr.n);
        Consume(curr.n);
      } else {
        assert pending[..0] == "" && before + "" == before;
      }
    }

    /** One round of the writing loop, against what is still to be done. */
    method PushOnce(dst: Sink, left: nat, ghost total: nat, ghost run: WriteRun) returns (curr: Sys)
      requires Valid() && 0 < left <= offset - start && run == WriteFrom(total, dst.answers, left)
      modifies this, dst
      ensures Valid() && dst.accepted + Contents() == old(dst.accepted + Contents())
      ensures if curr.Moved? then
                && 0 < curr.n <= left && Left(curr.n)
                && run == WriteFrom(total + curr.n, dst.answers, left - curr.n)
              else Left(0) && run == WriteRun(total, dst.answers, StopOf(curr, total))
    {
      curr := WriteOnce(dst, left);
    }

    /** The writing loop proper. */
    method Push(dst: Sink, len: nat) returns (r: Outcome)
      requires Valid() && 0 < len <= offset - start
      modifies this, dst
      ensures Valid()
      ensures var w := WriteUpTo(old(dst.answers), len);
              w.sent <= len && Left(w.sent) && r == w.out && dst.answers == w.rest
      ensures dst.accepted + Contents() == old(dst.accepted + Contents())
    {
      ghost var run := WriteUpTo(dst.answers, len);
      var left, total := len, 0;
      while left != 0
        invariant 0 <= total && 0 <= left && left + total == len
        invariant Valid() && Left(total)
        invariant dst.accepted + Contents() == old(dst.accepted + Contents())
        invariant run == WriteFrom(total, dst.answers, left)
      {
        var curr := PushOnce(dst, left, total, run);
        if !curr.Moved? {
          return StopOf(curr, total);
        }
        left, total := left - curr.n, total + curr.n;
      }
      return Count(total);
    }

    /** Writes len pending bytes, as far as the kernel takes them now. */
    method WriteNio(dst: Sink, len: nat) returns (r: Outcome)
      requires Valid() && 0 < len <= offset - start
      modifies this, dst
      ensures Valid()
      ensures var w := WriteUpTo(old(dst.answers), len);
              && w.sent <= len && Left(w.sent) && r == w.out && dst.answers == w.rest
              && dst.accepted == old(dst.accepted) + old(Contents())[..w.sent]
              && gone == old(gone) + old(Contents())[..w.sent]
    {
      ghost var sent := WriteUpTo(dst.answers, len).sent;
      r := Push(dst, len);
      Slices(data, old(start), start, offset);
      FrontLeft(old(gone), old(Contents()), gone, sent);
      FrontLeft(old(dst.accepted), old(Contents()), dst.accepted, sent);
    }

    /** Writes until the kernel takes no more or nothing is left.  Ends whatever the kernel does. */
    method WriteNioTillBlock(dst: Sink) returns (r: Outcome)
      requires Valid()
      modifies this, dst
      ensures Valid() && old(start) <= start && Left(start - old(start))
      ensures var sent := old(Contents())[..start - old(start)];
              dst.accepted == old(dst.accepted) + sent && gone == old(gone) + sent
      ensures SendAvailable(0, old(dst.answers), old(offset - start), DEFAULT_STEP)
              == WriteRun(start - old(start), dst.answers, r)
      ensures SendOk(WriteRun(start - old(start), dst.answers, r), 0, old(dst.answers), old(offset - start))
    {
      ghost var left, accepted, away, begin := Contents(), dst.accepted, gone, start;
      SendAvailableOk(0, dst.answers, offset - start, DEFAULT_STEP);
      r := PushTillBlock(dst);
      Slices(data, begin, start, offset);
      FrontLeft(away, left, gone, start - begin);
      FrontLeft(accepted, left, dst.accepted, start - begin);
    }

    /** One step of writing what can be written now, against what is still to be done. */
    method PushSome(dst: Sink, step: pos, ghost total: nat, ghost left: nat, ghost run: WriteRun)
      returns (curr: Outcome)
      requires Valid() && 0 < left == offset - start && run == SendAvailable(total, dst.answers, left, step)
      modifies this, dst
      ensures Valid() && dst.accepted + Contents() == old(dst.accepted + Contents())
      ensures old(start) <= start && Left(start - old(start))
      ensures curr.Count? ==> curr.n <= left && start == old(start) + curr.n
      ensures run == if !curr.Count? then WriteRun(total + (start - old(start)), dst.answers, curr)
                     else if curr.n == 0 then WriteRun(total, dst.answers, Count(total))
                     else SendAvailable(total + curr.n, dst.answers, left - curr.n, Min(step, left))
    {
      WriteUpToBounds(dst.answers, Min(step, left));
      curr := Push(dst, Min(step, offset - start));
    }

    /** One step of writing everything. */
    method PushMore(dst: Sink, step: pos, ghost total: nat, ghost left: nat, ghost run: WriteRun)
      returns (curr: Outcome)
      requires Valid() && 0 < left == offset - start && run == SendAll(total, dst.answers, left, step)
      modifies this, dst
      ensures Valid() && dst.accepted + Contents() == old(dst.accepted + Contents())
      ensures old(start) <= start && Left(start - old(start))
      ensures curr.Count? ==> curr.n <= left && start == old(start) + curr.n
      ensures curr.Count? ==> |dst.answers| < |old(dst.answers)|
      ensures run == if !curr.Count? then WriteRun(total + (start - old(start)), dst.answers, curr)
                     else SendAll(total + curr.n, dst.answers, left - curr.n, Min(step, left))
    {
      WriteUpToBounds(dst.answers, Min(step, left));
      curr := Push(dst, Min(step, offset - start));
    }

    /** The loop of WriteNioTillBlock. */
    method PushTillBlock(dst: Sink) returns (r: Outcome)
      requires Valid()
      modifies this, dst
      ensures Valid() && old(start) <= start && Left(start - old(start))
      ensures dst.accepted + Contents() == old(dst.accepted + Contents())
      ensures SendAvailable(0, old(dst.answers), old(offset - start), DEFAULT_STEP)
              == WriteRun(start - old(start), dst.answers, r)
    {
      var left: nat := offset - start;
      ghost var run := SendAvailable(0, dst.answers, left, DEFAULT_STEP);
      var total, step: nat := 0, DEFAULT_STEP;
      while start != offset
        invariant 0 <= total && step > 0
        invariant Valid() && Left(total) && left == offset - start
        invariant dst.accepted + Contents() == old(dst.accepted + Contents())
        invariant run == SendAvailable(total, dst.answers, left, step)
        decreases offset - start
      {
        var curr := PushSome(dst, step, total, left, run);
        step := Min(step, left);
        if !curr.Count? {
          return curr;
        }
        total := total + curr.n;
        if curr.n == 0 {
          return Count(total);
        }
        left := left - curr.n;
      }
      return Count(total);
    }

    /** The loop of the next method. */
    method PushAll(dst: Sink, step: pos) returns (r: Outcome)
      requires Valid()
      modifies this, dst
      ensures Valid() && old(start) <= start && Left(start - old(start))
      ensures dst.accepted + Contents() == old(dst.accepted + Contents())
      ensures SendAll(0, old(dst.answers), old(offset - start), step) == WriteRun(start - old(start), dst.answers, r)
    {
      var left: nat := offset - start;
      ghost var run := SendAll(0, dst.answers, left, step);
      var total, size: nat := 0, step;
      while start != offset
        invariant 0 <= total && size > 0
        invariant Valid() && Left(total) && left == offset - start
        invariant dst.accepted + Contents() == old(dst.accepted + Contents())
        invariant run == SendAll(total, dst.answers, left, size)
        decreases offset - start, |dst.answers|
      {
        var curr := PushMore(dst, size, total, left, run);
        size := Min(size, left);
        if !curr.Count? {
          return curr;
        }
        total := total + curr.n;
        left := left - curr.n;
      }
      r := Count(total);
    }

    /** Writes until nothing is left, sleeping whenever the kernel takes no more, then clears. */
    method WriteNioTillEnd(dst: Sink, step: pos) returns (r: Outcome)
      requires Valid()
      modifies this, data, dst
      ensures Valid() && data == old(data) && received == old(received)
      ensures firstCap == old(firstCap) && copied == old(copied) && largest == old(largest)
      ensures var w := SendAll(0, old(dst.answers), old(offset - start), step);
              && r == w.out && dst.answers == w.rest && SendOk(w, 0, old(dst.answers), old(offset - start))
              && dst.accepted == old(dst.accepted) + old(Contents())[..w.sent]
              && gone == old(gone) + old(Contents())[..w.sent]
              && if r.Count? then w.sent == old(offset - start) && start == offset == 0
                 else start == old(start) + w.sent && offset == old(offset) && Raw() == old(Raw())
    {
      ghost var left, accepted, away, begin := Contents(), dst.accepted, gone, start;
      SendAllOk(0, dst.answers, offset - start, step);
      r := PushAll(dst, step);
      Slices(data, begin, start, offset);
      FrontLeft(away, left, gone, start - begin);
      FrontLeft(accepted, left, dst.accepted, start - begin);
      if r.Count? {
        assert Contents() == "";
        assert gone + "" == gone;
        Clear();
      }
    }

    /** Appends a C string.  The string overload passes c_str(), so it stops at a zero byte too. */
    method Append(str: string)
      requires Valid()
      modifies this, data
      ensures Valid() && (data == old(data) || fresh(data))
      ensures Contents() == old(Contents()) + CString(str) && received == old(received) + CString(str)
      ensures start == old(start) && gone == old(gone) && firstCap == old(firstCap)
      ensures data.Length == Grown(old(data.Length), old(offset) + |CString(str)|)
      ensures copied == old(copied) + if data.Length > old(data.Length) then old(offset) - start else 0
      ensures largest == var need := old(offset) + |CString(str)|; if need > old(largest) then need else old(largest)
    {
      var text := CString(str);
      Resize(offset + |text|);
      Store(text);
    }

    /** Removes the run of c at the end, consumed bytes included. */
    method StripEnd(c: char)
      requires Valid()
      modifies this, data
      ensures data == old(data) && start == old(start) && gone == old(gone)
      ensures firstCap == old(firstCap) && copied == old(copied) && largest == old(largest)
      ensures offset == Stripped(old(Raw()), c) && Raw() == old(Raw())[..offset] && TailOk()
      ensures start <= offset ==> Valid() && Contents() == old(Contents())[..offset - start]
    {
      var n := ZeroEnd(c);
      assert data[..n] == old(Raw())[..n];
      assert forall j :: offset <= j < data.Length ==> old(data[j]) == old(data[offset..])[j - offset];
      offset := n;
      if start <= offset {
        received := gone + Contents();
      }
    }

    /** The loop: overwrites the run with zero bytes and finds where it starts. */
    method ZeroEnd(c: char) returns (n: nat)
      requires offset <= data.Length
      modifies data
      ensures n == Stripped(old(Raw()), c)
      ensures forall j :: 0 <= j < data.Length ==> data[j] == if n <= j < offset then '\0' else old(data[j])
    {
      n := offset;
      ghost var raw := Raw();
      assert raw[..n] == raw;
      while n > 0 && data[n - 1] == c
        invariant 0 <= n <= offset
        invariant forall j :: 0 <= j < data.Length ==> data[j] == if n <= j < offset then '\0' else old(data[j])
        invariant Stripped(raw, c) == Stripped(raw[..n], c)
      {
        assert raw[..n][..n - 1] == raw[..n - 1];
        data[n - 1] := '\0';
        n := n - 1;
      }
    }

    /** strcmp with the last |str| bytes before `_offset`.  None: the comparison starts
        before the allocation, or reaches the byte behind it. */
    method EndsWith(str: string) returns (r: Option<bool>)
      requires Valid()
      ensures offset == 0 ==> r == Some(false)
      ensures 0 < offset < |CString(str)| ==> r == None
      ensures 0 < offset && |CString(str)| <= offset ==>
                var same := Raw()[offset - |CString(str)|..] == CString(str);
                r == if same && offset == data.Length then None else Some(same)
    {
      if offset == 0 {
        return Some(false);
      }
      var text := CString(str);
      if |text| > offset {
        return None;
      }
      var begin, k := offset - |text|, 0;
      while k < |text|
        invariant 0 <= k <= |text|
        invariant forall j :: 0 <= j < k ==> data[begin + j] == text[j]
      {
        if data[begin + k] != text[k] {
          assert Raw()[begin..][k] != text[k];
          return Some(false);
        }
        k := k + 1;
      }
      assert Raw()[begin..] == text;
      if offset == data.Length {
        return None;
      }
      assert data[offset..][0] == '\0';
      return Some(data[offset] == '\0');
    }
  }

  /** What Stripped means: the maximal run of c at the end. */
  lemma {:induction false} StrippedIsMaximal(s: string, c: char)
    ensures var n := Stripped(s, c);
            && (forall i :: n <= i < |s| ==> s[i] == c)
            && (n > 0 ==> s[n - 1] != c)
  {
    if s != "" && s[|s| - 1] == c {
      StrippedIsMaximal(s[..|s| - 1], c);
    }
  }
}
