/**
  File descriptors as the buffer sees them: the kernel's answers to come are a script, and
  every theorem quantifies over the script.  A script that has run out stands for a kernel
  that has not answered yet; the call is then Blocked, so that every finite part of every
  execution is covered.  A byte is a char; '\0' is the zero byte.
 */
module Kernel {
  import opened Common

  type pos = n: nat | n > 0 witness 1

  /** Answers to read(2).  A chunk longer than asked for stays behind, shortened. */
  datatype ReadAnswer = Data(bytes: string) | Again | Eof | Reset | ReadBroken

  /** Answers to write(2): room for n more bytes, EAGAIN, EPIPE or ECONNRESET, any other errno. */
  datatype WriteAnswer = Room(n: pos) | Full | PeerGone | WriteBroken

  /** How a call on a buffer ends: it returns a count, throws EOFException,
      FdClosedException or FatalException, or is still waiting for the kernel. */
  datatype Outcome = Count(n: nat) | EndOfFile | FdClosed | FatalError | Blocked

  function Min(a: nat, b: nat): nat {
    if a <= b then a else b
  }

  function Max(a: nat, b: nat): nat {
    if a <= b then b else a
  }

  /** The script after n bytes of its first chunk were taken. */
  function TakeFrom(a: seq<ReadAnswer>, n: nat): seq<ReadAnswer>
    requires a != [] && a[0].Data? && n <= |a[0].bytes|
  {
    if n < |a[0].bytes| then [Data(a[0].bytes[n..])] + a[1..] else a[1..]
  }

  /** All the bytes a script holds, in order. */
  function Bytes(a: seq<ReadAnswer>): string {
    if a == [] then "" else (if a[0].Data? then a[0].bytes else "") + Bytes(a[1..])
  }

  function Weight(a: seq<ReadAnswer>): nat {
    if a == [] then 0 else (if a[0].Data? then |a[0].bytes| else 0) + 1 + Weight(a[1..])
  }

  lemma {:induction false} TakeFromBytes(a: seq<ReadAnswer>, n: nat)
    requires a != [] && a[0].Data? && n <= |a[0].bytes|
    ensures Bytes(a) == a[0].bytes[..n] + Bytes(TakeFrom(a, n))
    ensures Weight(TakeFrom(a, n)) + n <= Weight(a)
    ensures n == |a[0].bytes| ==> Weight(TakeFrom(a, n)) + n < Weight(a)
  {
    var b := a[0].bytes;
    if n < |b| {
      assert TakeFrom(a, n)[1..] == a[1..];
      assert b == b[..n] + b[n..];
      assert Bytes(TakeFrom(a, n)) == b[n..] + Bytes(a[1..]);
      assert b[..n] + (b[n..] + Bytes(a[1..])) == b + Bytes(a[1..]);
    } else {
      assert b[..n] == b;
    }
  }

  /** The result of one system call; NoAnswer when the script has run out. */
  datatype Sys = Moved(n: nat) | WouldBlock | Closed | Failed | NoAnswer

  /** What a loop that has moved n bytes makes of a call that moved none: EAGAIN ends it
      normally, an error with an exception. */
  function StopOf(r: Sys, n: nat): Outcome {
    match r
    case WouldBlock => Count(n)
    case Closed => FdClosed
    case Failed => FatalError
    case NoAnswer => Blocked
    case Moved(_) => EndOfFile
  }

  /** One read(2) for len bytes: the bytes, the script afterwards, the result.  No bytes
      means end of file. */
  function ReadCall(a: seq<ReadAnswer>, len: nat): (string, seq<ReadAnswer>, Sys) {
    if a == [] then ("", [], NoAnswer)
    else
      match a[0]
      case Data(b) => (b[..Min(len, |b|)], TakeFrom(a, Min(len, |b|)), Moved(Min(len, |b|)))
      case Again => ("", a[1..], WouldBlock)
      case Eof => ("", a[1..], Moved(0))
      case Reset => ("", a[1..], Closed)
      case ReadBroken => ("", a[1..], Failed)
  }

  lemma {:induction false} ReadCallConserves(a: seq<ReadAnswer>, len: nat)
    ensures var (bytes, rest, r) := ReadCall(a, len);
            && bytes + Bytes(rest) == Bytes(a)
            && |bytes| <= len
            && (r.Moved? ==> r.n == |bytes|) && (!r.Moved? ==> bytes == "")
            && Weight(rest) + |bytes| <= Weight(a)
            && (forall x :: x in rest && !x.Data? ==> x in a)
  {
    if a != [] && a[0].Data? {
      TakeFromBytes(a, Min(len, |a[0].bytes|));
    }
  }

  datatype ReadRun = ReadRun(got: string, rest: seq<ReadAnswer>, out: Outcome)

  /** A run of reads that begins with bytes already taken. */
  function After(got: string, r: ReadRun): ReadRun {
    ReadRun(got + r.got, r.rest, if r.out.Count? then Count(|got| + r.out.n) else r.out)
  }

  /** What asking for len bytes, again after every short answer, comes to: it stops when
      len bytes are there, at EAGAIN, at end of file and at an error. */
  function ReadUpTo(a: seq<ReadAnswer>, len: nat): ReadRun
    decreases Weight(a)
  {
    ReadCallConserves(a, len);
    var (bytes, rest, r) := ReadCall(a, len);
    if r.Moved? && 0 < r.n < len then After(bytes, ReadUpTo(rest, len - r.n))
    else if r.Moved? && 0 < r.n then ReadRun(bytes, rest, Count(r.n))
    else ReadRun(bytes, rest, StopOf(r, 0))
  }

  /** No byte is lost, repeated or reordered, and no more is taken than asked for. */
  lemma {:induction false} ReadUpToConserves(a: seq<ReadAnswer>, len: nat)
    ensures ReadUpTo(a, len).got + Bytes(ReadUpTo(a, len).rest) == Bytes(a)
    ensures |ReadUpTo(a, len).got| <= len
    decreases Weight(a)
  {
    ReadCallConserves(a, len);
    var (bytes, rest, r) := ReadCall(a, len);
    if r.Moved? && 0 < r.n < len {
      var more := ReadUpTo(rest, len - r.n);
      ReadUpToConserves(rest, len - r.n);
      assert ReadUpTo(a, len) == After(bytes, more);
      Assoc(bytes, more.got, Bytes(more.rest));
    }
  }

  lemma {:induction false} ReadUpToWeighs(a: seq<ReadAnswer>, len: nat)
    ensures var r := ReadUpTo(a, len);
            Weight(r.rest) <= Weight(a) && (r.out.Count? && len > 0 ==> Weight(r.rest) < Weight(a))
    decreases Weight(a)
  {
    ReadCallConserves(a, len);
    var (bytes, rest, r) := ReadCall(a, len);
    if r.Moved? && 0 < r.n < len {
      ReadUpToWeighs(rest, len - r.n);
      assert ReadUpTo(a, len) == After(bytes, ReadUpTo(rest, len - r.n));
    }
  }

  lemma {:induction false} CallAnswers(a: seq<ReadAnswer>, len: nat)
    ensures forall x :: x in ReadCall(a, len).1 && !x.Data? ==> x in a
    ensures ReadCall(a, len).2.WouldBlock? ==> Again in a
    ensures ReadCall(a, len).2.NoAnswer? ==> ReadCall(a, len).1 == []
    ensures ReadCall(a, len).2.Moved? ==> |ReadCall(a, len).0| == ReadCall(a, len).2.n
  {
  }

  lemma {:induction false} ReadUpToAnswers(a: seq<ReadAnswer>, len: nat)
    ensures forall x :: x in ReadUpTo(a, len).rest && !x.Data? ==> x in a
    decreases Weight(a)
  {
    ReadCallConserves(a, len);
    CallAnswers(a, len);
    var (bytes, rest, r) := ReadCall(a, len);
    if r.Moved? && 0 < r.n < len {
      ReadUpToAnswers(rest, len - r.n);
    }
  }

  lemma {:induction false} ReadUpToStops(a: seq<ReadAnswer>, len: nat)
    ensures var r := ReadUpTo(a, len);
            && (r.out.Count? && |r.got| < len ==> Again in a)
            && (r.out.Blocked? ==> r.rest == [])
    decreases Weight(a)
  {
    ReadCallConserves(a, len);
    CallAnswers(a, len);
    var (bytes, rest, r) := ReadCall(a, len);
    if r.Moved? && 0 < r.n < len {
      var more := ReadUpTo(rest, len - r.n);
      ReadUpToStops(rest, len - r.n);
      assert ReadUpTo(a, len) == After(bytes, more);
      assert |bytes + more.got| == r.n + |more.got|;
    }
  }

  lemma {:induction false} ReadUpToSize(a: seq<ReadAnswer>, len: nat)
    ensures var r := ReadUpTo(a, len);
            (r.out.Count? ==> r.out.n == |r.got|) && (!r.out.Count? && len > 0 ==> |r.got| < len)
    decreases Weight(a)
  {
    ReadCallConserves(a, len);
    CallAnswers(a, len);
    var (bytes, rest, r) := ReadCall(a, len);
    if r.Moved? && 0 < r.n < len {
      var more := ReadUpTo(rest, len - r.n);
      ReadUpToSize(rest, len - r.n);
      assert ReadUpTo(a, len) == After(bytes, more);
      assert |bytes + more.got| == r.n + |more.got|;
    }
  }

  /** A returned count is the number of bytes taken; fewer than asked for means that the
      kernel had no more to give at that moment. */
  lemma {:induction false} ReadUpToCounts(a: seq<ReadAnswer>, len: nat)
    ensures var r := ReadUpTo(a, len);
            && (r.out.Count? ==> r.out.n == |r.got|)
            && (r.out.Count? && |r.got| < len ==> Again in a)
            && (r.out.Blocked? ==> r.rest == [])
            && (!r.out.Count? && len > 0 ==> |r.got| < len)
            && Weight(r.rest) <= Weight(a)
            && (r.out.Count? && len > 0 ==> Weight(r.rest) < Weight(a))
  {
    ReadUpToSize(a, len);
    ReadUpToStops(a, len);
    ReadUpToWeighs(a, len);
  }

  lemma {:induction false} AfterAfter(a: string, b: string, r: ReadRun)
    ensures After(a, After(b, r)) == After(a + b, r)
  {
    Assoc(a, b, r.got);
  }

  /** The same, with got read already. */
  function ReadFrom(got: string, a: seq<ReadAnswer>, left: nat): ReadRun
    decreases Weight(a)
  {
    ReadCallConserves(a, left);
    var (bytes, rest, r) := ReadCall(a, left);
    if r.Moved? && 0 < r.n < left then ReadFrom(got + bytes, rest, left - r.n)
    else ReadRun(got + bytes, rest, if r.Moved? && 0 < r.n then Count(|got + bytes|) else StopOf(r, |got|))
  }

  lemma {:induction false} ReadFromIs(got: string, a: seq<ReadAnswer>, left: nat)
    ensures ReadFrom(got, a, left) == After(got, ReadUpTo(a, left))
    decreases Weight(a)
  {
    ReadCallConserves(a, left);
    var (bytes, rest, r) := ReadCall(a, left);
    if r.Moved? && 0 < r.n < left {
      ReadFromIs(got + bytes, rest, left - r.n);
      AfterAfter(got, bytes, ReadUpTo(rest, left - r.n));
    }
  }

  /** Reading by steps until a step brings nothing. */
  function ReadAll(a: seq<ReadAnswer>, step: pos): ReadRun
    decreases Weight(a)
  {
    ReadUpToCounts(a, step);
    var r := ReadUpTo(a, step);
    if r.out.Count? && r.out.n > 0 then After(r.got, ReadAll(r.rest, step)) else r
  }

  /** No byte is lost or reordered, and a returned count counts all of them. */
  lemma {:induction false} ReadAllConserves(a: seq<ReadAnswer>, step: pos)
    ensures var r := ReadAll(a, step);
            && r.got + Bytes(r.rest) == Bytes(a)
            && (r.out.Count? ==> r.out.n == |r.got|)
            && (r.out.Count? ==> Again in a)
    decreases Weight(a)
  {
    ReadUpToCounts(a, step);
    ReadUpToConserves(a, step);
    ReadUpToAnswers(a, step);
    var r := ReadUpTo(a, step);
    if r.out.Count? && r.out.n > 0 {
      ReadAllConserves(r.rest, step);
      Assoc(r.got, ReadAll(r.rest, step).got, Bytes(ReadAll(r.rest, step).rest));
    }
  }

  /** The same, with got read already. */
  function ReadAllFrom(got: string, a: seq<ReadAnswer>, step: pos): ReadRun
    decreases Weight(a)
  {
    ReadUpToCounts(a, step);
    var r := ReadUpTo(a, step);
    if r.out.Count? && r.out.n > 0 then ReadAllFrom(got + r.got, r.rest, step)
    else ReadRun(got + r.got, r.rest, if r.out.Count? then Count(|got|) else r.out)
  }

  lemma {:induction false} ReadAllFromIs(got: string, a: seq<ReadAnswer>, step: pos)
    ensures ReadAllFrom(got, a, step) == After(got, ReadAll(a, step))
    decreases Weight(a)
  {
    ReadUpToCounts(a, step);
    var r := ReadUpTo(a, step);
    if r.out.Count? && r.out.n > 0 {
      ReadAllFromIs(got + r.got, r.rest, step);
      AfterAfter(got, r.got, ReadAll(r.rest, step));
    }
  }

  /** The bytes in front of the first end of file or error, and which it is; a read that
      brings no bytes is an end of file. */
  function Ending(a: seq<ReadAnswer>): (string, Outcome) {
    if a == [] then ("", Blocked)
    else
      match a[0]
      case Data(b) => if b == "" then ("", EndOfFile) else (b + Ending(a[1..]).0, Ending(a[1..]).1)
      case Again => Ending(a[1..])
      case Eof => ("", EndOfFile)
      case Reset => ("", FdClosed)
      case ReadBroken => ("", FatalError)
  }

  /** What a call leaves in front of the end. */
  lemma {:induction false} CallAhead(a: seq<ReadAnswer>, len: nat)
    requires len > 0
    ensures var (bytes, rest, r) := ReadCall(a, len);
            Ending(a) == if r.WouldBlock? || (r.Moved? && r.n > 0) then (bytes + Ending(rest).0, Ending(rest).1)
                         else (bytes, StopOf(r, 0))
  {
    if a != [] && a[0].Again? {
      assert "" + Ending(a[1..]).0 == Ending(a[1..]).0;
    } else if a != [] && a[0].Data? && len < |a[0].bytes| {
      var b := a[0].bytes;
      assert TakeFrom(a, len)[1..] == a[1..];
      assert b == b[..len] + b[len..];
      assert Ending(TakeFrom(a, len)) == (b[len..] + Ending(a[1..]).0, Ending(a[1..]).1);
      Assoc(b[..len], b[len..], Ending(a[1..]).0);
    } else if a != [] && a[0].Data? {
      var b := a[0].bytes;
      assert b[..|b|] == b;
    }
  }

  /** A reading loop comes to the end of the stream and not past it. */
  lemma {:induction false} EndingAhead(a: seq<ReadAnswer>, len: nat)
    requires len > 0
    ensures var r := ReadUpTo(a, len);
            Ending(a) == if r.out.Count? then (r.got + Ending(r.rest).0, Ending(r.rest).1) else (r.got, r.out)
    decreases Weight(a)
  {
    CallAhead(a, len);
    ReadCallConserves(a, len);
    var (bytes, rest, r) := ReadCall(a, len);
    if r.Moved? && 0 < r.n < len {
      var more := ReadUpTo(rest, len - r.n);
      EndingAhead(rest, len - r.n);
      Assoc(bytes, more.got, Ending(more.rest).0);
    }
  }

  /** One write(2) of len > 0 bytes: how many went, the script afterwards, the result. */
  function WriteCall(a: seq<WriteAnswer>, len: nat): (c: (nat, seq<WriteAnswer>, Sys))
    ensures c.0 <= len && (if c.2.Moved? then c.2.n == c.0 else c.0 == 0)
  {
    if a == [] then (0, [], NoAnswer)
    else
      match a[0]
      case Room(k) => (Min(k, len), a[1..], Moved(Min(k, len)))
      case Full => (0, a[1..], WouldBlock)
      case PeerGone => (0, a[1..], Closed)
      case WriteBroken => (0, a[1..], Failed)
  }

  datatype WriteRun = WriteRun(sent: nat, rest: seq<WriteAnswer>, out: Outcome)

  /** What offering left more bytes, again after every short answer, comes to when sent bytes
      have gone already: it stops when all are gone, at EAGAIN and at an error. */
  function WriteFrom(sent: nat, a: seq<WriteAnswer>, left: nat): WriteRun
    decreases left
  {
    if left == 0 then WriteRun(sent, a, Count(sent))
    else
      var (n, rest, r) := WriteCall(a, left);
      if r.Moved? then WriteFrom(sent + n, rest, left - n) else WriteRun(sent, rest, StopOf(r, sent))
  }

  function WriteUpTo(a: seq<WriteAnswer>, len: nat): WriteRun {
    WriteFrom(0, a, len)
  }

  lemma {:induction false} WriteFromBounds(sent: nat, a: seq<WriteAnswer>, left: nat)
    ensures var r := WriteFrom(sent, a, left);
            && sent <= r.sent <= sent + left
            && (r.out.Count? ==> r.out.n == r.sent)
            && (r.out.Count? && r.sent < sent + left ==> Full in a)
            && (r.out.Blocked? ==> r.rest == [])
            && (!r.out.Count? ==> r.sent < sent + left)
            && |r.rest| <= |a| && (left > 0 && r.out.Count? ==> |r.rest| < |a|)
            && (r.out.FdClosed? ==> PeerGone in a)
            && (r.out.FatalError? ==> WriteBroken in a)
            && !r.out.EndOfFile?
            && (forall x :: x in r.rest ==> x in a)
    decreases left
  {
    var (n, rest, r) := WriteCall(a, left);
    if left > 0 && r.Moved? {
      WriteFromBounds(sent + n, rest, left - n);
    }
  }

  /** A write moves at most what was asked, stops short only at EAGAIN or an error, and
      reports only errors that the kernel answered. */
  lemma {:induction false} WriteUpToBounds(a: seq<WriteAnswer>, len: nat)
    ensures var r := WriteUpTo(a, len);
            && r.sent <= len
            && (r.out.Count? ==> r.out.n == r.sent)
            && (r.out.Count? && r.sent < len ==> Full in a)
            && (r.out.Blocked? ==> r.rest == [])
            && (!r.out.Count? ==> r.sent < len)
            && |r.rest| <= |a| && (len > 0 && r.out.Count? ==> |r.rest| < |a|)
            && (r.out.FdClosed? ==> PeerGone in a)
            && (r.out.FatalError? ==> WriteBroken in a)
            && !r.out.EndOfFile?
            && (forall x :: x in r.rest ==> x in a)
  {
    WriteFromBounds(0, a, len);
  }

  /** What writing by steps comes to, sent bytes having gone and left still waiting: it stops
      when all are gone, when a step moves nothing and at an error. */
  function SendAvailable(sent: nat, a: seq<WriteAnswer>, left: nat, step: pos): WriteRun
    decreases left
  {
    if left == 0 then WriteRun(sent, a, Count(sent))
    else
      var size: pos := Min(step, left);
      WriteUpToBounds(a, size);
      var w := WriteUpTo(a, size);
      if !w.out.Count? then WriteRun(sent + w.sent, w.rest, w.out)
      else if w.sent == 0 then WriteRun(sent, w.rest, Count(sent))
      else SendAvailable(sent + w.sent, w.rest, left - w.sent, size)
  }

  /** Why a loop of writes ends. */
  predicate SendOk(r: WriteRun, sent: nat, a: seq<WriteAnswer>, left: nat) {
    && sent <= r.sent <= sent + left
    && (r.out.Count? ==> r.out.n == r.sent && (r.sent < sent + left ==> Full in a))
    && !r.out.EndOfFile? && (r.out.Blocked? ==> r.rest == [])
    && (!r.out.Count? ==> r.sent < sent + left)
    && (r.out.FdClosed? ==> PeerGone in a) && (r.out.FatalError? ==> WriteBroken in a)
    && forall x :: x in r.rest ==> x in a
  }

  lemma {:induction false} SendAvailableOk(sent: nat, a: seq<WriteAnswer>, left: nat, step: pos)
    ensures SendOk(SendAvailable(sent, a, left, step), sent, a, left)
    decreases left
  {
    if left > 0 {
      var size: pos := Min(step, left);
      WriteUpToBounds(a, size);
      var w := WriteUpTo(a, size);
      if w.out.Count? && w.sent > 0 {
        SendAvailableOk(sent + w.sent, w.rest, left - w.sent, size);
      }
    }
  }

  lemma {:induction false} SendAllOk(sent: nat, a: seq<WriteAnswer>, left: nat, step: pos)
    ensures var r := SendAll(sent, a, left, step);
            SendOk(r, sent, a, left) && (r.out.Count? ==> r.sent == sent + left)
    decreases left, |a|
  {
    if left > 0 {
      var size: pos := Min(step, left);
      WriteUpToBounds(a, size);
      var w := WriteUpTo(a, size);
      if w.out.Count? {
        SendAllOk(sent + w.sent, w.rest, left - w.sent, size);
      }
    }
  }

  /** The same, trying again whenever a step moves nothing. */
  function SendAll(sent: nat, a: seq<WriteAnswer>, left: nat, step: pos): WriteRun
    decreases left, |a|
  {
    if left == 0 then WriteRun(sent, a, Count(sent))
    else
      var size: pos := Min(step, left);
      WriteUpToBounds(a, size);
      var w := WriteUpTo(a, size);
      if !w.out.Count? then WriteRun(sent + w.sent, w.rest, w.out)
      else SendAll(sent + w.sent, w.rest, left - w.sent, size)
  }

  /** A descriptor to read from. */
  class Source {
    var answers: seq<ReadAnswer>
    var delivered: string

    constructor (answers: seq<ReadAnswer>)
      ensures this.answers == answers && delivered == ""
    {
      this.answers := answers;
      delivered := "";
    }

    method Read(len: nat) returns (bytes: string, r: Sys)
      modifies this
      ensures (bytes, answers, r) == ReadCall(old(answers), len)
      ensures delivered == old(delivered) + bytes
    {
      var call := ReadCall(answers, len);
      bytes, r := call.0, call.2;
      answers := call.1;
      delivered := delivered + bytes;
    }
  }

  /** A descriptor to write to. */
  class Sink {
    var answers: seq<WriteAnswer>
    var accepted: string

    constructor (answers: seq<WriteAnswer>)
      ensures this.answers == answers && accepted == ""
    {
      this.answers := answers;
      accepted := "";
    }

    method Write(bytes: string) returns (r: Sys)
      requires bytes != ""
      modifies this
      ensures var c := WriteCall(old(answers), |bytes|);
              c.0 <= |bytes| && answers == c.1 && r == c.2 && accepted == old(accepted) + bytes[..c.0]
    {
      var c := WriteCall(answers, |bytes|);
      answers, r := c.1, c.2;
      accepted := accepted + bytes[..c.0];
    }
  }
}
