/** The logger's entries are what its buffers hold. */
module LoggerRefinement {
  import opened Common
  import opened Kernel
  import opened BufferModel
  import opened LogRecords
  import opened LoggerMachine

  /** The buffer of an entry: `data` is everything up to `_offset`, `start` is `_start`. */
  ghost predicate Holds(b: Buffer, e: Entry)
    reads b, b.data
  {
    b.Valid() && b.Raw() == e.data && b.start == e.start
  }

  /** The test `_offset != 0` sees whether the entry holds bytes. */
  lemma {:induction false} OffsetTellsData(b: Buffer, e: Entry)
    requires Holds(b, e)
    ensures b.offset != 0 <==> e.data != ""
  {
    assert |b.Raw()| == b.offset;
  }

  /** appendToBuffer on an entry's buffer. */
  method AppendRefines(b: Buffer, ghost e: Entry, text: string)
    requires Holds(b, e) && e.start == 0 && '\0' !in text
    modifies b, b.data
    ensures Holds(b, e.(data := e.data + text))
  {
    NoZeroByte(text);
    assert b.Raw() == b.Contents();
    b.Append(text);
    assert b.Raw() == b.Contents();
  }

  /** The lines of `operator<<` that write: the header if the counter has just become one, the
      text, the newline.  Each leaves in the buffer what the machine's step leaves in the entry. */
  method LineRefines(b: Buffer, th: Thread, e: Entry, ghost me: Actor, ghost now: int)
    requires Holds(b, e) && e.start == 0
    requires th.pc.Counted? || th.pc.Headed? || th.pc.Closing?
    requires th.pc.Counted? || th.pc.Headed? ==> th.pc.c.Text? && '\0' !in th.pc.c.head && '\0' !in th.pc.c.str
    modifies b, b.data
    ensures Holds(b, Within(th, e, me, now).1)
  {
    match th.pc {
      case Counted(c) =>
        if e.count == 1 {
          AppendRefines(b, e, c.head);
        }
      case Headed(c) => AppendRefines(b, e, c.str);
      case Closing(_) => AppendRefines(b, e, "\n");
    }
  }

  /** How a buffer is cut into writes makes no difference. */
  lemma {:induction false} AcceptsAdd(s: State, n: nat, m: nat)
    requires Ready(s, Accept(n)) && Ready(Do(s, Accept(n)), Accept(m))
    ensures Ready(s, Accept(n + m)) && Do(Do(s, Accept(n)), Accept(m)) == Do(s, Accept(n + m))
  {
    var t := s.back.pc.t;
    var e := s.entries[t];
    var i := e.start;
    Assoc(s.output, e.data[i..i + n], e.data[i + n..i + n + m]);
    assert e.data[i..i + n] + e.data[i + n..i + n + m] == e.data[i..i + n + m];
    var e1, e2 := e.(start := i + n), e.(start := i + n + m);
    assert s.entries[t := e1][t := e2] == s.entries[t := e2];
  }

  /** The machine after the descriptor has accepted n bytes of the buffer being flushed. */
  function Accepted(s: State, n: nat): State
    requires n > 0 ==> Ready(s, Accept(n))
  {
    if n == 0 then s else Do(s, Accept(n))
  }

  /** writeNioFromBufferTillEnd on the buffer of the entry being flushed: the descriptor
      accepts a prefix of it, whatever the kernel does; and when the call returns, all of it,
      and the buffer is cleared, which is the machine's step that ends the flush. */
  method FlushRefines(b: Buffer, dst: Sink, step: pos, s: State) returns (r: Outcome, ghost n: nat)
    requires s.back.pc.Flush? && s.back.pc.t in s.entries
    requires Holds(b, s.entries[s.back.pc.t]) && b.start == 0 && dst.accepted == s.output
    modifies b, b.data, dst
    ensures n > 0 ==> Ready(s, Accept(n))
    ensures dst.accepted == Accepted(s, n).output
    ensures r.Count? ==>
              && Ready(Accepted(s, n), BackStep)
              && Holds(b, Do(Accepted(s, n), BackStep).entries[s.back.pc.t])
    ensures !r.Count? ==> Holds(b, Accepted(s, n).entries[s.back.pc.t])
  {
    ghost var data := b.Raw();
    assert b.Contents() == data;
    n := SendAll(0, dst.answers, |data|, step).sent;
    r := b.WriteNioTillEnd(dst, step);
    assert data[..n] == data[0..n];
    assert s.output + "" == s.output;
    if r.Count? {
      assert b.Raw() == "";
    }
  }
}
