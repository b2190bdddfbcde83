/** The receiving end of the file transfer. */
module FileCopy {
  import opened Common
  import opened Kernel
  import opened BufferModel

  const STEP := 10240
  const CAPACITY := 16384

  lemma CapacityOfOneRound()
    ensures Grown(DEFAULT_CAP, STEP) == CAPACITY && Grown(CAPACITY, STEP) == CAPACITY
  {
    assert Grown(64, STEP) == Grown(128, STEP) == Grown(256, STEP) == Grown(512, STEP);
    assert Grown(512, STEP) == Grown(1024, STEP) == Grown(2048, STEP) == Grown(4096, STEP);
    assert Grown(4096, STEP) == Grown(8192, STEP) == Grown(16384, STEP);
  }

  /** What one round of reading leaves in front of the end of the stream. */
  lemma {:induction false} RoundAhead(got: string, a: seq<ReadAnswer>)
    ensures var run := ReadUpTo(a, STEP);
            && (run.out.Count? ==> Weight(run.rest) < Weight(a))
            && (got + Ending(a).0, Ending(a).1)
               == if run.out.Count? then ((got + run.got) + Ending(run.rest).0, Ending(run.rest).1)
                  else (got + run.got, run.out)
  {
    EndingAhead(a, STEP);
    ReadUpToCounts(a, STEP);
    var run := ReadUpTo(a, STEP);
    Assoc(got, run.got, Ending(run.rest).0);
  }

  lemma {:induction false} PrefixOf(got: string, part: string, more: string, all: string)
    requires part <= more && got + more <= all
    ensures got + part <= all
  {
    assert got + part == (got + more)[..|got| + |part|];
  }

  /** The buffer between two rounds. */
  ghost predicate Cleared(buffer: Buffer)
    reads buffer, buffer.data
  {
    && buffer.Valid() && buffer.start == 0 && buffer.offset == 0
    && (buffer.data.Length == DEFAULT_CAP || buffer.data.Length == CAPACITY)
  }

  /** Why a copy may stop before the end of the file. */
  predicate Broken(r: Outcome, read: Outcome, before: seq<WriteAnswer>, after: seq<WriteAnswer>) {
    || (r == read && !r.Count? && !r.EndOfFile?)
    || (r.FdClosed? && PeerGone in before)
    || (r.FatalError? && WriteBroken in before)
    || (r.Blocked? && after == [])
  }

  /** One round: a count if there may be more, end of file if that was all, and otherwise what
      went wrong.  `sent` went from the socket to the file. */
  method Round(buffer: Buffer, sock: Source, file: Sink) returns (r: Outcome, ghost sent: string)
    requires Cleared(buffer)
    modifies buffer, buffer.data, sock, file
    ensures buffer.data == old(buffer.data) || fresh(buffer.data)
    ensures buffer.data.Length <= CAPACITY
    ensures file.accepted == old(file.accepted) + sent && forall x :: x in file.answers ==> x in old(file.answers)
    ensures var run := ReadUpTo(old(sock.answers), STEP);
            && sent <= run.got && sock.answers == run.rest && sock.delivered == old(sock.delivered) + run.got
            && (r.Count? || r.EndOfFile? ==> sent == run.got && Cleared(buffer))
            && (r.Count? ==> run.out.Count?) && (r.EndOfFile? ==> run.out.EndOfFile?)
            && (!r.Count? && !r.EndOfFile? ==> Broken(r, run.out, old(file.answers), file.answers))
  {
    CapacityOfOneRound();
    sent := "";
    var curr := buffer.ReadNio(sock, STEP);
    if !curr.Count? && !curr.EndOfFile? {
      assert file.accepted == old(file.accepted) + "";
      return curr, "";
    }
    ghost var got := buffer.Contents();
    assert got == ReadUpTo(old(sock.answers), STEP).got;
    r := buffer.WriteNioTillEnd(file, DEFAULT_STEP);
    sent := if r.Count? then got else got[..buffer.start];
    if r.Count? && curr.EndOfFile? {
      r := EndOfFile;
    }
  }

  /** Receives until the end of the stream, writing every round out before the next one.
      When it ends normally the file has gained exactly the bytes in front of the end of
      file, for every way of chunking on either side; otherwise it ends for the error that
      the socket or the file reported, and the file has gained a prefix of those bytes; and
      however long the file, its buffer never holds more than CAPACITY bytes. */
  method Receive(sock: Source, file: Sink) returns (r: Outcome, buffer: Buffer)
    modifies sock, file
    ensures fresh(buffer) && buffer.data.Length <= CAPACITY
    ensures r.EndOfFile? ==>
              && Ending(old(sock.answers)).1 == EndOfFile
              && sock.delivered == old(sock.delivered) + Ending(old(sock.answers)).0
              && file.accepted == old(file.accepted) + Ending(old(sock.answers)).0
    ensures !r.EndOfFile? ==> Broken(r, Ending(old(sock.answers)).1, old(file.answers), file.answers)
    ensures exists sent :: file.accepted == old(file.accepted) + sent && sent <= Ending(old(sock.answers)).0
  {
    buffer := new Buffer(DEFAULT_CAP);
    r := Count(0);
    ghost var got, all := "", Ending(sock.answers);
    assert "" + all.0 == all.0;
    while r.Count?
      invariant fresh(buffer) && fresh(buffer.data) && Cleared(buffer)
      invariant r.Count? || r.EndOfFile?
      invariant file.accepted == old(file.accepted) + got && sock.delivered == old(sock.delivered) + got
      invariant all == if r.EndOfFile? then (got, EndOfFile) else (got + Ending(sock.answers).0, Ending(sock.answers).1)
      invariant forall x :: x in file.answers ==> x in old(file.answers)
      decreases r.Count?, Weight(sock.answers)
    {
      ghost var run := ReadUpTo(sock.answers, STEP);
      RoundAhead(got, sock.answers);
      ghost var sent;
      r, sent := Round(buffer, sock, file);
      Assoc(old(file.accepted), got, sent);
      Assoc(old(sock.delivered), got, run.got);
      if !r.Count? && !r.EndOfFile? {
        PrefixOf(got, sent, run.got, all.0);
        return r, buffer;
      }
      got := got + run.got;
    }
    assert got <= all.0;
    return EndOfFile, buffer;
  }
}
