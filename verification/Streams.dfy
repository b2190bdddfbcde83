/** Whole lives of a buffer: any sequence of operations against any two descriptors. */
module Streams {
  import opened Common
  import opened Kernel
  import opened BufferModel

  datatype Op =
    | ReadSome(len: nat)
    | ReadAvailable
    | ReadAvailableOrEOF
    | Search(end: string, step: pos)
    | Append(text: string)
    | WriteSome(len: nat)
    | WriteAvailable
    | WriteEverything(step: pos)
    | Clear

  /** The calls the source's own assertions allow at this moment. */
  predicate Allowed(op: Op, pending: nat) {
    match op
    case Search(end, _) => end != "" && '\0' !in end
    case WriteSome(len) => 0 < len <= pending
    case _ => true
  }

  predicate IsRead(op: Op) {
    op.ReadSome? || op.ReadAvailable? || op.ReadAvailableOrEOF? || op.Search?
  }

  predicate IsWrite(op: Op) {
    op.WriteSome? || op.WriteAvailable? || op.WriteEverything?
  }

  /** What a read that does not search takes from the descriptor. */
  function Taken(op: Op, answers: seq<ReadAnswer>): ReadRun
    requires IsRead(op) && !op.Search?
  {
    if op.ReadSome? then ReadUpTo(answers, op.len) else ReadAll(answers, DEFAULT_STEP)
  }

  /** What a write sends of that many pending bytes. */
  function Sent(op: Op, answers: seq<WriteAnswer>, pending: nat): WriteRun
    requires IsWrite(op)
  {
    match op
    case WriteSome(len) => WriteUpTo(answers, len)
    case WriteAvailable => SendAvailable(0, answers, pending, DEFAULT_STEP)
    case WriteEverything(step) => SendAll(0, answers, pending, step)
  }

  /** Reading only adds at the back what it takes from the descriptor. */
  method Read(b: Buffer, src: Source, op: Op) returns (ghost came: string)
    requires b.Valid() && IsRead(op) && Allowed(op, b.offset - b.start)
    modifies b, b.data, src
    ensures b.Valid() && (b.data == old(b.data) || fresh(b.data)) && b.firstCap == old(b.firstCap)
    ensures b.gone == old(b.gone) && b.received == old(b.received) + came
    ensures came + Bytes(src.answers) == old(Bytes(src.answers))
    ensures !op.Search? ==> came == Taken(op, old(src.answers)).got && src.answers == Taken(op, old(src.answers)).rest
  {
    match op {
      case ReadSome(len) =>
        ReadUpToConserves(src.answers, len);
        came := ReadUpTo(src.answers, len).got;
        var _ := b.ReadNio(src, len);
      case ReadAvailable =>
        ReadAllConserves(src.answers, DEFAULT_STEP);
        came := ReadAll(src.answers, DEFAULT_STEP).got;
        var _ := b.ReadNioTillBlock(src);
      case ReadAvailableOrEOF =>
        ReadAllConserves(src.answers, DEFAULT_STEP);
        came := ReadAll(src.answers, DEFAULT_STEP).got;
        var _ := b.ReadNioTillBlockOrEOF(src);
      case Search(end, step) =>
        var _ := b.ReadNioTillEnd(src, end, step);
        came := b.received[|old(b.received)|..];
        Cancel(old(b.received), came, Bytes(src.answers), old(Bytes(src.answers)));
    }
  }

  /** Writing only removes at the front what the descriptor accepts. */
  method Write(b: Buffer, dst: Sink, op: Op) returns (ghost went: string)
    requires b.Valid() && IsWrite(op) && Allowed(op, b.offset - b.start)
    modifies b, b.data, dst
    ensures b.Valid() && b.data == old(b.data) && b.firstCap == old(b.firstCap)
    ensures b.received == old(b.received) && b.gone == old(b.gone) + went
    ensures dst.accepted == old(dst.accepted) + went
    ensures SentBy(op, old(b.Contents()), old(dst.answers), went, dst.answers)
  {
    ghost var pending := b.Contents();
    match op {
      case WriteSome(len) =>
        var _ := b.WriteNio(dst, len);
        went := pending[..WriteUpTo(old(dst.answers), len).sent];
      case WriteAvailable =>
        var _ := b.WriteNioTillBlock(dst);
        went := pending[..b.start - old(b.start)];
      case WriteEverything(step) =>
        var _ := b.WriteNioTillEnd(dst, step);
        went := pending[..SendAll(0, old(dst.answers), |pending|, step).sent];
    }
  }

  /** A write sends exactly what the kernel's answers make it send, from the front. */
  predicate SentBy(op: Op, pending: string, before: seq<WriteAnswer>, went: string, after: seq<WriteAnswer>)
    requires IsWrite(op)
  {
    var w := Sent(op, before, |pending|);
    w.sent <= |pending| && went == pending[..w.sent] && after == w.rest
  }

  /** One operation, or none if it would break an assertion of the source: what came in and
      what left.  `lost` means that clear() threw pending bytes away. */
  method Step(b: Buffer, src: Source, dst: Sink, op: Op) returns (lost: bool, ghost came: string, ghost went: string)
    requires b.Valid()
    modifies b, b.data, src, dst
    ensures b.Valid() && (b.data == old(b.data) || fresh(b.data)) && b.firstCap == old(b.firstCap)
    ensures b.received == old(b.received) + came && b.gone == old(b.gone) + went
    ensures dst.accepted == old(dst.accepted) + if op.Clear? then "" else went
    ensures !op.Append? ==> came + Bytes(src.answers) == old(Bytes(src.answers))
    ensures op.Append? ==> came == CString(op.text) && src.answers == old(src.answers)
    ensures lost <==> op.Clear? && old(b.Contents()) != ""
    ensures IsRead(op) && !op.Search? ==>
              came == Taken(op, old(src.answers)).got && src.answers == Taken(op, old(src.answers)).rest
    ensures op.Append? || IsRead(op) ==> went == ""
    ensures !op.Append? && !IsRead(op) ==> came == ""
    ensures op.Clear? ==> went == old(b.Contents())
    ensures !Allowed(op, old(b.offset - b.start)) ==> came == went == ""
    ensures !IsRead(op) || !Allowed(op, old(b.offset - b.start)) ==> src.answers == old(src.answers)
    ensures !IsWrite(op) || !Allowed(op, old(b.offset - b.start)) ==> dst.answers == old(dst.answers)
    ensures IsWrite(op) && Allowed(op, old(b.offset - b.start)) ==>
              SentBy(op, old(b.Contents()), old(dst.answers), went, dst.answers)
  {
    lost, came, went := false, "", "";
    if Allowed(op, b.offset - b.start) {
      if IsRead(op) {
        came := Read(b, src, op);
      } else if IsWrite(op) {
        went := Write(b, dst, op);
      } else if op.Clear? {
        lost, went := b.start != b.offset, b.Contents();
        b.Clear();
      } else {
        came := CString(op.text);
        b.Append(op.text);
      }
    }
  }

  /** What came in piece by piece. */
  function Cat(pieces: seq<string>): string {
    if pieces == [] then "" else Cat(pieces[..|pieces| - 1]) + pieces[|pieces| - 1]
  }

  /** Those pieces of it that came from the descriptor: one for each operation that is not an
      append, empty if it is not a read. */
  function FromDescriptor(ops: seq<Op>, pieces: seq<string>): string
    requires |ops| == |pieces|
  {
    if ops == [] then ""
    else
      var n := |ops| - 1;
      FromDescriptor(ops[..n], pieces[..n]) + if ops[n].Append? then "" else pieces[n]
  }

  /** Those pieces of what left that went to the descriptor: all but what was cleared. */
  function ToDescriptor(ops: seq<Op>, leaves: seq<string>): string
    requires |ops| == |leaves|
  {
    if ops == [] then ""
    else
      var n := |ops| - 1;
      ToDescriptor(ops[..n], leaves[..n]) + if ops[n].Clear? then "" else leaves[n]
  }

  /** clear() threw pending bytes away at least once. */
  predicate Lossy(ops: seq<Op>, leaves: seq<string>) {
    exists i :: 0 <= i < |ops| && i < |leaves| && ops[i].Clear? && leaves[i] != ""
  }

  /** An append brings its text. */
  predicate TextsAmong(ops: seq<Op>, pieces: seq<string>) {
    |pieces| == |ops| && forall i :: 0 <= i < |ops| && ops[i].Append? ==> pieces[i] == CString(ops[i].text)
  }

  lemma {:induction false} OneMorePiece(ops: seq<Op>, pieces: seq<string>, op: Op, piece: string,
      ahead: string, after: string)
    requires TextsAmong(ops, pieces) && (op.Append? ==> piece == CString(op.text))
    requires op.Append? ==> after == ahead
    requires !op.Append? ==> piece + after == ahead
    ensures TextsAmong(ops + [op], pieces + [piece]) && Cat(pieces + [piece]) == Cat(pieces) + piece
    ensures FromDescriptor(ops + [op], pieces + [piece]) + after == FromDescriptor(ops, pieces) + ahead
  {
    var n := |ops|;
    assert (pieces + [piece])[..n] == pieces && (ops + [op])[..n] == ops;
    var before := FromDescriptor(ops, pieces);
    if op.Append? {
      assert before + "" == before;
    } else {
      Assoc(before, piece, after);
    }
  }

  lemma {:induction false} OneMoreLeaves(ops: seq<Op>, leaves: seq<string>, op: Op, leaf: string)
    requires |leaves| == |ops|
    ensures Cat(leaves + [leaf]) == Cat(leaves) + leaf
    ensures ToDescriptor(ops + [op], leaves + [leaf]) == ToDescriptor(ops, leaves) + if op.Clear? then "" else leaf
    ensures Lossy(ops + [op], leaves + [leaf]) <==> Lossy(ops, leaves) || (op.Clear? && leaf != "")
  {
    var n := |ops|;
    var ops', leaves' := ops + [op], leaves + [leaf];
    assert leaves'[..n] == leaves && ops'[..n] == ops;
    assert ops'[n] == op && leaves'[n] == leaf;
    assert forall i :: 0 <= i < n ==> ops'[i] == ops[i] && leaves'[i] == leaves[i];
  }

  /** If nothing was thrown away, what left is what went to the descriptor. */
  lemma {:induction false} LosslessGoesOut(ops: seq<Op>, leaves: seq<string>)
    requires |leaves| == |ops| && !Lossy(ops, leaves)
    ensures ToDescriptor(ops, leaves) == Cat(leaves)
  {
    if ops != [] {
      var n := |ops| - 1;
      var ops', leaves' := ops[..n], leaves[..n];
      assert ops' + [ops[n]] == ops && leaves' + [leaves[n]] == leaves;
      OneMoreLeaves(ops', leaves', ops[n], leaves[n]);
      LosslessGoesOut(ops', leaves');
    }
  }

  /** Four histories: what came in, what left, what the descriptor accepted and what the other
      one still holds. */
  datatype Books = Books(received: string, gone: string, accepted: string, ahead: string)

  ghost function BooksOf(b: Buffer, src: Source, dst: Sink): Books
    reads b, src, dst
  {
    Books(b.received, b.gone, dst.accepted, Bytes(src.answers))
  }

  /** The incoming side of the books after these operations, from the books at the start. */
  predicate Incoming(ops: seq<Op>, pieces: seq<string>, start: Books, now: Books) {
    && TextsAmong(ops, pieces)
    && now.received == start.received + Cat(pieces)
    && FromDescriptor(ops, pieces) + now.ahead == start.ahead
  }

  /** The outgoing side. */
  predicate Outgoing(ops: seq<Op>, leaves: seq<string>, start: Books, now: Books) {
    && |leaves| == |ops|
    && now.gone == start.gone + Cat(leaves)
    && now.accepted == start.accepted + ToDescriptor(ops, leaves)
  }

  predicate Ledger(ops: seq<Op>, pieces: seq<string>, leaves: seq<string>, start: Books, now: Books) {
    Incoming(ops, pieces, start, now) && Outgoing(ops, leaves, start, now)
  }

  lemma {:induction false} EmptyLedger(start: Books)
    ensures Ledger([], [], [], start, start) && !Lossy([], [])
  {
    assert start.received + "" == start.received && "" + start.ahead == start.ahead;
    assert start.gone + "" == start.gone && start.accepted + "" == start.accepted;
  }

  /** What one operation does to the books. */
  predicate Booked(op: Op, came: string, went: string, before: Books, after: Books) {
    && after.received == before.received + came && after.gone == before.gone + went
    && after.accepted == before.accepted + (if op.Clear? then "" else went)
    && (if op.Append? then came == CString(op.text) && after.ahead == before.ahead
        else came + after.ahead == before.ahead)
  }

  lemma {:induction false} BookOne(ops: seq<Op>, pieces: seq<string>, leaves: seq<string>, start: Books, now: Books,
      op: Op, came: string, went: string, after: Books)
    requires Ledger(ops, pieces, leaves, start, now) && Booked(op, came, went, now, after)
    ensures Ledger(ops + [op], pieces + [came], leaves + [went], start, after)
  {
    OneMorePiece(ops, pieces, op, came, now.ahead, after.ahead);
    OneMoreLeaves(ops, leaves, op, went);
    Assoc(start.received, Cat(pieces), came);
    Assoc(start.gone, Cat(leaves), went);
    Assoc(start.accepted, ToDescriptor(ops, leaves), if op.Clear? then "" else went);
  }

  /** One operation more, and its entry in the books. */
  method Book(b: Buffer, src: Source, dst: Sink, op: Op, ghost ops: seq<Op>,
      ghost pieces: seq<string>, ghost leaves: seq<string>, ghost start: Books)
    returns (lost: bool, ghost came: string, ghost went: string)
    requires b.Valid() && Ledger(ops, pieces, leaves, start, BooksOf(b, src, dst))
    modifies b, b.data, src, dst
    ensures b.Valid() && (b.data == old(b.data) || fresh(b.data)) && b.firstCap == old(b.firstCap)
    ensures Ledger(ops + [op], pieces + [came], leaves + [went], start, BooksOf(b, src, dst))
    ensures Lossy(ops + [op], leaves + [went]) <==> Lossy(ops, leaves) || lost
  {
    ghost var now := BooksOf(b, src, dst);
    lost, came, went := Step(b, src, dst, op);
    BookOne(ops, pieces, leaves, start, now, op, came, went, BooksOf(b, src, dst));
    OneMoreLeaves(ops, leaves, op, went);
  }

  /** The operations one after the other. */
  method Perform(b: Buffer, src: Source, dst: Sink, ops: seq<Op>)
    returns (lost: bool, ghost pieces: seq<string>, ghost leaves: seq<string>)
    requires b.Valid()
    modifies b, b.data, src, dst
    ensures b.Valid() && b.firstCap == old(b.firstCap)
    ensures Ledger(ops, pieces, leaves, old(BooksOf(b, src, dst)), BooksOf(b, src, dst))
    ensures lost <==> Lossy(ops, leaves)
  {
    lost, pieces, leaves := false, [], [];
    ghost var start, done := BooksOf(b, src, dst), [];
    EmptyLedger(start);
    var i := 0;
    while i < |ops|
      invariant 0 <= i <= |ops| && done == ops[..i]
      invariant b.Valid() && (b.data == old(b.data) || fresh(b.data)) && b.firstCap == old(b.firstCap)
      invariant Ledger(done, pieces, leaves, start, BooksOf(b, src, dst))
      invariant lost <==> Lossy(done, leaves)
    {
      var gap, came, went := Book(b, src, dst, ops[i], done, pieces, leaves, start);
      lost, pieces, leaves, done := lost || gap, pieces + [came], leaves + [went], done + [ops[i]];
      i := i + 1;
    }
    assert done == ops;
  }

  /** Stream conservation.  Take any buffer, any two descriptors, any sequence of operations
      and any behaviour of the kernel (calls that break an assertion of the source are
      skipped).  What comes in comes operation by operation: an append brings its text, the
      others bring, one after the other, exactly the bytes taken from the descriptor.  What
      leaves does so operation by operation, too: what clear() removes is thrown away, and the
      rest, in order, is exactly what the descriptor accepts.  What has left followed by the
      bytes pending is what was pending followed by what came in.  So as long as every clear()
      finds the buffer empty, the bytes written out followed by the bytes pending are all that
      ever came in, in order; and the capacity keeps its growth bound throughout. */
  method Life(b: Buffer, src: Source, dst: Sink, ops: seq<Op>)
    returns (lost: bool, ghost came: string, ghost pieces: seq<string>, ghost leaves: seq<string>)
    requires b.Valid()
    modifies b, b.data, src, dst
    ensures b.Valid() && b.firstCap == old(b.firstCap)
    ensures b.received == old(b.received) + came
    ensures TextsAmong(ops, pieces) && came == Cat(pieces)
    ensures FromDescriptor(ops, pieces) + Bytes(src.answers) == old(Bytes(src.answers))
    ensures |leaves| == |ops| && Cat(leaves) + b.Contents() == old(b.Contents()) + came
    ensures dst.accepted == old(dst.accepted) + ToDescriptor(ops, leaves)
    ensures lost <==> Lossy(ops, leaves)
    ensures !lost ==> dst.accepted + b.Contents() == old(dst.accepted + b.Contents()) + came
  {
    ghost var start, before := BooksOf(b, src, dst), b.Contents();
    lost, pieces, leaves := Perform(b, src, dst, ops);
    came := Cat(pieces);
    Balance(start.gone, Cat(leaves), b.Contents(), before, came, start.accepted);
    if !lost {
      LosslessGoesOut(ops, leaves);
    }
  }

  lemma {:induction false} Balance(gone: string, went: string, now: string, before: string,
      came: string, accepted: string)
    requires (gone + went) + now == (gone + before) + came
    ensures went + now == before + came
    ensures (accepted + went) + now == (accepted + before) + came
  {
    Assoc(gone, before, came);
    Cancel(gone, went, now, before + came);
    Assoc(accepted, went, now);
    Assoc(accepted, before, came);
  }
}
