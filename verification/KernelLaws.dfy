/** What reads and writes come to on scripts spelled out answer by answer. */
module KernelLaws {
  import opened Common
  import opened Kernel

  // ------------------------------------------------------------------ reading

  /** Data arriving in these pieces. */
  function DataIn(chunks: seq<string>): seq<ReadAnswer> {
    if chunks == [] then [] else [Data(chunks[0])] + DataIn(chunks[1..])
  }

  function Whole(chunks: seq<string>): string {
    if chunks == [] then "" else chunks[0] + Whole(chunks[1..])
  }

  predicate NoneEmpty(chunks: seq<string>) {
    forall i :: 0 <= i < |chunks| ==> chunks[i] != ""
  }

  /** How a read that has taken n bytes ends at an answer that brings none. */
  function EndAt(x: ReadAnswer, n: nat): Outcome
    requires !x.Data? || x.bytes == ""
  {
    match x
    case Data(_) => EndOfFile
    case Again => Count(n)
    case Eof => EndOfFile
    case Reset => FdClosed
    case ReadBroken => FatalError
  }

  lemma {:induction false} FirstChunk(chunks: seq<string>, tail: seq<ReadAnswer>)
    requires chunks != []
    ensures DataIn(chunks) + tail == [Data(chunks[0])] + (DataIn(chunks[1..]) + tail)
  {
    Assoc([Data(chunks[0])], DataIn(chunks[1..]), tail);
  }

  lemma {:induction false} ReadGoesOn(a: seq<ReadAnswer>, len: nat, bytes: string, rest: seq<ReadAnswer>)
    requires ReadCall(a, len) == (bytes, rest, Moved(|bytes|)) && 0 < |bytes| < len
    ensures ReadUpTo(a, len) == After(bytes, ReadUpTo(rest, len - |bytes|))
  {
    ReadCallConserves(a, len);
    var r := ReadCall(a, len).2;
    assert r.Moved? && 0 < r.n < len && r.n == |bytes|;
    var more := ReadUpTo(rest, len - r.n);
    assert ReadUpTo(a, len) == After(bytes, more);
  }

  /** A read that asks for more than the first piece takes that piece and goes on. */
  lemma {:induction false} PieceTaken(b: string, rest: seq<ReadAnswer>, len: nat)
    requires 0 < |b| < len
    ensures ReadUpTo([Data(b)] + rest, len) == After(b, ReadUpTo(rest, len - |b|))
  {
    var a := [Data(b)] + rest;
    assert a[0] == Data(b) && a[1..] == rest && b[..|b|] == b;
    ReadGoesOn(a, len, b, rest);
  }

  lemma {:induction false} ReadTakesChunk(chunks: seq<string>, tail: seq<ReadAnswer>, len: nat)
    requires chunks != [] && 0 < |chunks[0]| < len
    ensures ReadUpTo(DataIn(chunks) + tail, len)
            == After(chunks[0], ReadUpTo(DataIn(chunks[1..]) + tail, len - |chunks[0]|))
  {
    FirstChunk(chunks, tail);
    PieceTaken(chunks[0], DataIn(chunks[1..]) + tail, len);
  }

  lemma {:induction false} ReadStopsAt(x: ReadAnswer, rest: seq<ReadAnswer>, len: nat)
    requires x.Data? ==> x.bytes == ""
    ensures ReadUpTo([x] + rest, len) == ReadRun("", rest, EndAt(x, 0))
  {
    var a := [x] + rest;
    assert a[0] == x && a[1..] == rest;
    ReadCallConserves(a, len);
    assert ReadCall(a, len).0 == "" && ReadCall(a, len).1 == rest;
  }

  lemma {:induction false} NothingRead(x: ReadAnswer, rest: seq<ReadAnswer>, len: nat)
    requires x.Data? ==> x.bytes == ""
    ensures ReadUpTo(DataIn([]) + ([x] + rest), len) == ReadRun(Whole([]), rest, EndAt(x, |Whole([])|))
  {
    assert DataIn([]) + ([x] + rest) == [x] + rest;
    ReadStopsAt(x, rest, len);
  }

  lemma {:induction false} AfterRun(b: string, got: string, rest: seq<ReadAnswer>, x: ReadAnswer, whole: string)
    requires (x.Data? ==> x.bytes == "") && whole == b + got
    ensures After(b, ReadRun(got, rest, EndAt(x, |got|))) == ReadRun(whole, rest, EndAt(x, |whole|))
  {
  }

  lemma {:induction false} AfterCount(b: string, got: string, rest: seq<ReadAnswer>, whole: string)
    requires whole == b + got
    ensures After(b, ReadRun(got, rest, Count(|got|))) == ReadRun(whole, rest, Count(|whole|))
  {
  }

  /** Cutting a text behind its first piece. */
  lemma {:induction false} CutBehind(b: string, more: string, len: nat)
    requires |b| <= len <= |b| + |more|
    ensures (b + more)[len..] == more[len - |b|..] && (b + more)[..len] == b + more[..len - |b|]
  {
  }

  /** A short read.  All pieces in front of the first answer that brings no bytes are taken, the
      read ends there, and what comes after that answer is left: EAGAIN ends it with the number
      of bytes taken, and so does nothing else. */
  lemma {:induction false} ShortRead(chunks: seq<string>, x: ReadAnswer, rest: seq<ReadAnswer>, len: nat)
    requires NoneEmpty(chunks) && |Whole(chunks)| < len && (x.Data? ==> x.bytes == "")
    ensures ReadUpTo(DataIn(chunks) + ([x] + rest), len) == ReadRun(Whole(chunks), rest, EndAt(x, |Whole(chunks)|))
    decreases |chunks|
  {
    if chunks == [] {
      NothingRead(x, rest, len);
    } else {
      var b, more := chunks[0], chunks[1..];
      ReadTakesChunk(chunks, [x] + rest, len);
      ShortRead(more, x, rest, len - |b|);
      AfterRun(b, Whole(more), rest, x, Whole(chunks));
    }
  }

  /** A read that asks for no more than the first piece takes what it asked for. */
  lemma {:induction false} PieceCut(b: string, rest: seq<ReadAnswer>, len: nat)
    requires 0 < len <= |b|
    ensures ReadUpTo([Data(b)] + rest, len) == ReadRun(b[..len], TakeFrom([Data(b)] + rest, len), Count(len))
  {
    ReadCallConserves([Data(b)] + rest, len);
  }

  /** The read asked for len bytes of these pieces, and those in `left` stay. */
  predicate Filled(chunks: seq<string>, tail: seq<ReadAnswer>, len: nat, left: seq<string>)
    requires len <= |Whole(chunks)|
  {
    && Whole(left) == Whole(chunks)[len..]
    && ReadUpTo(DataIn(chunks) + tail, len) == ReadRun(Whole(chunks)[..len], DataIn(left) + tail, Count(len))
  }

  lemma {:induction false} FillLater(chunks: seq<string>, tail: seq<ReadAnswer>, len: nat, left: seq<string>)
    requires chunks != [] && 0 < |chunks[0]| < len <= |Whole(chunks)|
    requires Filled(chunks[1..], tail, len - |chunks[0]|, left)
    ensures Filled(chunks, tail, len, left)
  {
    var b, more := chunks[0], chunks[1..];
    ReadTakesChunk(chunks, tail, len);
    CutBehind(b, Whole(more), len);
    AfterCount(b, Whole(more)[..len - |b|], DataIn(left) + tail, Whole(chunks)[..len]);
  }

  lemma {:induction false} FillNow(chunks: seq<string>, tail: seq<ReadAnswer>, len: nat) returns (left: seq<string>)
    requires NoneEmpty(chunks) && chunks != [] && 0 < len <= |chunks[0]|
    ensures NoneEmpty(left) && len <= |Whole(chunks)| && Filled(chunks, tail, len, left)
  {
    var b, more := chunks[0], chunks[1..];
    left := (if |b| == len then [] else [b[len..]]) + more;
    FirstChunk(chunks, tail);
    PieceCut(b, DataIn(more) + tail, len);
    LeftOver(b, more, tail, len);
    assert [b] + more == chunks;
  }

  /** A read for which enough arrives takes exactly what it asked for and leaves the rest. */
  lemma {:induction false} FullRead(chunks: seq<string>, tail: seq<ReadAnswer>, len: nat) returns (left: seq<string>)
    requires NoneEmpty(chunks) && 0 < len <= |Whole(chunks)|
    ensures NoneEmpty(left) && Whole(left) == Whole(chunks)[len..]
    ensures ReadUpTo(DataIn(chunks) + tail, len) == ReadRun(Whole(chunks)[..len], DataIn(left) + tail, Count(len))
    decreases |chunks|
  {
    if |chunks[0]| < len {
      left := FullRead(chunks[1..], tail, len - |chunks[0]|);
      FillLater(chunks, tail, len, left);
    } else {
      left := FillNow(chunks, tail, len);
    }
  }

  lemma {:induction false} LeftOver(b: string, more: seq<string>, tail: seq<ReadAnswer>, len: nat)
    requires 0 < len <= |b|
    ensures var left := (if |b| == len then [] else [b[len..]]) + more;
            && Whole(left) == Whole([b] + more)[len..]
            && TakeFrom([Data(b)] + (DataIn(more) + tail), len) == DataIn(left) + tail
            && Whole([b] + more)[..len] == b[..len]
  {
    assert ([b] + more)[1..] == more;
    if |b| == len {
      assert [] + more == more;
      assert ([Data(b)] + (DataIn(more) + tail))[1..] == DataIn(more) + tail;
    } else {
      var left := [b[len..]] + more;
      assert left[1..] == more;
      assert ([Data(b)] + (DataIn(more) + tail))[1..] == DataIn(more) + tail;
      Assoc([Data(b[len..])], DataIn(more), tail);
    }
  }

  /** n bytes make up whole steps. */
  predicate WholeSteps(n: nat, step: pos) {
    n == 0 || (n >= step && WholeSteps(n - step, step))
  }

  lemma {:induction false} AllGoesOn(a: seq<ReadAnswer>, step: pos, got: string, rest: seq<ReadAnswer>)
    requires ReadUpTo(a, step) == ReadRun(got, rest, Count(|got|))
    ensures ReadAll(a, step) == if got == "" then ReadRun("", rest, Count(0)) else After(got, ReadAll(rest, step))
  {
    ReadUpToCounts(a, step);
  }

  lemma {:induction false} OneStepMore(all: string, step: pos, r: ReadRun, rest: seq<ReadAnswer>, later: ReadRun)
    requires step <= |all|
    requires r == if WholeSteps(|all| - step, step) then ReadRun(all[step..], rest, Count(|all| - step))
                  else After(all[step..], later)
    ensures After(all[..step], r) ==
            if WholeSteps(|all|, step) then ReadRun(all, rest, Count(|all|)) else After(all, later)
  {
    assert all == all[..step] + all[step..];
    AfterAfter(all[..step], all[step..], later);
  }

  /** Reading all that is available.  Every piece in front of an EAGAIN is taken; there it ends
      if the last step brought nothing, that is if the pieces make up whole steps; otherwise the
      step was short and one more is tried. */
  lemma {:induction false} ReadAllAtAgain(chunks: seq<string>, rest: seq<ReadAnswer>, step: pos)
    requires NoneEmpty(chunks)
    ensures ReadAll(DataIn(chunks) + ([Again] + rest), step) ==
            if WholeSteps(|Whole(chunks)|, step) then ReadRun(Whole(chunks), rest, Count(|Whole(chunks)|))
            else After(Whole(chunks), ReadAll(rest, step))
    decreases |Whole(chunks)|
  {
    var a, all := DataIn(chunks) + ([Again] + rest), Whole(chunks);
    if |all| < step {
      ShortRead(chunks, Again, rest, step);
      AllGoesOn(a, step, all, rest);
    } else {
      var left := FullRead(chunks, [Again] + rest, step);
      AllGoesOn(a, step, all[..step], DataIn(left) + ([Again] + rest));
      ReadAllAtAgain(left, rest, step);
      OneStepMore(all, step, ReadAll(DataIn(left) + ([Again] + rest), step), rest, ReadAll(rest, step));
    }
  }

  /** Two EAGAIN in a row end it always. */
  lemma {:induction false} ReadAllEnds(chunks: seq<string>, rest: seq<ReadAnswer>, step: pos)
    requires NoneEmpty(chunks)
    ensures var r := ReadAll(DataIn(chunks) + ([Again] + ([Again] + rest)), step);
            && r.got == Whole(chunks) && r.out == Count(|Whole(chunks)|)
            && (r.rest == rest || r.rest == [Again] + rest)
  {
    ReadAllAtAgain(chunks, [Again] + rest, step);
    ReadAllAtAgain([], rest, step);
    assert DataIn([]) + ([Again] + rest) == [Again] + rest;
    assert Whole(chunks) + "" == Whole(chunks);
  }

  // ------------------------------------------------------------------ writing

  /** Room for these numbers of bytes, call by call. */
  function RoomFor(rooms: seq<pos>): seq<WriteAnswer> {
    if rooms == [] then [] else [Room(rooms[0])] + RoomFor(rooms[1..])
  }

  function Sum(rooms: seq<pos>): nat {
    if rooms == [] then 0 else rooms[0] + Sum(rooms[1..])
  }

  function StopAt(x: WriteAnswer, n: nat): Outcome
    requires !x.Room?
  {
    match x
    case Full => Count(n)
    case PeerGone => FdClosed
    case WriteBroken => FatalError
  }

  lemma {:induction false} FirstRoom(rooms: seq<pos>, tail: seq<WriteAnswer>)
    requires rooms != []
    ensures var a := RoomFor(rooms) + tail; a[0] == Room(rooms[0]) && a[1..] == RoomFor(rooms[1..]) + tail
  {
  }

  lemma {:induction false} ShortWriteFrom(sent: nat, rooms: seq<pos>, x: WriteAnswer, rest: seq<WriteAnswer>, left: nat)
    requires Sum(rooms) < left && !x.Room?
    ensures WriteFrom(sent, RoomFor(rooms) + ([x] + rest), left)
            == WriteRun(sent + Sum(rooms), rest, StopAt(x, sent + Sum(rooms)))
    decreases |rooms|
  {
    var a := RoomFor(rooms) + ([x] + rest);
    if rooms == [] {
      assert a == [x] + rest && a[1..] == rest;
    } else {
      FirstRoom(rooms, [x] + rest);
      ShortWriteFrom(sent + rooms[0], rooms[1..], x, rest, left - rooms[0]);
    }
  }

  /** A short write.  The room in front of the first answer that gives none is used up, the
      write ends there, and what comes after that answer is left: EAGAIN ends it with the number
      of bytes sent. */
  lemma {:induction false} ShortWrite(rooms: seq<pos>, x: WriteAnswer, rest: seq<WriteAnswer>, len: nat)
    requires Sum(rooms) < len && !x.Room?
    ensures WriteUpTo(RoomFor(rooms) + ([x] + rest), len) == WriteRun(Sum(rooms), rest, StopAt(x, Sum(rooms)))
  {
    ShortWriteFrom(0, rooms, x, rest, len);
  }

  lemma {:induction false} FullWriteFrom(sent: nat, rooms: seq<pos>, tail: seq<WriteAnswer>, left: nat)
    requires left <= Sum(rooms)
    ensures var r := WriteFrom(sent, RoomFor(rooms) + tail, left); r.sent == sent + left && r.out == Count(sent + left)
    decreases |rooms|
  {
    if left > 0 {
      FirstRoom(rooms, tail);
      if rooms[0] < left {
        FullWriteFrom(sent + rooms[0], rooms[1..], tail, left - rooms[0]);
      }
    }
  }

  /** With room enough everything asked for is sent. */
  lemma {:induction false} FullWrite(rooms: seq<pos>, tail: seq<WriteAnswer>, len: nat)
    requires len <= Sum(rooms)
    ensures var r := WriteUpTo(RoomFor(rooms) + tail, len); r.sent == len && r.out == Count(len)
  {
    FullWriteFrom(0, rooms, tail, len);
  }

  lemma {:induction false} StepSends(sent: nat, a: seq<WriteAnswer>, left: nat, step: pos, n: nat,
      rest: seq<WriteAnswer>)
    requires left > 0 && n <= left && WriteUpTo(a, Min(step, left)) == WriteRun(n, rest, Count(n))
    ensures var size: pos := Min(step, left);
            && SendAvailable(sent, a, left, step) ==
               (if n == 0 then WriteRun(sent, rest, Count(sent)) else SendAvailable(sent + n, rest, left - n, size))
            && SendAll(sent, a, left, step) == SendAll(sent + n, rest, left - n, size)
  {
    WriteUpToBounds(a, Min(step, left));
  }

  /** Writing what can be written now ends at a step that meets EAGAIN at once, goes on after a
      step that EAGAIN cut short, and writing everything goes on after both. */
  lemma {:induction false} StepsMeetFull(sent: nat, rooms: seq<pos>, rest: seq<WriteAnswer>, left: nat, step: pos)
    requires Sum(rooms) < Min(step, left)
    ensures var n, size: pos := Sum(rooms), Min(step, left);
            && SendAvailable(sent, RoomFor(rooms) + ([Full] + rest), left, step) ==
               (if rooms == [] then WriteRun(sent, rest, Count(sent))
                else SendAvailable(sent + n, rest, left - n, size))
            && SendAll(sent, RoomFor(rooms) + ([Full] + rest), left, step) == SendAll(sent + n, rest, left - n, size)
  {
    ShortWrite(rooms, Full, rest, Min(step, left));
    StepSends(sent, RoomFor(rooms) + ([Full] + rest), left, step, Sum(rooms), rest);
    assert Sum(rooms) == 0 <==> rooms == [];
  }
}
