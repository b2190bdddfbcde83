/** The stages of the relay are what the server's and the client's objects do. */
module RelayRefinement {
  import opened Common
  import opened Kernel
  import opened BufferModel
  import opened ChessGame
  import opened ChessServer
  import opened ChessRelay
  import opened RelayTheorems
  import opened Framing

  /** The mailbox of a connection. */
  function Mail(message: map<int, string>, to: int): Option<string> {
    if to in message then Some(message[to]) else None
  }

  /** A pair of fresh connections is in the state the relay starts from: nothing but the two
      greetings has been sent, the first one to wait being red. */
  method MatchRefines(s: Server, red: int, black: int) returns (toBlack: string, toRed: string)
    requires s.Valid() && s.single == {} && red !in s.seen && black !in s.seen && red != black
    modifies s
    ensures s.Valid() && s.opponent == old(s.opponent)[red := black][black := red] && s.single == {}
    ensures s.message == old(s.message)
    ensures toRed == Matched().pipes.red.down && toBlack == Matched().pipes.black.down
  {
    var none := s.OnConnect(red);
    assert red in s.single;
    var both := s.OnConnect(black);
    toBlack, toRed := both[0].text, both[1].text;
  }

  /** `onMessage` on the opponent's read buffer is the stage ServerStores, and it does nothing
      exactly when that stage is not ready. */
  method StoreRefines(s: Server, conn: int, rb: Buffer, ghost x: Side, ghost st: State) returns (d: Delivery)
    requires s.Valid() && conn in s.open && conn in s.opponent && rb.Valid() && Shaped(st)
    requires rb.Raw() == st.pipes.At(x).rb && '\0' !in rb.Raw() && rb.offset < rb.data.Length
    requires Mail(s.message, s.opponent[conn]) == st.pipes.At(x).slot
    modifies s`message, rb, rb.data
    ensures s.Valid() && rb.Valid() && !d.Undefined?
    ensures var after := if Ready(st, ServerStores(x)) then Do(st, ServerStores(x)) else st;
            rb.Raw() == after.pipes.At(x).rb && Mail(s.message, s.opponent[conn]) == after.pipes.At(x).slot
    ensures forall c :: c != s.opponent[conn] ==> Mail(s.message, c) == old(Mail(s.message, c))
  {
    NoZeroByte(rb.Raw());
    d := s.OnMessage(conn, rb);
    assert d.Stored? ==> rb.Raw() == "";
  }

  /** The relay after the server has taken n bytes of x's opponent and looked at its buffer. */
  function AfterReadable(st: State, x: Side, n: nat): State
    requires Shaped(st) && n <= |st.pipes.At(x).up|
  {
    var read := if n == 0 then st else Do(st, ServerReads(x, n));
    if Ready(read, ServerStores(x)) then Do(read, ServerStores(x)) else read
  }

  /** Reading into a buffer of which nothing has been consumed. */
  method ReadRaw(rb: Buffer, src: Source) returns (r: Outcome)
    requires rb.Valid() && rb.start == 0
    modifies rb, rb.data, src
    ensures rb.Valid() && (rb.data == old(rb.data) || fresh(rb.data)) && rb.start == 0
    ensures var run := ReadAll(old(src.answers), DEFAULT_STEP);
            r == run.out && src.answers == run.rest && rb.Raw() == old(rb.Raw()) + run.got
    ensures r.Count? ==> rb.offset < rb.data.Length
  {
    ghost var gone, raw, got := rb.gone, rb.Raw(), ReadAll(src.answers, DEFAULT_STEP).got;
    assert rb.Contents() == raw;
    Assoc(gone, raw, got);
    r := rb.ReadNioTillBlock(src);
    ghost var now := rb.Contents();
    assert (gone + now) + "" == gone + now && now + "" == now;
    Cancel(gone, now, "", raw + got);
    assert rb.Raw() == now;
  }

  lemma {:induction false} ReadStage(st: State, x: Side, got: string, rest: string)
    requires Shaped(st) && got + rest <= st.pipes.At(x).up
    ensures var p := st.pipes.At(x);
            var read := if got == "" then st else Do(st, ServerReads(x, |got|));
            && Shaped(read) && read.pipes.At(x).rb == p.rb + got && read.pipes.At(x).slot == p.slot
            && rest <= read.pipes.At(x).up
  {
    var up := st.pipes.At(x).up;
    assert up[..|got|] == got && up[|got|..|got| + |rest|] == rest;
    assert st.pipes.At(x).rb + "" == st.pipes.At(x).rb;
  }

  lemma {:induction false} NoZeroAmong(raw: string, got: string, rest: string, up: string)
    requires '\0' !in raw && '\0' !in up && got + rest <= up
    ensures '\0' !in raw + got
  {
    assert forall i :: 0 <= i < |got| ==> got[i] == (got + rest)[i] == up[i] && up[i] in up;
  }

  /** `onReadable`: the server reads all that is available and calls `onMessage`.  That is the
      stage ServerReads followed by ServerStores when it is ready.  The read leaves room for
      another step, so the test for the newline never looks behind the allocation, and
      `onMessage` is never undefined. */
  method ReadableRefines(s: Server, conn: int, rb: Buffer, src: Source, x: Side, st: State)
    returns (r: Outcome, d: Delivery, ghost n: nat)
    requires s.Valid() && conn in s.open && conn in s.opponent && rb.Valid() && rb.start == 0 && Shaped(st)
    requires rb.Raw() == st.pipes.At(x).rb && '\0' !in rb.Raw() && '\0' !in st.pipes.At(x).up
    requires Bytes(src.answers) <= st.pipes.At(x).up
    requires Mail(s.message, s.opponent[conn]) == st.pipes.At(x).slot
    modifies s`message, rb, rb.data, src
    ensures s.Valid() && rb.Valid()
    ensures r == ReadAll(old(src.answers), DEFAULT_STEP).out && !d.Undefined?
    ensures r.Count? ==> n == r.n <= |st.pipes.At(x).up|
    ensures r.Count? ==>
              var after := AfterReadable(st, x, n).pipes.At(x);
              && rb.Raw() == after.rb && Mail(s.message, s.opponent[conn]) == after.slot
              && Bytes(src.answers) <= after.up
  {
    ghost var run := ReadAll(src.answers, DEFAULT_STEP);
    ReadAllConserves(src.answers, DEFAULT_STEP);
    n := |run.got|;
    ReadStage(st, x, run.got, Bytes(run.rest));
    NoZeroAmong(rb.Raw(), run.got, Bytes(run.rest), st.pipes.At(x).up);
    r := ReadRaw(rb, src);
    d := Ignored;
    if r.Count? {
      d := StoreRefines(s, conn, rb, x, if run.got == "" then st else Do(st, ServerReads(x, n)));
    }
  }

  /** `onEpollLoop` of the thread that owns a connection is the stage ServerTakes for it: one
      message with the mailbox's text is sent, or none if the mailbox is empty. */
  method TakeRefines(s: Server, mine: set<int>, conn: int, x: Side, st: State) returns (out: seq<Direct>)
    requires s.Valid() && conn in mine && Shaped(st)
    requires Mail(s.message, conn) == st.pipes.At(x).slot
    modifies s`message
    ensures s.Valid()
    ensures Ready(st, ServerTakes(x)) <==> Sent(out, conn)
    ensures forall i, j :: 0 <= i < j < |out| && out[i].conn == conn ==> out[j].conn != conn
    ensures forall i :: 0 <= i < |out| && out[i].conn == conn ==>
              && Ready(st, ServerTakes(x))
              && Do(st, ServerTakes(x)).pipes.At(x).wb == st.pipes.At(x).wb + out[i].text
    ensures Ready(st, ServerTakes(x)) ==> Mail(s.message, conn) == Do(st, ServerTakes(x)).pipes.At(x).slot
  {
    out := s.OnEpollLoop(mine);
  }

  /** Playing a received line on the client's board is what `Handle` says of the board, for
      every line on which the client goes on. */
  method HandleRefines(g: Game, c: Client, line: string) returns (ok: bool)
    requires g.Valid() && g.Position() == c.board && line != END_MSG
    modifies g.board
    ensures g.Valid()
    ensures ok <==> Handle(c, line).phase != Left
    ensures g.Position() == Handle(c, line).board
  {
    ok := g.MoveText(line);
  }

  lemma {:induction false} OldLineIsNoMatter(c: Client, before: string, line: string)
    requires IsBoard(c.board)
    ensures Handle(c.(line := before), line) == Handle(c, line)
  {
  }

  /** The run takes the line, byte by byte, and then handles it as a whole. */
  ghost predicate ByteByByte(st: State, x: Side, line: string, run: seq<State>) {
    && Shaped(st) && line <= st.pipes.At(x).down
    && |run| == |line| + 1 && run[0] == st
    && (forall i :: 0 <= i < |line| ==> Ready(run[i], ClientReads(x)) && run[i + 1] == Do(run[i], ClientReads(x)))
    && var c, p := st.clients.At(x), st.pipes.At(x);
    run[|line|] == st.(clients := st.clients.With(x, Handle(c, c.line + line)),
                       pipes := st.pipes.With(x, p.(down := p.down[|line|..])))
  }

  /** Reading a whole line from bytes that have arrived. */
  lemma {:induction false} ReadsLine(st: State, x: Side, line: string) returns (run: seq<State>)
    requires Shaped(st) && st.clients.At(x).phase == Reading && IsLine(line) && line <= st.pipes.At(x).down
    ensures ByteByByte(st, x, line, run)
    decreases |line|
  {
    var c, p := st.clients.At(x), st.pipes.At(x);
    var next := Do(st, ClientReads(x));
    assert line == [line[0]] + line[1..] && p.down[0] == line[0];
    if |line| == 1 {
      assert line == [line[0]];
      run := [st, next];
    } else {
      assert line[..|line| - 1][0] == line[0] && line[0] != '\n';
      assert IsLine(line[1..]) by {
        assert line[1..][..|line[1..]| - 1] == line[..|line| - 1][1..];
      }
      var rest := ReadsLine(next, x, line[1..]);
      Assoc(c.line, [line[0]], line[1..]);
      assert p.down[1..][|line| - 1..] == p.down[|line|..];
      OldLineIsNoMatter(c, c.line + [line[0]], c.line + line);
      run := [st] + rest;
    }
  }

  /** The client's read from fewer bytes than its buffer holds. */
  method NextLineOfFew(b: Buffer, src: Source, x: Side, st: State) returns (r: Search, ghost run: seq<State>)
    requires b.Valid() && Shaped(st) && |st.pipes.At(x).down| < b.data.Length
    requires st.clients.At(x).phase == Reading
    requires Ending(src.answers) == (st.pipes.At(x).down, Blocked)
    modifies b, b.data, src
    ensures b.Valid() && !r.Overread?
    ensures r.Found? <==> '\n' in st.pipes.At(x).down
    ensures r.Found? ==> ByteByByte(st, x, b.Raw(), run) && st.pipes.At(x).down == b.Raw() + Ending(src.answers).0
    ensures r.Stopped? ==> r.out == Blocked && b.Raw() == st.pipes.At(x).down
  {
    ghost var down := st.pipes.At(x).down;
    r := NextLineExactly(b, src);
    run := [];
    assert down[..|down|] == down;
    if r.Found? {
      run := ReadsLine(st, x, b.Raw());
    }
  }

  /** The client's read is a run of the stage ClientReads.  In every state of a game the read
      from what has arrived for the client finds its line or waits for more, and never looks
      behind its buffer of 64 bytes; the line it finds is what the stage, byte by byte, hands
      to `Handle`, and what it leaves is what the stage leaves. */
  method NextLineRefines(b: Buffer, src: Source, x: Side, st: State) returns (r: Search, ghost run: seq<State>)
    requires b.Valid() && b.data.Length == DEFAULT_CAP && Inv(st)
    requires st.clients.At(x).phase == Reading && st.clients.At(x).line == ""
    requires Ending(src.answers) == (st.pipes.At(x).down, Blocked)
    modifies b, b.data, src
    ensures b.Valid() && !r.Overread?
    ensures r.Found? <==> '\n' in st.pipes.At(x).down
    ensures r.Found? ==> ByteByByte(st, x, b.Raw(), run) && st.pipes.At(x).down == b.Raw() + Ending(src.answers).0
    ensures r.Stopped? ==> r.out == Blocked && b.Raw() == st.pipes.At(x).down
  {
    AllFits(st, x);
    r, run := NextLineOfFew(b, src, x, st);
  }
}
