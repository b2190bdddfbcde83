/**
  One game: two clients, each with its own board, and the server between them.  Each
  direction is a pipeline of stages (the client's line buffer, the kernel's bytes on either
  side, the server's read buffer, the mailbox, the server's write buffer) and TCP may move
  any number of bytes between stages at any time.
 */
module ChessRelay {
  import opened Common
  import opened ChessGame
  import opened ChessServer
  import opened Framing

  datatype Side = Red | Black

  function Other(x: Side): Side {
    if x == Red then Black else Red
  }

  datatype Phase = Reading | Thinking | Left

  /** A client.  `met` is whether `_player` has left 'U'; `heard` is the history of the
      opponent's moves it has played on its board. */
  datatype Client = Client(phase: Phase, met: bool, line: string, board: Board, heard: seq<Move>)

  /** The stages on the way to one client, the server's read buffer and the kernel's bytes
      of the opponent last. */
  datatype Pipe = Pipe(down: string, wb: string, slot: Option<string>, rb: string, up: string)

  /** One thing per side. */
  datatype Both<T> = Both(red: T, black: T) {
    function At(x: Side): T {
      if x == Red then red else black
    }

    function With(x: Side, t: T): Both<T> {
      if x == Red then this.(red := t) else this.(black := t)
    }
  }

  datatype State = State(clients: Both<Client>, pipes: Both<Pipe>, moves: seq<Move>)

  datatype Action =
    | Play(x: Side, m: Move)     // x's user enters a move; x plays it and writes it
    | ServerReads(x: Side, n: nat) // n bytes on the way to x reach the server's buffer
    | ServerStores(x: Side)      // onMessage for x's opponent
    | ServerTakes(x: Side)       // the thread that owns x's socket empties the mailbox
    | ServerWrites(x: Side, n: nat)
    | ClientReads(x: Side)       // x takes one byte

  predicate Shaped(s: State) {
    IsBoard(s.clients.red.board) && IsBoard(s.clients.black.board)
  }

  function First(): Client {
    Client(Reading, false, "", OPENING, [])
  }

  /** What the second connection leaves behind: both greetings written to the sockets. */
  function Matched(): State {
    State(Both(First(), First()),
          Both(Pipe(INIT_RED, "", None, "", ""), Pipe(INIT_BLACK, "", None, "", "")), [])
  }

  /** The client's treatment of a whole line. */
  function Handle(c: Client, line: string): Client
    requires IsBoard(c.board)
  {
    if line == END_MSG then c.(phase := Left, met := true, line := line)
    else if Parse(line).None? || !Playable(Parse(line).value) then c.(phase := Left, met := true, line := line)
    else
      var m := Parse(line).value;
      var heard := if c.met then c.heard + [m] else c.heard;
      var c' := c.(met := true, line := "", board := After(c.board, m), heard := heard);
      if line == INIT_BLACK then c'.(phase := Reading) else c'.(phase := Thinking)
  }

  /** One byte more; the newline makes the line whole. */
  function Received(c: Client, byte: char): Client
    requires IsBoard(c.board)
  {
    if byte == '\n' then Handle(c, c.line + [byte]) else c.(line := c.line + [byte])
  }

  predicate EndsWithNewline(s: string) {
    s != "" && s[|s| - 1] == '\n'
  }

  /** A move that its own player can play and whose text is read back as that move.  It need not
      be on the board: a move from a place to itself is always played. */
  predicate Readable(m: Move) {
    Playable(m) && Parse(Format(m)) == Some(m)
  }

  predicate Ready(s: State, a: Action) {
    && Shaped(s)
    && match a
       case Play(x, m) => s.clients.At(x).phase == Thinking && Readable(m)
       case ServerReads(x, n) => 1 <= n <= |s.pipes.At(x).up|
       case ServerStores(x) => EndsWithNewline(s.pipes.At(x).rb)
       case ServerTakes(x) => s.pipes.At(x).slot.Some?
       case ServerWrites(x, n) => 1 <= n <= |s.pipes.At(x).wb|
       case ClientReads(x) => s.clients.At(x).phase == Reading && s.pipes.At(x).down != ""
  }

  function Do(s: State, a: Action): State
    requires Ready(s, a)
  {
    var p := s.pipes.At(a.x);
    var c := s.clients.At(a.x);
    match a
    case Play(x, m) =>
      var q := s.pipes.At(Other(x));
      State(s.clients.With(x, c.(phase := Reading, line := "", board := After(c.board, m))),
            s.pipes.With(Other(x), q.(up := q.up + Format(m))),
            s.moves + [m])
    case ServerReads(x, n) => s.(pipes := s.pipes.With(x, p.(rb := p.rb + p.up[..n], up := p.up[n..])))
    case ServerStores(x) => s.(pipes := s.pipes.With(x, p.(slot := Some(p.rb), rb := "")))
    case ServerTakes(x) => s.(pipes := s.pipes.With(x, p.(wb := p.wb + p.slot.value, slot := None)))
    case ServerWrites(x, n) => s.(pipes := s.pipes.With(x, p.(down := p.down + p.wb[..n], wb := p.wb[n..])))
    case ClientReads(x) =>
      s.(pipes := s.pipes.With(x, p.(down := p.down[1..])),
      clients := s.clients.With(x, Received(c, p.down[0])))
  }

  /** A move that is not mistaken for a greeting or a farewell. */
  predicate Distinct(m: Move) {
    Readable(m) && Format(m) != INIT_BLACK && Format(m) != END_MSG
  }

  /** Moves of which only the last can be mistaken: nobody plays after it. */
  predicate Sound(moves: seq<Move>) {
    && (forall i :: 0 <= i < |moves| ==> Readable(moves[i]))
    && (forall i :: 0 <= i < |moves| - 1 ==> Distinct(moves[i]))
  }

  predicate AllDistinct(moves: seq<Move>) {
    forall i :: 0 <= i < |moves| ==> Distinct(moves[i])
  }

  ghost predicate Follows(s: State, s': State) {
    exists a :: Ready(s, a) && s' == Do(s, a)
  }

  ghost predicate IsRun(run: seq<State>) {
    && run != [] && run[0] == Matched()
    && forall i :: 0 <= i < |run| - 1 ==> Follows(run[i], run[i + 1])
  }

  // ------------------------------------------------------------------ what every step keeps

  /** Whose turn it is to hear the last move and to play the next. */
  function Turn(moves: seq<Move>): Side {
    if |moves| % 2 == 0 then Red else Black
  }

  function Replay(moves: seq<Move>): (b: Board)
    requires Sound(moves)
    ensures IsBoard(b)
  {
    if moves == [] then OPENING else After(Replay(moves[..|moves| - 1]), moves[|moves| - 1])
  }

  /** The moves of one player, in order: Red's are the first, third and so on. */
  function By(moves: seq<Move>, x: Side): seq<Move> {
    if moves == [] then []
    else
      var before := By(moves[..|moves| - 1], x);
      if Turn(moves[..|moves| - 1]) == x then before + [moves[|moves| - 1]] else before
  }

  /** The line on its way to the player whose turn it is. */
  function Token(moves: seq<Move>): string {
    if moves == [] then INIT_RED else Format(moves[|moves| - 1])
  }

  /** The greeting a client may not have read yet. */
  function Greeting(c: Client, x: Side): string {
    if x == Black && !c.met then INIT_BLACK else ""
  }

  /** The bytes that are past the mailbox on their way to the client. */
  function Front(p: Pipe, c: Client): string {
    c.line + (p.down + p.wb)
  }

  /** The token is in one place: still on the way to the mailbox, in it, or past it. */
  predicate Carries(p: Pipe, c: Client, greeting: string, token: string) {
    || (p.rb + p.up == token && p.slot == None && Front(p, c) == greeting)
    || (p.rb == p.up == "" && p.slot == Some(token) && Front(p, c) == greeting)
    || (p.rb == p.up == "" && p.slot == None && Front(p, c) == greeting + token)
  }

  /** Nothing is on its way but perhaps the greeting. */
  predicate Quiet(p: Pipe, c: Client, greeting: string) {
    p.rb == p.up == "" && p.slot == None && Front(p, c) == greeting
  }

  /** A client whose turn it is not. */
  ghost predicate WaitingOk(c: Client, p: Pipe, y: Side, moves: seq<Move>)
    requires Sound(moves)
  {
    && c.phase == Reading && '\n' !in c.line
    && Quiet(p, c, Greeting(c, y))
    && c.board == Replay(moves) && c.heard == By(moves, Other(y))
    && (y == Red ==> c.met)
  }

  /** A client whose turn it is, before it has heard of the last move. */
  ghost predicate ExpectingOk(c: Client, p: Pipe, x: Side, moves: seq<Move>)
    requires Sound(moves)
  {
    && c.phase == Reading && '\n' !in c.line
    && Carries(p, c, Greeting(c, x), Token(moves))
    && (x == Red ==> (c.met <==> moves != []))
    && if moves == [] then c.board == OPENING && c.heard == []
       else
         var before := moves[..|moves| - 1];
         c.board == Replay(before) && c.heard == By(before, Other(x))
  }

  /** The same client once it has heard of it: asked for its own move, unless the text of the
      last move was that of a control message. */
  ghost predicate HeardOk(c: Client, x: Side, moves: seq<Move>)
    requires Sound(moves)
  {
    if moves != [] && Format(moves[|moves| - 1]) == END_MSG then
      var before := moves[..|moves| - 1];
      c.phase == Left && c.board == Replay(before) && c.heard == By(before, Other(x))
    else
      && c.phase == (if moves != [] && Format(moves[|moves| - 1]) == INIT_BLACK then Reading else Thinking)
      && c.met && c.line == ""
      && c.board == Replay(moves) && c.heard == By(moves, Other(x))
  }

  const EMPTY_PIPE := Pipe("", "", None, "", "")

  ghost predicate Inv(s: State) {
    && Shaped(s)
    && Sound(s.moves)
    && var x := Turn(s.moves);
    var y := Other(x);
    && WaitingOk(s.clients.At(y), s.pipes.At(y), y, s.moves)
    && (ExpectingOk(s.clients.At(x), s.pipes.At(x), x, s.moves)
        || (s.pipes.At(x) == EMPTY_PIPE && HeardOk(s.clients.At(x), x, s.moves)))
  }

  // ------------------------------------------------------------------ texts

  lemma {:induction false} Greetings()
    ensures Format(Move(0, 0, 0, 0)) == INIT_RED && Format(Move(1, 1, 1, 1)) == INIT_BLACK
    ensures Format(Move(2, 2, 2, 2)) == END_MSG
    ensures Readable(Move(0, 0, 0, 0)) && Readable(Move(1, 1, 1, 1)) && Readable(Move(2, 2, 2, 2))
    ensures IsLine(INIT_RED) && IsLine(INIT_BLACK)
    ensures Parse(INIT_RED) == Some(Move(0, 0, 0, 0)) && Parse(INIT_BLACK) == Some(Move(1, 1, 1, 1))
    ensures INIT_RED != INIT_BLACK && INIT_RED != END_MSG && INIT_BLACK != END_MSG
  {
    RoundTrip(Move(0, 0, 0, 0));
    RoundTrip(Move(1, 1, 1, 1));
    RoundTrip(Move(2, 2, 2, 2));
    assert INIT_RED[0] != INIT_BLACK[0] && INIT_RED[0] != END_MSG[0] && INIT_BLACK[0] != END_MSG[0];
  }

  lemma {:induction false} FormatIsLine(m: Move)
    requires Readable(m)
    ensures IsLine(Format(m)) && |Format(m)| == 8 && Parse(Format(m)) == Some(m)
  {
    RoundTrip(m);
    var t := Format(m);
    var a, b, c, d := ToString(m.fx), ToString(m.fy), ToString(m.tx), ToString(m.ty);
    assert t[..|t| - 1] == a + " " + b + " " + c + " " + d;
  }

  lemma {:induction false} TokenIsLine(moves: seq<Move>)
    requires Sound(moves)
    ensures IsLine(Token(moves))
  {
    Greetings();
    if moves != [] {
      FormatIsLine(moves[|moves| - 1]);
    }
  }

  lemma {:induction false} TokenLength(moves: seq<Move>)
    requires Sound(moves)
    ensures |Token(moves)| == 8
  {
    if moves != [] {
      FormatIsLine(moves[|moves| - 1]);
    }
  }

  /** A move has the text of a control message only if it is the move that message stands for. */
  lemma {:induction false} MistakenMoves(m: Move)
    requires Readable(m)
    ensures Format(m) == INIT_BLACK <==> m == Move(1, 1, 1, 1)
    ensures Format(m) == END_MSG <==> m == Move(2, 2, 2, 2)
  {
    Greetings();
    RoundTrip(m);
    RoundTrip(Move(2, 2, 2, 2));
  }

  /** Reading up to the first newline gives the first line. */
  lemma {:induction false} FirstLine(prefix: string, rest: string, line: string, tail: string)
    requires IsLine(line) && '\n' !in prefix
    requires (prefix + ['\n']) + rest == line + tail
    ensures prefix + ['\n'] == line && rest == tail
  {
    var all := line + tail;
    assert all[|prefix|] == '\n' && all[|line| - 1] == '\n';
    assert forall i :: 0 <= i < |line| - 1 ==> all[i] == line[..|line| - 1][i];
    assert forall i :: 0 <= i < |line| - 1 ==> all[i] != '\n';
    assert forall i :: 0 <= i < |prefix| ==> all[i] == prefix[i];
    assert |prefix| == |line| - 1;
    assert prefix + ['\n'] == all[..|prefix| + 1] == line;
    assert rest == all[|prefix| + 1..] == tail;
  }

  // ------------------------------------------------------------------ stages

  lemma {:induction false} StagesKeep(p: Pipe, c: Client, greeting: string, token: string, n: nat)
    requires Carries(p, c, greeting, token)
    ensures n <= |p.up| ==> Carries(p.(rb := p.rb + p.up[..n], up := p.up[n..]), c, greeting, token)
    ensures n <= |p.wb| ==> Carries(p.(down := p.down + p.wb[..n], wb := p.wb[n..]), c, greeting, token)
  {
    if n <= |p.up| {
      Assoc(p.rb, p.up[..n], p.up[n..]);
      assert p.up[..n] + p.up[n..] == p.up;
    }
    if n <= |p.wb| {
      Assoc(p.down, p.wb[..n], p.wb[n..]);
      assert p.wb[..n] + p.wb[n..] == p.wb;
    }
  }

  lemma {:induction false} QuietKeeps(p: Pipe, c: Client, greeting: string, n: nat)
    requires Quiet(p, c, greeting) && n <= |p.wb|
    ensures Quiet(p.(down := p.down + p.wb[..n], wb := p.wb[n..]), c, greeting)
  {
    Assoc(p.down, p.wb[..n], p.wb[n..]);
    assert p.wb[..n] + p.wb[n..] == p.wb;
  }

  /** The server stores nothing but the whole token, in an empty mailbox. */
  lemma {:induction false} StoreKeeps(p: Pipe, c: Client, greeting: string, token: string)
    requires Carries(p, c, greeting, token) && IsLine(token) && EndsWithNewline(p.rb)
    ensures p.slot == None && p.rb == token
    ensures Carries(p.(slot := Some(p.rb), rb := ""), c, greeting, token)
  {
    assert p.rb != "";
    assert p.rb + p.up == token;
    assert forall i :: 0 <= i < |token| - 1 ==> token[i] == token[..|token| - 1][i];
    assert token[|p.rb| - 1] == '\n';
    assert |p.rb| == |token|;
    assert p.up == "" && p.rb + "" == p.rb;
  }

  lemma {:induction false} TakeKeeps(p: Pipe, c: Client, greeting: string, token: string)
    requires Carries(p, c, greeting, token) && p.slot.Some?
    ensures Carries(p.(wb := p.wb + p.slot.value, slot := None), c, greeting, token)
  {
    Assoc(p.down, p.wb, token);
    Assoc(c.line, p.down + p.wb, token);
  }

  /** The next byte of a client's front. */
  lemma {:induction false} NextByte(p: Pipe, c: Client)
    requires p.down != ""
    ensures Front(p, c) == (c.line + [p.down[0]]) + (p.down[1..] + p.wb)
  {
    assert p.down == [p.down[0]] + p.down[1..];
    Assoc([p.down[0]], p.down[1..], p.wb);
    Assoc(c.line, [p.down[0]], p.down[1..] + p.wb);
  }
}
