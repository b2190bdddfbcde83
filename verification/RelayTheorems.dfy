/** The two boards agree. */
module RelayTheorems {
  import opened Common
  import opened ChessGame
  import opened ChessServer
  import opened Framing
  import opened ChessRelay

  lemma {:induction false} HandleGreeting(c: Client)
    requires IsBoard(c.board) && !c.met
    ensures Handle(c, INIT_BLACK) == c.(met := true, line := "", phase := Reading)
  {
    Greetings();
  }

  lemma {:induction false} HandleRedGreeting(c: Client)
    requires c.board == OPENING && IsBoard(c.board) && !c.met
    ensures Handle(c, INIT_RED) == c.(met := true, line := "", phase := Thinking)
  {
    Greetings();
  }

  lemma {:induction false} HandleMove(c: Client, m: Move)
    requires IsBoard(c.board) && c.met && Distinct(m)
    ensures Handle(c, Format(m)) == Client(Thinking, true, "", After(c.board, m), c.heard + [m])
  {
    FormatIsLine(m);
  }

  lemma {:induction false} HandleBlack(c: Client, m: Move)
    requires IsBoard(c.board) && c.met && Readable(m) && Format(m) == INIT_BLACK
    ensures Handle(c, Format(m)) == Client(Reading, true, "", After(c.board, m), c.heard + [m])
  {
    Greetings();
    FormatIsLine(m);
  }

  lemma {:induction false} HandleEnd(c: Client)
    requires IsBoard(c.board)
    ensures Handle(c, END_MSG) == c.(phase := Left, met := true, line := END_MSG)
  {
  }

  lemma {:induction false} LastHeard(moves: seq<Move>, x: Side)
    requires moves != []
    ensures var before, last := moves[..|moves| - 1], moves[|moves| - 1];
            By(moves, x) == if Turn(moves) == x then By(before, x) else By(before, x) + [last]
  {
  }

  lemma {:induction false} Prefix(moves: seq<Move>)
    requires Sound(moves) && moves != []
    ensures Sound(moves[..|moves| - 1]) && AllDistinct(moves[..|moves| - 1]) && Readable(moves[|moves| - 1])
  {
  }

  /** What one more move does to the replayed board and to the histories. */
  lemma {:induction false} LastMove(moves: seq<Move>, x: Side)
    requires Sound(moves) && moves != []
    ensures var before, last := moves[..|moves| - 1], moves[|moves| - 1];
            && Sound(before) && Readable(last) && Token(moves) == Format(last)
            && Replay(moves) == After(Replay(before), last)
            && By(moves, x) == if Turn(moves) == x then By(before, x) else By(before, x) + [last]
  {
    Prefix(moves);
    LastHeard(moves, x);
  }

  /** Hearing the token brings the board and the history up to date and asks for a move,
      unless it is mistaken. */
  lemma {:induction false} HandleToken(c: Client, x: Side, moves: seq<Move>)
    requires IsBoard(c.board) && Sound(moves) && x == Turn(moves)
    requires if moves == [] then !c.met && c.board == OPENING && c.heard == []
             else c.met && c.board == Replay(moves[..|moves| - 1]) && c.heard == By(moves[..|moves| - 1], Other(x))
    ensures HeardOk(Handle(c, Token(moves)), x, moves)
  {
    if moves == [] {
      HandleRedGreeting(c);
    } else {
      var m := moves[|moves| - 1];
      LastMove(moves, Other(x));
      if Format(m) == END_MSG {
        HandleEnd(c);
      } else if Format(m) == INIT_BLACK {
        Greetings();
        HandleBlack(c, m);
      } else {
        HandleMove(c, m);
      }
    }
  }

  lemma {:induction false} WaitingHears(c: Client, p: Pipe, y: Side, moves: seq<Move>)
    requires Sound(moves)
    requires IsBoard(c.board) && WaitingOk(c, p, y, moves) && p.down != "" && p.down[0] == '\n'
    ensures c.line + [p.down[0]] == INIT_BLACK && p.(down := p.down[1..]) == EMPTY_PIPE
    ensures Received(c, p.down[0]) == c.(met := true, line := "", phase := Reading)
  {
    NextByte(p, c);
    Greetings();
    assert Greeting(c, y) == INIT_BLACK && INIT_BLACK + "" == INIT_BLACK;
    FirstLine(c.line, p.down[1..] + p.wb, INIT_BLACK, "");
    HandleGreeting(c);
  }

  lemma {:induction false} WaitingReads(c: Client, p: Pipe, y: Side, moves: seq<Move>)
    requires Sound(moves)
    requires IsBoard(c.board) && WaitingOk(c, p, y, moves) && p.down != ""
    ensures WaitingOk(Received(c, p.down[0]), p.(down := p.down[1..]), y, moves)
  {
    NextByte(p, c);
    if p.down[0] == '\n' {
      WaitingHears(c, p, y, moves);
    }
  }

  lemma {:induction false} ExpectingWaits(c: Client, p: Pipe, x: Side, moves: seq<Move>)
    requires Sound(moves)
    requires IsBoard(c.board) && ExpectingOk(c, p, x, moves) && p.down != "" && p.down[0] != '\n'
    ensures ExpectingOk(Received(c, p.down[0]), p.(down := p.down[1..]), x, moves)
  {
    NextByte(p, c);
  }

  lemma {:induction false} ExpectingReads(c: Client, p: Pipe, x: Side, moves: seq<Move>)
    requires Sound(moves)
    requires IsBoard(c.board) && ExpectingOk(c, p, x, moves) && x == Turn(moves) && p.down != ""
    ensures var c' := Received(c, p.down[0]); var p' := p.(down := p.down[1..]);
            ExpectingOk(c', p', x, moves) || (p' == EMPTY_PIPE && HeardOk(c', x, moves))
  {
    if p.down[0] == '\n' {
      ExpectingHears(c, p, x, moves);
    } else {
      ExpectingWaits(c, p, x, moves);
    }
  }

  lemma {:induction false} ExpectingHears(c: Client, p: Pipe, x: Side, moves: seq<Move>)
    requires Sound(moves)
    requires IsBoard(c.board) && ExpectingOk(c, p, x, moves) && x == Turn(moves) && p.down != "" && p.down[0] == '\n'
    ensures var c' := Received(c, p.down[0]); var p' := p.(down := p.down[1..]);
            ExpectingOk(c', p', x, moves) || (p' == EMPTY_PIPE && HeardOk(c', x, moves))
  {
    if Greeting(c, x) == "" {
      HearsToken(c, p, x, moves);
    } else {
      HearsGreeting(c, p, x, moves);
    }
  }

  /** Without a greeting in front the first whole line is the token, and nothing follows it. */
  lemma {:induction false} TokenInFront(c: Client, p: Pipe, token: string)
    requires Carries(p, c, "", token) && IsLine(token) && '\n' !in c.line && p.down != "" && p.down[0] == '\n'
    ensures c.line + [p.down[0]] == token && p.(down := p.down[1..]) == EMPTY_PIPE
  {
    NextByte(p, c);
    assert Front(p, c)[|c.line|] == '\n';
    assert Front(p, c) == "" + token == token + "";
    FirstLine(c.line, p.down[1..] + p.wb, token, "");
  }

  lemma {:induction false} HearsToken(c: Client, p: Pipe, x: Side, moves: seq<Move>)
    requires Sound(moves)
    requires IsBoard(c.board) && ExpectingOk(c, p, x, moves) && x == Turn(moves) && p.down != "" && p.down[0] == '\n'
    requires Greeting(c, x) == ""
    ensures p.(down := p.down[1..]) == EMPTY_PIPE && HeardOk(Received(c, p.down[0]), x, moves)
  {
    TokenIsLine(moves);
    TokenInFront(c, p, Token(moves));
    HandleToken(c, x, moves);
  }

  lemma {:induction false} HearsGreeting(c: Client, p: Pipe, x: Side, moves: seq<Move>)
    requires Sound(moves)
    requires IsBoard(c.board) && ExpectingOk(c, p, x, moves) && p.down != "" && p.down[0] == '\n'
    requires Greeting(c, x) != ""
    ensures ExpectingOk(Received(c, p.down[0]), p.(down := p.down[1..]), x, moves)
  {
    var rest := if Front(p, c) == INIT_BLACK then "" else Token(moves);
    NextByte(p, c);
    Greetings();
    assert INIT_BLACK + "" == INIT_BLACK;
    FirstLine(c.line, p.down[1..] + p.wb, INIT_BLACK, rest);
    HandleGreeting(c);
    assert "" + rest == rest;
  }

  lemma {:induction false} OneMore(moves: seq<Move>, m: Move)
    requires AllDistinct(moves) && Readable(m)
    ensures Sound(moves) && Sound(moves + [m]) && Turn(moves + [m]) == Other(Turn(moves))
    ensures (moves + [m])[..|moves|] == moves && (moves + [m])[|moves|] == m
  {
  }

  lemma {:induction false} PlayKeepsPlayer(c: Client, x: Side, moves: seq<Move>, m: Move)
    requires AllDistinct(moves) && Readable(m) && x == Turn(moves)
    requires Sound(moves) && HeardOk(c, x, moves)
    ensures Sound(moves + [m])
    ensures WaitingOk(c.(phase := Reading, line := "", board := After(c.board, m)), EMPTY_PIPE, x, moves + [m])
  {
    OneMore(moves, m);
    LastMove(moves + [m], Other(x));
  }

  lemma {:induction false} PlayReachesOther(c: Client, p: Pipe, y: Side, moves: seq<Move>, m: Move)
    requires AllDistinct(moves) && Readable(m) && y == Other(Turn(moves))
    requires Sound(moves) && WaitingOk(c, p, y, moves)
    ensures Sound(moves + [m]) && ExpectingOk(c, p.(up := p.up + Format(m)), y, moves + [m])
  {
    OneMore(moves, m);
    assert p.rb + (p.up + Format(m)) == Format(m);
  }

  lemma {:induction false} LastDistinctToo(moves: seq<Move>)
    requires Sound(moves) && (moves != [] ==> Distinct(moves[|moves| - 1]))
    ensures AllDistinct(moves)
  {
    forall i | 0 <= i < |moves| ensures Distinct(moves[i]) {
    }
  }

  /** Whoever is asked is asked after moves none of which was mistaken. */
  lemma {:induction false} AskedAfterDistinct(c: Client, x: Side, moves: seq<Move>)
    requires Sound(moves) && HeardOk(c, x, moves) && c.phase == Thinking
    ensures AllDistinct(moves)
  {
    LastDistinctToo(moves);
  }

  lemma {:induction false} PlayKeepsInv(s: State, x: Side, m: Move)
    requires Inv(s) && Ready(s, Play(x, m))
    ensures Inv(Do(s, Play(x, m)))
  {
    PlayEffect(s, x, m);
    AskedAfterDistinct(s.clients.At(x), x, s.moves);
    ThinkerPlays(s, Do(s, Play(x, m)), x, Other(x), m);
  }

  lemma {:induction false} ThinkerPlays(s: State, s': State, x: Side, y: Side, m: Move)
    requires Shaped(s') && AllDistinct(s.moves) && Sound(s.moves) && Readable(m) && x == Turn(s.moves) && y == Other(x)
    requires s.pipes.At(x) == EMPTY_PIPE && HeardOk(s.clients.At(x), x, s.moves)
    requires WaitingOk(s.clients.At(y), s.pipes.At(y), y, s.moves)
    requires IsBoard(s.clients.At(x).board) && Played(s, s', x, y, m)
    ensures Inv(s')
  {
    PlayKeepsPlayer(s.clients.At(x), x, s.moves, m);
    PlayReachesOther(s.clients.At(y), s.pipes.At(y), y, s.moves, m);
    OneMore(s.moves, m);
    assert Other(y) == x;
    Together(s', y);
  }

  lemma {:induction false} Together(s: State, x: Side)
    requires Shaped(s) && Sound(s.moves) && x == Turn(s.moves)
    requires WaitingOk(s.clients.At(Other(x)), s.pipes.At(Other(x)), Other(x), s.moves)
    requires ExpectingOk(s.clients.At(x), s.pipes.At(x), x, s.moves)
    ensures Inv(s)
  {
  }

  predicate Played(s: State, s': State, x: Side, y: Side, m: Move)
    requires IsBoard(s.clients.At(x).board) && Playable(m)
  {
    && s'.moves == s.moves + [m]
    && s'.clients.At(x) == s.clients.At(x).(phase := Reading, line := "", board := After(s.clients.At(x).board, m))
    && s'.clients.At(y) == s.clients.At(y) && s'.pipes.At(x) == s.pipes.At(x)
    && s'.pipes.At(y) == s.pipes.At(y).(up := s.pipes.At(y).up + Format(m))
  }

  lemma {:induction false} PlayEffect(s: State, x: Side, m: Move)
    requires Ready(s, Play(x, m))
    ensures Shaped(Do(s, Play(x, m))) && Played(s, Do(s, Play(x, m)), x, Other(x), m)
  {
  }

  /** A server stage of the pipe to the player whose turn it is. */
  lemma {:induction false} ActivePipeKeeps(s: State, a: Action)
    requires Inv(s) && Ready(s, a) && !a.Play? && !a.ClientReads? && a.x == Turn(s.moves)
    ensures Inv(Do(s, a))
  {
    var c, p, p' := s.clients.At(a.x), s.pipes.At(a.x), Do(s, a).pipes.At(a.x);
    ActiveStage(s, a);
    assert Do(s, a) == s.(pipes := s.pipes.With(a.x, p'));
  }

  lemma {:induction false} ActiveStage(s: State, a: Action)
    requires Inv(s) && Ready(s, a) && !a.Play? && !a.ClientReads? && a.x == Turn(s.moves)
    ensures var c, p, p' := s.clients.At(a.x), s.pipes.At(a.x), Do(s, a).pipes.At(a.x);
            && (ExpectingOk(c, p, a.x, s.moves) ==> ExpectingOk(c, p', a.x, s.moves))
            && p != EMPTY_PIPE
  {
    var c, p := s.clients.At(a.x), s.pipes.At(a.x);
    if ExpectingOk(c, p, a.x, s.moves) {
      TokenIsLine(s.moves);
      TokenAdvances(c, p, Do(s, a).pipes.At(a.x), a, Greeting(c, a.x), Token(s.moves));
    }
  }

  lemma {:induction false} TokenAdvances(c: Client, p: Pipe, p': Pipe, a: Action, greeting: string, token: string)
    requires Carries(p, c, greeting, token) && IsLine(token)
    requires match a
             case ServerReads(_, n) => n <= |p.up| && p' == p.(rb := p.rb + p.up[..n], up := p.up[n..])
             case ServerWrites(_, n) => n <= |p.wb| && p' == p.(down := p.down + p.wb[..n], wb := p.wb[n..])
             case ServerStores(_) => EndsWithNewline(p.rb) && p' == p.(slot := Some(p.rb), rb := "")
             case ServerTakes(_) => p.slot.Some? && p' == p.(wb := p.wb + p.slot.value, slot := None)
             case _ => false
    ensures Carries(p', c, greeting, token)
  {
    match a
    case ServerReads(_, n) => StagesKeep(p, c, greeting, token, n);
    case ServerWrites(_, n) => StagesKeep(p, c, greeting, token, n);
    case ServerStores(_) => StoreKeeps(p, c, greeting, token);
    case ServerTakes(_) => TakeKeeps(p, c, greeting, token);
  }

  /** A server stage of the pipe to the other player: only the greeting can be there. */
  lemma {:induction false} QuietPipeKeeps(s: State, a: Action)
    requires Inv(s) && Ready(s, a) && !a.Play? && !a.ClientReads? && a.x != Turn(s.moves)
    ensures a.ServerWrites? && Inv(Do(s, a))
  {
    var c, p := s.clients.At(a.x), s.pipes.At(a.x);
    assert a.x == Other(Turn(s.moves));
    QuietKeeps(p, c, Greeting(c, a.x), a.n);
  }

  lemma {:induction false} ReadKeepsInv(s: State, x: Side)
    requires Inv(s) && Ready(s, ClientReads(x))
    ensures Inv(Do(s, ClientReads(x)))
  {
    var c, p := s.clients.At(x), s.pipes.At(x);
    if x == Turn(s.moves) {
      ExpectingReads(c, p, x, s.moves);
    } else {
      WaitingReads(c, p, x, s.moves);
    }
  }

  lemma {:induction false} DoKeepsInv(s: State, a: Action)
    requires Inv(s) && Ready(s, a)
    ensures Inv(Do(s, a))
  {
    if a.Play? {
      PlayKeepsInv(s, a.x, a.m);
    } else if a.ClientReads? {
      ReadKeepsInv(s, a.x);
    } else if a.x == Turn(s.moves) {
      ActivePipeKeeps(s, a);
    } else {
      QuietPipeKeeps(s, a);
    }
  }

  lemma {:induction false} StartInv()
    ensures Inv(Matched())
  {
    var s := Matched();
    assert "" + INIT_RED == INIT_RED && "" + (INIT_RED + "") == INIT_RED;
    assert "" + (INIT_BLACK + "") == INIT_BLACK;
    assert Turn(s.moves) == Red && Sound(s.moves);
    assert WaitingOk(s.clients.black, s.pipes.black, Black, s.moves);
    assert ExpectingOk(s.clients.red, s.pipes.red, Red, s.moves);
  }

  lemma {:induction false} RunInv(run: seq<State>, i: nat)
    requires IsRun(run) && i < |run|
    ensures Inv(run[i])
  {
    if i == 0 {
      StartInv();
    } else {
      RunInv(run, i - 1);
      assert Follows(run[i - 1], run[i - 1 + 1]);
      var a :| Ready(run[i - 1], a) && run[i] == Do(run[i - 1], a);
      DoKeepsInv(run[i - 1], a);
    }
  }

  /** Relay agreement.  Whenever a player is asked for a move, for any interleaving of the
      server's threads, any cutting of the streams by TCP and any readable moves: it is that
      player's turn, the other one is not asked, no move so far has the text of a control
      message, the two boards are equal, both are the replay of all moves in the order in
      which they were played, and each player has heard every move of the other exactly once
      and in order. */
  lemma {:induction false} BoardsAgree(run: seq<State>, i: nat, x: Side)
    requires IsRun(run) && i < |run| && run[i].clients.At(x).phase == Thinking
    ensures x == Turn(run[i].moves) && run[i].clients.At(Other(x)).phase == Reading
    ensures AllDistinct(run[i].moves) && Sound(run[i].moves)
    ensures run[i].clients.red.board == run[i].clients.black.board == Replay(run[i].moves)
    ensures run[i].clients.At(x).heard == By(run[i].moves, Other(x))
    ensures run[i].clients.At(Other(x)).heard == By(run[i].moves, x)
  {
    RunInv(run, i);
    AskedAfterDistinct(run[i].clients.At(x), x, run[i].moves);
  }

  /** At every moment each player has heard a prefix of the other's moves, and at most the
      last one is missing. */
  lemma {:induction false} NothingLostOrRepeated(run: seq<State>, i: nat, x: Side)
    requires IsRun(run) && i < |run|
    ensures var heard := run[i].clients.At(x).heard; var made := By(run[i].moves, Other(x));
            heard <= made && |made| <= |heard| + 1
  {
    RunInv(run, i);
    var moves := run[i].moves;
    if moves != [] {
      var before := moves[..|moves| - 1];
      LastHeard(moves, Other(x));
    }
  }

  /** No mailbox is written while it holds a message, and what is stored is one whole line. */
  lemma {:induction false} MailboxNeverOverwritten(run: seq<State>, i: nat, x: Side)
    requires IsRun(run) && i < |run| && Ready(run[i], ServerStores(x))
    ensures run[i].pipes.At(x).slot == None
    ensures IsLine(run[i].pipes.At(x).rb) && run[i].pipes.At(x).rb == Token(run[i].moves)
  {
    RunInv(run, i);
    var s := run[i];
    if x == Turn(s.moves) {
      var c, p := s.clients.At(x), s.pipes.At(x);
      TokenIsLine(s.moves);
      StoreKeeps(p, c, Greeting(c, x), Token(s.moves));
    } else {
      QuietPipeKeeps(s, ServerStores(x));
    }
  }

  /** A client leaves only when it hears a move that has the text of the farewell. */
  lemma {:induction false} LeavesOnlyAtFarewell(run: seq<State>, i: nat, x: Side)
    requires IsRun(run) && i < |run| && run[i].clients.At(x).phase == Left
    ensures run[i].moves != [] && x == Turn(run[i].moves)
    ensures run[i].moves[|run[i].moves| - 1] == Move(2, 2, 2, 2)
  {
    RunInv(run, i);
    if run[i].moves != [] {
      MistakenMoves(run[i].moves[|run[i].moves| - 1]);
    }
  }

  /** How far the bytes of one pipe still have to go, in stages. */
  function Distance(p: Pipe): nat {
    5 * |p.up| + 4 * |p.rb| + 3 * (if p.slot.Some? then |p.slot.value| else 0) + 2 * |p.wb| + |p.down|
  }

  function Remaining(s: State): nat {
    Distance(s.pipes.red) + Distance(s.pipes.black)
  }

  /** Every step but a player's own move brings some byte nearer to its client, unless it
      empties a mailbox that holds the empty text. */
  lemma {:induction false} StepsRunOut(s: State, a: Action)
    requires Ready(s, a) && !a.Play? && (a.ServerTakes? ==> s.pipes.At(a.x).slot.value != "")
    ensures Remaining(Do(s, a)) < Remaining(s)
  {
  }

  /** Which stage of a pipe can move. */
  predicate StageReady(c: Client, p: Pipe, a: Action) {
    match a
    case ServerReads(_, n) => 1 <= n <= |p.up|
    case ServerStores(_) => EndsWithNewline(p.rb)
    case ServerTakes(_) => p.slot.Some?
    case ServerWrites(_, n) => 1 <= n <= |p.wb|
    case ClientReads(_) => c.phase == Reading && p.down != ""
    case Play(_, _) => false
  }

  /** While a token is on its way, some stage can take it one step on. */
  lemma {:induction false} SomeStageCanMove(c: Client, p: Pipe, x: Side, greeting: string,
        token: string) returns (a: Action)
    requires Carries(p, c, greeting, token) && IsLine(token) && c.phase == Reading && '\n' !in c.line
    ensures a.x == x && StageReady(c, p, a)
  {
    assert token[|token| - 1] == '\n';
    if p.up != "" {
      a := ServerReads(x, 1);
    } else if p.slot.Some? {
      a := ServerTakes(x);
    } else if p.rb != "" {
      assert p.rb + "" == p.rb;
      a := ServerStores(x);
    } else if p.wb != "" {
      a := ServerWrites(x, 1);
    } else {
      assert Front(p, c)[|Front(p, c)| - 1] == '\n';
      a := ClientReads(x);
    }
  }

  lemma {:induction false} NoEmptyText(c: Client, p: Pipe, x: Side, moves: seq<Move>)
    requires Sound(moves)
    requires WaitingOk(c, p, x, moves) || ExpectingOk(c, p, x, moves) || p == EMPTY_PIPE
    ensures p.slot != Some("")
  {
    TokenIsLine(moves);
  }

  lemma {:induction false} NoEmptyMail(s: State, x: Side)
    requires Inv(s)
    ensures s.pipes.At(x).slot != Some("")
  {
    var y := Turn(s.moves);
    NoEmptyText(s.clients.At(y), s.pipes.At(y), y, s.moves);
    NoEmptyText(s.clients.At(Other(y)), s.pipes.At(Other(y)), Other(y), s.moves);
    assert x == y || x == Other(y);
  }

  /** Nothing but a new move is possible. */
  ghost predicate Settled(s: State) {
    forall a: Action :: !a.Play? ==> !Ready(s, a)
  }

  lemma {:induction false} SettledMeansHeard(s: State, x: Side)
    requires Inv(s) && x == Turn(s.moves) && Settled(s)
    ensures s.pipes.At(x) == EMPTY_PIPE && HeardOk(s.clients.At(x), x, s.moves)
  {
    TokenIsLine(s.moves);
    var c, p := s.clients.At(x), s.pipes.At(x);
    if ExpectingOk(c, p, x, s.moves) {
      var a := SomeStageCanMove(c, p, x, Greeting(c, x), Token(s.moves));
      assert Ready(s, a);
    }
  }

  lemma {:induction false} StepsComeNearer(s: State, a: Action)
    requires Inv(s) && !a.Play? && Ready(s, a)
    ensures Remaining(Do(s, a)) < Remaining(s) && Do(s, a).moves == s.moves
  {
    NoEmptyMail(s, a.x);
    StepsRunOut(s, a);
  }

  /** Delivery.  In every reachable state in which no move was mistaken, either the player
      whose turn it is is being asked, or a step other than a new move is possible; and every
      such step brings bytes nearer, so after at most `Remaining` of them the player is
      asked, whatever their order. */
  lemma {:induction false} MovesAreDelivered(run: seq<State>, i: nat)
    requires IsRun(run) && i < |run|
    ensures AllDistinct(run[i].moves) && run[i].clients.At(Turn(run[i].moves)).phase != Thinking ==> !Settled(run[i])
    ensures forall a: Action :: !a.Play? && Ready(run[i], a) ==> Remaining(Do(run[i], a)) < Remaining(run[i])
  {
    RunInv(run, i);
    var s := run[i];
    if Settled(s) {
      SettledMeansHeard(s, Turn(s.moves));
    }
    forall a: Action | !a.Play? && Ready(s, a)
      ensures Remaining(Do(s, a)) < Remaining(s)
    {
      StepsComeNearer(s, a);
    }
  }

  lemma {:induction false} EighthIsNewline(front: string, greeting: string, token: string)
    requires front == greeting || front == greeting + token
    requires greeting == "" || (IsLine(greeting) && |greeting| == 8)
    requires token == "" || (IsLine(token) && |token| == 8)
    ensures |front| <= 16 && (|front| >= 8 ==> front[7] == '\n')
  {
    if greeting == "" {
      assert greeting + token == token;
    } else {
      assert greeting[7] == '\n';
    }
  }

  /** A client that has not finished its line has at most seven bytes of it, and at most two
      lines are on their way. */
  lemma {:induction false} LineFits(c: Client, p: Pipe, greeting: string, token: string)
    requires '\n' !in c.line && (Front(p, c) == greeting || Front(p, c) == greeting + token)
    requires greeting == "" || (IsLine(greeting) && |greeting| == 8)
    requires token == "" || (IsLine(token) && |token| == 8)
    ensures |c.line| < 8 && |p.down| <= 16
  {
    var front := Front(p, c);
    EighthIsNewline(front, greeting, token);
    assert |front| == |c.line| + (|p.down| + |p.wb|);
    assert forall i :: 0 <= i < |c.line| ==> front[i] == c.line[i] && c.line[i] in c.line;
  }

  lemma {:induction false} WaitingFits(c: Client, p: Pipe, y: Side, moves: seq<Move>)
    requires Sound(moves) && WaitingOk(c, p, y, moves)
    ensures |c.line| < 8 && |p.down| <= 16
  {
    Greetings();
    LineFits(c, p, Greeting(c, y), "");
  }

  lemma {:induction false} ExpectingFits(c: Client, p: Pipe, x: Side, moves: seq<Move>)
    requires Sound(moves) && ExpectingOk(c, p, x, moves)
    ensures |c.line| < 8 && |p.down| <= 16
  {
    Greetings();
    TokenIsLine(moves);
    TokenLength(moves);
    LineFits(c, p, Greeting(c, x), Token(moves));
  }

  lemma {:induction false} AllFits(s: State, x: Side)
    requires Inv(s)
    ensures |s.pipes.At(x).down| <= 16 && (s.clients.At(x).phase == Reading ==> |s.clients.At(x).line| < 8)
  {
    var y := Turn(s.moves);
    WaitingFits(s.clients.At(Other(y)), s.pipes.At(Other(y)), Other(y), s.moves);
    if ExpectingOk(s.clients.At(y), s.pipes.At(y), y, s.moves) {
      ExpectingFits(s.clients.At(y), s.pipes.At(y), y, s.moves);
    }
    assert x == y || x == Other(y);
  }

  /** A client that reads never has more than seven bytes of a line it has not finished, so its
      buffer of 64 is never full. */
  lemma {:induction false} LinesFit(run: seq<State>, i: nat, x: Side)
    requires IsRun(run) && i < |run| && run[i].clients.At(x).phase == Reading
    ensures |run[i].clients.At(x).line| < 8
  {
    RunInv(run, i);
    AllFits(run[i], x);
  }
}
