/** What becomes of a move whose text is that of a control message. */
module RelayMistakes {
  import opened ChessGame
  import opened ChessRelay
  import opened RelayTheorems

  function Last(run: seq<State>): State
    requires run != []
  {
    run[|run| - 1]
  }

  lemma {:induction false} Extend(run: seq<State>, a: Action) returns (longer: seq<State>)
    requires IsRun(run) && Ready(Last(run), a)
    ensures IsRun(longer) && longer == run + [Do(Last(run), a)]
  {
    longer := run + [Do(Last(run), a)];
    assert Follows(Last(run), Do(Last(run), a));
    forall i | 0 <= i < |longer| - 1 ensures Follows(longer[i], longer[i + 1]) {
      if i < |run| - 1 {
        assert Follows(run[i], run[i + 1]);
      }
    }
  }

  /** Every run can go on, without a new move, until nothing but a new move is possible. */
  lemma {:induction false} Settle(run: seq<State>) returns (longer: seq<State>)
    requires IsRun(run)
    ensures IsRun(longer) && run <= longer && Settled(Last(longer)) && Last(longer).moves == Last(run).moves
    decreases Remaining(Last(run))
  {
    longer := run;
    if a: Action :| !a.Play? && Ready(Last(run), a) {
      RunInv(run, |run| - 1);
      StepsComeNearer(Last(run), a);
      var next := Extend(run, a);
      longer := Settle(next);
    }
  }

  lemma {:induction false} StepAddsMoves(s: State, s': State)
    requires Follows(s, s')
    ensures s.moves <= s'.moves
  {
  }

  lemma {:induction false} MovesGrow(run: seq<State>, i: nat, j: nat)
    requires IsRun(run) && i <= j < |run|
    ensures run[i].moves <= run[j].moves
    decreases j
  {
    if i < j {
      MovesGrow(run, i, j - 1);
      StepAddsMoves(run[j - 1], run[j - 1 + 1]);
    }
  }

  /** What a move comes to.  In any run, once the last move has been taken as far as it goes,
      the other player is asked for its own, unless the move was the one from (1, 1) to (1, 1),
      after which it goes on reading, or from (2, 2) to (2, 2), after which it has left. */
  lemma {:induction false} OutcomeOfMove(run: seq<State>, i: nat)
    requires IsRun(run) && i < |run| && Settled(run[i]) && run[i].moves != []
    ensures run[i].clients.At(Turn(run[i].moves)).phase ==
            var m := run[i].moves[|run[i].moves| - 1];
            if m == Move(1, 1, 1, 1) then Reading else if m == Move(2, 2, 2, 2) then Left else Thinking
    ensures run[i].clients.At(Other(Turn(run[i].moves))).phase == Reading
  {
    RunInv(run, i);
    SettledMeansHeard(run[i], Turn(run[i].moves));
    MistakenMoves(run[i].moves[|run[i].moves| - 1]);
    Greetings();
  }

  /** How the run may go on after x has played m. */
  ghost predicate Continues(run: seq<State>, x: Side, m: Move, longer: seq<State>)
    requires run != [] && Ready(Last(run), Play(x, m))
  {
    IsRun(longer) && run + [Do(Last(run), Play(x, m))] <= longer
  }

  lemma {:induction false} PlayersAlternate(run: seq<State>, x: Side, m: Move)
    requires IsRun(run) && Ready(Last(run), Play(x, m))
    ensures x == Turn(Last(run).moves) && Turn(Last(run).moves + [m]) == Other(x)
    ensures Do(Last(run), Play(x, m)).moves == Last(run).moves + [m]
  {
    BoardsAgree(run, |run| - 1, x);
    OneMore(Last(run).moves, m);
  }

  lemma {:induction false} PlayAndSettle(run: seq<State>, x: Side, m: Move) returns (longer: seq<State>)
    requires IsRun(run) && Ready(Last(run), Play(x, m))
    ensures Continues(run, x, m, longer) && Settled(Last(longer)) && Last(longer).moves == Last(run).moves + [m]
    ensures Last(longer).clients.At(Other(x)).phase ==
            if m == Move(1, 1, 1, 1) then Reading else if m == Move(2, 2, 2, 2) then Left else Thinking
    ensures Last(longer).clients.At(x).phase == Reading
  {
    PlayersAlternate(run, x, m);
    var next := Extend(run, Play(x, m));
    longer := Settle(next);
    OutcomeOfMove(longer, |longer| - 1);
  }

  /** The exact condition, over runs: after x has played a move, the other player
      can still be asked for one if and only if the text of x's move is not that of the black
      greeting and not that of the farewell. */
  lemma {:induction false} AskedExactlyForDistinct(run: seq<State>, x: Side, m: Move)
    requires IsRun(run) && Ready(Last(run), Play(x, m))
    ensures (exists longer :: Continues(run, x, m, longer) && Last(longer).clients.At(Other(x)).phase == Thinking)
       <==> Distinct(m)
  {
    MistakenMoves(m);
    if Distinct(m) {
      var longer := PlayAndSettle(run, x, m);
    } else {
      forall longer | Continues(run, x, m, longer)
        ensures Last(longer).clients.At(Other(x)).phase != Thinking
      {
        NobodyAskedAgain(run, x, m, longer, Other(x));
      }
    }
  }

  /** After a mistaken move no player is ever asked again. */
  lemma {:induction false} NobodyAskedAgain(run: seq<State>, x: Side, m: Move, longer: seq<State>, y: Side)
    requires IsRun(run) && Ready(Last(run), Play(x, m)) && Continues(run, x, m, longer) && !Distinct(m)
    ensures Last(longer).clients.At(y).phase != Thinking
  {
    var played := run + [Do(Last(run), Play(x, m))];
    PlayersAlternate(run, x, m);
    MovesGrow(longer, |run|, |longer| - 1);
    assert longer[|run|] == played[|run|];
    assert Last(longer).moves[|Last(run).moves|] == m;
    if Last(longer).clients.At(y).phase == Thinking {
      BoardsAgree(longer, |longer| - 1, y);
    }
  }

  lemma {:induction false} AskedCanPlay(run: seq<State>, i: nat, y: Side)
    requires IsRun(run) && i < |run| && run[i].clients.At(y).phase == Thinking
    ensures Ready(run[i], Play(y, Move(0, 0, 0, 0)))
  {
    RunInv(run, i);
    Greetings();
  }

  lemma {:induction false} DistinctGoesOn(run: seq<State>, x: Side, m: Move, longer: seq<State>)
    requires IsRun(run) && Ready(Last(run), Play(x, m)) && Continues(run, x, m, longer)
    requires Distinct(m) && Last(longer).moves == Last(run).moves + [m]
    ensures exists a :: Ready(Last(longer), a)
  {
    if Settled(Last(longer)) {
      MistakenMoves(m);
      PlayersAlternate(run, x, m);
      OutcomeOfMove(longer, |longer| - 1);
      AskedCanPlay(longer, |longer| - 1, Other(x));
    }
  }

  lemma {:induction false} MistakenStops(run: seq<State>, x: Side, m: Move) returns (longer: seq<State>)
    requires IsRun(run) && Ready(Last(run), Play(x, m)) && !Distinct(m)
    ensures Continues(run, x, m, longer) && Last(longer).moves == Last(run).moves + [m]
    ensures forall a :: !Ready(Last(longer), a)
  {
    MistakenMoves(m);
    longer := PlayAndSettle(run, x, m);
    forall a ensures !Ready(Last(longer), a) {
      assert a.x == x || a.x == Other(x);
    }
  }

  /** The exact condition for a standstill: the game can stop for good with m as its last move,
      with nothing left that anyone could do, if and only if m is mistaken. */
  lemma {:induction false} StopsExactlyForMistaken(run: seq<State>, x: Side, m: Move)
    requires IsRun(run) && Ready(Last(run), Play(x, m))
    ensures (exists longer :: Continues(run, x, m, longer) && Last(longer).moves == Last(run).moves + [m]
                              && forall a :: !Ready(Last(longer), a))
       <==> !Distinct(m)
  {
    if Distinct(m) {
      forall longer | Continues(run, x, m, longer) && Last(longer).moves == Last(run).moves + [m]
        ensures exists a :: Ready(Last(longer), a)
      {
        DistinctGoesOn(run, x, m, longer);
      }
    } else {
      var longer := MistakenStops(run, x, m);
    }
  }

  lemma {:induction false} RedIsAsked() returns (run: seq<State>)
    ensures IsRun(run) && Last(run).moves == [] && Last(run).clients.red.phase == Thinking
    ensures forall m :: Readable(m) ==> Ready(Last(run), Play(Red, m))
  {
    run := Settle([Matched()]);
    RunInv(run, |run| - 1);
    SettledMeansHeard(Last(run), Red);
  }

  /** Both mistakes can be made with the first move: after one the game stands still with both
      players reading, after the other black has left. */
  lemma {:induction false} FirstMoveMistaken() returns (stuck: seq<State>, left: seq<State>)
    ensures IsRun(stuck) && Last(stuck).moves == [Move(1, 1, 1, 1)] && forall a :: !Ready(Last(stuck), a)
    ensures Last(stuck).clients.red.phase == Last(stuck).clients.black.phase == Reading
    ensures IsRun(left) && Last(left).moves == [Move(2, 2, 2, 2)] && Last(left).clients.black.phase == Left
  {
    var run := RedIsAsked();
    Greetings();
    stuck := PlayAndSettle(run, Red, Move(1, 1, 1, 1));
    forall a ensures !Ready(Last(stuck), a) {
      assert a.x == Red || a.x == Black;
    }
    left := PlayAndSettle(run, Red, Move(2, 2, 2, 2));
  }
}
