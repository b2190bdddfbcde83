/** The board both players keep, and the text form of a move. */
module ChessGame {
  import opened Common

  datatype Player = RedPlayer | BlackPlayer
  datatype Kind = Rook | Knight | Elephant | Mandarin | King | Cannon | Pawn
  datatype Cell = Empty | Chess(kind: Kind, player: Player)

  const ROWS := 10
  const COLUMNS := 9

  type Board = seq<seq<Cell>>

  predicate IsBoard(b: Board) {
    |b| == ROWS && forall r :: 0 <= r < ROWS ==> |b[r]| == COLUMNS
  }

  /** From row and column, to row and column. */
  datatype Move = Move(fx: int, fy: int, tx: int, ty: int)

  predicate InRange(m: Move) {
    0 <= m.fx < ROWS && 0 <= m.tx < ROWS && 0 <= m.fy < COLUMNS && 0 <= m.ty < COLUMNS
  }

  predicate SamePlace(m: Move) {
    m.fx == m.tx && m.fy == m.ty
  }

  /** The moves that touch no memory outside the board. */
  predicate Playable(m: Move) {
    SamePlace(m) || InRange(m)
  }

  /** What a move means: the piece is on its target and its old place is empty; a move from a
      place to itself means nothing. */
  function After(b: Board, m: Move): (b': Board)
    requires IsBoard(b) && Playable(m)
    ensures IsBoard(b')
  {
    if SamePlace(m) then b
    else
      var placed := b[m.tx := b[m.tx][m.ty := b[m.fx][m.fy]]];
      placed[m.fx := placed[m.fx][m.fy := Empty]]
  }

  lemma MoveMeans(b: Board, m: Move, r: nat, c: nat)
    requires IsBoard(b) && Playable(m) && r < ROWS && c < COLUMNS
    ensures After(b, m)[r][c] ==
            if SamePlace(m) then b[r][c]
            else if (r, c) == (m.tx, m.ty) then b[m.fx][m.fy]
            else if (r, c) == (m.fx, m.fy) then Empty
            else b[r][c]
  {
  }

  function BackRank(p: Player): seq<Cell> {
    [Chess(Rook, p), Chess(Knight, p), Chess(Elephant, p), Chess(Mandarin, p), Chess(King, p),
     Chess(Mandarin, p), Chess(Elephant, p), Chess(Knight, p), Chess(Rook, p)]
  }

  function CannonRank(p: Player): seq<Cell> {
    [Empty, Chess(Cannon, p), Empty, Empty, Empty, Empty, Empty, Chess(Cannon, p), Empty]
  }

  function PawnRank(p: Player): seq<Cell> {
    [Chess(Pawn, p), Empty, Chess(Pawn, p), Empty, Chess(Pawn, p), Empty, Chess(Pawn, p), Empty, Chess(Pawn, p)]
  }

  const NOTHING: seq<Cell> := [Empty, Empty, Empty, Empty, Empty, Empty, Empty, Empty, Empty]

  /** The position both games start from. */
  const OPENING: Board :=
    [BackRank(RedPlayer), NOTHING, CannonRank(RedPlayer), PawnRank(RedPlayer), NOTHING,
     NOTHING, PawnRank(BlackPlayer), CannonRank(BlackPlayer), NOTHING, BackRank(BlackPlayer)]

  class Game {
    var board: array2<Cell>

    ghost predicate Valid()
      reads this
    {
      board.Length0 == ROWS && board.Length1 == COLUMNS
    }

    /** The position as a value. */
    ghost function Position(): (b: Board)
      requires Valid()
      reads this, board
      ensures IsBoard(b)
    {
      seq(ROWS, r requires 0 <= r < ROWS reads this, board requires Valid() =>
        seq(COLUMNS, c requires 0 <= c < COLUMNS reads this, board requires Valid() => board[r, c]))
    }

    constructor ()
      ensures Valid() && fresh(board) && Position() == OPENING
    {
      board := new Cell[ROWS, COLUMNS]((_, _) => Empty);
      new;
      InitRow(0, RedPlayer);
      InitRow(ROWS - 1, BlackPlayer);
      InitRow(2, RedPlayer);
      InitRow(ROWS - 3, BlackPlayer);
      InitRow(3, RedPlayer);
      InitRow(ROWS - 4, BlackPlayer);
      forall r | 0 <= r < ROWS ensures Position()[r] == OPENING[r] {
        assert forall c :: 0 <= c < COLUMNS ==> board[r, c] == OPENING[r][c];
      }
    }

    /** Puts the pieces of one of the six occupied rows. */
    method InitRow(row: nat, p: Player)
      requires Valid() && row < ROWS
      modifies board
      ensures forall r, c :: 0 <= r < ROWS && 0 <= c < COLUMNS && r != row ==> board[r, c] == old(board[r, c])
      ensures (row == 0 || row == ROWS - 1) ==> forall c :: 0 <= c < COLUMNS ==> board[row, c] == BackRank(p)[c]
      ensures (row == 2 || row == ROWS - 3) ==>
                forall c :: 0 <= c < COLUMNS ==>
                  board[row, c] == if c == 1 || c == 7 then CannonRank(p)[c] else old(board[row, c])
      ensures (row == 3 || row == ROWS - 4) ==>
                forall c :: 0 <= c < COLUMNS ==>
                  board[row, c] == if c % 2 == 0 then PawnRank(p)[c] else old(board[row, c])
      ensures row in {1, 4, 5, 8} ==> forall c :: 0 <= c < COLUMNS ==> board[row, c] == old(board[row, c])
    {
      if row == 0 || row == ROWS - 1 {
        board[row, 0] := Chess(Rook, p);
        board[row, 1] := Chess(Knight, p);
        board[row, 2] := Chess(Elephant, p);
        board[row, 3] := Chess(Mandarin, p);
        board[row, 4] := Chess(King, p);
        board[row, COLUMNS - 4] := Chess(Mandarin, p);
        board[row, COLUMNS - 3] := Chess(Elephant, p);
        board[row, COLUMNS - 2] := Chess(Knight, p);
        board[row, COLUMNS - 1] := Chess(Rook, p);
      } else if row == 2 || row == ROWS - 3 {
        board[row, 1] := Chess(Cannon, p);
        board[row, COLUMNS - 2] := Chess(Cannon, p);
      } else if row == 3 || row == ROWS - 4 {
        board[row, 0] := Chess(Pawn, p);
        board[row, 2] := Chess(Pawn, p);
        board[row, 4] := Chess(Pawn, p);
        board[row, COLUMNS - 3] := Chess(Pawn, p);
        board[row, COLUMNS - 1] := Chess(Pawn, p);
      }
    }

    /** Two assignments in place; together they are the move. */
    method MoveChess(fx: int, fy: int, tx: int, ty: int)
      requires Valid() && Playable(Move(fx, fy, tx, ty))
      modifies board
      ensures Position() == After(old(Position()), Move(fx, fy, tx, ty))
    {
      if fx == tx && fy == ty {
        assert Position() == old(Position());
        return;
      }
      ghost var before := Position();
      board[tx, ty] := board[fx, fy];
      board[fx, fy] := Empty;
      forall r | 0 <= r < ROWS ensures Position()[r] == After(before, Move(fx, fy, tx, ty))[r] {
        forall c | 0 <= c < COLUMNS ensures Position()[r][c] == After(before, Move(fx, fy, tx, ty))[r][c] {
          assert before[r][c] == old(board[r, c]);
        }
      }
    }

    /** The move a text stands for.  False: the assertion on the four numbers fails, or they
        name no place on the board. */
    method MoveText(text: string) returns (ok: bool)
      requires Valid()
      modifies board
      ensures ok == (Parse(text).Some? && Playable(Parse(text).value))
      ensures Position() == if ok then After(old(Position()), Parse(text).value) else old(Position())
    {
      if text == "" {
        assert Position() == old(Position());
        return false;
      }
      var numbers: seq<int> := [];
      var i := 0;
      while i < |text| - 1
        invariant 0 <= i <= |text| - 1
        invariant Numbers(text[..|text| - 1]) == numbers + Numbers(text[i..|text| - 1])
      {
        assert text[i..|text| - 1][1..] == text[i + 1..|text| - 1];
        if text[i] != ' ' {
          numbers := numbers + [text[i] as int - '0' as int];
        }
        i := i + 1;
      }
      ok := false;
      if |numbers| == 4 {
        var m := Move(numbers[0], numbers[1], numbers[2], numbers[3]);
        if Playable(m) {
          MoveChess(numbers[0], numbers[1], numbers[2], numbers[3]);
          return true;
        }
      }
      assert Position() == old(Position());
    }
  }

  // ------------------------------------------------------------------ the text of a move

  function Numbers(s: string): seq<int> {
    if s == "" then []
    else if s[0] == ' ' then Numbers(s[1..])
    else [s[0] as int - '0' as int] + Numbers(s[1..])
  }

  /** Every character but the last counts, blanks excepted; there must be four. */
  function Parse(text: string): Option<Move> {
    if text == "" then None
    else
      var n := Numbers(text[..|text| - 1]);
      if |n| == 4 then Some(Move(n[0], n[1], n[2], n[3])) else None
  }

  function Digits(n: nat): (s: string)
    ensures s != "" && (n >= 10 ==> |s| >= 2)
    ensures forall c :: c in s ==> '0' <= c <= '9'
  {
    if n < 10 then ['0' + n as char] else Digits(n / 10) + ['0' + (n % 10) as char]
  }

  /** std::to_string. */
  function ToString(n: int): (s: string)
    ensures s != "" && ' ' !in s
    ensures |s| == 1 ==> 0 <= n < 10
  {
    if n < 0 then "-" + Digits(-n) else Digits(n)
  }

  /** The text askMove builds. */
  function Format(m: Move): string {
    ToString(m.fx) + " " + ToString(m.fy) + " " + ToString(m.tx) + " " + ToString(m.ty) + "\n"
  }

  predicate IsDigit(n: int) {
    0 <= n < 10
  }

  lemma {:induction false} NumbersAppend(a: string, b: string)
    ensures Numbers(a + b) == Numbers(a) + Numbers(b)
  {
    if a == "" {
      assert a + b == b;
    } else {
      assert (a + b)[1..] == a[1..] + b;
      NumbersAppend(a[1..], b);
    }
  }

  lemma {:induction false} NumbersOfWord(s: string)
    requires ' ' !in s
    ensures |Numbers(s)| == |s|
  {
    if s != "" {
      assert s[0] in s;
      assert forall c :: c in s[1..] ==> c in s;
      NumbersOfWord(s[1..]);
    }
  }

  lemma {:induction false} NumbersOfDigit(n: int)
    requires IsDigit(n)
    ensures Numbers(ToString(n)) == [n]
  {
    assert ToString(n)[1..] == "";
  }

  /** How many characters are no blanks. */
  function Dense(s: string): int {
    |s| - multiset(s)[' ']
  }

  lemma {:induction false} DenseGrows(s: string, c: char)
    ensures Dense(s + [c]) == Dense(s) + if c == ' ' then 0 else 1
  {
    assert multiset(s + [c]) == multiset(s) + multiset{c};
  }

  /** There is a number for each character that is no blank, at its place among them. */
  lemma {:induction false} NumberOfEach(s: string)
    ensures |Numbers(s)| == Dense(s)
    ensures forall i :: 0 <= i < |s| && s[i] != ' ' ==>
              0 <= Dense(s[..i]) < |Numbers(s)| && Numbers(s)[Dense(s[..i])] == s[i] as int - '0' as int
  {
    if s != "" {
      var p, c := s[..|s| - 1], s[|s| - 1];
      NumberOfEach(p);
      assert s == p + [c];
      NumbersAppend(p, [c]);
      DenseGrows(p, c);
      assert Numbers([c]) == if c == ' ' then [] else [c as int - '0' as int];
      forall i | 0 <= i < |s| && s[i] != ' '
        ensures 0 <= Dense(s[..i]) < |Numbers(s)| && Numbers(s)[Dense(s[..i])] == s[i] as int - '0' as int
      {
        if i < |p| {
          assert s[..i] == p[..i] && s[i] == p[i];
        } else {
          assert s[..i] == p;
        }
      }
    }
  }

  /** What a text is read as, exactly: there are four characters in front of the last one that
      are no blanks, and they are the four numbers in their order, whatever they are. */
  lemma {:induction false} ParseExactly(text: string)
    ensures Parse(text).Some? <==> text != "" && Dense(text[..|text| - 1]) == 4
    ensures forall i :: Parse(text).Some? && 0 <= i < |text| - 1 && text[i] != ' ' ==>
              var m := Parse(text).value;
              && 0 <= Dense(text[..i]) < 4
              && [m.fx, m.fy, m.tx, m.ty][Dense(text[..i])] == text[i] as int - '0' as int
  {
    if text != "" {
      var front := text[..|text| - 1];
      NumberOfEach(front);
      forall i | Parse(text).Some? && 0 <= i < |text| - 1 && text[i] != ' '
        ensures 0 <= Dense(text[..i]) < 4
        ensures var m := Parse(text).value;
                [m.fx, m.fy, m.tx, m.ty][Dense(text[..i])] == text[i] as int - '0' as int
      {
        assert front[..i] == text[..i] && front[i] == text[i];
        var m, n := Parse(text).value, Numbers(front);
        assert [m.fx, m.fy, m.tx, m.ty] == n;
      }
    }
  }

  /** The text of a move is read back as that move exactly when all four numbers have one
      digit; otherwise the receiver's assertion fails. */
  lemma {:induction false} RoundTrip(m: Move)
    ensures Parse(Format(m)) == Some(m) <==> IsDigit(m.fx) && IsDigit(m.fy) && IsDigit(m.tx) && IsDigit(m.ty)
    ensures Parse(Format(m)).None? <==> !(IsDigit(m.fx) && IsDigit(m.fy) && IsDigit(m.tx) && IsDigit(m.ty))
  {
    var a, b, c, d := ToString(m.fx), ToString(m.fy), ToString(m.tx), ToString(m.ty);
    var text := Format(m);
    assert text[..|text| - 1] == a + " " + b + " " + c + " " + d;
    NumbersAppend(a + " " + b + " " + c + " ", d);
    NumbersAppend(a + " " + b + " " + c, " ");
    NumbersAppend(a + " " + b + " ", c);
    NumbersAppend(a + " " + b, " ");
    NumbersAppend(a + " ", b);
    NumbersAppend(a, " ");
    assert Numbers(" ") == [];
    NumbersOfWord(a);
    NumbersOfWord(b);
    NumbersOfWord(c);
    NumbersOfWord(d);
    if IsDigit(m.fx) && IsDigit(m.fy) && IsDigit(m.tx) && IsDigit(m.ty) {
      NumbersOfDigit(m.fx);
      NumbersOfDigit(m.fy);
      NumbersOfDigit(m.tx);
      NumbersOfDigit(m.ty);
    } else {
      assert |a| + |b| + |c| + |d| > 4;
    }
  }
}
