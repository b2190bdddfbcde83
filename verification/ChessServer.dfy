/** The server's side of the game: pairing, mailboxes and closing. */
module ChessServer {
  import opened Common
  import opened BufferModel

  const INIT_RED := "0 0 0 0\n"
  const INIT_BLACK := "1 1 1 1\n"
  const END_MSG := "2 2 2 2\n"

  /** What a callback writes straight to a socket. */
  datatype Direct = Direct(conn: int, text: string)

  datatype Delivery = Ignored | Stored(to: int) | Undefined

  /** The matching invariant, on values. */
  ghost predicate Paired(opponent: map<int, int>, single: set<int>, open: set<int>, seen: set<int>) {
    && open <= seen
    // every open connection is in exactly one of the two, and nothing else is
    && open == opponent.Keys + single && opponent.Keys !! single
    && (forall a, b :: a in single && b in single ==> a == b)
    && (forall a :: a in opponent ==> opponent[a] in seen && opponent[a] != a)
    && (forall a, b :: a in opponent && b in opponent && opponent[a] == opponent[b] ==> a == b)
    && (forall a :: a in opponent && opponent[a] in opponent ==> opponent[opponent[a]] == a)
    // nobody was ever paired with a connection that is still waiting
    && (forall a :: a in opponent ==> opponent[a] !in single)
  }

  lemma {:induction false} PairUp(opponent: map<int, int>, single: set<int>, w: int, conn: int,
        open: set<int>, seen: set<int>)
    requires Paired(opponent, single, open, seen) && w in single && conn !in seen
    ensures Paired(opponent[w := conn][conn := w], single - {w}, open + {conn}, seen + {conn})
  {
    var after := opponent[w := conn][conn := w];
    assert after.Keys == opponent.Keys + {w, conn};
    forall a | a in after
      ensures after[a] in seen + {conn} && after[a] != a && (after[a] in after ==> after[after[a]] == a)
    {
      if a != w && a != conn {
        assert opponent[a] != w && opponent[a] != conn;
      }
    }
  }

  lemma {:induction false} Part(opponent: map<int, int>, single: set<int>, conn: int, open: set<int>, seen: set<int>)
    requires Paired(opponent, single, open, seen)
    ensures Paired(opponent - {conn}, single - {conn}, open - {conn}, seen)
  {
  }

  /** Has the message for c been sent? */
  ghost predicate Sent(out: seq<Direct>, c: int) {
    exists i :: 0 <= i < |out| && out[i].conn == c
  }

  /** What has been sent when the entries in todo are still to be looked at: every message
      for a connection in mine, with its own text, once, in the order of the ids. */
  ghost predicate Dispatched(out: seq<Direct>, message: map<int, string>, mine: set<int>, todo: set<int>) {
    && (forall i :: 0 <= i < |out| ==>
          && out[i].conn in message && out[i].conn in mine && out[i].conn !in todo
          && out[i].text == message[out[i].conn])
    && (forall c :: c in message && c in mine && c !in todo ==> Sent(out, c))
    && (forall i, j :: 0 <= i < j < |out| ==> out[i].conn < out[j].conn)
    && (forall i, c :: 0 <= i < |out| && c in todo ==> out[i].conn < c)
  }

  lemma {:induction false} SentStays(out: seq<Direct>, d: Direct, c: int)
    ensures Sent(out + [d], c) <==> Sent(out, c) || d.conn == c
  {
    var longer := out + [d];
    assert longer[|out|] == d;
    if Sent(out, c) {
      var i :| 0 <= i < |out| && out[i].conn == c;
      assert longer[i].conn == c;
    }
  }

  lemma {:induction false} DispatchOne(out: seq<Direct>, message: map<int, string>, mine: set<int>,
        todo: set<int>, conn: int)
    requires Dispatched(out, message, mine, todo) && conn in todo && conn in mine && conn in message
    requires forall c :: c in todo ==> conn <= c
    ensures Dispatched(out + [Direct(conn, message[conn])], message, mine, todo - {conn})
  {
    var d := Direct(conn, message[conn]);
    forall c | c in message && c in mine && c !in todo - {conn} ensures Sent(out + [d], c) {
      SentStays(out, d, c);
    }
    assert forall i :: 0 <= i < |out| ==> (out + [d])[i] == out[i];
  }

  /** Connection ids are never reused here; `open` and `seen` are history. */
  class Server {
    var opponent: map<int, int>   // `_match`
    var single: set<int>          // `_single`
    var message: map<int, string> // `_message`
    ghost var open: set<int>      // connected and not closed
    ghost var seen: set<int>      // ever connected

    ghost predicate Valid()
      reads this
    {
      && Paired(opponent, single, open, seen)
      && message.Keys <= seen
    }

    constructor ()
      ensures Valid() && open == {} && seen == {} && message == map[]
    {
      opponent, single, message := map[], {}, map[];
      open, seen := {}, {};
    }

    /** The first of two connections waits; the second makes the pair, black for the
        newcomer, red for the one that waited. */
    method OnConnect(conn: int) returns (out: seq<Direct>)
      requires Valid() && conn !in seen
      modifies this
      ensures Valid() && open == old(open) + {conn} && seen == old(seen) + {conn} && message == old(message)
      ensures old(single) == {} ==> single == {conn} && opponent == old(opponent) && out == []
      ensures forall w :: w in old(single) ==>
                && single == old(single) - {w} && opponent == old(opponent)[w := conn][conn := w]
                && out == [Direct(conn, INIT_BLACK), Direct(w, INIT_RED)]
    {
      open, seen := open + {conn}, seen + {conn};
      if single == {} {
        single := single + {conn};
        out := [];
      } else {
        ghost var waiting := Member(single);
        var oppo :| oppo in single;
        PairUp(opponent, single, oppo, conn, old(open), old(seen));
        opponent := opponent[oppo := conn];
        opponent := opponent[conn := oppo];
        out := [Direct(conn, INIT_BLACK), Direct(oppo, INIT_RED)];
        single := single - {oppo};
      }
    }

    /** A whole message goes to the opponent's mailbox and leaves the read buffer; anything
        else stays.  Undefined: the test for the newline looks behind the allocation. */
    method OnMessage(conn: int, rb: Buffer) returns (r: Delivery)
      requires Valid() && conn in open && rb.Valid()
      modifies this`message, rb, rb.data
      ensures Valid() && rb.Valid()
      ensures !r.Stored? ==> message == old(message) && rb.Raw() == old(rb.Raw())
      ensures var raw := old(rb.Raw());
              r == if conn !in opponent || raw == "" || raw[|raw| - 1] != '\n' then Ignored
                   else if |raw| == old(rb.data.Length) then Undefined
                   else Stored(opponent[conn])
      ensures r.Stored? ==>
                && message == old(message)[r.to := CString(old(rb.Raw()))]
                && rb.start == rb.offset == 0
    {
      if conn !in opponent {
        return Ignored;
      }
      var oppo := opponent[conn];
      var whole := rb.EndsWith("\n");
      NewlineAlone(rb.Raw());
      if whole.None? {
        return Undefined;
      }
      if !whole.value {
        return Ignored;
      }
      message := message[oppo := CString(rb.Raw())];
      rb.Clear();
      return Stored(oppo);
    }

    /** One thread's round: the messages for its own connections go out, in the order of the
        connection ids, each exactly once; the others stay. */
    method OnEpollLoop(mine: set<int>) returns (out: seq<Direct>)
      requires Valid()
      modifies this`message
      ensures Valid()
      ensures message == old(message) - mine
      ensures Dispatched(out, old(message), mine, {})
    {
      out := [];
      var todo := message.Keys;
      while todo != {}
        invariant todo <= old(message.Keys) && message == old(message) - (mine - todo)
        invariant Dispatched(out, old(message), mine, todo)
        decreases todo
      {
        ghost var least := Smallest(todo);
        var conn :| conn in todo && forall c :: c in todo ==> conn <= c;
        if conn in mine {
          DispatchOne(out, old(message), mine, todo, conn);
          out := out + [Direct(conn, message[conn])];
          message := message - {conn};
        }
        todo := todo - {conn};
      }
    }

    /** A closed connection leaves; its opponent, if it had one, is told, and keeps its own
        entry. */
    method OnPassivelyClosed(conn: int) returns (out: seq<Direct>)
      requires Valid() && conn in open
      modifies this
      ensures Valid() && open == old(open) - {conn} && seen == old(seen) && message == old(message)
      ensures conn in old(opponent) ==>
                && out == [Direct(old(opponent)[conn], END_MSG)]
                && opponent == old(opponent) - {conn} && single == old(single)
      ensures conn !in old(opponent) ==> out == [] && opponent == old(opponent) && single == old(single) - {conn}
    {
      out := [];
      Part(opponent, single, conn, open, seen);
      open := open - {conn};
      if conn in opponent {
        assert single - {conn} == single;
        out := [Direct(opponent[conn], END_MSG)];
        opponent := opponent - {conn};
      } else {
        assert opponent - {conn} == opponent;
        single := single - {conn};
      }
    }
  }

  lemma {:induction false} NewlineAlone(raw: string)
    ensures CString("\n") == "\n"
    ensures raw != "" ==> (raw[|raw| - 1..] == "\n" <==> raw[|raw| - 1] == '\n')
  {
    assert "\n"[1..] == "";
    if raw != "" {
      assert raw[|raw| - 1..] == [raw[|raw| - 1]];
    }
  }

  datatype Event = Connected(conn: int) | Closed(conn: int)

  /** Events that can happen: ids are not reused, and only an open connection closes. */
  predicate Possible(events: seq<Event>, open: set<int>, seen: set<int>)
    decreases |events|
  {
    if events == [] then true
    else
      match events[0]
      case Connected(c) => c !in seen && Possible(events[1..], open + {c}, seen + {c})
      case Closed(c) => c in open && Possible(events[1..], open - {c}, seen)
  }

  /** The connections open after the events. */
  function OpenAfter(events: seq<Event>): set<int> {
    if events == [] then {}
    else
      match events[|events| - 1]
      case Connected(c) => OpenAfter(events[..|events| - 1]) + {c}
      case Closed(c) => OpenAfter(events[..|events| - 1]) - {c}
  }

  /** Over every run of connects and closes: at most one connection waits, every open one
      waits or is paired and never both, nobody plays against itself, no two connections
      have the same opponent, and while both ends of a pair are open each is the other's. */
  method Run(events: seq<Event>) returns (s: Server)
    requires Possible(events, {}, {})
    ensures s.Valid() && s.open == OpenAfter(events)
    ensures forall a :: a in OpenAfter(events) ==> (a in s.single) != (a in s.opponent)
    ensures forall a :: a in s.single || a in s.opponent ==> a in OpenAfter(events)
    ensures forall a, b :: a in s.single && b in s.single ==> a == b
    ensures forall a :: a in s.opponent && s.opponent[a] in s.open ==>
              s.opponent[a] != a && s.opponent[a] in s.opponent && s.opponent[s.opponent[a]] == a
    ensures forall a, b :: a in s.opponent && b in s.opponent && s.opponent[a] == s.opponent[b] ==> a == b
  {
    s := new Server();
    var i := 0;
    assert events[0..] == events;
    while i < |events|
      invariant 0 <= i <= |events|
      invariant s.Valid() && fresh(s) && Possible(events[i..], s.open, s.seen)
      invariant s.open == OpenAfter(events[..i])
    {
      assert events[..i + 1][..i] == events[..i];
      assert events[i..][1..] == events[i + 1..];
      match events[i] {
        case Connected(c) => var _ := s.OnConnect(c);
        case Closed(c) => var _ := s.OnPassivelyClosed(c);
      }
      i := i + 1;
    }
    assert events[..|events|] == events;
  }
}
