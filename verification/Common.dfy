module Common {
  datatype Option<+T> = None | Some(value: T)

  lemma Assoc<T>(a: seq<T>, b: seq<T>, c: seq<T>)
    ensures (a + b) + c == a + (b + c)
  {
  }

  lemma Cancel<T>(front: seq<T>, mid: seq<T>, rest: seq<T>, all: seq<T>)
    requires (front + mid) + rest == front + all
    ensures mid + rest == all
  {
    Assoc(front, mid, rest);
    assert (front + (mid + rest))[|front|..] == mid + rest;
    assert (front + all)[|front|..] == all;
  }

  /** A nonempty set has a member. */
  lemma Member(s: set<int>) returns (x: int)
    requires s != {}
    ensures x in s
  {
    x := 0;
    if y :| y in s {
      x := y;
    } else {
      assert forall k: int :: k !in s;
      assert false;
    }
  }

  lemma {:induction false} Smallest(s: set<int>) returns (m: int)
    requires s != {}
    ensures m in s && forall c :: c in s ==> m <= c
  {
    var x := Member(s);
    m := x;
    var rest := s - {x};
    if rest != {} {
      var least := Smallest(rest);
      m := if x < least then x else least;
      assert s == rest + {x};
    }
  }
}
