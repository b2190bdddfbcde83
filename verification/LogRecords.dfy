/**
  What a thread logs, as text.  A thread's history is the sequence of its calls on the
  logger; a record is everything between two END markers.  Nothing here mentions
  buffers, locks or the backend: this is the meaning the machine is measured against.
 */
module LogRecords {
  import Common

  type Tid = nat

  /** One call `<<`.  `head` is the text `_write_debug` would produce for that call
      (level, time and thread id); it reaches the log only if the call opens a record. */
  datatype Call = Text(head: string, str: string) | End

  /** The header always holds at least the level tag, whatever the clock says. */
  predicate HasHead(c: Call) {
    c.Text? ==> c.head != ""
  }

  /** The calls since the last END. */
  function OpenTexts(h: seq<Call>): seq<Call> {
    if h == [] || h[|h| - 1].End? then [] else OpenTexts(h[..|h| - 1]) + [h[|h| - 1]]
  }

  function Body(g: seq<Call>): string {
    if g == [] then ""
    else Body(g[..|g| - 1]) + (if g[|g| - 1].Text? then g[|g| - 1].str else "")
  }

  /** A record in the making: one header, taken from its first call, then every text. */
  function RecordText(g: seq<Call>): string {
    if g == [] || g[0].End? then "" else g[0].head + Body(g)
  }

  /** The completed records, each ended by a newline. */
  function Records(h: seq<Call>): seq<string> {
    if h == [] then []
    else
      var p := h[..|h| - 1];
      if h[|h| - 1].End? then Records(p) + [RecordText(OpenTexts(p)) + "\n"] else Records(p)
  }

  function Flat(rs: seq<string>): string {
    if rs == [] then "" else Flat(rs[..|rs| - 1]) + rs[|rs| - 1]
  }

  /** Every byte a thread has logged. */
  function Logged(h: seq<Call>): string {
    Flat(Records(h)) + RecordText(OpenTexts(h))
  }

  /** The records of thread t among those that were flushed. */
  function Of(out: seq<(Tid, string)>, t: Tid): seq<string> {
    if out == [] then []
    else
      var p := Of(out[..|out| - 1], t);
      if out[|out| - 1].0 == t then p + [out[|out| - 1].1] else p
  }

  function Stream(out: seq<(Tid, string)>): string {
    if out == [] then "" else Stream(out[..|out| - 1]) + out[|out| - 1].1
  }

  function Tagged(t: Tid, rs: seq<string>): seq<(Tid, string)> {
    if rs == [] then [] else Tagged(t, rs[..|rs| - 1]) + [(t, rs[|rs| - 1])]
  }

  lemma {:induction false} TextAppended(h: seq<Call>, c: Call)
    requires c.Text?
    ensures OpenTexts(h + [c]) == OpenTexts(h) + [c]
    ensures Records(h + [c]) == Records(h)
  {
    assert (h + [c])[..|h|] == h;
  }

  lemma {:induction false} EndAppended(h: seq<Call>)
    ensures OpenTexts(h + [End]) == []
    ensures Records(h + [End]) == Records(h) + [RecordText(OpenTexts(h)) + "\n"]
  {
    assert (h + [End])[..|h|] == h;
  }

  lemma OpenTextsAreTexts(h: seq<Call>)
    ensures forall i :: 0 <= i < |OpenTexts(h)| ==> OpenTexts(h)[i].Text? && OpenTexts(h)[i] in h
  {
  }

  lemma {:induction false} RecordGrows(g: seq<Call>, c: Call)
    requires c.Text? && forall i :: 0 <= i < |g| ==> g[i].Text?
    ensures RecordText(g + [c]) == (if g == [] then c.head else RecordText(g)) + c.str
  {
    assert (g + [c])[..|g|] == g;
    if g != [] {
      Common.Assoc(g[0].head, Body(g), c.str);
    } else {
      assert [c][..0] == [] && [] + [c] == [c];
      assert Body([c]) == "" + c.str == c.str;
    }
  }

  /** The log grows call by call: the header comes exactly once, as the first bytes of a
      record that has text, and END adds exactly one newline. */
  lemma {:induction false} LoggedGrows(h: seq<Call>, c: Call)
    ensures Logged(h + [c]) == Logged(h) +
              match c
              case Text(head, str) => (if h == [] || h[|h| - 1].End? then head else "") + str
              case End => "\n"
  {
    var done, open := Flat(Records(h)), OpenTexts(h);
    match c
    case Text(head, str) =>
      TextAppended(h, c);
      OpenTextsAreTexts(h);
      RecordGrows(open, c);
      if open == [] {
        assert done + "" == done;
      }
      Common.Assoc(done, if open == [] then head else RecordText(open), str);
      assert "" + str == str;
    case End =>
      EndAppended(h);
      FlatAppend(Records(h), [RecordText(open) + "\n"]);
      assert Flat([RecordText(open) + "\n"]) == RecordText(open) + "\n";
      Common.Assoc(done, RecordText(open), "\n");
      assert Logged(h + [c]) == Flat(Records(h + [c])) + "" == Flat(Records(h + [c]));
  }

  lemma {:induction false} FlatAppend(a: seq<string>, b: seq<string>)
    ensures Flat(a + b) == Flat(a) + Flat(b)
  {
    if b == [] {
      assert a + b == a;
    } else {
      assert (a + b)[..|a + b| - 1] == a + b[..|b| - 1];
      FlatAppend(a, b[..|b| - 1]);
    }
  }

  lemma {:induction false} TaggedOf(out: seq<(Tid, string)>, t: Tid, rs: seq<string>, u: Tid)
    ensures Of(out + Tagged(t, rs), u) == Of(out, u) + (if u == t then rs else [])
    ensures Stream(out + Tagged(t, rs)) == Stream(out) + Flat(rs)
  {
    if rs == [] {
      assert out + Tagged(t, rs) == out;
    } else {
      var p := rs[..|rs| - 1];
      var all := out + Tagged(t, rs);
      assert all[..|all| - 1] == out + Tagged(t, p);
      TaggedOf(out, t, p, u);
      assert p + [rs[|rs| - 1]] == rs;
    }
  }
}
