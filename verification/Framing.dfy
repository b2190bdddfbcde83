/** Lines over a stream, as the chess client reads them. */
module Framing {
  import opened Common
  import opened Kernel
  import opened BufferModel

  predicate IsLine(s: string) {
    s != "" && s[|s| - 1] == '\n' && '\n' !in s[..|s| - 1]
  }

  /** The newline-terminated lines of a stream, and what follows the last of them. */
  function Lines(s: string): (r: (seq<string>, string)) {
    if s == "" then ([], "")
    else
      var (ls, rest) := Lines(s[1..]);
      if s[0] == '\n' then ([[s[0]]] + ls, rest)
      else if ls == [] then ([], [s[0]] + rest)
      else ([[s[0]] + ls[0]] + ls[1..], rest)
  }

  function Joined(ls: seq<string>): string {
    if ls == [] then "" else ls[0] + Joined(ls[1..])
  }

  /** One line in front of a stream is its first line. */
  lemma {:induction false} LineInFront(line: string, s: string)
    requires IsLine(line)
    ensures Lines(line + s) == ([line] + Lines(s).0, Lines(s).1)
  {
    var t := line + s;
    assert t[1..] == line[1..] + s;
    if |line| > 1 {
      assert line[1..][..|line| - 2] == line[..|line| - 1][1..];
      assert '\n' !in line[1..][..|line| - 2];
      assert line[0] == line[..|line| - 1][0] && line[0] != '\n';
      LineInFront(line[1..], s);
      assert [line[0]] + line[1..] == line;
    } else {
      assert line[1..] + s == s;
      assert line == [line[0]];
    }
  }

  lemma {:induction false} NoLineInside(s: string)
    requires '\n' !in s
    ensures Lines(s) == ([], s)
  {
    if s != "" {
      assert s[0] in s && forall c :: c in s[1..] ==> c in s;
      NoLineInside(s[1..]);
      assert [s[0]] + s[1..] == s;
    }
  }

  /** Any cutting of a stream into lines and a rest without newline is the one. */
  lemma {:induction false} LinesAreUnique(ls: seq<string>, rest: string)
    requires (forall i :: 0 <= i < |ls| ==> IsLine(ls[i])) && '\n' !in rest
    ensures Lines(Joined(ls) + rest) == (ls, rest)
  {
    if ls == [] {
      assert Joined(ls) + rest == rest;
      NoLineInside(rest);
    } else {
      Assoc(ls[0], Joined(ls[1..]), rest);
      LinesAreUnique(ls[1..], rest);
      LineInFront(ls[0], Joined(ls[1..]) + rest);
      assert [ls[0]] + ls[1..] == ls;
    }
  }

  lemma {:induction false} JoinedAppend(ls: seq<string>, l: string)
    ensures Joined(ls + [l]) == Joined(ls) + l
  {
    if ls == [] {
      assert ls + [l] == [l];
      assert Joined([l]) == l + Joined([]);
      assert l + "" == l;
    } else {
      assert (ls + [l])[1..] == ls[1..] + [l];
      JoinedAppend(ls[1..], l);
      Assoc(ls[0], Joined(ls[1..]), l);
    }
  }

  lemma {:induction false} EndsAtNewline(raw: string, i: int)
    ensures EndsAt(raw, i, "\n") <==> 0 <= i < |raw| && raw[i] == '\n'
  {
    if 0 <= i < |raw| {
      assert raw[i..i + 1] == [raw[i]];
    }
  }

  /** The client's read: whatever was in the buffer is cleared, then bytes are taken one by
      one up to the newline.  Nothing behind the newline is taken. */
  method NextLine(b: Buffer, src: Source) returns (r: Search)
    requires b.Valid()
    modifies b, b.data, src
    ensures b.Valid() && (b.data == old(b.data) || fresh(b.data)) && b.start == 0
    ensures b.Raw() + Bytes(src.answers) == old(Bytes(src.answers))
    ensures src.delivered + Bytes(src.answers) == old(src.delivered + Bytes(src.answers))
    ensures r.Found? ==> IsLine(b.Raw()) && r.at == b.offset - 1
    ensures !r.Found? ==> '\n' !in b.Raw()
    ensures r.Overread? ==> b.offset == b.data.Length
    ensures b.data.Length == old(b.data.Length)
    ensures r.Stopped? ==> b.offset < b.data.Length
    ensures b.Raw() + Ahead(r, src.answers).0 == old(Ending(src.answers).0)
    ensures Ahead(r, src.answers).1 == Ending(old(src.answers)).1
    ensures r.Stopped? ==> !r.out.Count?
  {
    b.Clear();
    ghost var gone := b.gone;
    assert b.received == gone + "" == gone;
    r := b.ReadNioTillEnd(src, "\n", 1);
    assert b.Contents() == b.Raw();
    Cancel(gone, b.Raw(), Bytes(src.answers), old(Bytes(src.answers)));
    Cancel(gone, b.Raw(), Ahead(r, src.answers).0, old(Ending(src.answers).0));
    forall i ensures EndsAt(b.Raw(), i, "\n") <==> 0 <= i < b.offset && b.Raw()[i] == '\n' {
      EndsAtNewline(b.Raw(), i);
    }
  }

  /** A read succeeds exactly for a line that fits the buffer: whatever the stream and the
      pieces in which it arrives, the client gets its next line if and only if the newline is
      among the next `_cap` bytes in front of the end of the stream.  When those bytes are there
      and hold no newline, the search looks behind the allocation; when the stream ends before,
      the read ends for that reason. */
  method NextLineExactly(b: Buffer, src: Source) returns (r: Search)
    requires b.Valid()
    modifies b, b.data, src
    ensures b.Valid() && (b.data == old(b.data) || fresh(b.data))
    ensures var next, cap := old(Ending(src.answers).0), old(b.data.Length);
            && (r.Found? ==> IsLine(b.Raw()) && b.Raw() + Ending(src.answers).0 == next)
            && (r.Found? <==> '\n' in next[..Min(cap, |next|)])
            && (r.Overread? <==> |next| >= cap && '\n' !in next[..cap])
            && (r.Stopped? ==> b.Raw() == next && r.out == Ending(old(src.answers)).1)
  {
    r := NextLine(b, src);
    ghost var next, cap := old(Ending(src.answers).0), old(b.data.Length);
    assert b.Raw() == next[..b.offset];
    if !r.Found? {
      assert r.Overread? ==> next[..cap] == b.Raw();
      assert r.Stopped? ==> next[..Min(cap, |next|)] == b.Raw() == next;
    }
  }

  /** The client's loop of reads on a fresh or used buffer: the lines it gets, put together,
      are exactly the newline-terminated lines of what it took from the stream, and of all of
      it in front of its end unless a line does not fit the buffer, each whole and once,
      whatever the pieces in which the stream arrived; no byte between two lines is lost to
      the clearing. */
  method AllLines(b: Buffer, src: Source) returns (lines: seq<string>, last: Search)
    requires b.Valid()
    modifies b, b.data, src
    ensures b.Valid() && !last.Found?
    ensures forall i :: 0 <= i < |lines| ==> |lines[i]| <= old(b.data.Length)
    ensures Joined(lines) + b.Raw() + Bytes(src.answers) == old(Bytes(src.answers))
    ensures Lines(Joined(lines) + b.Raw()) == (lines, b.Raw())
    ensures last.Overread? ==> b.offset == b.data.Length == old(b.data.Length)
    ensures last.Stopped? ==>
              && last.out == Ending(old(src.answers)).1
              && Lines(old(Ending(src.answers).0)) == (lines, b.Raw())
  {
    lines := [];
    last := Found(0);
    label Before:
    while last.Found?
      invariant b.Valid() && (b.data == old(b.data) || fresh(b.data)) && b.data.Length == old(b.data.Length)
      invariant forall i :: 0 <= i < |lines| ==> IsLine(lines[i]) && |lines[i]| <= old(b.data.Length)
      invariant Ahead(last, src.answers).1 == Ending(old(src.answers)).1 && (last.Stopped? ==> !last.out.Count?)
      invariant last.Found? ==> Joined(lines) + Ending(src.answers).0 == old(Ending(src.answers).0)
      invariant last.Stopped? ==> Joined(lines) + b.Raw() == old(Ending(src.answers).0)
      invariant last.Overread? ==> b.offset == b.data.Length
      invariant last.Found? ==> Joined(lines) + Bytes(src.answers) == old(Bytes(src.answers))
      invariant !last.Found? ==>
                  '\n' !in b.Raw() && Joined(lines) + b.Raw() + Bytes(src.answers) == old(Bytes(src.answers))
      decreases last.Found?, |Bytes(src.answers)|
    {
      ghost var ahead := Bytes(src.answers);
      last := NextLine(b, src);
      Assoc(Joined(lines), b.Raw(), Bytes(src.answers));
      Assoc(Joined(lines), b.Raw(), Ending(src.answers).0);
      assert last.Stopped? ==> b.Raw() + "" == b.Raw();
      if last.Found? {
        JoinedAppend(lines, b.Raw());
        lines := lines + [b.Raw()];
      }
    }
    LinesAreUnique(lines, b.Raw());
  }
}
