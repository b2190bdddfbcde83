/** The pool of read and write buffers of one I/O handler. */
module HandlerBuffers {
  import opened BufferModel

  /** Where a buffer is. */
  datatype Place = Reads(conn: int) | Writes(conn: int) | Pooled(index: int)

  /** Every buffer ever allocated is in exactly one place, and the places are the ones the
      three containers show; pooled buffers come in pairs. */
  ghost predicate Recycling(pool: seq<Buffer>, rbh: map<int, Buffer>, wbh: map<int, Buffer>,
        place: map<Buffer, Place>) {
    && rbh.Keys == wbh.Keys
    && (forall a :: a in rbh ==> rbh[a] in place && place[rbh[a]] == Reads(a))
    && (forall a :: a in wbh ==> wbh[a] in place && place[wbh[a]] == Writes(a))
    && (forall i :: 0 <= i < |pool| ==> pool[i] in place && place[pool[i]] == Pooled(i))
    && |pool| % 2 == 0
    && |place| == 2 * |rbh| + |pool|
  }

  /** No two of the buffers in use or pooled are the same. */
  ghost predicate NoAliasing(pool: seq<Buffer>, rbh: map<int, Buffer>, wbh: map<int, Buffer>) {
    && (forall a, b :: a in rbh && b in wbh ==> rbh[a] != wbh[b])
    && (forall a, b :: a in rbh && b in rbh && a != b ==> rbh[a] != rbh[b])
    && (forall a, b :: a in wbh && b in wbh && a != b ==> wbh[a] != wbh[b])
    && (forall i, a :: 0 <= i < |pool| && a in rbh ==> pool[i] != rbh[a])
    && (forall i, a :: 0 <= i < |pool| && a in wbh ==> pool[i] != wbh[a])
    && (forall i, j :: 0 <= i < j < |pool| ==> pool[i] != pool[j])
  }

  lemma {:induction false} OnePlaceEach(pool: seq<Buffer>, rbh: map<int, Buffer>, wbh: map<int, Buffer>,
        place: map<Buffer, Place>)
    requires Recycling(pool, rbh, wbh, place)
    ensures NoAliasing(pool, rbh, wbh)
  {
  }

  lemma {:induction false} Allocate(rbh: map<int, Buffer>, wbh: map<int, Buffer>, place: map<Buffer,
        Place>, conn: int, r: Buffer, w: Buffer)
    requires Recycling([], rbh, wbh, place) && conn !in rbh && r != w && r !in place && w !in place
    ensures Recycling([], rbh[conn := r], wbh[conn := w], place[r := Reads(conn)][w := Writes(conn)])
  {
  }

  lemma {:induction false} Reuse(pool: seq<Buffer>, rbh: map<int, Buffer>, wbh: map<int, Buffer>,
        place: map<Buffer, Place>, conn: int)
    requires Recycling(pool, rbh, wbh, place) && conn !in rbh && |pool| >= 2
    ensures var r, w := pool[|pool| - 1], pool[|pool| - 2];
            Recycling(pool[..|pool| - 2], rbh[conn := r], wbh[conn := w], place[r := Reads(conn)][w := Writes(conn)])
  {
    SameSize(place, pool[|pool| - 1], Reads(conn));
    SameSize(place[pool[|pool| - 1] := Reads(conn)], pool[|pool| - 2], Writes(conn));
  }

  lemma {:induction false} Return(pool: seq<Buffer>, rbh: map<int, Buffer>, wbh: map<int, Buffer>,
        place: map<Buffer, Place>, conn: int)
    requires Recycling(pool, rbh, wbh, place) && conn in rbh
    ensures var r, w := rbh[conn], wbh[conn];
            Recycling(pool + [r, w], rbh - {conn}, wbh - {conn}, place[r := Pooled(|pool|)][w := Pooled(|pool| + 1)])
  {
    var r, w := rbh[conn], wbh[conn];
    SameSize(place, r, Pooled(|pool|));
    SameSize(place[r := Pooled(|pool|)], w, Pooled(|pool| + 1));
    assert (rbh - {conn}).Keys == rbh.Keys - {conn};
    assert |rbh - {conn}| == |(rbh - {conn}).Keys| && |rbh| == |rbh.Keys|;
  }

  lemma {:induction false} SameSize(place: map<Buffer, Place>, b: Buffer, p: Place)
    requires b in place
    ensures |place[b := p]| == |place|
  {
    assert place[b := p].Keys == place.Keys;
    assert |place[b := p]| == |place[b := p].Keys| && |place| == |place.Keys|;
  }

  class IOHandler {
    var pool: seq<Buffer>       // `_buffer_pool`
    var rbh: map<int, Buffer>   // `_rbh`
    var wbh: map<int, Buffer>   // `_wbh`
    ghost var place: map<Buffer, Place> // history: every buffer allocated, and where it is

    ghost predicate Valid()
      reads this
    {
      Recycling(pool, rbh, wbh, place)
    }

    constructor ()
      ensures Valid() && rbh == map[] && pool == [] && place == map[]
    {
      pool, rbh, wbh, place := [], map[], map[], map[];
    }

    /** A new connection gets two buffers of its own, from the pool if there are any.  A
        recycled pair changes roles. */
    method CreateBuffer(conn: int)
      requires Valid() && conn !in rbh
      modifies this
      ensures Valid() && conn in rbh && conn in wbh
      ensures rbh == old(rbh)[conn := rbh[conn]] && wbh == old(wbh)[conn := wbh[conn]]
      ensures old(pool) == [] ==> pool == [] && fresh(rbh[conn]) && fresh(wbh[conn]) && |place| == |old(place)| + 2
      ensures old(pool) != [] ==> pool == old(pool[..|pool| - 2]) && place.Keys == old(place.Keys)
      ensures old(pool) != [] ==> rbh[conn] == old(pool[|pool| - 1]) && wbh[conn] == old(pool[|pool| - 2])
    {
      var size := |pool|;
      if size < 2 {
        var r := new Buffer(DEFAULT_CAP);
        var w := new Buffer(DEFAULT_CAP);
        Allocate(rbh, wbh, place, conn, r, w);
        rbh, wbh := rbh[conn := r], wbh[conn := w];
        place := place[r := Reads(conn)][w := Writes(conn)];
      } else {
        Reuse(pool, rbh, wbh, place, conn);
        place := place[pool[size - 1] := Reads(conn)][pool[size - 2] := Writes(conn)];
        rbh, wbh := rbh[conn := pool[size - 1]], wbh[conn := pool[size - 2]];
        pool := pool[..size - 2];
      }
    }

    /** A closed connection gives both of its buffers to the pool. */
    method DestroyBuffer(conn: int)
      requires Valid() && conn in rbh
      modifies this
      ensures Valid() && rbh == old(rbh) - {conn} && wbh == old(wbh) - {conn}
      ensures pool == old(pool) + [old(rbh[conn]), old(wbh[conn])] && place.Keys == old(place.Keys)
    {
      Return(pool, rbh, wbh, place, conn);
      place := place[rbh[conn] := Pooled(|pool|)][wbh[conn] := Pooled(|pool| + 1)];
      pool := pool + [rbh[conn], wbh[conn]];
      rbh, wbh := rbh - {conn}, wbh - {conn};
    }
  }

  // ------------------------------------------------------------------ over a whole run

  datatype Event = Opened(conn: int) | Closed(conn: int)

  /** The connections that are open after the events. */
  function LiveAfter(events: seq<Event>): set<int> {
    if events == [] then {}
    else
      var before := LiveAfter(events[..|events| - 1]);
      match events[|events| - 1]
      case Opened(c) => before + {c}
      case Closed(c) => before - {c}
  }

  /** The largest number of connections that were open at one time. */
  function PeakLive(events: seq<Event>): nat {
    if events == [] then 0
    else
      var peak, now := PeakLive(events[..|events| - 1]), |LiveAfter(events)|;
      if now > peak then now else peak
  }

  lemma {:induction false} PeakBounds(events: seq<Event>, i: nat)
    requires i <= |events|
    ensures |LiveAfter(events[..i])| <= PeakLive(events)
  {
    if i == |events| {
      assert events[..i] == events;
    } else {
      var before := events[..|events| - 1];
      PeakBounds(before, i);
      assert before[..i] == events[..i];
    }
  }

  lemma {:induction false} PeakReached(events: seq<Event>) returns (i: nat)
    ensures i <= |events| && |LiveAfter(events[..i])| == PeakLive(events)
  {
    i := |events|;
    assert events[..i] == events;
    if events != [] && PeakLive(events) != |LiveAfter(events)| {
      var before := events[..|events| - 1];
      i := PeakReached(before);
      assert before[..i] == events[..i];
    }
  }

  /** It is the largest: never exceeded, and reached. */
  lemma {:induction false} PeakIsLargest(events: seq<Event>)
    ensures forall i :: 0 <= i <= |events| ==> |LiveAfter(events[..i])| <= PeakLive(events)
    ensures exists i :: 0 <= i <= |events| && |LiveAfter(events[..i])| == PeakLive(events)
  {
    forall i | 0 <= i <= |events| ensures |LiveAfter(events[..i])| <= PeakLive(events) {
      PeakBounds(events, i);
    }
    var i := PeakReached(events);
  }

  /** Only a closed connection opens and only an open one closes. */
  predicate Possible(events: seq<Event>) {
    forall i :: 0 <= i < |events| ==> (events[i].Opened? <==> events[i].conn !in LiveAfter(events[..i]))
  }

  lemma {:induction false} OneMoreEvent(events: seq<Event>, i: nat)
    requires i < |events|
    ensures var now, peak := |LiveAfter(events[..i + 1])|, PeakLive(events[..i]);
            PeakLive(events[..i + 1]) == if now > peak then now else peak
    ensures var before, c := LiveAfter(events[..i]), events[i].conn;
            LiveAfter(events[..i + 1]) == if events[i].Opened? then before + {c} else before - {c}
  {
    assert events[..i + 1][..i] == events[..i];
  }

  /** One event: new buffers are allocated only when more connections than ever are open. */
  method Handle(h: IOHandler, e: Event)
    requires h.Valid() && (e.Opened? <==> e.conn !in h.rbh)
    modifies h
    ensures h.Valid()
    ensures h.rbh.Keys == if e.Opened? then old(h.rbh.Keys) + {e.conn} else old(h.rbh.Keys) - {e.conn}
    ensures |h.place| == if 2 * |h.rbh.Keys| > old(|h.place|) then 2 * |h.rbh.Keys| else old(|h.place|)
  {
    assert |h.rbh| == |h.rbh.Keys|;
    match e {
      case Opened(c) => h.CreateBuffer(c);
      case Closed(c) => h.DestroyBuffer(c);
    }
    assert |h.rbh| == |h.rbh.Keys| && |h.place| == |h.place.Keys|;
  }

  /** For every run: no two of the buffers in use or pooled are the same, and exactly twice
      as many buffers were ever allocated as connections were open at the busiest moment. */
  method Run(events: seq<Event>) returns (h: IOHandler)
    requires Possible(events)
    ensures h.Valid() && h.rbh.Keys == h.wbh.Keys == LiveAfter(events)
    ensures NoAliasing(h.pool, h.rbh, h.wbh)
    ensures |h.place| == 2 * PeakLive(events)
    ensures |h.pool| == 2 * (PeakLive(events) - |LiveAfter(events)|)
  {
    h := new IOHandler();
    var i := 0;
    ghost var live, peak := LiveAfter([]), PeakLive([]);
    while i < |events|
      invariant 0 <= i <= |events|
      invariant h.Valid() && fresh(h) && h.rbh.Keys == live && |h.place| == 2 * peak
      invariant live == LiveAfter(events[..i]) && peak == PeakLive(events[..i])
    {
      OneMoreEvent(events, i);
      Handle(h, events[i]);
      live, peak := LiveAfter(events[..i + 1]), PeakLive(events[..i + 1]);
      i := i + 1;
    }
    assert events[..|events|] == events;
    assert |h.rbh| == |h.rbh.Keys|;
    OnePlaceEach(h.pool, h.rbh, h.wbh, h.place);
  }
}
