/** What every step of the logger keeps. */
module LoggerInvariant {
  import opened Common
  import opened LogRecords
  import opened LoggerMachine

  // ------------------------------------------------------------------ the map lock

  /** A thread's hold on the map lock, as its program counter shows it. */
  predicate PcReads(pc: Pc) {
    pc.Check? || pc.WantLock? || pc.Locked? || pc.Counted? || pc.Headed? || pc.Closing? || pc.Closed? || pc.Leaving?
  }

  predicate PcWrites(pc: Pc) {
    pc.Init? || pc.Inited?
  }

  /** The backend's. */
  predicate ReadsAt(pc: BackPc) {
    pc.Scan? || pc.WantEntry? || pc.Have? || pc.Flush? || pc.Release? || pc.Wait? || pc.Woken?
  }

  predicate WritesAt(pc: BackPc) {
    pc.Erase? || pc.Quiet?
  }

  predicate Reading(s: State, a: Actor) {
    match a
    case Logger(t) => t in s.threads && PcReads(s.threads[t].pc)
    case Backend => ReadsAt(s.back.pc)
    case Destructor => s.destructor.Stopping?
  }

  predicate Writing(s: State, a: Actor) {
    match a
    case Logger(t) => t in s.threads && PcWrites(s.threads[t].pc)
    case Backend => WritesAt(s.back.pc)
    case Destructor => false
  }

  ghost predicate LocksOk(s: State) {
    && (forall a :: a in s.readers <==> Reading(s, a))
    && (forall a :: s.writer == Some(a) <==> Writing(s, a))
    && (s.writer.Some? ==> s.readers == {})
  }

  // ------------------------------------------------------------------ one thread and its entry

  /** The depth to which a thread holds its own recursive lock: its texts since the last
      END, plus the lock of the call it is in. */
  function OwnDepth(pc: Pc, open: nat): nat {
    match pc
    case Locked(_) => open + 1
    case Counted(_) => open + 1
    case Headed(_) => open + 1
    case Closing(_) => open + 1
    case Closed(n) => open + n
    case Leaving(n) => open + n
    case _ => open
  }

  function CounterOf(pc: Pc, open: nat): nat {
    match pc
    case Counted(_) => open + 1
    case Headed(_) => open + 1
    case Closing(_) => 0
    case _ => open
  }

  /** The header that is in the buffer although its call is not in the history yet. */
  function HeadInFlight(pc: Pc, open: seq<Call>): string {
    if pc.Headed? && open == [] && pc.c.Text? then pc.c.head else ""
  }

  predicate PcOk(pc: Pc, open: nat) {
    match pc
    case Idle => true
    case Counted(c) => c.Text? && HasHead(c)
    case Headed(c) => c.Text? && HasHead(c)
    case Closing(n) => n == open + 1
    case Closed(n) => n > 0 && open == 0
    case Leaving(n) => n > 0 ==> open == 0
    case _ => HasHead(pc.c)
  }

  /** Points at which a thread may have no entry. */
  predicate MayLackEntry(pc: Pc) {
    pc.Idle? || pc.WantRead? || pc.Check? || pc.WantWrite? || pc.Init?
  }

  predicate BackendHolds(s: State, t: Tid) {
    var pc := s.back.pc;
    (pc.Have? || pc.Flush? || pc.Release?) && pc.t == t
  }

  /** Conservation for one thread: what it logged is what was flushed of it followed by
      what is in its buffer. */
  ghost predicate DataOk(pc: Pc, hist: seq<Call>, data: string, sent: seq<string>) {
    && sent <= Records(hist)
    && data == Flat(Records(hist)[|sent|..]) + RecordText(OpenTexts(hist)) + HeadInFlight(pc, OpenTexts(hist))
  }

  /** The bracket discipline: the counter and the depth of the recursive lock, `open` being
      the number of texts since the last END. */
  predicate BracketOk(pc: Pc, open: nat, e: Entry, t: Tid, backend: bool) {
    && e.count == CounterOf(pc, open)
    && (if backend then e.holder == Some(Backend) && e.depth == 1 && OwnDepth(pc, open) == 0
        else e.depth == OwnDepth(pc, open) && e.holder == if e.depth > 0 then Some(Logger(t)) else None)
  }

  ghost predicate EntryOk(th: Thread, e: Entry, t: Tid, sent: seq<string>, backend: bool, flushing: bool) {
    && DataOk(th.pc, th.hist, e.data, sent)
    && BracketOk(th.pc, |OpenTexts(th.hist)|, e, t, backend)
    && (if flushing then backend && e.start <= |e.data| else e.start == 0)
    && (InWindow(th.pc) ==> OpenTexts(th.hist) == [] && sent == Records(th.hist))
    && !th.pc.WantWrite? && !th.pc.Init?
  }

  predicate ThreadShapeOk(th: Thread) {
    && (forall i :: 0 <= i < |th.hist| ==> HasHead(th.hist[i]))
    && PcOk(th.pc, |OpenTexts(th.hist)|)
  }

  ghost predicate WellKept(th: Thread, e: Entry, t: Tid, sent: seq<string>, backend: bool, flushing: bool) {
    ThreadShapeOk(th) && EntryOk(th, e, t, sent, backend, flushing)
  }

  predicate Flushing(s: State, t: Tid) {
    s.back.pc.Flush? && s.back.pc.t == t
  }

  ghost predicate ThreadOk(s: State, t: Tid)
    requires t in s.threads
  {
    var th := s.threads[t];
    && ThreadShapeOk(th)
    && if t in s.entries then
         EntryOk(th, s.entries[t], t, Of(s.flushed, t), BackendHolds(s, t), Flushing(s, t))
       else
         && OpenTexts(th.hist) == [] && Of(s.flushed, t) == Records(th.hist)
         && MayLackEntry(th.pc) && !BackendHolds(s, t)
  }

  // ------------------------------------------------------------------ the backend

  ghost predicate Listed(s: State, todo: set<Tid>) {
    forall t :: t in todo ==> t in s.entries && t in s.threads
  }

  ghost predicate BackOk(s: State) {
    && Listed(s, s.back.remove)
    && match s.back.pc
       case Scan(todo) => todo <= s.entries.Keys
       case WantEntry(t, todo) => todo <= s.entries.Keys && t in s.entries
       case Have(t, todo) => todo <= s.entries.Keys && t in s.entries
       case Flush(t, todo) => todo <= s.entries.Keys && t in s.entries
       case Release(t, todo) => todo <= s.entries.Keys && t in s.entries
       case Erase(todo) => Listed(s, todo) && s.back.remove == {}
       case Exited => s.stop
       case _ => true
  }

  /** The bytes of the buffer being flushed that are out already. */
  function PartlyOut(s: State): string {
    if s.back.pc.Flush? && s.back.pc.t in s.entries then
      var e := s.entries[s.back.pc.t];
      if e.start <= |e.data| then e.data[..e.start] else ""
    else ""
  }

  /** Every record written is some thread's. */
  predicate Known(flushed: seq<(Tid, string)>, threads: map<Tid, Thread>) {
    forall k :: 0 <= k < |flushed| ==> flushed[k].0 in threads
  }

  /** The part of the invariant that is about the backend. */
  ghost predicate Rest(s: State) {
    && s.entries.Keys <= s.threads.Keys
    && BackOk(s)
    && s.output == Stream(s.flushed) + PartlyOut(s)
    && Known(s.flushed, s.threads)
  }

  ghost predicate AllOk(s: State) {
    forall u :: u in s.threads ==> ThreadOk(s, u)
  }

  ghost predicate Inv(s: State) {
    LocksOk(s) && AllOk(s) && Rest(s)
  }

  lemma {:induction false} InitialInv(s: State)
    requires Initial(s)
    ensures Inv(s)
  {
  }

  /** An open record keeps its buffer nonempty: that is why rechecking `_offset` alone
      suffices before an erase. */
  lemma {:induction false} OpenMeansText(s: State, t: Tid)
    requires t in s.threads && ThreadOk(s, t) && t in s.entries && OpenTexts(s.threads[t].hist) != []
    ensures s.entries[t].data != ""
  {
    var open := OpenTexts(s.threads[t].hist);
    OpenTextsAreTexts(s.threads[t].hist);
    assert open[0].head != "";
  }

  // ------------------------------------------------------------------ steps of a thread

  /** A step of t leaves everything alone that is not t's own or the map lock. */
  lemma {:induction false} StepFrame(s: State, t: Tid)
    requires StepReady(s, t)
    ensures var s' := DoStep(s, t);
            && s'.threads == s.threads[t := s'.threads[t]]
            && s'.entries.Keys == s.entries.Keys + (if s.threads[t].pc.Init? then {t} else {})
            && (forall u :: u in s.entries && u != t ==> s'.entries[u] == s.entries[u])
            && s'.back == s.back && s'.destructor == s.destructor && s'.stop == s.stop
            && s'.output == s.output && s'.flushed == s.flushed
            && s'.now == s.now && s'.expired == s.expired
  {
  }

  /** A thread's invariant depends on nothing but its own part of the state. */
  lemma {:induction false} ThreadOkLocal(s: State, s': State, u: Tid)
    requires u in s.threads && ThreadOk(s, u)
    requires u in s'.threads && s'.threads[u] == s.threads[u]
    requires u in s'.entries <==> u in s.entries
    requires u in s.entries ==> s'.entries[u] == s.entries[u]
    requires Of(s'.flushed, u) == Of(s.flushed, u)
    requires BackendHolds(s', u) == BackendHolds(s, u)
    requires Flushing(s', u) == Flushing(s, u)
    ensures ThreadOk(s', u)
  {
  }

  /** One actor at a time changes its hold on the map lock. */
  lemma {:induction false} LocksLocal(s: State, s': State, me: Actor)
    requires LocksOk(s)
    requires forall a :: a != me ==> (Reading(s', a) <==> Reading(s, a)) && (Writing(s', a) <==> Writing(s, a))
    requires s'.readers == if Reading(s', me) then s.readers + {me} else s.readers - {me}
    requires s'.writer == if Writing(s', me) then Some(me) else if Writing(s, me) then None else s.writer
    requires Writing(s', me) ==> Writing(s, me) || MapLockFree(s)
    requires Reading(s', me) ==> !Writing(s', me) && (Reading(s, me) || s.writer.None?)
    ensures LocksOk(s')
  {
    assert Writing(s, me) <==> s.writer == Some(me);
    forall a ensures s'.writer == Some(a) <==> Writing(s', a) {
      assert s.writer == Some(a) <==> Writing(s, a);
    }
  }

  lemma {:induction false} StepOwnLock(s: State, t: Tid)
    requires LocksOk(s) && StepReady(s, t)
    ensures var s' := DoStep(s, t); var me := Logger(t);
            && s'.readers == (if Reading(s', me) then s.readers + {me} else s.readers - {me})
            && s'.writer == (if Writing(s', me) then Some(me) else if Writing(s, me) then None else s.writer)
            && (Writing(s', me) ==> Writing(s, me) || MapLockFree(s))
            && (Reading(s', me) ==> !Writing(s', me) && (Reading(s, me) || s.writer.None?))
  {
    var me := Logger(t);
    assert me in s.readers <==> Reading(s, me);
    assert s.writer == Some(me) <==> Writing(s, me);
  }

  lemma {:induction false} StepKeepsLocks(s: State, t: Tid)
    requires LocksOk(s) && StepReady(s, t)
    ensures LocksOk(DoStep(s, t))
  {
    StepFrame(s, t);
    StepOwnLock(s, t);
    LocksLocal(s, DoStep(s, t), Logger(t));
  }

  /** The lines that do not change what is logged: the bracket. */
  lemma {:induction false} WithinKeepsBracket(th: Thread, e: Entry, t: Tid, now: int, open: nat, backend: bool)
    requires PcOk(th.pc, open) && BracketOk(th.pc, open, e, t, backend)
    requires th.pc.WantLock? || th.pc.Locked? || th.pc.Closed? || (th.pc.Leaving? && th.pc.n > 0)
    requires th.pc.WantLock? ==> Lockable(e, Logger(t))
    ensures var p := Within(th, e, Logger(t), now);
            && PcOk(p.0.pc, open) && BracketOk(p.0.pc, open, p.1, t, backend)
            && p.0.hist == th.hist && p.1.data == e.data && p.1.start == e.start
            && !InWindow(p.0.pc) && !p.0.pc.WantWrite? && !p.0.pc.Init? && !p.0.pc.Headed?
  {
  }

  lemma {:induction false} WithinKeepsSilent(th: Thread, e: Entry, t: Tid, now: int, sent: seq<string>,
        backend: bool, flushing: bool)
    requires WellKept(th, e, t, sent, backend, flushing)
    requires th.pc.WantLock? || th.pc.Locked? || th.pc.Closed? || (th.pc.Leaving? && th.pc.n > 0)
    requires th.pc.WantLock? ==> Lockable(e, Logger(t))
    ensures var p := Within(th, e, Logger(t), now);
            WellKept(p.0, p.1, t, sent, backend, flushing)
  {
    WithinKeepsBracket(th, e, t, now, |OpenTexts(th.hist)|, backend);
  }

  lemma {:induction false} HeaderKeepsData(c: Call, hist: seq<Call>, data: string, sent: seq<string>)
    requires c.Text? && DataOk(Counted(c), hist, data, sent)
    ensures DataOk(Headed(c), hist, if OpenTexts(hist) == [] then data + c.head else data, sent)
  {
    var before := Flat(Records(hist)[|sent|..]) + RecordText(OpenTexts(hist));
    assert before + "" == before;
  }

  lemma {:induction false} WithinKeepsHeader(th: Thread, e: Entry, t: Tid, now: int, sent: seq<string>,
        backend: bool, flushing: bool)
    requires WellKept(th, e, t, sent, backend, flushing)
    requires th.pc.Counted?
    ensures var p := Within(th, e, Logger(t), now);
            WellKept(p.0, p.1, t, sent, backend, flushing)
  {
    var c, open := th.pc.c, OpenTexts(th.hist);
    HeaderKeepsData(c, th.hist, e.data, sent);
    assert e.count == |open| + 1;
    var data := if open == [] then e.data + c.head else e.data;
    assert Within(th, e, Logger(t), now) == (th.(pc := Headed(c)), e.(data := data));
    assert BracketOk(Headed(c), |open|, e.(data := data), t, backend);
  }

  lemma {:induction false} TextBytes(before: string, open: seq<Call>, c: Call, data: string)
    requires c.Text? && forall i :: 0 <= i < |open| ==> open[i].Text?
    requires data == before + RecordText(open) + if open == [] then c.head else ""
    ensures data + c.str == before + RecordText(open + [c])
  {
    RecordGrows(open, c);
    if open == [] {
      assert before + "" == before;
      Assoc(before, c.head, c.str);
    } else {
      assert data == before + RecordText(open);
      Assoc(before, RecordText(open), c.str);
    }
  }

  lemma {:induction false} TextKeepsData(c: Call, hist: seq<Call>, data: string, sent: seq<string>)
    requires c.Text? && DataOk(Headed(c), hist, data, sent)
    ensures DataOk(Leaving(0), hist + [c], data + c.str, sent)
    ensures |OpenTexts(hist + [c])| == |OpenTexts(hist)| + 1
  {
    OpenTextsAreTexts(hist);
    TextAppended(hist, c);
    TextBytes(Flat(Records(hist)[|sent|..]), OpenTexts(hist), c, data);
    var after := Flat(Records(hist)[|sent|..]) + RecordText(OpenTexts(hist) + [c]);
    assert after + "" == after;
  }

  /** The bytes of a record that END closes. */
  lemma {:induction false} NewlineBytes(rest: seq<string>, body: string)
    ensures Flat(rest + [body + "\n"]) == (Flat(rest) + body) + "\n"
  {
    var r := body + "\n";
    FlatAppend(rest, [r]);
    assert Flat([r]) == r;
    Assoc(Flat(rest), body, "\n");
  }

  lemma {:induction false} RecordsSince(hist: seq<Call>, n: nat)
    requires n <= |Records(hist)|
    ensures Records(hist + [End])[n..] == Records(hist)[n..] + [RecordText(OpenTexts(hist)) + "\n"]
    ensures n <= |Records(hist + [End])| && Records(hist) <= Records(hist + [End])
    ensures OpenTexts(hist + [End]) == []
  {
    EndAppended(hist);
  }

  lemma {:induction false} NewlineKeepsData(pc: Pc, hist: seq<Call>, data: string, sent: seq<string>, n: nat)
    requires pc.Closing? && DataOk(pc, hist, data, sent)
    ensures DataOk(Closed(n), hist + [End], data + "\n", sent)
    ensures OpenTexts(hist + [End]) == []
  {
    var rest, body := Records(hist)[|sent|..], RecordText(OpenTexts(hist));
    RecordsSince(hist, |sent|);
    NewlineBytes(rest, body);
    var bytes := Flat(rest) + body;
    assert bytes + "" == bytes;
    assert ((bytes + "\n") + "") + "" == bytes + "\n";
  }

  lemma {:induction false} TextKeepsShape(c: Call, hist: seq<Call>)
    requires ThreadShapeOk(Thread(Headed(c), hist))
    ensures ThreadShapeOk(Thread(Leaving(0), hist + [c]))
  {
    var longer := hist + [c];
    assert forall i :: 0 <= i < |hist| ==> longer[i] == hist[i];
    assert longer[|hist|] == c;
  }

  lemma {:induction false} TextKeepsBracket(c: Call, open: nat, e: Entry, t: Tid, backend: bool, data: string)
    requires BracketOk(Headed(c), open, e, t, backend)
    ensures !backend && BracketOk(Leaving(0), open + 1, e.(data := data), t, backend)
  {
  }

  lemma {:induction false} EntryAfterText(hist: seq<Call>, e: Entry, t: Tid, sent: seq<string>)
    requires DataOk(Leaving(0), hist, e.data, sent) && e.start == 0
    requires BracketOk(Leaving(0), |OpenTexts(hist)|, e, t, false)
    ensures EntryOk(Thread(Leaving(0), hist), e, t, sent, false, false)
  {
  }

  lemma {:induction false} WithinKeepsText(th: Thread, c: Call, e: Entry, t: Tid, now: int,
        sent: seq<string>, backend: bool, flushing: bool)
    requires WellKept(th, e, t, sent, backend, flushing)
    requires th.pc == Headed(c)
    ensures var p := Within(th, e, Logger(t), now);
            WellKept(p.0, p.1, t, sent, backend, flushing)
  {
    var hist, data := th.hist + [c], e.data + c.str;
    assert th == Thread(Headed(c), th.hist) && c.Text?;
    TextKeepsData(c, th.hist, e.data, sent);
    TextKeepsShape(c, th.hist);
    TextKeepsBracket(c, |OpenTexts(th.hist)|, e, t, backend, data);
    EntryAfterText(hist, e.(data := data), t, sent);
    assert Within(th, e, Logger(t), now) == (Thread(Leaving(0), hist), e.(data := data));
  }

  lemma {:induction false} WithinKeepsNewline(th: Thread, e: Entry, t: Tid, now: int, sent: seq<string>,
        backend: bool, flushing: bool)
    requires WellKept(th, e, t, sent, backend, flushing)
    requires th.pc.Closing?
    ensures var p := Within(th, e, Logger(t), now);
            WellKept(p.0, p.1, t, sent, backend, flushing)
  {
    NewlineKeepsData(th.pc, th.hist, e.data, sent, th.pc.n);
  }

  predicate OnOwnEntry(pc: Pc) {
    pc.WantLock? || pc.Locked? || pc.Counted? || pc.Headed? || pc.Closing? || pc.Closed? || (pc.Leaving? && pc.n > 0)
  }

  lemma {:induction false} WithinKeeps(th: Thread, e: Entry, t: Tid, now: int, sent: seq<string>,
        backend: bool, flushing: bool)
    requires WellKept(th, e, t, sent, backend, flushing)
    requires OnOwnEntry(th.pc) && (th.pc.WantLock? ==> Lockable(e, Logger(t)))
    ensures var p := Within(th, e, Logger(t), now);
            WellKept(p.0, p.1, t, sent, backend, flushing)
  {
    if th.pc.Counted? {
      WithinKeepsHeader(th, e, t, now, sent, backend, flushing);
    } else if th.pc.Headed? {
      WithinKeepsText(th, th.pc.c, e, t, now, sent, backend, flushing);
    } else if th.pc.Closing? {
      WithinKeepsNewline(th, e, t, now, sent, backend, flushing);
    } else {
      WithinKeepsSilent(th, e, t, now, sent, backend, flushing);
    }
  }

  lemma {:induction false} WithinStepKeepsSelf(s: State, t: Tid)
    requires StepReady(s, t) && ThreadOk(s, t) && OnOwnEntry(s.threads[t].pc)
    ensures ThreadOk(DoStep(s, t), t)
  {
    var th := s.threads[t];
    var p := Within(th, s.entries[t], Logger(t), s.now);
    WithinKeeps(th, s.entries[t], t, s.now, Of(s.flushed, t), BackendHolds(s, t), Flushing(s, t));
    var s' := DoStep(s, t);
    assert s' == s.(threads := s.threads[t := p.0], entries := s.entries[t := p.1]);
  }

  lemma {:induction false} InitKeepsSelf(s: State, t: Tid)
    requires StepReady(s, t) && ThreadOk(s, t) && s.threads[t].pc.Init?
    ensures ThreadOk(DoStep(s, t), t)
  {
    var h := s.threads[t].hist;
    var s' := DoStep(s, t);
    assert s'.threads[t] == Thread(Inited(s.threads[t].pc.c), h) && s'.entries[t] == Fresh(s.now);
    assert Records(h)[|Of(s.flushed, t)|..] == [];
  }

  /** Two places at which a thread's entry must look the same. */
  predicate SamePlace(pc: Pc, pc': Pc, known: bool) {
    && PcOk(pc', 0)
    && (pc.Idle? || pc.WantRead? || pc.Check? || pc.WantWrite? || InWindow(pc) || pc == Leaving(0))
    && (pc'.Idle? || pc'.WantRead? || pc'.Check? || InWindow(pc') || pc'.WantLock?
        || (!known && (pc'.WantWrite? || pc'.Init?)))
    && (InWindow(pc') ==> InWindow(pc))
    && (!known ==> MayLackEntry(pc'))
  }

  /** The lines that only move the program counter and the map lock. */
  lemma {:induction false} OutsideFrame(s: State, t: Tid)
    requires StepReady(s, t) && !OnOwnEntry(s.threads[t].pc) && !s.threads[t].pc.Init?
    requires s.threads[t].pc.WantReadAgain? ==> t in s.entries
    requires !s.threads[t].pc.Idle? && !s.threads[t].pc.Leaving? ==> HasHead(s.threads[t].pc.c)
    ensures var s' := DoStep(s, t);
            && s'.entries == s.entries && s'.back == s.back && s'.flushed == s.flushed
            && s'.threads[t] == s.threads[t].(pc := s'.threads[t].pc)
            && (SamePlace(s.threads[t].pc, s'.threads[t].pc, t in s.entries)
                || (InWindow(s.threads[t].pc) && t !in s.entries)
                || (s.threads[t].pc.WantWrite? && t in s.entries))
  {
  }

  lemma {:induction false} SamePlaceKeeps(s: State, s': State, t: Tid)
    requires t in s.threads && t in s'.threads && ThreadOk(s, t)
    requires s'.entries == s.entries && s'.back == s.back && s'.flushed == s.flushed
    requires s'.threads[t] == s.threads[t].(pc := s'.threads[t].pc)
    requires SamePlace(s.threads[t].pc, s'.threads[t].pc, t in s.entries)
    ensures ThreadOk(s', t)
  {
    var th, th' := s.threads[t], s'.threads[t];
    var open := |OpenTexts(th.hist)|;
    assert PcOk(th'.pc, open);
    if t in s.entries {
      var e := s.entries[t];
      assert BracketOk(th'.pc, open, e, t, BackendHolds(s, t));
      assert DataOk(th'.pc, th.hist, e.data, Of(s.flushed, t));
    }
  }

  lemma {:induction false} OutsideStepKeepsSelf(s: State, t: Tid)
    requires StepReady(s, t) && ThreadOk(s, t) && !OnOwnEntry(s.threads[t].pc) && !s.threads[t].pc.Init?
    requires s.threads[t].pc.WantReadAgain? ==> t in s.entries
    ensures ThreadOk(DoStep(s, t), t)
  {
    OutsideFrame(s, t);
    SamePlaceKeeps(s, DoStep(s, t), t);
  }

  /** While the backend holds t's lock, t cannot touch its entry. */
  lemma {:induction false} HeldEntryUntouched(s: State, t: Tid)
    requires StepReady(s, t) && ThreadOk(s, t) && BackendHolds(s, t)
    ensures !OnOwnEntry(s.threads[t].pc) && !s.threads[t].pc.Init?
  {
  }

  lemma {:induction false} StepKeepsBack(s: State, t: Tid)
    requires StepReady(s, t) && ThreadOk(s, t) && BackOk(s) && s.entries.Keys <= s.threads.Keys
    ensures BackOk(DoStep(s, t)) && PartlyOut(DoStep(s, t)) == PartlyOut(s)
  {
    StepFrame(s, t);
    if BackendHolds(s, t) {
      HeldEntryUntouched(s, t);
      OutsideFrame(s, t);
    }
  }

  lemma {:induction false} StepKeepsInv(s: State, t: Tid)
    requires Inv(s) && StepReady(s, t)
    ensures Inv(DoStep(s, t))
  {
    var s' := DoStep(s, t);
    assert ThreadOk(s, t);
    StepKeepsLocks(s, t);
    StepFrame(s, t);
    StepKeepsSelf(s, t);
    forall u | u in s'.threads ensures ThreadOk(s', u) {
      if u != t {
        assert ThreadOk(s, u);
        ThreadOkLocal(s, s', u);
      }
    }
    StepKeepsBack(s, t);
  }

  lemma {:induction false} StepKeepsSelf(s: State, t: Tid)
    requires StepReady(s, t) && ThreadOk(s, t)
    ensures ThreadOk(DoStep(s, t), t)
  {
    if OnOwnEntry(s.threads[t].pc) {
      WithinStepKeepsSelf(s, t);
    } else if s.threads[t].pc.Init? {
      InitKeepsSelf(s, t);
    } else {
      OutsideStepKeepsSelf(s, t);
    }
  }

  // ------------------------------------------------------------------ steps of the backend

  /** A step of the backend on t's entry concerns no other thread. */
  ghost predicate Concerns(s: State, s': State, t: Tid) {
    && s'.threads == s.threads
    && (forall u :: u != t ==>
          (u in s'.entries <==> u in s.entries) && (u in s.entries ==> s'.entries[u] == s.entries[u]))
    && (forall u :: u != t ==> Of(s'.flushed, u) == Of(s.flushed, u))
    && (forall u :: u != t ==> BackendHolds(s', u) == BackendHolds(s, u) && Flushing(s', u) == Flushing(s, u))
  }

  lemma {:induction false} OthersKept(s: State, s': State, t: Tid)
    requires AllOk(s) && Concerns(s, s', t)
    requires t in s.threads ==> ThreadOk(s', t)
    ensures AllOk(s')
  {
    forall u | u in s.threads && u != t ensures ThreadOk(s', u) {
      ThreadOkLocal(s, s', u);
    }
  }

  lemma {:induction false} OnEntryLock(s: State)
    requires BackReady(s) && !Moves(s.back.pc)
    ensures var s' := OnEntry(s);
            && s'.readers == s.readers && s'.writer == s.writer && ReadsAt(s'.back.pc)
            && s'.threads == s.threads && s'.destructor == s.destructor
  {
  }

  lemma {:induction false} TakeKeepsLocks(s: State)
    requires LocksOk(s) && BackReady(s) && TakesLock(s.back.pc)
    ensures LocksOk(Take(s))
  {
    assert Backend in s.readers <==> Reading(s, Backend);
    assert s.writer == Some(Backend) <==> Writing(s, Backend);
    LocksLocal(s, Take(s), Backend);
  }

  lemma {:induction false} LeaveKeepsLocks(s: State)
    requires LocksOk(s) && BackReady(s) && DropsLock(s.back.pc)
    ensures LocksOk(Leave(s))
  {
    assert Backend in s.readers <==> Reading(s, Backend);
    assert s.writer == Some(Backend) <==> Writing(s, Backend);
    LocksLocal(s, Leave(s), Backend);
  }

  lemma {:induction false} RestKeepsLocks(s: State)
    requires LocksOk(s) && BackReady(s) && !TakesLock(s.back.pc) && !DropsLock(s.back.pc)
    ensures LocksOk(DoBack(s))
  {
    assert Backend in s.readers <==> Reading(s, Backend);
    assert s.writer == Some(Backend) <==> Writing(s, Backend);
    if !Moves(s.back.pc) {
      OnEntryLock(s);
    }
    LocksLocal(s, DoBack(s), Backend);
  }

  lemma {:induction false} BackKeepsLocks(s: State)
    requires LocksOk(s) && BackReady(s)
    ensures LocksOk(DoBack(s))
  {
    if TakesLock(s.back.pc) {
      TakeKeepsLocks(s);
    } else if DropsLock(s.back.pc) {
      LeaveKeepsLocks(s);
    } else {
      RestKeepsLocks(s);
    }
  }

  lemma {:induction false} BackFrame(s: State)
    requires BackReady(s)
    ensures DoBack(s).threads == s.threads
  {
  }

  lemma {:induction false} LockSelf(s: State, s': State, t: Tid)
    requires t in s.threads && t in s.entries && ThreadOk(s, t)
    requires !BackendHolds(s, t) && Lockable(s.entries[t], Backend)
    requires s'.threads == s.threads && s'.flushed == s.flushed
    requires t in s'.entries && s'.entries[t] == Lock(s.entries[t], Backend)
    requires BackendHolds(s', t) && !Flushing(s', t)
    ensures ThreadOk(s', t)
  {
  }

  lemma {:induction false} LockFrame(s: State)
    requires BackReady(s) && s.back.pc.WantEntry?
    ensures var t := s.back.pc.t;
            DoBack(s) == s.(entries := s.entries[t := Lock(s.entries[t], Backend)],
                            back := s.back.(pc := Have(t, s.back.pc.todo)))
  {
  }

  lemma {:induction false} LockEntryRest(s: State)
    requires Rest(s) && BackReady(s) && s.back.pc.WantEntry?
    ensures Rest(DoBack(s))
  {
    LockFrame(s);
  }

  lemma {:induction false} LockEntrySelf(s: State)
    requires AllOk(s) && Rest(s) && BackReady(s) && s.back.pc.WantEntry?
    ensures ThreadOk(DoBack(s), s.back.pc.t)
  {
    LockFrame(s);
    LockSelf(s, DoBack(s), s.back.pc.t);
  }

  lemma {:induction false} LockConcerns(s: State)
    requires BackReady(s) && s.back.pc.WantEntry?
    ensures Concerns(s, DoBack(s), s.back.pc.t)
  {
    LockFrame(s);
  }

  lemma {:induction false} LockEntryKeeps(s: State)
    requires AllOk(s) && Rest(s) && BackReady(s) && s.back.pc.WantEntry?
    ensures Rest(DoBack(s)) && AllOk(DoBack(s))
  {
    LockEntryRest(s);
    LockEntrySelf(s);
    LockConcerns(s);
    OthersKept(s, DoBack(s), s.back.pc.t);
  }

  lemma {:induction false} UnlockSelf(s: State, s': State, t: Tid)
    requires t in s.threads && t in s.entries && ThreadOk(s, t) && BackendHolds(s, t) && !Flushing(s, t)
    requires s'.threads == s.threads && s'.flushed == s.flushed
    requires t in s'.entries && s'.entries[t] == Unlock(s.entries[t])
    requires !BackendHolds(s', t) && !Flushing(s', t)
    ensures ThreadOk(s', t)
  {
  }

  lemma {:induction false} ReleaseFrame(s: State)
    requires BackReady(s) && s.back.pc.Release?
    ensures var t := s.back.pc.t;
            DoBack(s) == s.(entries := s.entries[t := Unlock(s.entries[t])],
                            back := s.back.(pc := Scan(s.back.pc.todo)))
  {
  }

  lemma {:induction false} ReleaseRest(s: State)
    requires Rest(s) && BackReady(s) && s.back.pc.Release?
    ensures Rest(DoBack(s))
  {
    ReleaseFrame(s);
  }

  lemma {:induction false} ReleaseSelf(s: State)
    requires AllOk(s) && Rest(s) && BackReady(s) && s.back.pc.Release?
    ensures ThreadOk(DoBack(s), s.back.pc.t)
  {
    ReleaseFrame(s);
    UnlockSelf(s, DoBack(s), s.back.pc.t);
  }

  lemma {:induction false} ReleaseConcerns(s: State)
    requires BackReady(s) && s.back.pc.Release?
    ensures Concerns(s, DoBack(s), s.back.pc.t)
  {
    ReleaseFrame(s);
  }

  lemma {:induction false} ReleaseKeeps(s: State)
    requires AllOk(s) && Rest(s) && BackReady(s) && s.back.pc.Release?
    ensures Rest(DoBack(s)) && AllOk(DoBack(s))
  {
    ReleaseRest(s);
    ReleaseSelf(s);
    ReleaseConcerns(s);
    OthersKept(s, DoBack(s), s.back.pc.t);
  }

  /** The backend's test of one buffer changes nothing but the backend. */
  lemma {:induction false} HaveFrame(s: State)
    requires BackReady(s) && s.back.pc.Have?
    ensures var s' := DoBack(s); var t := s.back.pc.t;
            && s' == s.(back := s'.back)
            && (s'.back.pc == Flush(t, s.back.pc.todo) || s'.back.pc == Release(t, s.back.pc.todo))
            && (s'.back.remove == s.back.remove
                || (s'.back.remove == s.back.remove + {t} && s.entries[t].time + s.expired < s.now))
  {
  }

  lemma {:induction false} HaveSelf(s: State, s': State, t: Tid)
    requires t in s.threads && t in s.entries && ThreadOk(s, t) && BackendHolds(s, t) && !s.back.pc.Flush?
    requires s' == s.(back := s'.back) && BackendHolds(s', t)
    ensures ThreadOk(s', t)
  {
    assert s.entries[t].start == 0;
  }

  lemma {:induction false} HaveKeepsSelf(s: State, s': State, t: Tid)
    requires AllOk(s) && Rest(s) && BackReady(s) && s.back.pc.Have? && t == s.back.pc.t
    requires s'.threads == s.threads && s' == DoBack(s)
    ensures ThreadOk(s', t)
  {
    HaveFrame(s);
    assert ThreadOk(s, t);
    HaveSelf(s, s', t);
  }

  lemma {:induction false} HaveConcerns(s: State)
    requires BackReady(s) && s.back.pc.Have?
    ensures Concerns(s, DoBack(s), s.back.pc.t)
  {
    HaveFrame(s);
  }

  lemma {:induction false} HaveKeeps(s: State)
    requires AllOk(s) && Rest(s) && BackReady(s) && s.back.pc.Have?
    ensures Rest(DoBack(s)) && AllOk(DoBack(s))
  {
    HaveRest(s);
    HaveFrame(s);
    HaveKeepsSelf(s, DoBack(s), s.back.pc.t);
    HaveConcerns(s);
    OthersKept(s, DoBack(s), s.back.pc.t);
  }

  lemma {:induction false} HavePartlyOut(s: State)
    requires AllOk(s) && Rest(s) && BackReady(s) && s.back.pc.Have?
    ensures PartlyOut(s) == "" && PartlyOut(DoBack(s)) == ""
  {
    HaveFrame(s);
    assert ThreadOk(s, s.back.pc.t);
    var e := s.entries[s.back.pc.t];
    assert e.start == 0 && e.data[..0] == "";
  }

  lemma {:induction false} HaveRest(s: State)
    requires AllOk(s) && Rest(s) && BackReady(s) && s.back.pc.Have?
    ensures Rest(DoBack(s))
  {
    HaveFrame(s);
    HavePartlyOut(s);
  }

  lemma {:induction false} FlushedData(s: State, t: Tid)
    requires t in s.threads && t in s.entries && ThreadOk(s, t) && BackendHolds(s, t)
    ensures s.entries[t].data == Flat(Unsent(s, t))
    ensures Of(s.flushed, t) + Unsent(s, t) == Records(s.threads[t].hist)
    ensures OpenTexts(s.threads[t].hist) == []
  {
    assert OwnDepth(s.threads[t].pc, |OpenTexts(s.threads[t].hist)|) == 0;
    var x := Flat(Unsent(s, t));
    assert x + "" == x;
  }

  lemma {:induction false} NothingLeft(pc: Pc, hist: seq<Call>)
    requires OpenTexts(hist) == [] && HeadInFlight(pc, []) == ""
    ensures DataOk(pc, hist, "", Records(hist))
  {
    assert Records(hist)[|Records(hist)|..] == [];
  }

  lemma {:induction false} FlushSelf(s: State)
    requires AllOk(s) && Rest(s) && BackReady(s) && s.back.pc.Flush?
    ensures ThreadOk(DoBack(s), s.back.pc.t)
  {
    var t := s.back.pc.t;
    var th := s.threads[t];
    var s' := DoBack(s);
    assert ThreadOk(s, t);
    FlushFrame(s);
    FlushedData(s, t);
    TaggedOf(s.flushed, t, Unsent(s, t), t);
    assert Of(s'.flushed, t) == Records(th.hist);
    NothingLeft(th.pc, th.hist);
  }

  lemma {:induction false} FlushFrame(s: State)
    requires BackReady(s) && s.back.pc.Flush? && s.back.pc.t in s.threads
    ensures var s' := DoBack(s); var t := s.back.pc.t;
            && s'.threads == s.threads && s'.output == s.output
            && s'.entries == s.entries[t := s.entries[t].(data := "", start := 0)]
            && s'.flushed == s.flushed + Tagged(t, Unsent(s, t))
            && s'.back.pc == Release(t, s.back.pc.todo) && s'.back.remove == s.back.remove
  {
  }

  lemma {:induction false} FlushOutput(s: State)
    requires s.output == Stream(s.flushed) + PartlyOut(s) && BackReady(s)
    requires s.back.pc.Flush? && s.back.pc.t in s.threads && ThreadOk(s, s.back.pc.t)
    ensures DoBack(s).output == Stream(DoBack(s).flushed) + PartlyOut(DoBack(s))
  {
    var s' := DoBack(s);
    var t := s.back.pc.t;
    FlushFrame(s);
    FlushedData(s, t);
    TaggedOf(s.flushed, t, Unsent(s, t), t);
    var e := s.entries[t];
    assert e.data[..e.start] == e.data && PartlyOut(s) == e.data && PartlyOut(s') == "";
    assert Stream(s'.flushed) + "" == Stream(s'.flushed);
  }

  lemma {:induction false} TaggedKnown(flushed: seq<(Tid, string)>, t: Tid, rs: seq<string>, threads: map<Tid, Thread>)
    requires Known(flushed, threads) && t in threads
    ensures Known(flushed + Tagged(t, rs), threads)
  {
    if rs == [] {
      assert flushed + Tagged(t, rs) == flushed;
    } else {
      var p := rs[..|rs| - 1];
      TaggedKnown(flushed, t, p, threads);
      assert flushed + Tagged(t, rs) == (flushed + Tagged(t, p)) + [(t, rs[|rs| - 1])];
    }
  }

  lemma {:induction false} FlushRest(s: State)
    requires AllOk(s) && Rest(s) && BackReady(s) && s.back.pc.Flush?
    ensures Rest(DoBack(s))
  {
    FlushFrame(s);
    FlushOutput(s);
    TaggedKnown(s.flushed, s.back.pc.t, Unsent(s, s.back.pc.t), s.threads);
    assert BackOk(DoBack(s));
  }

  lemma {:induction false} FlushConcerns(s: State)
    requires BackReady(s) && s.back.pc.Flush? && s.back.pc.t in s.threads
    ensures Concerns(s, DoBack(s), s.back.pc.t)
  {
    var t := s.back.pc.t;
    FlushFrame(s);
    forall u ensures u != t ==> Of(DoBack(s).flushed, u) == Of(s.flushed, u) {
      TaggedOf(s.flushed, t, Unsent(s, t), u);
    }
  }

  lemma {:induction false} FlushKeeps(s: State)
    requires AllOk(s) && Rest(s) && BackReady(s) && s.back.pc.Flush?
    ensures Rest(DoBack(s)) && AllOk(DoBack(s))
  {
    FlushRest(s);
    FlushSelf(s);
    FlushConcerns(s);
    OthersKept(s, DoBack(s), s.back.pc.t);
  }

  /** The backend's lines that only move its program counter, its lists and the map lock. */
  lemma {:induction false} MoveFrame(s: State)
    requires BackReady(s) && Moves(s.back.pc)
    ensures var s' := DoBack(s);
            && s'.entries == s.entries && s'.threads == s.threads && s'.flushed == s.flushed && s'.output == s.output
            && (s'.back.pc.Scan? ==> s'.back.pc.todo == s.entries.Keys)
            && (s'.back.pc.Erase? ==> s'.back.pc.todo == s.back.remove)
            && (s'.back.remove == s.back.remove || s'.back.remove == {})
            && Moves(s'.back.pc)
            && (s'.back.pc.Exited? ==> s'.stop)
  {
  }

  lemma {:induction false} MoveKeeps(s: State)
    requires AllOk(s) && Rest(s) && BackReady(s) && Moves(s.back.pc)
    ensures Rest(DoBack(s)) && AllOk(DoBack(s))
  {
    var s' := DoBack(s);
    MoveFrame(s);
    forall u | u in s.threads ensures ThreadOk(s', u) {
      ThreadOkLocal(s, s', u);
    }
  }

  lemma {:induction false} BackKeepsInv(s: State)
    requires Inv(s) && BackReady(s)
    ensures Inv(DoBack(s))
  {
    BackKeepsLocks(s);
    BackFrame(s);
    var pc := s.back.pc;
    if pc.WantEntry? {
      LockEntryKeeps(s);
    } else if pc.Release? {
      ReleaseKeeps(s);
    } else if pc.Have? {
      HaveKeeps(s);
    } else if pc.Flush? {
      FlushKeeps(s);
    } else {
      MoveKeeps(s);
    }
  }

  lemma {:induction false} RecordsNonempty(h: seq<Call>)
    ensures forall i :: 0 <= i < |Records(h)| ==> Records(h)[i] != ""
  {
    if h != [] {
      RecordsNonempty(h[..|h| - 1]);
    }
  }

  lemma {:induction false} EmptyFlat(rs: seq<string>)
    requires Flat(rs) == "" && forall i :: 0 <= i < |rs| ==> rs[i] != ""
    ensures rs == []
  {
    if rs != [] {
      assert false;
    }
  }

  /** An empty buffer means that all its thread logged has been flushed. */
  lemma {:induction false} EmptyMeansSent(s: State, t: Tid)
    requires t in s.threads && t in s.entries && ThreadOk(s, t) && s.entries[t].data == ""
    ensures OpenTexts(s.threads[t].hist) == [] && Of(s.flushed, t) == Records(s.threads[t].hist)
  {
    var h := s.threads[t].hist;
    var recs := Records(h);
    var rest := recs[|Of(s.flushed, t)|..];
    if OpenTexts(h) != [] {
      OpenMeansText(s, t);
    }
    assert Flat(rest) == "";
    RecordsNonempty(h);
    EmptyFlat(rest);
    assert recs == Of(s.flushed, t) + rest;
  }

  /** Safe expiry: an entry the backend erases has no holder of its lock, no open record,
      no unflushed byte and no thread about to use it. */
  lemma {:induction false} DropIsSafe(s: State, t: Tid)
    requires Inv(s) && Ready(s, Drop(t)) && t !in Do(s, Drop(t)).entries && !Strands(s, Do(s, Drop(t)))
    ensures t in s.threads && MayLackEntry(s.threads[t].pc)
    ensures s.entries[t].holder == None && s.entries[t].depth == 0
    ensures OpenTexts(s.threads[t].hist) == [] && Of(s.flushed, t) == Records(s.threads[t].hist)
  {
    assert ThreadOk(s, t);
    EmptyMeansSent(s, t);
    assert Writing(s, Backend);
    assert s.writer == Some(Backend);
    assert Logger(t) !in s.readers;
    assert !Reading(s, Logger(t));
    assert !Writing(s, Logger(t));
  }

  lemma {:induction false} DropSelf(s: State, t: Tid)
    requires Inv(s) && Ready(s, Drop(t)) && t in s.threads && !Strands(s, Do(s, Drop(t)))
    ensures ThreadOk(Do(s, Drop(t)), t)
  {
    assert ThreadOk(s, t);
    DropFrame(s, t);
    if t in Do(s, Drop(t)).entries {
      ThreadOkLocal(s, Do(s, Drop(t)), t);
    } else {
      DropIsSafe(s, t);
    }
  }

  lemma {:induction false} DropRest(s: State, t: Tid)
    requires Rest(s) && Ready(s, Drop(t))
    ensures Rest(Do(s, Drop(t)))
  {
  }

  lemma {:induction false} DropFrame(s: State, t: Tid)
    requires Ready(s, Drop(t))
    ensures Concerns(s, Do(s, Drop(t)), t)
    ensures var s' := Do(s, Drop(t));
            && s'.flushed == s.flushed
            && (t in s'.entries ==> s'.entries[t] == s.entries[t])
            && (forall u :: !BackendHolds(s', u) && !BackendHolds(s, u) && !Flushing(s', u) && !Flushing(s, u))
  {
  }

  lemma {:induction false} DropKeepsAll(s: State, t: Tid)
    requires Inv(s) && Ready(s, Drop(t)) && !Strands(s, Do(s, Drop(t)))
    ensures AllOk(Do(s, Drop(t)))
  {
    DropFrame(s, t);
    if t in s.threads {
      DropSelf(s, t);
    }
    OthersKept(s, Do(s, Drop(t)), t);
  }

  lemma {:induction false} DropKeepsInv(s: State, t: Tid)
    requires Inv(s) && Ready(s, Drop(t)) && !Strands(s, Do(s, Drop(t)))
    ensures Inv(Do(s, Drop(t)))
  {
    DropKeepsAll(s, t);
    DropRest(s, t);
    DropKeepsLocks(s, t);
  }

  lemma {:induction false} DropKeepsLocks(s: State, t: Tid)
    requires LocksOk(s) && Ready(s, Drop(t))
    ensures LocksOk(Do(s, Drop(t)))
  {
    assert Writing(s, Backend);
    assert s.writer == Some(Backend);
    LocksLocal(s, Do(s, Drop(t)), Backend);
  }

  lemma {:induction false} AcceptSelf(s: State, n: nat)
    requires Inv(s) && Ready(s, Accept(n))
    ensures ThreadOk(Do(s, Accept(n)), s.back.pc.t)
  {
    assert ThreadOk(s, s.back.pc.t);
  }

  lemma {:induction false} AcceptRest(s: State, n: nat)
    requires Rest(s) && Ready(s, Accept(n)) && LocksOk(s)
    ensures Rest(Do(s, Accept(n))) && LocksOk(Do(s, Accept(n)))
  {
    var s' := Do(s, Accept(n));
    var e := s.entries[s.back.pc.t];
    assert Backend in s.readers <==> Reading(s, Backend);
    assert s.writer == Some(Backend) <==> Writing(s, Backend);
    LocksLocal(s, s', Backend);
    assert e.data[..e.start + n] == e.data[..e.start] + e.data[e.start..e.start + n];
    Assoc(Stream(s.flushed), e.data[..e.start], e.data[e.start..e.start + n]);
  }

  lemma {:induction false} AcceptConcerns(s: State, n: nat)
    requires Ready(s, Accept(n))
    ensures Concerns(s, Do(s, Accept(n)), s.back.pc.t)
  {
  }

  lemma {:induction false} AcceptKeepsInv(s: State, n: nat)
    requires Inv(s) && Ready(s, Accept(n))
    ensures Inv(Do(s, Accept(n)))
  {
    AcceptRest(s, n);
    AcceptSelf(s, n);
    AcceptConcerns(s, n);
    OthersKept(s, Do(s, Accept(n)), s.back.pc.t);
  }
}
