/** The promises of the logger, over every run of any number of threads. */
module LoggerTheorems {
  import opened Common
  import opened LogRecords
  import opened LoggerMachine
  import opened LoggerInvariant

  /** Steps that change no thread, no entry and nothing that was written. */
  lemma {:induction false} AsideKeepsAll(s: State, s': State)
    requires AllOk(s) && s'.threads == s.threads && s'.entries == s.entries && s'.flushed == s.flushed
    requires forall u :: BackendHolds(s', u) == BackendHolds(s, u) && Flushing(s', u) == Flushing(s, u)
    ensures AllOk(s')
  {
    forall u | u in s.threads ensures ThreadOk(s', u) {
      ThreadOkLocal(s, s', u);
    }
  }

  lemma {:induction false} DestroyKeepsLocks(s: State, a: Action)
    requires LocksOk(s) && Ready(s, a) && (a.Destroy? || a.DestroyStep?)
    ensures LocksOk(Do(s, a))
  {
    assert Destructor in s.readers <==> Reading(s, Destructor);
    assert s.writer == Some(Destructor) <==> Writing(s, Destructor);
    LocksLocal(s, Do(s, a), Destructor);
  }

  lemma {:induction false} DestroyFrame(s: State, a: Action)
    requires Ready(s, a) && (a.Destroy? || a.DestroyStep?)
    ensures var s' := Do(s, a);
            s' == s.(destructor := s'.destructor, readers := s'.readers, stop := s'.stop) && (s.stop ==> s'.stop)
  {
  }

  lemma {:induction false} DestroyKeepsInv(s: State, a: Action)
    requires Inv(s) && Ready(s, a) && (a.Destroy? || a.DestroyStep?)
    ensures Inv(Do(s, a))
  {
    DestroyKeepsLocks(s, a);
    DestroyFrame(s, a);
    AsideKeepsAll(s, Do(s, a));
  }

  lemma {:induction false} BeginKeepsAll(s: State, t: Tid, c: Call)
    requires AllOk(s) && Ready(s, Begin(t, c))
    ensures AllOk(Do(s, Begin(t, c)))
  {
    var s' := Do(s, Begin(t, c));
    assert ThreadOk(s, t);
    SamePlaceKeeps(s, s', t);
    forall u | u in s.threads && u != t ensures ThreadOk(s', u) {
      ThreadOkLocal(s, s', u);
    }
  }

  lemma {:induction false} BeginFrame(s: State, t: Tid, c: Call)
    requires Ready(s, Begin(t, c))
    ensures Do(s, Begin(t, c)) == s.(threads := s.threads[t := s.threads[t].(pc := WantRead(c))])
  {
  }

  lemma {:induction false} BeginKeepsLocks(s: State, t: Tid, c: Call)
    requires LocksOk(s) && Ready(s, Begin(t, c))
    ensures LocksOk(Do(s, Begin(t, c)))
  {
    BeginFrame(s, t, c);
    assert Logger(t) in s.readers <==> Reading(s, Logger(t));
    assert s.writer == Some(Logger(t)) <==> Writing(s, Logger(t));
    LocksLocal(s, Do(s, Begin(t, c)), Logger(t));
  }

  lemma {:induction false} BeginKeepsRest(s: State, t: Tid, c: Call)
    requires Rest(s) && Ready(s, Begin(t, c))
    ensures Rest(Do(s, Begin(t, c)))
  {
    BeginFrame(s, t, c);
  }

  lemma {:induction false} BeginKeepsInv(s: State, t: Tid, c: Call)
    requires Inv(s) && Ready(s, Begin(t, c))
    ensures Inv(Do(s, Begin(t, c)))
  {
    BeginKeepsAll(s, t, c);
    BeginKeepsLocks(s, t, c);
    BeginKeepsRest(s, t, c);
  }

  lemma {:induction false} AsideKeepsLocks(s: State, a: Action)
    requires LocksOk(s) && Ready(s, a) && (a.Pick? || a.Wake? || a.Clock?)
    ensures LocksOk(Do(s, a))
  {
    assert Backend in s.readers <==> Reading(s, Backend);
    assert s.writer == Some(Backend) <==> Writing(s, Backend);
    LocksLocal(s, Do(s, a), Backend);
  }

  lemma {:induction false} AsideFrame(s: State, a: Action)
    requires Ready(s, a) && (a.Pick? || a.Wake? || a.Clock?)
    ensures var s' := Do(s, a);
            && s' == s.(back := s'.back, now := s'.now)
            && s'.back == s.back.(pc := s'.back.pc)
            && (s'.back.pc == s.back.pc || s'.back.pc.WantWake?
                || (s.back.pc.Scan? && s'.back.pc.WantEntry?
                    && s'.back.pc.t in s.back.pc.todo && s'.back.pc.todo <= s.back.pc.todo))
            && (s.back.pc.Flush? || s.back.pc.Have? || s.back.pc.Release? ==> s'.back == s.back)
  {
  }

  lemma {:induction false} AsideKeepsRest(s: State, a: Action)
    requires Rest(s) && Ready(s, a) && (a.Pick? || a.Wake? || a.Clock?)
    ensures Rest(Do(s, a))
  {
    AsideFrame(s, a);
  }

  lemma {:induction false} OutsideKeepsAll(s: State, a: Action)
    requires AllOk(s) && Ready(s, a) && (a.Pick? || a.Wake? || a.Clock?)
    ensures AllOk(Do(s, a))
  {
    AsideFrame(s, a);
    AsideKeepsAll(s, Do(s, a));
  }

  lemma {:induction false} OutsideKeepsInv(s: State, a: Action)
    requires Inv(s) && Ready(s, a) && (a.Pick? || a.Wake? || a.Clock?)
    ensures Inv(Do(s, a))
  {
    AsideKeepsLocks(s, a);
    AsideKeepsRest(s, a);
    OutsideKeepsAll(s, a);
  }

  /** Every step of every actor keeps the invariant, unless it erases an entry inside its
      owner's window. */
  lemma {:induction false} DoKeepsInv(s: State, a: Action)
    requires Inv(s) && Ready(s, a) && !Strands(s, Do(s, a))
    ensures Inv(Do(s, a))
  {
    match a
    case Begin(t, c) => BeginKeepsInv(s, t, c);
    case Step(t) => StepKeepsInv(s, t);
    case Accept(n) => AcceptKeepsInv(s, n);
    case Drop(t) => DropKeepsInv(s, t);
    case BackStep => BackKeepsInv(s);
    case Destroy => DestroyKeepsInv(s, a);
    case DestroyStep => DestroyKeepsInv(s, a);
    case _ => OutsideKeepsInv(s, a);
  }

  lemma {:induction false} BackKeepsEntries(s: State)
    requires BackReady(s)
    ensures DoBack(s).entries.Keys == s.entries.Keys
  {
  }

  /** Only the line that erases takes an entry away. */
  lemma {:induction false} OnlyDropErases(s: State, a: Action, t: Tid)
    requires Ready(s, a) && t in s.entries && t !in Do(s, a).entries
    ensures a == Drop(t) && Do(s, a).threads == s.threads
  {
    if a.Step? {
      StepFrame(s, a.t);
    } else if a.BackStep? {
      BackKeepsEntries(s);
    }
  }

  lemma {:induction false} StrandingBreaks(s: State, t: Tid)
    requires t in s.threads && InWindow(s.threads[t].pc) && t !in s.entries
    ensures !ThreadOk(s, t) && !Inv(s)
  {
  }

  /** The one line that can break the invariant is the erase, and exactly then: the entry is
      one whose creator has dropped the write lock and not taken the read lock yet.  The
      creator is then left without its entry. */
  lemma {:induction false} OnlyEraseCanBreak(s: State, a: Action)
    requires Inv(s) && Ready(s, a)
    ensures Inv(Do(s, a)) <==> !(a.Drop? && a.t in s.threads && InWindow(s.threads[a.t].pc))
    ensures !Inv(Do(s, a)) ==> a.t !in Do(s, a).entries && Do(s, a).threads == s.threads
  {
    if a.Drop? && a.t in s.threads && InWindow(s.threads[a.t].pc) {
      assert ThreadOk(s, a.t);
      WindowIsEmpty(s, a.t);
      StrandingBreaks(Do(s, a), a.t);
    } else {
      if Strands(s, Do(s, a)) {
        var t :| t in s.threads && InWindow(s.threads[t].pc) && t in s.entries && t !in Do(s, a).entries;
        OnlyDropErases(s, a, t);
      }
      DoKeepsInv(s, a);
    }
  }

  lemma {:induction false} WindowIsEmpty(s: State, t: Tid)
    requires t in s.threads && t in s.entries && ThreadOk(s, t) && InWindow(s.threads[t].pc)
    ensures s.entries[t].data == ""
  {
    assert Records(s.threads[t].hist)[|Records(s.threads[t].hist)|..] == [];
  }

  lemma {:induction false} RunInv(run: seq<State>, i: nat)
    requires Undisturbed(run) && i < |run|
    ensures Inv(run[i])
  {
    if i == 0 {
      InitialInv(run[0]);
    } else {
      RunInv(run, i - 1);
      assert Next(run[i - 1], run[i - 1 + 1]) && !Strands(run[i - 1], run[i - 1 + 1]);
      var a :| Ready(run[i - 1], a) && run[i] == Do(run[i - 1], a);
      DoKeepsInv(run[i - 1], a);
    }
  }

  /** The exact condition, over whole runs: every logger that is past its lookup finds its
      entry at every moment if and only if no entry is erased inside its owner's window. */
  lemma {:induction false} EntriesStayExactly(run: seq<State>)
    requires IsRun(run)
    ensures (forall i: nat, t: Tid ::
               i < |run| && t in run[i].threads && !MayLackEntry(run[i].threads[t].pc) ==> t in run[i].entries)
       <==> Undisturbed(run)
  {
    if Undisturbed(run) {
      forall i: nat, t: Tid | i < |run| && t in run[i].threads && !MayLackEntry(run[i].threads[t].pc)
        ensures t in run[i].entries
      {
        RunInv(run, i);
        assert ThreadOk(run[i], t);
      }
    } else {
      var i :| 0 <= i < |run| - 1 && Strands(run[i], run[i + 1]);
      var t := StrandedNext(run[i], run[i + 1]);
    }
  }

  lemma {:induction false} StrandedNext(s: State, s': State) returns (t: Tid)
    requires Next(s, s') && Strands(s, s')
    ensures t in s'.threads && InWindow(s'.threads[t].pc) && t !in s'.entries
  {
    t :| t in s.threads && InWindow(s.threads[t].pc) && t in s.entries && t !in s'.entries;
    var a :| Ready(s, a) && s' == Do(s, a);
    OnlyDropErases(s, a, t);
  }

  /** t is between creating its entry and using it, and the entry is gone. */
  predicate Stranded(s: State, t: Tid) {
    t in s.threads && (InWindow(s.threads[t].pc) || s.threads[t].pc.WantLock?) && t !in s.entries
  }

  lemma {:induction false} StrandedStep(s: State, t: Tid)
    requires Stranded(s, t) && StepReady(s, t)
    ensures Stranded(DoStep(s, t), t)
  {
  }

  lemma {:induction false} OthersCreateNone(s: State, a: Action, t: Tid)
    requires t in s.threads && t !in s.entries && Ready(s, a) && a != Step(t) && !s.threads[t].pc.Idle?
    ensures var s' := Do(s, a); t in s'.threads && s'.threads[t] == s.threads[t] && t !in s'.entries
  {
    if a.Step? {
      StepFrame(s, a.t);
    } else if a.BackStep? {
      BackKeepsEntries(s);
      BackFrame(s);
    }
  }

  lemma {:induction false} StrandedNow(s: State, s': State, t: Tid)
    requires Stranded(s, t) && Next(s, s')
    ensures Stranded(s', t)
  {
    var a :| Ready(s, a) && s' == Do(s, a);
    if a.Step? && a.t == t {
      StrandedStep(s, t);
    } else {
      OthersCreateNone(s, a, t);
    }
  }

  /** The harm is for good: a logger whose entry was erased inside its window comes to the line
      that uses the entry, and never past it.  There the program ends: operator[] puts an entry
      of null pointers into the map, and the lock it is asked for is none.  The machine stops
      the thread at that line and leaves the map as it is. */
  lemma {:induction false} StrandedForGood(run: seq<State>, i: nat, j: nat, t: Tid)
    requires IsRun(run) && i <= j < |run| && Stranded(run[i], t)
    ensures Stranded(run[j], t)
    decreases j
  {
    if i < j {
      var k := j - 1;
      StrandedForGood(run, i, k, t);
      assert Next(run[k], run[k + 1]);
      StrandedNow(run[k], run[j], t);
    }
  }

  /** The bytes of t that are in its buffer. */
  function Buffered(s: State, t: Tid): string {
    if t in s.entries then s.entries[t].data else ""
  }

  /** Conservation and atomicity.  At every moment of every run the descriptor holds whole
      records, one after the other, except for the part written of the one buffer being
      flushed, which is a run of whole records itself; the records of each thread come in
      the order in which it made them; and what a thread logged is what was flushed of it
      followed by its buffer. */
  lemma {:induction false} RecordsArriveWhole(run: seq<State>, i: nat)
    requires Undisturbed(run) && i < |run|
    ensures run[i].output == Stream(run[i].flushed) + PartlyOut(run[i])
    ensures Known(run[i].flushed, run[i].threads)
    ensures forall t :: t in run[i].threads ==>
              && Of(run[i].flushed, t) <= Records(run[i].threads[t].hist)
              && Flat(Of(run[i].flushed, t)) + Buffered(run[i], t)
                 == Logged(run[i].threads[t].hist)
                    + HeadInFlight(run[i].threads[t].pc, OpenTexts(run[i].threads[t].hist))
    ensures run[i].back.pc.Flush? ==>
              && run[i].back.pc.t in run[i].entries && run[i].back.pc.t in run[i].threads
              && PartlyOut(run[i]) <= Buffered(run[i], run[i].back.pc.t)
              && Buffered(run[i], run[i].back.pc.t) == Flat(Unsent(run[i], run[i].back.pc.t))
  {
    var s := run[i];
    RunInv(run, i);
    forall t | t in s.threads
      ensures Of(s.flushed, t) <= Records(s.threads[t].hist)
      ensures Flat(Of(s.flushed, t)) + Buffered(s, t)
              == Logged(s.threads[t].hist) + HeadInFlight(s.threads[t].pc, OpenTexts(s.threads[t].hist))
    {
      assert ThreadOk(s, t);
      ThreadConserves(s, t);
    }
    if s.back.pc.Flush? {
      FlushedData(s, s.back.pc.t);
    }
  }

  lemma {:induction false} ThreadConserves(s: State, t: Tid)
    requires t in s.threads && ThreadOk(s, t)
    ensures Flat(Of(s.flushed, t)) + Buffered(s, t)
            == Logged(s.threads[t].hist) + HeadInFlight(s.threads[t].pc, OpenTexts(s.threads[t].hist))
  {
    var h := s.threads[t].hist;
    var sent := Of(s.flushed, t);
    var rest := Records(h)[|sent|..];
    assert sent + rest == Records(h);
    FlatAppend(sent, rest);
    var open := RecordText(OpenTexts(h));
    var head := HeadInFlight(s.threads[t].pc, OpenTexts(h));
    Assoc(Flat(sent), Flat(rest), open);
    Assoc(Flat(sent), Flat(rest) + open, head);
    if t !in s.entries {
      assert rest == [];
      assert open == "" && head == "";
    }
  }

  /** The bracket: between two calls a thread holds its recursive lock exactly as often as
      it has logged texts since its last END, its counter says the same, and no other
      thread or the backend holds it. */
  lemma {:induction false} DepthMatchesCounter(run: seq<State>, i: nat, t: Tid)
    requires Undisturbed(run) && i < |run| && t in run[i].threads && t in run[i].entries
    requires run[i].threads[t].pc.Idle?
    ensures run[i].entries[t].count == |OpenTexts(run[i].threads[t].hist)|
    ensures !BackendHolds(run[i], t) ==> run[i].entries[t].depth == run[i].entries[t].count
    ensures run[i].entries[t].depth > 0 && !BackendHolds(run[i], t) ==> run[i].entries[t].holder == Some(Logger(t))
    ensures run[i].entries[t].count > 0 ==> !BackendHolds(run[i], t)
  {
    RunInv(run, i);
    assert ThreadOk(run[i], t);
  }

  /** Safe expiry: whatever entry goes belongs to a thread that is outside the logger or has
      not looked its entry up yet, with its lock free, no open record and every byte it logged
      already flushed. */
  lemma {:induction false} ExpiryIsSafe(run: seq<State>, i: nat, t: Tid)
    requires Undisturbed(run) && i < |run| - 1
    requires t in run[i].entries && t !in run[i + 1].entries
    ensures t in run[i].threads && MayLackEntry(run[i].threads[t].pc)
    ensures run[i].entries[t].holder == None
    ensures OpenTexts(run[i].threads[t].hist) == []
    ensures Flat(Of(run[i].flushed, t)) == Logged(run[i].threads[t].hist)
  {
    RunInv(run, i);
    assert Next(run[i], run[i + 1]) && !Strands(run[i], run[i + 1]);
    var a :| Ready(run[i], a) && run[i + 1] == Do(run[i], a);
    OnlyDropErases(run[i], a, t);
    DropIsSafe(run[i], t);
    LoggedAllClosed(run[i].threads[t].hist);
  }

  /** A thread that is past its lookup always finds its entry. */
  lemma {:induction false} EntryIsThere(run: seq<State>, i: nat, t: Tid)
    requires Undisturbed(run) && i < |run| && t in run[i].threads
    requires !MayLackEntry(run[i].threads[t].pc)
    ensures t in run[i].entries
  {
    RunInv(run, i);
    assert ThreadOk(run[i], t);
  }

  /** Drain on exit: when the backend leaves its loop, stop was requested, no record is
      open, every buffer is empty, and the descriptor holds exactly the completed records
      of all threads, each thread's own in order, and nothing else. */
  lemma {:induction false} ExitIsDrained(run: seq<State>, i: nat)
    requires Undisturbed(run) && i < |run|
    requires !run[i].back.pc.Exited? && Ready(run[i], BackStep) && Do(run[i], BackStep).back.pc.Exited?
    ensures var s := Do(run[i], BackStep);
            && s.stop
            && s.output == Stream(s.flushed) && Known(s.flushed, s.threads)
            && forall t :: t in s.threads ==>
                 && Buffered(s, t) == ""
                 && OpenTexts(s.threads[t].hist) == []
                 && Of(s.flushed, t) == Records(s.threads[t].hist)
                 && Logged(s.threads[t].hist) == Flat(Of(s.flushed, t))
  {
    RunInv(run, i);
    ExitOnlyFromQuiet(run[i]);
    QuietIsDrained(run[i]);
  }

  /** `_no_log` under the write lock sees all there is to see. */
  lemma {:induction false} QuietIsDrained(s: State)
    requires Inv(s) && NoLog(s) && s.back.pc.Quiet?
    ensures s.output == Stream(s.flushed)
    ensures forall t :: t in s.threads ==>
              && Buffered(s, t) == ""
              && OpenTexts(s.threads[t].hist) == []
              && Of(s.flushed, t) == Records(s.threads[t].hist)
              && Logged(s.threads[t].hist) == Flat(Of(s.flushed, t))
  {
    forall t | t in s.threads
      ensures Buffered(s, t) == "" && OpenTexts(s.threads[t].hist) == []
      ensures Of(s.flushed, t) == Records(s.threads[t].hist)
      ensures Logged(s.threads[t].hist) == Flat(Of(s.flushed, t))
    {
      assert ThreadOk(s, t);
      if t in s.entries {
        EmptyMeansSent(s, t);
      }
      LoggedAllClosed(s.threads[t].hist);
    }
    assert s.output == Stream(s.flushed) + "";
  }

  lemma {:induction false} LoggedAllClosed(h: seq<Call>)
    requires OpenTexts(h) == []
    ensures Logged(h) == Flat(Records(h))
  {
    assert Logged(h) == Flat(Records(h)) + "";
  }

  lemma {:induction false} ExitsLeaving(s: State)
    requires BackReady(s) && !s.back.pc.Exited? && DoBack(s).back.pc.Exited?
    ensures DropsLock(s.back.pc) && DoBack(s) == Leave(s)
  {
  }

  lemma {:induction false} ExitOnlyFromQuiet(s: State)
    requires BackReady(s) && !s.back.pc.Exited? && DoBack(s).back.pc.Exited?
    ensures s.back.pc.Quiet? && NoLog(s) && s.stop
    ensures DoBack(s) == s.(writer := None, back := s.back.(pc := Exited, delay := true))
  {
    ExitsLeaving(s);
  }

  // ------------------------------------------------------------------ deadlock freedom

  /** The actor is at a line that takes a lock. */
  predicate Waiting(s: State, a: Actor) {
    match a
    case Logger(t) =>
      && t in s.threads
      && var pc := s.threads[t].pc; pc.WantRead? || pc.WantReadAgain? || pc.WantWrite? || pc.WantLock?
    case Backend =>
      var pc := s.back.pc;
      pc.WantScan? || pc.WantEntry? || pc.WantErase? || pc.WantQuiet? || pc.WantWait? || pc.WantWake?
    case Destructor => s.destructor.WantStop?
  }

  /** The actor owes a step and can take it now.  A thread between two calls owes one only
      if its record is open: it will send END, and can at once if nobody writes the map.
      The backend asleep or gone owes nothing. */
  predicate CanAct(s: State, a: Actor) {
    match a
    case Logger(t) =>
      StepReady(s, t)
      || (t in s.threads && s.threads[t].pc.Idle? && OpenTexts(s.threads[t].hist) != [] && s.writer.None?)
    case Backend =>
      || (BackReady(s))
      || (s.back.pc.Scan? && s.back.pc.todo != {})
      || (s.back.pc.Erase? && s.back.pc.todo != {})
      || (s.back.pc.Flush? && s.back.pc.t in s.entries && s.entries[s.back.pc.t].start < |s.entries[s.back.pc.t].data|)
    case Destructor => Ready(s, DestroyStep)
  }

  /** x holds the lock that w is about to take. */
  predicate Blocks(s: State, x: Actor, w: Actor) {
    && Waiting(s, w)
    && match w
       case Logger(t) =>
         if s.threads[t].pc.WantLock? then t in s.entries && s.entries[t].holder == Some(x)
         else s.writer == Some(x) || (s.threads[t].pc.WantWrite? && x in s.readers)
       case Backend =>
         if s.back.pc.WantEntry? then s.back.pc.t in s.entries && s.entries[s.back.pc.t].holder == Some(x)
         else s.writer == Some(x) || ((s.back.pc.WantErase? || s.back.pc.WantQuiet?) && x in s.readers)
       case Destructor => s.writer == Some(x)
  }

  /** w is x, waits for x, or waits for someone who waits for x. */
  ghost predicate WaitsFor(s: State, w: Actor, x: Actor) {
    x == w || Blocks(s, x, w) || exists y :: Blocks(s, x, y) && Blocks(s, y, w)
  }

  lemma {:induction false} WriterCanAct(s: State, a: Actor)
    requires LocksOk(s) && s.writer == Some(a)
    ensures CanAct(s, a)
  {
    assert Writing(s, a);
  }

  /** Who holds t's recursive lock, when the backend waits for it, can act. */
  lemma {:induction false} HolderCanAct(s: State, t: Tid)
    requires Inv(s) && s.back.pc.WantEntry? && s.back.pc.t == t
    requires !Lockable(s.entries[t], Backend)
    ensures t in s.threads && CanAct(s, Logger(t)) && Blocks(s, Logger(t), Backend)
  {
    assert ThreadOk(s, t);
    assert Backend in s.readers <==> Reading(s, Backend);
    assert s.writer.None?;
    assert OwnDepth(s.threads[t].pc, |OpenTexts(s.threads[t].hist)|) > 0;
  }

  lemma {:induction false} BackendInsideCanAct(s: State)
    requires Inv(s) && Reading(s, Backend) && !s.back.pc.WantEntry?
    ensures CanAct(s, Backend)
  {
    if s.back.pc.Flush? {
      assert ThreadOk(s, s.back.pc.t);
    }
  }

  /** A reader of the map can act, or waits for a recursive lock whose holder can. */
  lemma {:induction false} ReaderCanAct(s: State, r: Actor) returns (x: Actor)
    requires Inv(s) && r in s.readers
    ensures CanAct(s, x) && (x == r || Blocks(s, x, r))
  {
    assert Reading(s, r);
    match r
    case Destructor =>
      x := Destructor;
    case Backend =>
      if s.back.pc.WantEntry? && !Lockable(s.entries[s.back.pc.t], Backend) {
        HolderCanAct(s, s.back.pc.t);
        x := Logger(s.back.pc.t);
      } else {
        x := Backend;
        if !s.back.pc.WantEntry? {
          BackendInsideCanAct(s);
        }
      }
    case Logger(t) =>
      assert ThreadOk(s, t);
      if StepReady(s, t) {
        x := Logger(t);
      } else {
        ReaderHasEntry(s, t);
        LoggerWaitsForBackend(s, t);
        BackendInsideCanAct(s);
        x := Backend;
      }
  }

  lemma {:induction false} ReaderHasEntry(s: State, t: Tid)
    requires t in s.threads && ThreadOk(s, t) && PcReads(s.threads[t].pc)
    ensures StepReady(s, t) || (s.threads[t].pc.WantLock? && t in s.entries)
  {
  }

  /** A logger can wait for its own lock only while the backend holds it. */
  lemma {:induction false} LoggerWaitsForBackend(s: State, t: Tid)
    requires t in s.threads && t in s.entries && ThreadOk(s, t) && s.threads[t].pc.WantLock? && !StepReady(s, t)
    ensures Blocks(s, Backend, Logger(t)) && Reading(s, Backend) && !s.back.pc.WantEntry?
  {
    assert BackendHolds(s, t);
  }

  /** Deadlock freedom.  Loggers take their recursive lock before the map lock, the backend
      the other way round; yet in every reachable state in which some actor waits for a
      lock, that actor can take its step, or the one it waits for can, or the one that one
      waits for: no chain of waiting is longer than two and none is a cycle.  The map lock
      prefers readers: a waiting writer blocks nobody. */
  lemma {:induction false} NoDeadlock(run: seq<State>, i: nat, w: Actor) returns (x: Actor)
    requires Undisturbed(run) && i < |run| && Waiting(run[i], w)
    ensures CanAct(run[i], x) && WaitsFor(run[i], w, x)
  {
    var s := run[i];
    RunInv(run, i);
    if CanAct(s, w) {
      x := w;
    } else if w in s.readers {
      x := ReaderCanAct(s, w);
    } else if s.writer.Some? {
      x := s.writer.value;
      WriterCanAct(s, x);
      OutsideWaitsForMap(s, w);
    } else {
      NotReadyMeansReaders(s, w);
      var r :| r in s.readers;
      ReaderBlocksWriters(s, w, r);
      x := ReaderCanAct(s, r);
    }
  }

  /** Who waits without reading the map waits for the map. */
  lemma {:induction false} OutsideWaitsForMap(s: State, w: Actor)
    requires LocksOk(s) && Waiting(s, w) && w !in s.readers && s.writer.Some?
    ensures Blocks(s, s.writer.value, w)
  {
    assert !Reading(s, w);
  }

  lemma {:induction false} ReaderBlocksWriters(s: State, w: Actor, r: Actor)
    requires LocksOk(s) && Waiting(s, w) && !CanAct(s, w) && s.writer.None? && w !in s.readers && r in s.readers
    ensures Blocks(s, r, w)
  {
    assert !Reading(s, w);
  }

  lemma {:induction false} NotReadyMeansReaders(s: State, w: Actor)
    requires LocksOk(s) && Waiting(s, w) && !CanAct(s, w) && s.writer.None? && w !in s.readers
    ensures s.readers != {}
  {
    assert !Reading(s, w);
  }
}
