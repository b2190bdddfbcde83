/** The destructor's request is seen: the backend can drain and leave. */
module LoggerExit {
  import opened Common
  import opened LogRecords
  import opened LoggerMachine
  import opened LoggerInvariant
  import opened LoggerTheorems
  import opened LoggerWitnesses
  import opened LoggerCalls

  // ------------------------------------------------------------------ the request

  lemma {:induction false} BackKeepsStop(s: State)
    requires BackReady(s)
    ensures DoBack(s).stop == s.stop && DoBack(s).destructor == s.destructor
  {
  }

  lemma {:induction false} StopStep(s: State, a: Action)
    requires Ready(s, a) && (s.destructor.Stopped? <==> s.stop)
    ensures Do(s, a).destructor.Stopped? <==> Do(s, a).stop
  {
    if a.Step? {
      StepFrame(s, a.t);
    } else if a.BackStep? {
      BackKeepsStop(s);
    }
  }

  /** In every run the stop flag is set exactly when the destructor has got as far as that. */
  lemma {:induction false} StopIsRequested(run: seq<State>, i: nat)
    requires IsRun(run) && i < |run|
    ensures run[i].destructor.Stopped? <==> run[i].stop
  {
    if i > 0 {
      var j := i - 1;
      StopIsRequested(run, j);
      assert Next(run[j], run[j + 1]);
      var a :| Ready(run[j], a) && run[i] == Do(run[j], a);
      StopStep(run[j], a);
    }
  }

  /** The destructor can always go on: it waits for nobody but a writer of the map. */
  lemma {:induction false} DestructorGoesOn(s: State)
    requires s.destructor.WantStop? && s.writer.None?
    ensures Ready(s, DestroyStep) && Ready(Do(s, DestroyStep), DestroyStep)
    ensures Do(Do(s, DestroyStep), DestroyStep).stop
  {
  }

  /** The exact condition under which the backend leaves its loop. */
  lemma {:induction false} ExitsExactly(s: State)
    requires BackReady(s) && !s.back.pc.Exited?
    ensures DoBack(s).back.pc.Exited? <==> s.back.pc.Quiet? && NoLog(s) && s.stop
  {
    if DoBack(s).back.pc.Exited? {
      ExitOnlyFromQuiet(s);
    }
  }

  // ------------------------------------------------------------------ the way out

  /** Nobody logs, no record is open, and the destructor has asked for the end. */
  ghost predicate Silent(s: State) {
    && (forall t :: t in s.threads ==> s.threads[t].pc.Idle? && OpenTexts(s.threads[t].hist) == [])
    && s.destructor.Stopped? && s.stop
  }

  lemma {:induction false} OnlyBackend(s: State)
    requires LocksOk(s) && Silent(s)
    ensures forall a :: a in s.readers ==> a == Backend && ReadsAt(s.back.pc)
    ensures s.writer.Some? ==> s.writer == Some(Backend) && WritesAt(s.back.pc)
  {
    forall a | a in s.readers ensures a == Backend && ReadsAt(s.back.pc) {
      assert Reading(s, a);
    }
    if s.writer.Some? {
      assert Writing(s, s.writer.value);
    }
  }

  lemma {:induction false} LocksAreFree(s: State)
    requires LocksOk(s) && Silent(s)
    ensures !WritesAt(s.back.pc) ==> s.writer.None?
    ensures !WritesAt(s.back.pc) && !ReadsAt(s.back.pc) ==> s.readers == {}
  {
    OnlyBackend(s);
  }

  lemma {:induction false} EntryIsFree(s: State, t: Tid)
    requires AllOk(s) && Silent(s) && t in s.threads && t in s.entries && s.back.pc.WantEntry?
    ensures Lockable(s.entries[t], Backend)
  {
    assert ThreadOk(s, t);
  }

  /** The backend's own steps, and its wakeup. */
  predicate ByBackend(a: Action) {
    a.Pick? || a.Accept? || a.Drop? || a.BackStep? || a.Wake?
  }

  lemma {:induction false} BackendCanGo(s: State) returns (a: Action)
    requires Inv(s) && Silent(s) && !s.back.pc.Exited?
    ensures Ready(s, a) && ByBackend(a)
    ensures a.Accept? ==> a.n == |s.entries[s.back.pc.t].data| - s.entries[s.back.pc.t].start
  {
    LocksAreFree(s);
    var pc := s.back.pc;
    if pc.Scan? && pc.todo != {} {
      var t :| t in pc.todo;
      a := Pick(t);
    } else if pc.Flush? {
      assert ThreadOk(s, pc.t);
      var e := s.entries[pc.t];
      a := if e.start < |e.data| then Accept(|e.data| - e.start) else BackStep;
    } else if pc.Erase? && pc.todo != {} {
      var t :| t in pc.todo;
      a := Drop(t);
    } else if pc.Asleep? {
      a := Wake;
    } else {
      if pc.WantEntry? {
        EntryIsFree(s, pc.t);
      }
      a := BackStep;
    }
  }

  lemma {:induction false} BackendKeepsSilence(s: State, a: Action)
    requires Silent(s) && Ready(s, a) && ByBackend(a)
    ensures Silent(Do(s, a)) && Do(s, a).threads == s.threads && !Strands(s, Do(s, a))
  {
    if a.BackStep? {
      BackFrame(s);
      BackKeepsStop(s);
    }
  }

  // ------------------------------------------------------------------ how far it is

  /** The entry the backend is at in its pass. */
  predicate AtEntry(pc: BackPc, t: Tid) {
    (pc.WantEntry? || pc.Have? || pc.Flush?) && pc.t == t
  }

  function TodoOf(pc: BackPc): set<Tid> {
    match pc
    case Scan(todo) => todo
    case WantEntry(_, todo) => todo
    case Have(_, todo) => todo
    case Flush(_, todo) => todo
    case Release(_, todo) => todo
    case Erase(todo) => todo
    case _ => {}
  }

  predicate InScan(pc: BackPc) {
    pc.Scan? || pc.WantEntry? || pc.Have? || pc.Flush? || pc.Release?
  }

  /** Whatever a buffer still holds will be met in this pass. */
  predicate Covered(s: State) {
    s.back.pc.WantScan? ||
    forall t :: t in s.entries && s.entries[t].data != "" ==>
      (InScan(s.back.pc) && t in TodoOf(s.back.pc)) || AtEntry(s.back.pc, t)
  }

  predicate AfterPass(pc: BackPc) {
    pc.DecideWait? || pc.WantWait? || pc.Wait? || pc.Asleep? || pc.WantWake? || pc.Woken?
  }

  /** How often the backend will still come round. */
  function Rounds(s: State): nat {
    var pc := s.back.pc;
    if pc.Exited? then 0
    else if pc.Top? then (if NoLog(s) then 1 else 4)
    else if AfterPass(pc) then (if NoLog(s) then 2 else 5)
    else if NoLog(s) then (if s.back.delay && !pc.Flush? then 0 else 2)
    else if Covered(s) then 3
    else 5
  }

  /** Where in the round it is. */
  function Line(pc: BackPc): nat {
    match pc
    case Top => 30
    case WantScan => 20
    case Scan(_) => 19
    case WantEntry(_, _) => 19
    case Have(_, _) => 19
    case Flush(_, _) => 19
    case Release(_, _) => 19
    case Scanned => 18
    case WantErase => 17
    case Erase(_) => 16
    case Decide => 15
    case WantQuiet => 14
    case Quiet => 13
    case DecideWait => 12
    case WantWait => 11
    case Wait => 10
    case Asleep => 9
    case WantWake => 8
    case Woken => 7
    case Exited => 0
  }

  /** Where with one entry it is. */
  function StageOf(pc: BackPc): nat {
    match pc
    case WantEntry(_, _) => 8
    case Have(_, _) => 7
    case Flush(_, _) => 6
    case Release(_, _) => 5
    case _ => 4
  }

  function BytesLeft(s: State): nat {
    if s.back.pc.Flush? && s.back.pc.t in s.entries
       && s.entries[s.back.pc.t].start <= |s.entries[s.back.pc.t].data| then
      |s.entries[s.back.pc.t].data| - s.entries[s.back.pc.t].start
    else 0
  }

  predicate Nearer(s': State, s: State) {
    || Rounds(s') < Rounds(s)
    || (Rounds(s') == Rounds(s) &&
        (|| Line(s'.back.pc) < Line(s.back.pc)
         || (Line(s'.back.pc) == Line(s.back.pc) &&
             (|| |TodoOf(s'.back.pc)| < |TodoOf(s.back.pc)|
              || (TodoOf(s'.back.pc) == TodoOf(s.back.pc) &&
                  (|| StageOf(s'.back.pc) < StageOf(s.back.pc)
                   || (StageOf(s'.back.pc) == StageOf(s.back.pc) && BytesLeft(s') < BytesLeft(s))))))))
  }

  lemma {:induction false} PickIsNearer(s: State, t: Tid)
    requires Ready(s, Pick(t))
    ensures Nearer(Do(s, Pick(t)), s)
  {
    var todo := s.back.pc.todo;
    assert todo == (todo - {t}) + {t};
  }

  lemma {:induction false} AcceptIsNearer(s: State, n: nat)
    requires Ready(s, Accept(n))
    ensures Nearer(Do(s, Accept(n)), s)
  {
    var s' := Do(s, Accept(n));
    assert forall t :: t in s.entries ==> t in s'.entries && s'.entries[t].data == s.entries[t].data;
  }

  lemma {:induction false} DropIsNearer(s: State, t: Tid)
    requires Ready(s, Drop(t))
    ensures Nearer(Do(s, Drop(t)), s)
  {
    var todo := s.back.pc.todo;
    var s' := Do(s, Drop(t));
    assert todo == (todo - {t}) + {t};
    forall u | u in s.entries && s.entries[u].data != "" ensures u in s'.entries && s'.entries[u] == s.entries[u] {
    }
    assert forall u :: u in s'.entries ==> u in s.entries && s'.entries[u] == s.entries[u];
    assert NoLog(s') <==> NoLog(s);
  }

  lemma {:induction false} LockIsNearer(s: State)
    requires BackReady(s) && s.back.pc.WantEntry?
    ensures Nearer(DoBack(s), s)
  {
    LockFrame(s);
    SameData(s, DoBack(s));
  }

  lemma {:induction false} ReleaseIsNearer(s: State)
    requires BackReady(s) && s.back.pc.Release?
    ensures Nearer(DoBack(s), s)
  {
    ReleaseFrame(s);
    SameData(s, DoBack(s));
  }

  /** The buffers hold what they held. */
  lemma {:induction false} SameData(s: State, s': State)
    requires s'.entries.Keys == s.entries.Keys
    requires forall t :: t in s.entries ==> s'.entries[t].data == s.entries[t].data
    ensures NoLog(s') <==> NoLog(s)
  {
  }

  lemma {:induction false} HaveIsNearer(s: State)
    requires BackReady(s) && s.back.pc.Have?
    ensures Nearer(DoBack(s), s)
  {
    var s' := DoBack(s);
    SameData(s, s');
    if s.entries[s.back.pc.t].data != "" {
      assert s' == s.(back := s.back.(pc := Flush(s.back.pc.t, s.back.pc.todo)));
    } else {
      assert s' == s.(back := s'.back) && s'.back.pc == Release(s.back.pc.t, s.back.pc.todo);
      assert s'.back.delay == s.back.delay;
    }
  }

  lemma {:induction false} FlushIsNearer(s: State)
    requires BackReady(s) && s.back.pc.Flush? && s.back.pc.t in s.threads
    ensures Nearer(DoBack(s), s)
  {
    var s' := DoBack(s);
    FlushFrame(s);
    assert !s'.back.delay;
    assert NoLog(s) ==> NoLog(s');
    assert Covered(s) ==> Covered(s');
  }

  lemma {:induction false} ScanIsNearer(s: State)
    requires BackReady(s) && s.back.pc.WantScan?
    ensures Nearer(DoBack(s), s)
  {
    var s' := DoBack(s);
    assert s'.entries == s.entries && s'.back == s.back.(pc := Scan(s.entries.Keys));
    SameData(s, s');
  }

  /** The backend is at none of the lines that look at the buffers one by one, nor at an end
      of its round. */
  predicate Between(pc: BackPc) {
    !pc.Top? && !pc.Exited? && !pc.WantScan? && !InScan(pc)
  }

  lemma {:induction false} LineIsNearer(s: State, s': State)
    requires s'.entries == s.entries && s'.back.delay == s.back.delay
    requires Between(s.back.pc) && Between(s'.back.pc) && AfterPass(s'.back.pc) == AfterPass(s.back.pc)
    requires Line(s'.back.pc) < Line(s.back.pc)
    ensures Nearer(s', s)
  {
    SameData(s, s');
  }

  lemma {:induction false} TakeIsNearer(s: State)
    requires BackReady(s) && TakesLock(s.back.pc) && !s.back.pc.WantScan?
    ensures Nearer(DoBack(s), s)
  {
    var s' := DoBack(s);
    assert s' == Take(s);
    LineIsNearer(s, s');
  }

  lemma {:induction false} LeaveIsNearer(s: State)
    requires BackReady(s) && DropsLock(s.back.pc) && s.stop
    ensures Nearer(DoBack(s), s)
  {
    var s' := DoBack(s);
    assert s' == Leave(s);
    SameData(s, s');
  }

  lemma {:induction false} DecisionIsNearer(s: State)
    requires BackReady(s) && (s.back.pc.Top? || s.back.pc.Scanned? || s.back.pc.Decide? || s.back.pc.DecideWait?)
    ensures Nearer(DoBack(s), s)
  {
    var s' := DoBack(s);
    assert s' == s.(back := Decided(s.back));
    SameData(s, s');
  }

  /** The lines without an entry. */
  lemma {:induction false} MoveIsNearer(s: State)
    requires BackReady(s) && Moves(s.back.pc) && s.stop && !s.back.pc.Exited?
    ensures Nearer(DoBack(s), s)
  {
    if s.back.pc.WantScan? {
      ScanIsNearer(s);
    } else if TakesLock(s.back.pc) {
      TakeIsNearer(s);
    } else if DropsLock(s.back.pc) {
      LeaveIsNearer(s);
    } else {
      DecisionIsNearer(s);
    }
  }

  lemma {:induction false} GoingIsNearer(s: State, a: Action)
    requires Inv(s) && Silent(s) && !s.back.pc.Exited? && Ready(s, a) && ByBackend(a)
    ensures Nearer(Do(s, a), s)
  {
    match a
    case Pick(t) => PickIsNearer(s, t);
    case Accept(n) => AcceptIsNearer(s, n);
    case Drop(t) => DropIsNearer(s, t);
    case Wake =>
    case _ =>
      if s.back.pc.WantEntry? {
        LockIsNearer(s);
      } else if s.back.pc.Have? {
        HaveIsNearer(s);
      } else if s.back.pc.Flush? {
        FlushIsNearer(s);
      } else if s.back.pc.Release? {
        ReleaseIsNearer(s);
      } else {
        MoveIsNearer(s);
      }
  }

  // ------------------------------------------------------------------ the exit

  /** Everything logged is out, once and in order, and nothing else. */
  ghost predicate Drained(s: State) {
    && s.output == Stream(s.flushed) && Known(s.flushed, s.threads)
    && forall t :: t in s.threads ==>
         Of(s.flushed, t) == Records(s.threads[t].hist) && OpenTexts(s.threads[t].hist) == []
  }

  lemma {:induction false} ExitDrains(s: State)
    requires Inv(s) && BackReady(s) && !s.back.pc.Exited? && DoBack(s).back.pc.Exited?
    ensures Drained(DoBack(s))
  {
    ExitOnlyFromQuiet(s);
    QuietIsDrained(s);
  }

  lemma {:induction false} GoOn(run: seq<State>, a: Action) returns (longer: seq<State>)
    requires Undisturbed(run) && Ready(Last(run), a) && !Strands(Last(run), Do(Last(run), a))
    ensures Undisturbed(longer) && longer == run + [Do(Last(run), a)]
  {
    longer := Go(run, a);
    forall i | 0 <= i < |longer| - 1 ensures !Strands(longer[i], longer[i + 1]) {
      if i < |run| - 1 {
        assert !Strands(run[i], run[i + 1]);
      }
    }
  }

  /** What one step of the backend comes to: it has left and everything is out, or it is nearer. */
  ghost predicate OneStepOut(s: State, s': State) {
    && s'.threads == s.threads
    && if s'.back.pc.Exited? then Drained(s') else Silent(s') && Nearer(s', s)
  }

  lemma {:induction false} StepOut(run: seq<State>) returns (next: seq<State>)
    requires Undisturbed(run) && Silent(Last(run)) && !Last(run).back.pc.Exited?
    ensures Undisturbed(next) && run <= next && OneStepOut(Last(run), Last(next))
  {
    RunInv(run, |run| - 1);
    var a := BackendCanGo(Last(run));
    OutOrNearer(Last(run), a);
    next := GoOn(run, a);
  }

  lemma {:induction false} OutOrNearer(s: State, a: Action)
    requires Inv(s) && Silent(s) && !s.back.pc.Exited? && Ready(s, a) && ByBackend(a)
    ensures OneStepOut(s, Do(s, a)) && !Strands(s, Do(s, a))
  {
    BackendKeepsSilence(s, a);
    GoingIsNearer(s, a);
    if Do(s, a).back.pc.Exited? {
      OnlyLineExits(s, a);
      ExitDrains(s);
    }
  }

  lemma {:induction false} OnlyLineExits(s: State, a: Action)
    requires Ready(s, a) && ByBackend(a) && !s.back.pc.Exited? && Do(s, a).back.pc.Exited?
    ensures a.BackStep?
  {
  }

  /** The backend can leave.  Every run that has come to a state in which nobody logs, no record
      is open and the destructor has set the flag can go on, by the backend's own steps, until
      the backend has left its loop; and every such step, whichever is taken, brings it nearer.
      Then everything logged is out. */
  lemma {:induction false} ExitIsReachable(run: seq<State>) returns (longer: seq<State>)
    requires Undisturbed(run) && Silent(Last(run)) && !Last(run).back.pc.Exited?
    ensures Undisturbed(longer) && run <= longer && Last(longer).back.pc.Exited?
    ensures Last(longer).threads == Last(run).threads && Drained(Last(longer))
    decreases Rounds(Last(run)), Line(Last(run).back.pc), |TodoOf(Last(run).back.pc)|,
              StageOf(Last(run).back.pc), BytesLeft(Last(run))
  {
    longer := StepOut(run);
    if !Last(longer).back.pc.Exited? {
      longer := ExitIsReachable(longer);
    }
  }

  /** The destructor, called while nobody writes the map. */
  lemma {:induction false} AskToStop(run: seq<State>) returns (longer: seq<State>)
    requires Undisturbed(run) && Last(run).destructor.NotCalled? && MapLockFree(Last(run))
    ensures Undisturbed(longer) && run <= longer
    ensures Last(longer) == Last(run).(destructor := Stopped, stop := true)
  {
    var s := Last(run);
    longer := Say(run, Destroy);
    longer := Say(longer, DestroyStep);
    longer := Say(longer, DestroyStep);
    assert {} + {Destructor} - {Destructor} == {};
  }

  /** When everybody rests nobody holds the map lock. */
  lemma {:induction false} QuietLocks(s: State)
    requires LocksOk(s) && s.back.pc.Top? && s.destructor.NotCalled?
    requires forall t :: t in s.threads ==> s.threads[t].pc.Idle?
    ensures MapLockFree(s)
  {
    forall a ensures a !in s.readers && s.writer != Some(a) {
      assert !Reading(s, a) && !Writing(s, a);
    }
  }

  lemma {:induction false} OneRecord()
    ensures var h := [Text("h", "x"), End]; Records(h) == ["hx\n"] && OpenTexts(h) == [] && OpenTexts([]) == []
  {
    var c := Text("h", "x");
    assert [] + [c] == [c] && [c] + [End] == [c, End];
    TextAppended([], c);
    EndAppended([c]);
    RecordGrows([], c);
    assert Records([c]) == [] && OpenTexts([c]) == [c];
    assert RecordText([c]) == "h" + "x" && ("h" + "x") + "\n" == "hx\n";
    assert [] + ["hx\n"] == ["hx\n"];
  }

  /** Thread 0 has logged one record; everybody rests. */
  ghost predicate RecordLogged(s: State) {
    && s.back == Back(Top, {}, true) && s.destructor.NotCalled?
    && s.threads == Start().threads[0 := Thread(Idle, [Text("h", "x"), End])]
  }

  lemma {:induction false} AtRest() returns (run: seq<State>)
    ensures Undisturbed(run) && Last(run) == Start() && Alone(Last(run), 0)
  {
    run := [Start()];
  }

  lemma {:induction false} LogText() returns (run: seq<State>)
    ensures Undisturbed(run) && Beside(Start(), Last(run), 0) && Alone(Last(run), 0)
    ensures Last(run).threads[0] == Thread(Idle, [] + [Text("h", "x")])
  {
    run := AtRest();
    run := WholeCall(run, 0, Text("h", "x"));
  }

  lemma {:induction false} Resting(run: seq<State>)
    requires Undisturbed(run) && RecordLogged(Last(run))
    ensures MapLockFree(Last(run))
  {
    RunInv(run, |run| - 1);
    var s := Last(run);
    assert forall t :: t in s.threads ==> s.threads[t].pc.Idle?;
    QuietLocks(s);
  }

  lemma {:induction false} LogOneRecord() returns (run: seq<State>)
    ensures Undisturbed(run) && RecordLogged(Last(run)) && MapLockFree(Last(run))
  {
    var once := LogText();
    run := WholeCall(once, 0, End);
    TwoCalls(Start(), Last(once), Last(run), Text("h", "x"));
    Resting(run);
  }

  lemma {:induction false} TwoCalls(s: State, s': State, s'': State, c: Call)
    requires s == Start() && c == Text("h", "x") && Beside(s, s', 0) && Beside(s', s'', 0)
    requires s'.threads[0] == Thread(Idle, [] + [c]) && s''.threads[0] == Thread(Idle, s'.threads[0].hist + [End])
    ensures RecordLogged(s'') && forall t :: t in s''.threads ==> s''.threads[t].pc.Idle?
  {
    assert [] + [c] + [End] == [c, End];
  }

  /** So the exit does happen: a run from the start in which one record is logged, the
      destructor is called and the backend leaves, the record being all there is in the log. */
  lemma {:induction false} SomeRunExits() returns (run: seq<State>)
    ensures Undisturbed(run) && Last(run).back.pc.Exited? && Drained(Last(run))
    ensures Last(run).threads == Start().threads[0 := Thread(Idle, [Text("h", "x"), End])]
    ensures Of(Last(run).flushed, 0) == ["hx\n"]
  {
    run := LogOneRecord();
    run := AskToStop(run);
    OneRecord();
    run := ExitIsReachable(run);
    assert 0 in Last(run).threads;
  }
}
