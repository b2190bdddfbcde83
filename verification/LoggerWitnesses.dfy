/** Two runs that show why the logger's assumptions are needed. */
module LoggerWitnesses {
  import opened Common
  import opened LogRecords
  import opened LoggerMachine
  import opened LoggerTheorems

  function Last(run: seq<State>): State
    requires run != []
  {
    run[|run| - 1]
  }

  /** Some thread is waiting for the map's write lock. */
  predicate WriterWaits(s: State) {
    s.back.pc.WantErase? || s.back.pc.WantQuiet? || exists t :: t in s.threads && s.threads[t].pc.WantWrite?
  }

  /** In this run no reader passes a waiting writer. */
  predicate Polite(run: seq<State>) {
    forall i :: 0 <= i < |run| - 1 && WriterWaits(run[i]) ==> run[i + 1].readers <= run[i].readers
  }

  lemma Go(run: seq<State>, a: Action) returns (longer: seq<State>)
    requires IsRun(run) && Ready(Last(run), a)
    ensures IsRun(longer) && Last(longer) == Do(Last(run), a) && longer == run + [Do(Last(run), a)]
  {
    longer := run + [Do(Last(run), a)];
    forall i | 0 <= i < |longer| - 1 ensures Next(longer[i], longer[i + 1]) {
      if i < |run| - 1 {
        assert Next(run[i], run[i + 1]);
      } else {
        assert longer[i] == Last(run);
      }
    }
  }

  lemma Extend(run: seq<State>, a: Action) returns (longer: seq<State>)
    requires IsRun(run) && Ready(Last(run), a)
    ensures IsRun(longer) && Last(longer) == Do(Last(run), a)
    ensures Polite(run) && (WriterWaits(Last(run)) ==> Do(Last(run), a).readers <= Last(run).readers) ==> Polite(longer)
  {
    longer := Go(run, a);
  }

  function Start(): State {
    var threads := map[0 := Thread(Idle, []), 1 := Thread(Idle, [])];
    State(threads, map[], {}, None, Back(Top, {}, true), NotCalled, false, 0, 0, "", [])
  }

  /** Thread 0 logs its first text, up to the write lock. */
  lemma ToTheWriteLock(c: Call) returns (run: seq<State>)
    requires HasHead(c)
    ensures IsRun(run) && Polite(run)
    ensures Last(run) == Start().(threads := Start().threads[0 := Thread(WantWrite(c), [])])
  {
    run := [Start()];
    run := Extend(run, Begin(0, c));
    run := Extend(run, Step(0));
    run := Extend(run, Step(0));
    assert {} + {Logger(0)} - {Logger(0)} == {};
  }

  /** It creates its entry and drops the write lock. */
  lemma IntoTheWindow(c: Call) returns (run: seq<State>)
    requires HasHead(c)
    ensures IsRun(run) && Polite(run)
    ensures Last(run) == Start().(threads := Start().threads[0 := Thread(WantReadAgain(c), [])],
                                  entries := map[0 := Fresh(0)])
  {
    run := ToTheWriteLock(c);
    run := Extend(run, Step(0));
    run := Extend(run, Step(0));
    run := Extend(run, Step(0));
  }

  /** The backend starts a pass over a map with one entry and reaches its lock. */
  lemma StartPass(before: seq<State>, e: Entry) returns (run: seq<State>)
    requires IsRun(before)
    requires var s := Last(before); s.entries == map[0 := e] && MapLockFree(s) && s.back == Back(Top, {}, true)
    ensures IsRun(run)
    ensures Polite(before) && !WriterWaits(Last(before)) ==> Polite(run)
    ensures Last(run) == Last(before).(readers := {Backend}, back := Back(WantEntry(0, {}), {}, true))
  {
    var s := Last(before);
    run := Extend(before, BackStep);
    run := Extend(run, BackStep);
    assert s.entries.Keys == {0};
    assert Last(run) == s.(readers := {Backend}, back := Back(Scan({0}), {}, true));
    run := Extend(run, Pick(0));
    assert {0} - {0} == {};
  }

  /** It finds the entry empty and too old. */
  lemma FindExpired(before: seq<State>, e: Entry) returns (run: seq<State>)
    requires IsRun(before)
    requires var s := Last(before);
             s.entries == map[0 := e] && s.readers == {Backend} && s.back == Back(WantEntry(0, {}), {}, true)
    requires e == Fresh(e.time) && e.time + Last(before).expired < Last(before).now
    ensures IsRun(run)
    ensures Last(run) == Last(before).(readers := {}, back := Back(Scanned, {0}, true))
  {
    var s := Last(before);
    run := Go(before, BackStep);
    run := Go(run, BackStep);
    assert {} + {0} == {0};
    assert Last(run) == s.(entries := map[0 := Lock(e, Backend)], back := Back(Release(0, {}), {0}, true));
    run := Go(run, BackStep);
    assert Last(run) == s.(back := Back(Scan({}), {0}, true));
    run := Go(run, BackStep);
    assert {Backend} - {Backend} == {};
  }

  /** It erases the entry. */
  lemma Purge(before: seq<State>, e: Entry) returns (run: seq<State>)
    requires IsRun(before)
    requires var s := Last(before); s.entries == map[0 := e] && MapLockFree(s) && s.back == Back(Scanned, {0}, true)
    requires e.data == ""
    ensures IsRun(run)
    ensures Last(run) == Last(before).(entries := map[], back := Back(Decide, {}, true))
  {
    var s := Last(before);
    run := Go(before, BackStep);
    run := Go(run, BackStep);
    assert Last(run) == s.(writer := Some(Backend), back := Back(Erase({0}), {}, true));
    run := Go(run, Drop(0));
    assert s.entries - {0} == map[];
    assert {0} - {0} == {};
    run := Go(run, BackStep);
  }

  /** Without a timely clock a thread inside `operator<<` loses its entry: the backend
      erases it between the two holds of the map lock, and line 94 reads a null pointer. */
  lemma UntimelyClockStrands() returns (run: seq<State>)
    ensures IsRun(run)
    ensures var s := Last(run); 0 in s.threads && s.threads[0].pc.WantLock? && 0 !in s.entries
  {
    run := IntoTheWindow(Text("h", "x"));
    run := Extend(run, Clock(1));
    var e := Fresh(0);
    run := StartPass(run, e);
    run := FindExpired(run, e);
    run := Purge(run, e);
    run := Extend(run, Step(0));
  }

  // ------------------------------------------------------------------ writer preference

  /** What an actor that owes a step could do if the map lock let no reader pass a waiting writer. */
  predicate CanActBehindWriters(s: State, a: Actor) {
    && CanAct(s, a)
    && (WriterWaits(s) ==>
          match a
          case Logger(t) =>
            t in s.threads && var pc := s.threads[t].pc; !pc.Idle? && !pc.WantRead? && !pc.WantReadAgain?
          case Backend => !s.back.pc.WantScan? && !s.back.pc.WantWait? && !s.back.pc.WantWake?
          case Destructor => !s.destructor.WantStop?)
  }

  /** Thread 0 takes the map lock for the second time. */
  lemma SecondHold(c: Call) returns (run: seq<State>)
    requires c.Text? && c.head != ""
    ensures IsRun(run) && Polite(run)
    ensures Last(run) == Start().(threads := Start().threads[0 := Thread(WantLock(c), [])],
                                  entries := map[0 := Fresh(0)], readers := {Logger(0)})
  {
    run := IntoTheWindow(c);
    run := Extend(run, Step(0));
  }

  /** It takes its own lock and counts. */
  lemma FirstLines(c: Call) returns (run: seq<State>)
    requires c.Text? && c.head != ""
    ensures IsRun(run) && Polite(run)
    ensures Last(run) == Start().(threads := Start().threads[0 := Thread(Counted(c), [])],
                                  entries := map[0 := Entry("", 0, Some(Logger(0)), 1, 1, 0)], readers := {Logger(0)})
  {
    run := SecondHold(c);
    run := Extend(run, Step(0));
    run := Extend(run, Step(0));
  }

  /** It logs one text and leaves its record open. */
  lemma OneText(c: Call) returns (run: seq<State>)
    requires c.Text? && c.head != ""
    ensures IsRun(run) && Polite(run)
    ensures Last(run) == Start().(threads := Start().threads[0 := Thread(Idle, [c])],
                                  entries := map[0 := Entry(c.head + c.str, 0, Some(Logger(0)), 1, 1, 0)])
  {
    run := FirstLines(c);
    run := Extend(run, Step(0));
    assert "" + c.head == c.head;
    run := Extend(run, Step(0));
    assert [] + [c] == [c];
    run := Extend(run, Step(0));
    assert {Logger(0)} - {Logger(0)} == {};
  }

  /** Thread 1, new to the logger, calls it while the backend reads. */
  lemma SecondCaller(before: seq<State>, c: Call) returns (run: seq<State>)
    requires IsRun(before) && Polite(before) && HasHead(c)
    requires var s := Last(before);
             && s.threads == Start().threads[0 := Thread(Idle, [c])] && 1 !in s.entries
             && s.writer.None? && s.readers == {Backend} && s.back.pc.WantEntry?
    ensures IsRun(run) && Polite(run)
    ensures Last(run) == Last(before).(threads := Last(before).threads[1 := Thread(Check(c), [])],
                                       readers := {Backend, Logger(1)})
  {
    run := Extend(before, Begin(1, c));
    run := Extend(run, Step(1));
  }

  /** It comes to want the write lock. */
  lemma Newcomer(before: seq<State>, c: Call) returns (run: seq<State>)
    requires IsRun(before) && Polite(before) && HasHead(c)
    requires var s := Last(before);
             && s.threads == Start().threads[0 := Thread(Idle, [c])] && 1 !in s.entries
             && s.writer.None? && s.readers == {Backend} && s.back.pc.WantEntry?
    ensures IsRun(run) && Polite(run)
    ensures Last(run) == Last(before).(threads := Last(before).threads[1 := Thread(WantWrite(c), [])])
  {
    run := SecondCaller(before, c);
    run := Extend(run, Step(1));
    assert {Backend, Logger(1)} - {Logger(1)} == {Backend};
  }

  /** Reader preference is needed.  This run of the machine, in which no reader ever passes
      a waiting writer, ends with thread 0's record open, the backend waiting for its lock
      and thread 1 waiting to write; were waiting writers to block readers, no actor could
      take the step it owes. */
  lemma WriterPreferenceDeadlocks() returns (run: seq<State>)
    ensures IsRun(run) && Polite(run)
    ensures Waiting(Last(run), Backend) && Waiting(Last(run), Logger(1))
    ensures forall a :: !CanActBehindWriters(Last(run), a)
  {
    var c := Text("h", "x");
    run := OneText(c);
    run := StartPass(run, Last(run).entries[0]);
    run := Newcomer(run, c);
    assert Last(run).threads[1].pc.WantWrite?;
    assert WriterWaits(Last(run));
  }
}
