/**
  The asynchronous logger as a machine: any number of logging threads, one backend
  thread and the destructor, one program counter each, every lock operation and every
  access to shared data a step of its own.
 */
module LoggerMachine {
  import opened Common
  import opened LogRecords

  datatype Actor = Logger(t: Tid) | Backend | Destructor

  /** Where a logging thread stands inside `operator<<`. */
  datatype Pc =
    | Idle                   // between two calls
    | WantRead(c: Call)      // about to take the map read lock
    | Check(c: Call)         // holds it, about to look its tid up
    | WantWrite(c: Call)     // unknown tid: read lock dropped, about to take the write lock
    | Init(c: Call)          // holds the write lock, about to insert the entry
    | Inited(c: Call)        // entry inserted, about to drop the write lock
    | WantReadAgain(c: Call) // about to take the read lock for the second time
    | WantLock(c: Call)      // about to take its own recursive lock
    | Locked(c: Call)        // about to change its counter
    | Counted(c: Call)       // counter raised, about to write the header if this is the first text
    | Headed(c: Call)        // about to append the text
    | Closing(n: nat)        // counter reset, n unlocks to do, about to append the newline
    | Closed(n: nat)         // about to stamp the time
    | Leaving(n: nat)        // n unlocks to do, then drop the read lock

  datatype Thread = Thread(pc: Pc, hist: seq<Call>)

  /** One value of `_t_buffers`: the buffer (`data` is bytes [0, _offset), `start` is
      `_start`), the recursive lock (holder and depth), the counter and the time. */
  datatype Entry = Entry(data: string, start: nat, holder: Option<Actor>, depth: nat, count: nat, time: int)

  datatype BackPc =
    | Top
    | WantScan                         // about to take the read lock
    | Scan(todo: set<Tid>)             // entries still to visit in this pass
    | WantEntry(t: Tid, todo: set<Tid>)
    | Have(t: Tid, todo: set<Tid>)     // holds t's lock, about to test its buffer
    | Flush(t: Tid, todo: set<Tid>)    // writing t's buffer to the descriptor
    | Release(t: Tid, todo: set<Tid>)
    | Scanned
    | WantErase
    | Erase(todo: set<Tid>)            // holds the write lock, erasing
    | Decide                           // about to test shall_delay
    | WantQuiet
    | Quiet                            // holds the write lock, about to call _no_log
    | DecideWait
    | WantWait
    | Wait                             // holds the read lock, about to wait on the condition
    | Asleep
    | WantWake                         // woken, about to take the read lock back
    | Woken
    | Exited

  datatype Back = Back(pc: BackPc, remove: set<Tid>, delay: bool)

  datatype StopPc = NotCalled | WantStop | Stopping | Stopped

  datatype State = State(
    threads: map<Tid, Thread>,
    entries: map<Tid, Entry>,
    readers: set<Actor>,          // who holds the map lock for reading
    writer: Option<Actor>,        // who holds it for writing
    back: Back,
    destructor: StopPc,
    stop: bool,
    now: int,                     // the clock scTime() reads
    expired: int,                 // `_expired`
    output: string,               // every byte the log descriptor accepted
    flushed: seq<(Tid, string)>)  // history: the records written out, in order

  datatype Action =
    | Begin(t: Tid, c: Call)  // an idle thread calls the logger
    | Step(t: Tid)            // a thread inside the logger executes its next line
    | Pick(t: Tid)            // the backend's iterator moves to t's entry
    | Accept(n: nat)          // the descriptor accepts n more bytes
    | Drop(t: Tid)            // the backend treats t's member of remove_list
    | BackStep                // the backend executes its next line
    | Wake                    // the condition variable wakes the backend, for any reason
    | Destroy                 // the destructor is called
    | DestroyStep             // the destructor executes its next line
    | Clock(to: int)

  predicate MapLockFree(s: State) {
    s.writer.None? && s.readers == {}
  }

  /** A recursive lock can be taken by a when it is free or already a's. */
  predicate Lockable(e: Entry, a: Actor) {
    e.holder.None? || e.holder == Some(a)
  }

  function Lock(e: Entry, a: Actor): Entry {
    e.(holder := Some(a), depth := e.depth + 1)
  }

  function Unlock(e: Entry): Entry {
    if e.depth <= 1 then e.(holder := None, depth := 0) else e.(depth := e.depth - 1)
  }

  function Fresh(now: int): Entry {
    Entry("", 0, None, 0, 0, now)
  }

  predicate NoLog(s: State) {
    forall t :: t in s.entries ==> s.entries[t].data == ""
  }

  // ------------------------------------------------------------------ logging threads

  predicate StepReady(s: State, t: Tid) {
    && t in s.threads
    && match s.threads[t].pc
       case Idle => false
       case WantRead(_) => s.writer.None?
       case Check(_) => true
       case WantWrite(_) => MapLockFree(s)
       case Init(_) => true
       case Inited(_) => true
       case WantReadAgain(_) => s.writer.None?
       case WantLock(_) => t in s.entries && Lockable(s.entries[t], Logger(t))
       case Leaving(n) => n > 0 ==> t in s.entries
       case _ => t in s.entries
  }

  function At(s: State, t: Tid, pc: Pc): map<Tid, Thread>
    requires t in s.threads
  {
    s.threads[t := s.threads[t].(pc := pc)]
  }

  /** The lines a thread executes on its own entry, with the map lock held for reading. */
  function Within(th: Thread, e: Entry, me: Actor, now: int): (Thread, Entry) {
    match th.pc
    case WantLock(c) => (th.(pc := Locked(c)), Lock(e, me))
    case Locked(Text(_, _)) => (th.(pc := Counted(th.pc.c)), e.(count := e.count + 1))
    case Locked(End) => (th.(pc := Closing(e.count + 1)), e.(count := 0))
    case Counted(c) =>
      (th.(pc := Headed(c)), if e.count == 1 && c.Text? then e.(data := e.data + c.head) else e)
    case Headed(c) =>
      (Thread(Leaving(0), th.hist + [c]), if c.Text? then e.(data := e.data + c.str) else e)
    case Closing(n) => (Thread(Closed(n), th.hist + [End]), e.(data := e.data + "\n"))
    case Closed(n) => (th.(pc := Leaving(n)), e.(time := now))
    case Leaving(n) => if n > 0 then (th.(pc := Leaving(n - 1)), Unlock(e)) else (th, e)
    case _ => (th, e)
  }

  function DoStep(s: State, t: Tid): State
    requires StepReady(s, t)
  {
    var me := Logger(t);
    var th := s.threads[t];
    match th.pc
    case Idle => s
    case WantRead(c) => s.(readers := s.readers + {me}, threads := At(s, t, Check(c)))
    case Check(c) =>
      if t in s.entries then s.(threads := At(s, t, WantLock(c)))
      else s.(readers := s.readers - {me}, threads := At(s, t, WantWrite(c)))
    case WantWrite(c) => s.(writer := Some(me), threads := At(s, t, Init(c)))
    case Init(c) => s.(entries := s.entries[t := Fresh(s.now)], threads := At(s, t, Inited(c)))
    case Inited(c) => s.(writer := None, threads := At(s, t, WantReadAgain(c)))
    case WantReadAgain(c) => s.(readers := s.readers + {me}, threads := At(s, t, WantLock(c)))
    case Leaving(0) => s.(readers := s.readers - {me}, threads := At(s, t, Idle))
    case _ =>
      var p := Within(th, s.entries[t], me, s.now);
      s.(threads := s.threads[t := p.0], entries := s.entries[t := p.1])
  }

  // ------------------------------------------------------------------ the backend thread

  predicate BackReady(s: State) {
    match s.back.pc
    case WantScan => s.writer.None?
    case Scan(todo) => todo == {}
    case WantEntry(t, _) => t in s.entries && Lockable(s.entries[t], Backend)
    case Have(t, _) => t in s.entries
    case Flush(t, _) => t in s.entries && s.entries[t].start == |s.entries[t].data|
    case Release(t, _) => t in s.entries
    case WantErase => MapLockFree(s)
    case Erase(todo) => todo == {}
    case WantQuiet => MapLockFree(s)
    case WantWait => s.writer.None?
    case Asleep => false
    case WantWake => s.writer.None?
    case Exited => false
    case _ => true
  }

  /** What the write of t's whole buffer put into the descriptor, record by record. */
  function Unsent(s: State, t: Tid): seq<string>
    requires t in s.threads
  {
    var recs := Records(s.threads[t].hist);
    var n := |Of(s.flushed, t)|;
    if n <= |recs| then recs[n..] else []
  }

  predicate Moves(pc: BackPc) {
    !pc.WantEntry? && !pc.Have? && !pc.Flush? && !pc.Release?
  }

  /** The backend's lines on one entry: lock it, test it, write it out, unlock it. */
  function OnEntry(s: State): State
    requires BackReady(s) && !Moves(s.back.pc)
  {
    var b := s.back;
    var t := b.pc.t;
    var todo := b.pc.todo;
    var e := s.entries[t];
    if b.pc.WantEntry? then
      s.(entries := s.entries[t := Lock(e, Backend)], back := b.(pc := Have(t, todo)))
    else if b.pc.Have? then
      if e.data != "" then s.(back := b.(pc := Flush(t, todo)))
      else if e.time + s.expired < s.now then
        s.(back := b.(pc := Release(t, todo), remove := b.remove + {t}))
      else s.(back := b.(pc := Release(t, todo)))
    else if b.pc.Flush? then
      s.(entries := s.entries[t := e.(data := "", start := 0)],
      flushed := if t in s.threads then s.flushed + Tagged(t, Unsent(s, t)) else s.flushed,
      back := b.(pc := Release(t, todo), delay := false))
    else
      s.(entries := s.entries[t := Unlock(e)], back := b.(pc := Scan(todo)))
  }

  /** The backend's lines that take the map lock. */
  predicate TakesLock(pc: BackPc) {
    pc.WantScan? || pc.WantErase? || pc.WantQuiet? || pc.WantWait? || pc.WantWake?
  }

  function Take(s: State): State
    requires TakesLock(s.back.pc)
  {
    var b := s.back;
    match b.pc
    case WantScan => s.(readers := s.readers + {Backend}, back := b.(pc := Scan(s.entries.Keys)))
    case WantErase => s.(writer := Some(Backend), back := b.(pc := Erase(b.remove), remove := {}))
    case WantQuiet => s.(writer := Some(Backend), back := b.(pc := Quiet))
    case WantWait => s.(readers := s.readers + {Backend}, back := b.(pc := Wait))
    case WantWake => s.(readers := s.readers + {Backend}, back := b.(pc := Woken))
  }

  /** The backend's lines that end a critical section. */
  predicate DropsLock(pc: BackPc) {
    pc.Scan? || pc.Erase? || pc.Quiet? || pc.Wait? || pc.Woken?
  }

  function Leave(s: State): State
    requires DropsLock(s.back.pc)
  {
    var b := s.back;
    match b.pc
    case Scan(_) => s.(readers := s.readers - {Backend}, back := b.(pc := Scanned))
    case Erase(_) => s.(writer := None, back := b.(pc := Decide))
    case Quiet =>
      s.(writer := None,
      back := b.(delay := NoLog(s), pc := if NoLog(s) && s.stop then Exited else DecideWait))
    case Wait => s.(readers := s.readers - {Backend}, back := b.(pc := Asleep))
    case Woken => s.(readers := s.readers - {Backend}, back := b.(pc := Top))
  }

  /** The backend's decisions. */
  function Decided(b: Back): Back {
    match b.pc
    case Top => Back(WantScan, {}, true)
    case Scanned => b.(pc := if b.remove != {} then WantErase else Decide)
    case Decide => b.(pc := if b.delay then WantQuiet else DecideWait)
    case DecideWait => b.(pc := if b.delay then WantWait else Top)
    case _ => b
  }

  function DoBack(s: State): State
    requires BackReady(s)
  {
    if !Moves(s.back.pc) then OnEntry(s)
    else if TakesLock(s.back.pc) then Take(s)
    else if DropsLock(s.back.pc) then Leave(s)
    else s.(back := Decided(s.back))
  }

  // ------------------------------------------------------------------ the whole machine

  predicate Ready(s: State, a: Action) {
    match a
    case Begin(t, c) => t in s.threads && s.threads[t].pc.Idle? && HasHead(c)
    case Step(t) => StepReady(s, t)
    case Pick(t) => s.back.pc.Scan? && t in s.back.pc.todo
    case Accept(n) =>
      && s.back.pc.Flush? && s.back.pc.t in s.entries
      && var e := s.entries[s.back.pc.t]; 1 <= n && e.start + n <= |e.data|
    case Drop(t) => s.back.pc.Erase? && t in s.back.pc.todo && t in s.entries
    case BackStep => BackReady(s)
    case Wake => s.back.pc.Asleep?
    case Destroy => s.destructor.NotCalled?
    case DestroyStep => s.destructor.Stopping? || (s.destructor.WantStop? && s.writer.None?)
    case Clock(_) => true
  }

  function Do(s: State, a: Action): State
    requires Ready(s, a)
  {
    match a
    case Begin(t, c) => s.(threads := At(s, t, WantRead(c)))
    case Step(t) => DoStep(s, t)
    case Pick(t) => s.(back := s.back.(pc := WantEntry(t, s.back.pc.todo - {t})))
    case Accept(n) =>
      var t := s.back.pc.t;
      var e := s.entries[t];
      s.(output := s.output + e.data[e.start..e.start + n], entries := s.entries[t := e.(start := e.start + n)])
    case Drop(t) =>
      s.(entries := if s.entries[t].data == "" then s.entries - {t} else s.entries,
      back := s.back.(pc := Erase(s.back.pc.todo - {t})))
    case BackStep => DoBack(s)
    case Wake => s.(back := s.back.(pc := WantWake))
    case Destroy => s.(destructor := WantStop)
    case DestroyStep =>
      if s.destructor.WantStop? then s.(readers := s.readers + {Destructor}, destructor := Stopping)
      else s.(stop := true, readers := s.readers - {Destructor}, destructor := Stopped)
    case Clock(to) => s.(now := to)
  }

  ghost predicate Initial(s: State) {
    && (forall t :: t in s.threads ==> s.threads[t] == Thread(Idle, []))
    && s.entries == map[]
    && MapLockFree(s)
    && s.back == Back(Top, {}, true)
    && s.destructor == NotCalled && !s.stop
    && s.output == "" && s.flushed == []
  }

  ghost predicate Next(s: State, s': State) {
    exists a :: Ready(s, a) && s' == Do(s, a)
  }

  /** The window in which a thread has created its entry and does not hold the map lock
      for reading yet. */
  predicate InWindow(pc: Pc) {
    pc.Inited? || pc.WantReadAgain?
  }

  predicate TimelyFor(s: State, t: Tid) {
    t in s.threads && InWindow(s.threads[t].pc) && t in s.entries ==> s.now <= s.entries[t].time + s.expired
  }

  /** When the backend tests the age of an entry, the clock has not passed the expiry of an
      entry that is inside its owner's window. */
  predicate Timely(s: State) {
    s.back.pc.Have? ==> TimelyFor(s, s.back.pc.t)
  }

  ghost predicate IsRun(run: seq<State>) {
    && run != [] && Initial(run[0])
    && forall i :: 0 <= i < |run| - 1 ==> Next(run[i], run[i + 1])
  }

  ghost predicate TimelyRun(run: seq<State>) {
    IsRun(run) && forall i :: 0 <= i < |run| ==> Timely(run[i])
  }

  /** Between the two states an entry goes whose owner is inside its window. */
  ghost predicate Strands(s: State, s': State) {
    exists t :: t in s.threads && InWindow(s.threads[t].pc) && t in s.entries && t !in s'.entries
  }

  /** No entry is erased inside its owner's window. */
  ghost predicate Undisturbed(run: seq<State>) {
    IsRun(run) && forall i :: 0 <= i < |run| - 1 ==> !Strands(run[i], run[i + 1])
  }
}
