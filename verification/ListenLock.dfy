/** The server's threads and the lock on the listening socket. */
module ListenLock {
  import opened Common

  /** Where a thread is in `_run`.  `Refused` stands for a failed assertion, an epoll call that
      reports an error, or the release of a lock by a thread that does not own it. */
  datatype Pc =
    | Head                            // before the loop's tests
    | Locking                         // inside lock()
    | Trying                          // at try_lock()
    | Acquired                        // holds the lock, about to register the socket
    | Polling                         // at the assertion and epoll_wait
    | Serving(todo: seq<int>)         // in the loop over the reported descriptors
    | Accepting(left: int, todo: seq<int>) // in the loop around accept4
    | Removing(todo: seq<int>)        // about to deregister the socket
    | Releasing(todo: seq<int>)       // about to release the lock
    | Refused

  datatype Thread = Thread(pc: Pc, fdNum: int, interest: set<int>)

  datatype State = State(threads: map<int, Thread>, owner: Option<int>)

  /** The listening socket and the batch size, fixed for a run. */
  datatype Config = Config(listen: int, batch: int)

  datatype Action =
    | Test(t: int)
    | Lock(t: int)
    | TryLock(t: int)
    | Register(t: int)
    | Wait(t: int, reported: seq<int>)      // what epoll_wait reports
    | Process(t: int, interest: set<int>)   // processEvent; it may close connections
    | StartAccepting(t: int)
    | Accept(t: int, conn: int, kept: bool) // accept4 succeeds; a failing onConnect closes conn again
    | NothingLeft(t: int)                   // accept4 would block
    | BatchDone(t: int)
    | Remove(t: int)
    | Unlock(t: int)
    | NextRound(t: int)

  /** epoll reports registered descriptors, each at most once. */
  predicate Reportable(reported: seq<int>, interest: set<int>) {
    && (forall i :: 0 <= i < |reported| ==> reported[i] in interest)
    && (forall i, j :: 0 <= i < j < |reported| ==> reported[i] != reported[j])
  }

  predicate Ready(k: Config, s: State, a: Action) {
    && a.t in s.threads
    && var th := s.threads[a.t];
    match a
    case Test(_) => th.pc == Head
    case Lock(_) => th.pc == Locking && s.owner == None
    case TryLock(_) => th.pc == Trying
    case Register(_) => th.pc == Acquired
    case Wait(_, reported) => th.pc == Polling && Reportable(reported, th.interest)
    case Process(_, interest) =>
      && th.pc.Serving? && th.pc.todo != [] && th.pc.todo[0] != k.listen
      && (k.listen in interest <==> k.listen in th.interest)
    case StartAccepting(_) => th.pc.Serving? && th.pc.todo != [] && th.pc.todo[0] == k.listen
    case Accept(_, conn, _) => th.pc.Accepting? && th.pc.left > 0 && conn != k.listen
    case NothingLeft(_) => th.pc.Accepting? && th.pc.left > 0
    case BatchDone(_) => th.pc.Accepting? && th.pc.left <= 0
    case Remove(_) => th.pc.Removing?
    case Unlock(_) => th.pc.Releasing?
    case NextRound(_) => th.pc.Serving? && th.pc.todo == []
  }

  /** What a step makes of its thread. */
  function Moved(k: Config, s: State, a: Action): Thread
    requires Ready(k, s, a)
  {
    var th := s.threads[a.t];
    match a
    case Test(_) => th.(pc := if th.fdNum == 0 then Locking else Trying)
    case Lock(_) => th.(pc := Acquired)
    case TryLock(_) => th.(pc := if s.owner == None then Acquired else Polling)
    case Register(_) =>
      if k.listen in th.interest then th.(pc := Refused)
      else Thread(Polling, th.fdNum + 1, th.interest + {k.listen})
    case Wait(_, reported) => th.(pc := if th.fdNum > 0 then Serving(reported) else Refused)
    case Process(_, interest) => th.(pc := Serving(th.pc.todo[1..]), interest := interest)
    case StartAccepting(_) => th.(pc := Accepting(k.batch, th.pc.todo[1..]))
    case Accept(_, conn, kept) =>
      var interest := if kept then th.interest + {conn} else th.interest - {conn};
      th.(pc := Accepting(th.pc.left - 1, th.pc.todo), interest := interest)
    case NothingLeft(_) => th.(pc := Removing(th.pc.todo))
    case BatchDone(_) => th.(pc := Removing(th.pc.todo))
    case Remove(_) =>
      if k.listen !in th.interest then th.(pc := Refused)
      else th.(pc := Releasing(th.pc.todo), interest := th.interest - {k.listen})
    case Unlock(_) => th.(pc := if s.owner == Some(a.t) then Serving(th.pc.todo) else Refused)
    case NextRound(_) => th.(pc := Head)
  }

  /** The owner after a step.  A try_lock by the owner fails like any other. */
  function OwnerAfter(s: State, a: Action): Option<int> {
    if a.Lock? || (a.TryLock? && s.owner == None) then Some(a.t)
    else if a.Unlock? && s.owner == Some(a.t) then None
    else s.owner
  }

  function Do(k: Config, s: State, a: Action): State
    requires Ready(k, s, a)
  {
    State(s.threads[a.t := Moved(k, s, a)], OwnerAfter(s, a))
  }

  predicate Initial(s: State) {
    s.owner == None && forall t :: t in s.threads ==> s.threads[t] == Thread(Head, 0, {})
  }

  ghost predicate Follows(k: Config, s: State, s': State) {
    exists a :: Ready(k, s, a) && s' == Do(k, s, a)
  }

  ghost predicate IsRun(k: Config, run: seq<State>) {
    && run != [] && Initial(run[0])
    && forall i :: 0 <= i < |run| - 1 ==> Follows(k, run[i], run[i + 1])
  }

  // ------------------------------------------------------------------ what every step keeps

  /** The two moments at which a thread owns the lock without listening. */
  predicate HandingOver(pc: Pc) {
    pc.Acquired? || pc.Releasing?
  }

  predicate ThreadOk(listen: int, th: Thread, owns: bool) {
    && !th.pc.Refused?
    && (if HandingOver(th.pc) then owns && listen !in th.interest else owns <==> listen in th.interest)
    && (if th.pc.Head? || th.pc.Acquired? then th.fdNum >= 0
        else if th.pc.Locking? then th.fdNum == 0
        else th.fdNum > 0)
    && (owns && !th.pc.Acquired? ==> th.fdNum > 0)
    && (th.pc.Accepting? || th.pc.Removing? ==> owns)
    && match th.pc
       case Serving(todo) => (listen in todo ==> owns) && (forall i, j :: 0 <= i < j < |todo| ==> todo[i] != todo[j])
       case Accepting(_, todo) => listen !in todo && (forall i, j :: 0 <= i < j < |todo| ==> todo[i] != todo[j])
       case Removing(todo) => listen !in todo && (forall i, j :: 0 <= i < j < |todo| ==> todo[i] != todo[j])
       case Releasing(todo) => listen !in todo && (forall i, j :: 0 <= i < j < |todo| ==> todo[i] != todo[j])
       case _ => true
  }

  ghost predicate Inv(k: Config, s: State) {
    && (s.owner.Some? ==> s.owner.value in s.threads)
    && forall t :: t in s.threads ==> ThreadOk(k.listen, s.threads[t], s.owner == Some(t))
  }

  lemma {:induction false} ActorKeeps(k: Config, s: State, a: Action)
    requires Inv(k, s) && Ready(k, s, a)
    ensures ThreadOk(k.listen, Moved(k, s, a), OwnerAfter(s, a) == Some(a.t))
  {
    var th := s.threads[a.t];
    if (a.Process? || a.StartAccepting?) && th.pc.Serving? {
      assert forall i :: 0 <= i < |th.pc.todo| - 1 ==> th.pc.todo[1..][i] == th.pc.todo[i + 1];
    }
  }

  /** Nobody else's right to the lock changes. */
  lemma {:induction false} OthersKeep(k: Config, s: State, a: Action, t: int)
    requires Inv(k, s) && Ready(k, s, a) && t != a.t
    ensures OwnerAfter(s, a) == Some(t) <==> s.owner == Some(t)
  {
    assert ThreadOk(k.listen, s.threads[a.t], s.owner == Some(a.t));
  }

  lemma {:induction false} DoKeepsInv(k: Config, s: State, a: Action)
    requires Inv(k, s) && Ready(k, s, a)
    ensures Inv(k, Do(k, s, a))
  {
    ActorKeeps(k, s, a);
    forall t | t in s.threads && t != a.t
      ensures ThreadOk(k.listen, s.threads[t], OwnerAfter(s, a) == Some(t))
    {
      OthersKeep(k, s, a, t);
    }
  }

  lemma {:induction false} RunInv(k: Config, run: seq<State>, i: nat)
    requires IsRun(k, run) && i < |run|
    ensures Inv(k, run[i])
  {
    if i > 0 {
      RunInv(k, run, i - 1);
      assert Follows(k, run[i - 1], run[i - 1 + 1]);
      var a :| Ready(k, run[i - 1], a) && run[i] == Do(k, run[i - 1], a);
      DoKeepsInv(k, run[i - 1], a);
    }
  }

  // ------------------------------------------------------------------ what holds in every run

  /** A thread owns the lock if and only if its epoll set contains the listening socket, but
      for the moments right before it registers and right after it deregisters it; at the
      head of the loop there is no such moment. */
  lemma {:induction false} OwnsExactlyWhenListening(k: Config, run: seq<State>, i: nat, t: int)
    requires IsRun(k, run) && i < |run| && t in run[i].threads && !HandingOver(run[i].threads[t].pc)
    ensures run[i].owner == Some(t) <==> k.listen in run[i].threads[t].interest
  {
    RunInv(k, run, i);
  }

  /** The thread is anywhere between taking the lock and releasing it. */
  predicate Listens(k: Config, th: Thread) {
    k.listen in th.interest || th.pc.Accepting? || HandingOver(th.pc)
  }

  /** At most one thread listens, and at most one is between registering and releasing. */
  lemma {:induction false} OneAcceptor(k: Config, run: seq<State>, i: nat, t: int, u: int)
    requires IsRun(k, run) && i < |run| && t in run[i].threads && u in run[i].threads
    requires Listens(k, run[i].threads[t]) && Listens(k, run[i].threads[u])
    ensures t == u
  {
    RunInv(k, run, i);
    assert run[i].owner == Some(t) && run[i].owner == Some(u);
  }

  /** No assertion fails, no descriptor is registered twice or deregistered in vain, and the
      lock is released by its owner only. */
  lemma {:induction false} NothingIsRefused(k: Config, run: seq<State>, i: nat, t: int)
    requires IsRun(k, run) && i < |run| && t in run[i].threads
    ensures !run[i].threads[t].pc.Refused?
    ensures run[i].threads[t].pc.Polling? ==> run[i].threads[t].fdNum > 0
    ensures run[i].threads[t].pc.Releasing? ==> run[i].owner == Some(t)
  {
    RunInv(k, run, i);
  }

  /** A thread that does not wait for the lock can take a step. */
  lemma {:induction false} CanStep(k: Config, s: State, t: int) returns (a: Action)
    requires t in s.threads && !s.threads[t].pc.Locking? && !s.threads[t].pc.Refused?
    ensures a.t == t && Ready(k, s, a)
  {
    var th := s.threads[t];
    a := match th.pc
      case Head => Test(t)
      case Trying => TryLock(t)
      case Acquired => Register(t)
      case Polling => Wait(t, [])
      case Serving(todo) =>
        if todo == [] then NextRound(t)
        else if todo[0] == k.listen then StartAccepting(t)
        else Process(t, th.interest)
      case Accepting(left, _) => if left > 0 then NothingLeft(t) else BatchDone(t)
      case Removing(_) => Remove(t)
      case Releasing(_) => Unlock(t)
      case _ => NextRound(t);
  }

  lemma {:induction false} HolderCanStep(k: Config, s: State, u: int) returns (a: Action)
    requires Inv(k, s) && s.owner == Some(u)
    ensures a.t == u && Ready(k, s, a)
  {
    assert ThreadOk(k.listen, s.threads[u], true);
    a := CanStep(k, s, u);
  }

  lemma {:induction false} WaiterIsNotHolder(k: Config, s: State, t: int)
    requires Inv(k, s) && t in s.threads && s.threads[t].pc.Locking?
    ensures s.owner != Some(t)
  {
    assert ThreadOk(k.listen, s.threads[t], s.owner == Some(t));
  }

  /** Whoever waits for the lock waits for another thread, and that thread is not waiting. */
  lemma {:induction false} NobodyWaitsInVain(k: Config, run: seq<State>, i: nat, t: int)
    requires IsRun(k, run) && i < |run| && t in run[i].threads && run[i].threads[t].pc.Locking?
    ensures || Ready(k, run[i], Lock(t))
            || exists a: Action :: a.t != t && run[i].owner == Some(a.t) && Ready(k, run[i], a)
  {
    RunInv(k, run, i);
    WaiterIsNotHolder(k, run[i], t);
    if run[i].owner.Some? {
      var a := HolderCanStep(k, run[i], run[i].owner.value);
    }
  }

  /** Has the listening socket been reported to this thread, and not been released since? */
  predicate Reported(k: Config, pc: Pc) {
    (pc.Serving? && k.listen in pc.todo) || pc.Accepting? || pc.Removing? || pc.Releasing?
  }

  /** How many steps of its own the thread is away from the release at most. */
  function StepsToRelease(k: Config, pc: Pc): nat {
    var batch := if k.batch > 0 then k.batch else 0;
    match pc
    case Serving(todo) => |todo| + batch + 3
    case Accepting(left, _) => (if left > 0 then left else 0) + 3
    case Removing(_) => 2
    case Releasing(_) => 1
    case _ => 0
  }

  /** Once the listening socket has been reported, every step of the thread is one step nearer
      to the release of the lock, whatever happens on the other descriptors. */
  lemma {:induction false} ReleaseComesNearer(k: Config, run: seq<State>, i: nat, a: Action)
    requires IsRun(k, run) && i < |run| && Ready(k, run[i], a) && Reported(k, run[i].threads[a.t].pc)
    ensures run[i].owner == Some(a.t)
    ensures var pc, s' := run[i].threads[a.t].pc, Do(k, run[i], a);
            if a.Unlock? then s'.owner == None
            else s'.owner == Some(a.t) && Reported(k, s'.threads[a.t].pc)
                 && StepsToRelease(k, s'.threads[a.t].pc) < StepsToRelease(k, pc)
  {
    RunInv(k, run, i);
    var s := run[i];
    assert ThreadOk(k.listen, s.threads[a.t], s.owner == Some(a.t));
    if a.Process? {
      var todo := s.threads[a.t].pc.todo;
      assert todo == [todo[0]] + todo[1..];
    }
  }
}
