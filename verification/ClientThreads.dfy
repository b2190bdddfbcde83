/** The client's threads, the pool lock and the condition variable. */
module ClientThreads {
  import opened Common
  import opened WorkPool

  /** Where a thread is in `_run`.  `Refused` stands for a failed assertion or the release of
      a lock that the thread does not own. */
  datatype Pc =
    | Head
    | Locking            // at unique_lock
    | Testing            // owns the lock, evaluates the condition of the wait
    | Asleep             // in the condition variable
    | Woken              // must own the lock again before it can leave the wait
    | Peeking            // at the test of the size without the lock
    | Trying             // at try_lock()
    | Taking(left: int)  // owns the lock, in _get_from_pool
    | Releasing
    | Polling            // at the assertion and epoll_wait
    | Refused

  datatype Thread = Thread(pc: Pc, fdNum: int)

  /** `notices` counts the adders that have left their critical section and not yet notified;
      `added` and `handed` are history. */
  datatype State = State(
    pool: Pool, threads: map<int, Thread>, owner: Option<int>, notices: nat,
    added: multiset<Target>, handed: multiset<Target>)

  datatype Config = Config(hash: Hashing, batch: int)

  datatype Action =
    | Add(target: Target)          // add() up to the end of its critical section
    | Notify                       // its notify_all()
    | Test(t: int)
    | Lock(t: int)
    | Decide(t: int)
    | WakeUp(t: int)               // for no reason
    | Peek(t: int, nonempty: bool) // without the lock: any answer
    | TryLock(t: int)
    | Take(t: int)                 // one round of the loop in _get_from_pool
    | Unlock(t: int)
    | Wait(t: int)

  predicate At(s: State, t: int, pc: Pc) {
    t in s.threads && s.threads[t].pc == pc
  }

  ghost predicate Ready(k: Config, s: State, a: Action) {
    && Wellformed(k.hash, s.pool)
    && match a
       case Add(_) => s.owner == None
       case Notify => s.notices > 0
       case Test(t) => At(s, t, Head)
       case Lock(t) => (At(s, t, Locking) || At(s, t, Woken)) && s.owner == None
       case Decide(t) => At(s, t, Testing)
       case WakeUp(t) => At(s, t, Asleep)
       case Peek(t, _) => At(s, t, Peeking)
       case TryLock(t) => At(s, t, Trying)
       case Take(t) => t in s.threads && s.threads[t].pc.Taking?
       case Unlock(t) => At(s, t, Releasing)
       case Wait(t) => At(s, t, Polling)
  }

  function Goto(s: State, t: int, pc: Pc): State
    requires t in s.threads
  {
    s.(threads := s.threads[t := s.threads[t].(pc := pc)])
  }

  function Awake(th: Thread): Thread {
    if th.pc == Asleep then th.(pc := Woken) else th
  }

  ghost function Do(k: Config, s: State, a: Action): State
    requires Ready(k, s, a)
  {
    match a
    case Add(target) =>
      s.(pool := Added(k.hash, s.pool, target), added := s.added + multiset{target}, notices := s.notices + 1)
    case Notify => s.(notices := s.notices - 1, threads := map t | t in s.threads :: Awake(s.threads[t]))
    case Test(t) => Goto(s, t, if s.threads[t].fdNum == 0 then Locking else Peeking)
    case Lock(t) => Goto(s, t, Testing).(owner := Some(t))
    case Decide(t) => if s.pool == map[] then Goto(s, t, Asleep).(owner := None) else Goto(s, t, Taking(k.batch))
    case WakeUp(t) => Goto(s, t, Woken)
    case Peek(t, nonempty) => Goto(s, t, if nonempty then Trying else Polling)
    case TryLock(t) => if s.owner == None then Goto(s, t, Taking(k.batch)).(owner := Some(t)) else Goto(s, t, Polling)
    case Take(t) =>
      var th := s.threads[t];
      if th.pc.left == 0 || s.pool == map[] then Goto(s, t, Releasing)
      else
        s.(pool := Without(s.pool), handed := s.handed + multiset{Next(s.pool)},
        threads := s.threads[t := Thread(Taking(th.pc.left - 1), th.fdNum + 1)])
    case Unlock(t) => if s.owner == Some(t) then Goto(s, t, Polling).(owner := None) else Goto(s, t, Refused)
    case Wait(t) => Goto(s, t, if s.threads[t].fdNum > 0 then Head else Refused)
  }

  ghost predicate Initial(s: State) {
    && s.pool == map[] && s.owner == None && s.notices == 0 && s.added == s.handed == multiset{}
    && forall t :: t in s.threads ==> s.threads[t] == Thread(Head, 0)
  }

  ghost predicate Follows(k: Config, s: State, s': State) {
    exists a :: Ready(k, s, a) && s' == Do(k, s, a)
  }

  ghost predicate IsRun(k: Config, run: seq<State>) {
    && run != [] && Initial(run[0])
    && forall i :: 0 <= i < |run| - 1 ==> Follows(k, run[i], run[i + 1])
  }

  // ------------------------------------------------------------------ what every step keeps

  predicate InCharge(pc: Pc) {
    pc.Testing? || pc.Taking? || pc.Releasing?
  }

  ghost predicate ThreadOk(batch: int, th: Thread, owns: bool, empty: bool, notices: nat) {
    && th.fdNum >= 0
    && (owns <==> InCharge(th.pc))
    && match th.pc
       case Head => true
       case Locking => th.fdNum == 0
       case Testing => th.fdNum == 0
       case Asleep => th.fdNum == 0 && (empty || notices > 0)
       case Woken => th.fdNum == 0
       case Peeking => th.fdNum > 0
       case Trying => th.fdNum > 0
       case Taking(left) => th.fdNum > 0 || (left == batch && !empty)
       case Releasing => th.fdNum > 0 || batch == 0
       case Polling => th.fdNum > 0 || batch == 0
       case Refused => batch == 0
  }

  ghost predicate ThreadsOk(k: Config, s: State) {
    && (s.owner.Some? ==> s.owner.value in s.threads)
    && forall t :: t in s.threads ==> ThreadOk(k.batch, s.threads[t], s.owner == Some(t), s.pool == map[], s.notices)
  }

  ghost predicate Inv(k: Config, s: State) {
    Conserved(k.hash, s.pool, s.added, s.handed) && ThreadsOk(k, s)
  }

  lemma {:induction false} WorkIsConserved(k: Config, s: State, a: Action)
    requires Conserved(k.hash, s.pool, s.added, s.handed) && Ready(k, s, a)
    ensures var s' := Do(k, s, a); Conserved(k.hash, s'.pool, s'.added, s'.handed)
  {
    match a
    case Add(target) => AddConserves(k.hash, s.pool, s.added, s.handed, target);
    case Take(t) =>
      if s.threads[t].pc.left != 0 && s.pool != map[] {
        TakeConserves(k.hash, s.pool, s.added, s.handed);
      }
    case _ =>
  }

  /** The thread that takes the step. */
  predicate Acts(a: Action, t: int) {
    !a.Add? && !a.Notify? && a.t == t
  }

  lemma {:induction false} ActorStaysOk(k: Config, s: State, a: Action, t: int)
    requires t in s.threads && ThreadsOk(k, s) && Ready(k, s, a) && Acts(a, t)
    ensures var s' := Do(k, s, a);
            t in s'.threads && ThreadOk(k.batch, s'.threads[t], s'.owner == Some(t), s'.pool == map[], s'.notices)
  {
  }

  /** A step leaves the other threads alone, and takes from the pool only if it is the owner's. */
  lemma {:induction false} ActorFrame(k: Config, s: State, a: Action, t: int, u: int)
    requires t in s.threads && u in s.threads && u != t && ThreadsOk(k, s) && Ready(k, s, a) && Acts(a, t)
    ensures var s' := Do(k, s, a);
            && u in s'.threads && s'.threads[u] == s.threads[u] && s'.notices == s.notices
            && (s'.owner == Some(u) <==> s.owner == Some(u))
            && (s'.pool != s.pool ==> s.owner == Some(t))
            && (s.pool == map[] ==> s'.pool == map[])
  {
  }

  lemma {:induction false} OthersStayOk(k: Config, s: State, a: Action, t: int, u: int)
    requires t in s.threads && u in s.threads && u != t && ThreadsOk(k, s) && Ready(k, s, a) && Acts(a, t)
    ensures var s' := Do(k, s, a);
            u in s'.threads && ThreadOk(k.batch, s'.threads[u], s'.owner == Some(u), s'.pool == map[], s'.notices)
  {
    ActorFrame(k, s, a, t, u);
    assert ThreadOk(k.batch, s.threads[u], s.owner == Some(u), s.pool == map[], s.notices);
  }

  lemma {:induction false} AddStaysOk(k: Config, s: State, target: Target)
    requires ThreadsOk(k, s) && Ready(k, s, Add(target))
    ensures ThreadsOk(k, Do(k, s, Add(target)))
  {
  }

  lemma {:induction false} NotifyStaysOk(k: Config, s: State)
    requires ThreadsOk(k, s) && Ready(k, s, Notify)
    ensures ThreadsOk(k, Do(k, s, Notify))
  {
    forall t | t in s.threads
      ensures ThreadOk(k.batch, Awake(s.threads[t]), s.owner == Some(t), s.pool == map[], s.notices - 1)
    {
      assert ThreadOk(k.batch, s.threads[t], s.owner == Some(t), s.pool == map[], s.notices);
    }
  }

  lemma {:induction false} ThreadsStayOk(k: Config, s: State, a: Action)
    requires ThreadsOk(k, s) && Ready(k, s, a)
    ensures ThreadsOk(k, Do(k, s, a))
  {
    match a
    case Add(target) => AddStaysOk(k, s, target);
    case Notify => NotifyStaysOk(k, s);
    case _ =>
      ActorStaysOk(k, s, a, a.t);
      OwnerIsThere(k, s, a);
      forall u | u in s.threads && u != a.t
        ensures var s' := Do(k, s, a);
                ThreadOk(k.batch, s'.threads[u], s'.owner == Some(u), s'.pool == map[], s'.notices)
      {
        OthersStayOk(k, s, a, a.t, u);
      }
  }

  lemma {:induction false} OwnerIsThere(k: Config, s: State, a: Action)
    requires ThreadsOk(k, s) && Ready(k, s, a) && !a.Add? && !a.Notify?
    ensures var s' := Do(k, s, a);
            s'.threads.Keys == s.threads.Keys && (s'.owner.Some? ==> s'.owner.value in s'.threads)
  {
  }

  lemma {:induction false} RunInv(k: Config, run: seq<State>, i: nat)
    requires IsRun(k, run) && i < |run|
    ensures Inv(k, run[i])
  {
    if i > 0 {
      RunInv(k, run, i - 1);
      assert Follows(k, run[i - 1], run[i - 1 + 1]);
      var a :| Ready(k, run[i - 1], a) && run[i] == Do(k, run[i - 1], a);
      WorkIsConserved(k, run[i - 1], a);
      ThreadsStayOk(k, run[i - 1], a);
    }
  }

  // ------------------------------------------------------------------ what holds in every run

  /** Exactly once: every target added has been handed to one thread or still waits, and not
      both, when the hosts' keys differ; the numbers agree in any case. */
  lemma {:induction false} HandedOutExactlyOnce(k: Config, run: seq<State>, i: nat)
    requires IsRun(k, run) && i < |run|
    ensures |run[i].handed| + Total(run[i].pool) == |run[i].added|
    ensures Injective(k.hash, run[i].added) ==>
              forall t :: run[i].handed[t] + Count(k.hash, run[i].pool, t) == run[i].added[t]
    ensures forall key :: key in run[i].pool ==> run[i].pool[key].inits != []
  {
    RunInv(k, run, i);
  }

  /** What a hold of the lock has come to, that began with `total` targets waiting, `handed`
      handed out and `fd` counted by the thread. */
  ghost predicate HoldOk(k: Config, s: State, t: int, total: nat, handed: nat, fd: int) {
    && t in s.threads
    && var taken := s.threads[t].fdNum - fd;
    && 0 <= taken <= total && Total(s.pool) == total - taken && |s.handed| == handed + taken
    && match s.threads[t].pc
       case Testing => taken == 0
       case Taking(left) => left == k.batch - taken && (k.batch >= 0 ==> left >= 0)
       case Releasing => taken == if 0 <= k.batch < total then k.batch else total
       case _ => false
  }

  lemma {:induction false} TakeKeepsHold(k: Config, s: State, t: int, total: nat, handed: nat, fd: int)
    requires HoldOk(k, s, t, total, handed, fd) && Ready(k, s, Take(t))
    ensures HoldOk(k, Do(k, s, Take(t)), t, total, handed, fd)
  {
    EmptyMeansNone(k.hash, s.pool);
    if s.pool != map[] {
      TakeTotal(k.hash, s.pool);
    }
  }

  /** While t owns the lock nobody else changes the pool. */
  lemma {:induction false} OthersKeepHold(k: Config, s: State, a: Action, t: int)
    requires ThreadsOk(k, s) && t in s.threads && s.owner == Some(t) && Ready(k, s, a) && !Acts(a, t)
    ensures var s' := Do(k, s, a);
            t in s'.threads && s'.threads[t] == s.threads[t] && s'.pool == s.pool && s'.handed == s.handed
  {
    assert ThreadOk(k.batch, s.threads[t], s.owner == Some(t), s.pool == map[], s.notices);
    if !a.Add? && !a.Notify? {
      ActorFrame(k, s, a, a.t, t);
    }
  }

  lemma {:induction false} OwnStepKeepsHold(k: Config, s: State, a: Action, t: int, total: nat, handed: nat, fd: int)
    requires HoldOk(k, s, t, total, handed, fd) && Ready(k, s, a) && Acts(a, t)
    requires s.owner == Some(t) && Do(k, s, a).owner == Some(t)
    ensures HoldOk(k, Do(k, s, a), t, total, handed, fd)
  {
    if a.Take? {
      TakeKeepsHold(k, s, t, total, handed, fd);
    }
  }

  lemma {:induction false} HoldStep(k: Config, s: State, s': State, t: int, total: nat, handed: nat, fd: int)
    requires ThreadsOk(k, s) && Follows(k, s, s') && s.owner == Some(t) && s'.owner == Some(t)
    requires HoldOk(k, s, t, total, handed, fd)
    ensures HoldOk(k, s', t, total, handed, fd)
  {
    var a :| Ready(k, s, a) && s' == Do(k, s, a);
    if Acts(a, t) {
      OwnStepKeepsHold(k, s, a, t, total, handed, fd);
    } else {
      OthersKeepHold(k, s, a, t);
    }
  }

  lemma {:induction false} OthersGiveNoLock(k: Config, s: State, a: Action, t: int)
    requires Ready(k, s, a) && s.owner != Some(t) && a != Lock(t) && a != TryLock(t)
    ensures Do(k, s, a).owner != Some(t)
  {
  }

  lemma {:induction false} LockBegins(k: Config, s: State, a: Action, t: int)
    requires Ready(k, s, a) && (a == Lock(t) || a == TryLock(t)) && s.owner != Some(t) && Do(k, s, a).owner == Some(t)
    ensures t in s.threads && HoldOk(k, Do(k, s, a), t, Total(s.pool), |s.handed|, s.threads[t].fdNum)
  {
  }

  /** Taking the lock, one way or the other, starts a hold with the whole batch to take. */
  lemma {:induction false} HoldBegins(k: Config, s: State, s': State, t: int)
    requires Follows(k, s, s') && s.owner != Some(t) && s'.owner == Some(t)
    ensures t in s.threads && HoldOk(k, s', t, Total(s.pool), |s.handed|, s.threads[t].fdNum)
  {
    var a :| Ready(k, s, a) && s' == Do(k, s, a);
    if a == Lock(t) || a == TryLock(t) {
      LockBegins(k, s, a, t);
    } else {
      OthersGiveNoLock(k, s, a, t);
    }
  }

  lemma {:induction false} HoldSoFar(k: Config, run: seq<State>, i: nat, j: nat, t: int)
    requires IsRun(k, run) && i < j < |run| && run[i].owner != Some(t)
    requires forall m :: i < m <= j ==> run[m].owner == Some(t)
    ensures t in run[i].threads && HoldOk(k, run[j], t, Total(run[i].pool), |run[i].handed|, run[i].threads[t].fdNum)
    decreases j
  {
    var m := j - 1;
    assert Follows(k, run[m], run[m + 1]);
    if m == i {
      HoldBegins(k, run[i], run[j], t);
    } else {
      HoldSoFar(k, run, i, m, t);
      RunInv(k, run, m);
      HoldStep(k, run[m], run[j], t, Total(run[i].pool), |run[i].handed|, run[i].threads[t].fdNum);
    }
  }

  /** One hold of the lock, in a run with any number of other threads and adders.  From the
      moment before a thread takes the lock, waiting for it or finding it free, to the moment
      before it releases it, the thread has taken exactly the batch, or all there was if that is
      less or the batch is negative, and nobody else has taken anything. */
  lemma {:induction false} HoldTakesBatch(k: Config, run: seq<State>, i: nat, j: nat, t: int)
    requires IsRun(k, run) && i < j < |run| && run[i].owner != Some(t) && At(run[j], t, Releasing)
    requires forall m :: i < m <= j ==> run[m].owner == Some(t)
    ensures t in run[i].threads
    ensures var total := Total(run[i].pool);
            var taken := if 0 <= k.batch < total then k.batch else total;
            && run[j].threads[t].fdNum == run[i].threads[t].fdNum + taken
            && Total(run[j].pool) == total - taken && |run[j].handed| == |run[i].handed| + taken
  {
    HoldSoFar(k, run, i, j, t);
  }

  /** Only the owner of the lock touches the pool, and it alone releases it. */
  lemma {:induction false} OneTakes(k: Config, run: seq<State>, i: nat, t: int)
    requires IsRun(k, run) && i < |run| && t in run[i].threads
    ensures InCharge(run[i].threads[t].pc) <==> run[i].owner == Some(t)
  {
    RunInv(k, run, i);
  }

  /** States that follow one another. */
  ghost predicate Path(k: Config, path: seq<State>) {
    path != [] && forall i :: 0 <= i < |path| - 1 ==> Follows(k, path[i], path[i + 1])
  }

  lemma {:induction false} Onward(k: Config, path: seq<State>, a: Action) returns (longer: seq<State>)
    requires Path(k, path) && Ready(k, path[|path| - 1], a)
    ensures Path(k, longer) && longer[0] == path[0]
    ensures longer[|longer| - 1] == Do(k, path[|path| - 1], a)
  {
    var s' := Do(k, path[|path| - 1], a);
    longer := path + [s'];
    assert Follows(k, path[|path| - 1], s');
  }

  lemma {:induction false} TakeRest(k: Config, path: seq<State>, t: int, total: nat, handed: nat, fd: int)
    returns (longer: seq<State>)
    requires Path(k, path) && HoldOk(k, path[|path| - 1], t, total, handed, fd)
    requires var s := path[|path| - 1]; s.threads[t].pc.Taking? && s.owner == Some(t) && Wellformed(k.hash, s.pool)
    ensures Path(k, longer) && longer[0] == path[0]
    ensures var s := longer[|longer| - 1];
            HoldOk(k, s, t, total, handed, fd) && s.threads[t].pc == Releasing && s.owner == Some(t)
            && Wellformed(k.hash, s.pool)
    decreases Total(path[|path| - 1].pool)
  {
    var s := path[|path| - 1];
    TakeKeepsHold(k, s, t, total, handed, fd);
    longer := Onward(k, path, Take(t));
    EmptyMeansNone(k.hash, s.pool);
    if s.threads[t].pc.left != 0 && s.pool != map[] {
      TakeTotal(k.hash, s.pool);
      OtherKeys(k.hash, s.pool, Next(s.pool));
      longer := TakeRest(k, longer, t, total, handed, fd);
    }
  }

  /** Whoever is at the head of its loop, asleep or woken. */
  predicate Seeking(s: State, t: int) {
    At(s, t, Head) || At(s, t, Asleep) || At(s, t, Woken)
  }

  /** It owns the lock and has the whole batch before it. */
  ghost predicate AtBatch(k: Config, s: State, t: int, total: nat, handed: nat, fd: int) {
    && HoldOk(k, s, t, total, handed, fd)
    && s.threads[t].pc.Taking? && s.owner == Some(t) && Wellformed(k.hash, s.pool)
  }

  lemma {:induction false} IdleToBatch(k: Config, s: State, t: int) returns (path: seq<State>)
    requires Inv(k, s) && At(s, t, Head) && s.threads[t].fdNum == 0 && s.owner == None && s.pool != map[]
    ensures Path(k, path) && path[0] == s
    ensures AtBatch(k, path[|path| - 1], t, Total(s.pool), |s.handed|, s.threads[t].fdNum)
  {
    path := Onward(k, [s], Test(t));
    path := Onward(k, path, Lock(t));
    path := Onward(k, path, Decide(t));
  }

  lemma {:induction false} BusyToBatch(k: Config, s: State, t: int) returns (path: seq<State>)
    requires Inv(k, s) && At(s, t, Head) && s.threads[t].fdNum != 0 && s.owner == None && s.pool != map[]
    ensures Path(k, path) && path[0] == s
    ensures AtBatch(k, path[|path| - 1], t, Total(s.pool), |s.handed|, s.threads[t].fdNum)
  {
    path := Onward(k, [s], Test(t));
    path := Onward(k, path, Peek(t, true));
    path := Onward(k, path, TryLock(t));
  }

  lemma {:induction false} SleepToBatch(k: Config, s: State, t: int) returns (path: seq<State>)
    requires Inv(k, s) && (At(s, t, Asleep) || At(s, t, Woken)) && s.owner == None && s.pool != map[]
    ensures Path(k, path) && path[0] == s
    ensures AtBatch(k, path[|path| - 1], t, Total(s.pool), |s.handed|, s.threads[t].fdNum)
  {
    path := [s];
    if At(s, t, Asleep) {
      path := Onward(k, path, Notify);
    }
    path := Onward(k, path, Lock(t));
    path := Onward(k, path, Decide(t));
  }

  /** A thread that comes to the head of its loop while targets wait and the lock is free can
      always get its batch, whether it has connections already or none, and so can one that
      sleeps, through the notification that is due, or has been woken. */
  lemma {:induction false} GetsWork(k: Config, s: State, t: int) returns (path: seq<State>)
    requires Inv(k, s) && Seeking(s, t) && s.owner == None && s.pool != map[]
    ensures Path(k, path) && path[0] == s
    ensures var s' := path[|path| - 1];
            var total := Total(s.pool);
            var taken := if 0 <= k.batch < total then k.batch else total;
            && At(s', t, Polling) && s'.owner == None
            && s'.threads[t].fdNum == s.threads[t].fdNum + taken
            && Total(s'.pool) == total - taken && |s'.handed| == |s.handed| + taken
  {
    if At(s, t, Head) && s.threads[t].fdNum == 0 {
      path := IdleToBatch(k, s, t);
    } else if At(s, t, Head) {
      path := BusyToBatch(k, s, t);
    } else {
      path := SleepToBatch(k, s, t);
    }
    path := TakeRest(k, path, t, Total(s.pool), |s.handed|, s.threads[t].fdNum);
    path := Onward(k, path, Unlock(t));
  }

  /** No wakeup is lost: while a thread sleeps and a target waits, a notification is due. */
  lemma {:induction false} NoLostWakeup(k: Config, run: seq<State>, i: nat, t: int)
    requires IsRun(k, run) && i < |run| && At(run[i], t, Asleep) && run[i].pool != map[]
    ensures Ready(k, run[i], Notify) && At(Do(k, run[i], Notify), t, Woken)
  {
    RunInv(k, run, i);
  }

  lemma {:induction false} CanStep(k: Config, s: State, t: int) returns (a: Action)
    requires Inv(k, s) && t in s.threads && !s.threads[t].pc.Refused? && !s.threads[t].pc.Asleep?
    requires s.threads[t].pc.Locking? || s.threads[t].pc.Woken? ==> s.owner == None
    ensures !a.Add? && !a.WakeUp? && Ready(k, s, a)
  {
    a := match s.threads[t].pc
      case Head => Test(t)
      case Locking => Lock(t)
      case Testing => Decide(t)
      case Woken => Lock(t)
      case Peeking => Peek(t, false)
      case Trying => TryLock(t)
      case Taking(_) => Take(t)
      case Releasing => Unlock(t)
      case _ => Wait(t);
  }

  /** The threads stop only when there is nothing to do: if one of them is not asleep, or a
      target waits, a step other than a new target is possible. */
  lemma {:induction false} StopsOnlyWhenIdle(k: Config, run: seq<State>, i: nat, t: int)
    requires IsRun(k, run) && i < |run| && k.batch != 0 && t in run[i].threads
    requires !At(run[i], t, Asleep) || run[i].pool != map[]
    ensures exists a: Action :: !a.Add? && !a.WakeUp? && Ready(k, run[i], a)
  {
    RunInv(k, run, i);
    var s := run[i];
    assert ThreadOk(k.batch, s.threads[t], s.owner == Some(t), s.pool == map[], s.notices);
    if At(s, t, Asleep) {
      assert Ready(k, s, Notify);
    } else if s.owner.Some? {
      var u := s.owner.value;
      assert ThreadOk(k.batch, s.threads[u], true, s.pool == map[], s.notices);
      var a := CanStep(k, s, u);
    } else {
      var a := CanStep(k, s, t);
    }
  }

  /** One thread, one target. */
  function Lone(pool: Pool, added: multiset<Target>, notices: nat, pc: Pc, owner: Option<int>): State {
    State(pool, map[0 := Thread(pc, 0)], owner, notices, added, multiset{})
  }

  lemma {:induction false} LoneGoto(pool: Pool, added: multiset<Target>, n: nat, pc: Pc,
        owner: Option<int>, pc': Pc, owner': Option<int>)
    ensures Goto(Lone(pool, added, n, pc, owner), 0, pc').(owner := owner') == Lone(pool, added, n, pc', owner')
  {
    assert map[0 := Thread(pc, 0)][0 := Thread(pc', 0)] == map[0 := Thread(pc', 0)];
  }

  lemma {:induction false} Extend(k: Config, run: seq<State>, a: Action, s: State) returns (longer: seq<State>)
    requires IsRun(k, run) && Ready(k, run[|run| - 1], a) && Do(k, run[|run| - 1], a) == s
    ensures IsRun(k, longer) && longer == run + [s]
  {
    longer := run + [s];
  }

  lemma {:induction false} LoneStep(k: Config, pool: Pool, added: multiset<Target>)
    requires Wellformed(k.hash, pool) && pool != map[] && k.batch == 0
    ensures var s0, s1 := Lone(pool, added, 1, Head, None), Lone(pool, added, 1, Locking, None);
            Ready(k, s0, Test(0)) && Do(k, s0, Test(0)) == s1
    ensures var s1, s2 := Lone(pool, added, 1, Locking, None), Lone(pool, added, 1, Testing, Some(0));
            Ready(k, s1, Lock(0)) && Do(k, s1, Lock(0)) == s2
    ensures var s2, s3 := Lone(pool, added, 1, Testing, Some(0)), Lone(pool, added, 1, Taking(0), Some(0));
            Ready(k, s2, Decide(0)) && Do(k, s2, Decide(0)) == s3
    ensures var s3, s4 := Lone(pool, added, 1, Taking(0), Some(0)), Lone(pool, added, 1, Releasing, Some(0));
            Ready(k, s3, Take(0)) && Do(k, s3, Take(0)) == s4
    ensures var s4, s5 := Lone(pool, added, 1, Releasing, Some(0)), Lone(pool, added, 1, Polling, None);
            Ready(k, s4, Unlock(0)) && Do(k, s4, Unlock(0)) == s5
    ensures var s5, s6 := Lone(pool, added, 1, Polling, None), Lone(pool, added, 1, Refused, None);
            Ready(k, s5, Wait(0)) && Do(k, s5, Wait(0)) == s6
  {
    LoneGoto(pool, added, 1, Head, None, Locking, None);
    LoneGoto(pool, added, 1, Locking, None, Testing, Some(0));
    LoneGoto(pool, added, 1, Testing, Some(0), Taking(0), Some(0));
    LoneGoto(pool, added, 1, Taking(0), Some(0), Releasing, Some(0));
    LoneGoto(pool, added, 1, Releasing, Some(0), Polling, None);
    LoneGoto(pool, added, 1, Polling, None, Refused, None);
  }

  /** With a batch of nothing a thread is woken, takes nothing and fails its assertion. */
  lemma {:induction false} EmptyBatchFails(k: Config) returns (run: seq<State>)
    requires k.batch == 0
    ensures IsRun(k, run) && At(run[|run| - 1], 0, Refused)
  {
    var target := Target(Host("", 0), "");
    var pool, added := Added(k.hash, map[], target), multiset{target};
    AddCounts(k.hash, map[], target, target);
    run := [Lone(map[], multiset{}, 0, Head, None)];
    run := Extend(k, run, Add(target), Lone(pool, added, 1, Head, None));
    LoneStep(k, pool, added);
    run := Extend(k, run, Test(0), Lone(pool, added, 1, Locking, None));
    run := Extend(k, run, Lock(0), Lone(pool, added, 1, Testing, Some(0)));
    run := Extend(k, run, Decide(0), Lone(pool, added, 1, Taking(0), Some(0)));
    run := Extend(k, run, Take(0), Lone(pool, added, 1, Releasing, Some(0)));
    run := Extend(k, run, Unlock(0), Lone(pool, added, 1, Polling, None));
    run := Extend(k, run, Wait(0), Lone(pool, added, 1, Refused, None));
  }

  /** The assertion before epoll_wait never fails, in any run with any number of threads, if
      and only if the batch is not zero. */
  lemma {:induction false} AssertionHoldsExactly(k: Config)
    ensures (forall run: seq<State>, i: nat, t: int ::
               IsRun(k, run) && i < |run| && t in run[i].threads ==> !At(run[i], t, Refused))
       <==> k.batch != 0
  {
    if k.batch == 0 {
      var run := EmptyBatchFails(k);
      var last := |run| - 1;
      assert At(run[last], 0, Refused);
    } else {
      forall run: seq<State>, i: nat, t: int | IsRun(k, run) && i < |run| && t in run[i].threads
        ensures !At(run[i], t, Refused)
      {
        RunInv(k, run, i);
      }
    }
  }
}
