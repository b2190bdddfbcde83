/** What a poll reports is served. */
module ListenServing {
  import opened Common
  import opened ListenLock

  /** A run together with the steps that make it. */
  predicate Trace(k: Config, run: seq<State>, acts: seq<Action>) {
    && |run| == |acts| + 1 && Initial(run[0])
    && forall i :: 0 <= i < |acts| ==> Ready(k, run[i], acts[i]) && run[i + 1] == Do(k, run[i], acts[i])
  }

  /** Every run has its steps. */
  lemma {:induction false} ShorterRun(k: Config, run: seq<State>, n: nat)
    requires IsRun(k, run) && 0 < n < |run|
    ensures IsRun(k, run[..n])
  {
    forall i | 0 <= i < n - 1 ensures Follows(k, run[..n][i], run[..n][i + 1]) {
      assert Follows(k, run[i], run[i + 1]);
    }
  }

  lemma {:induction false} RunHasTrace(k: Config, run: seq<State>) returns (acts: seq<Action>)
    requires IsRun(k, run)
    ensures Trace(k, run, acts)
  {
    acts := [];
    if |run| > 1 {
      var n := |run| - 1;
      ShorterRun(k, run, n);
      var earlier := RunHasTrace(k, run[..n]);
      assert Follows(k, run[n - 1], run[n - 1 + 1]);
      var a :| Ready(k, run[n - 1], a) && run[n] == Do(k, run[n - 1], a);
      acts := earlier + [a];
      forall i | 0 <= i < |acts| ensures Ready(k, run[i], acts[i]) && run[i + 1] == Do(k, run[i], acts[i]) {
        if i < n - 1 {
          assert Ready(k, run[..n][i], earlier[i]) && run[..n][i + 1] == Do(k, run[..n][i], earlier[i]);
        }
      }
    }
  }

  lemma {:induction false} TraceIsRun(k: Config, run: seq<State>, acts: seq<Action>)
    requires Trace(k, run, acts)
    ensures IsRun(k, run)
  {
    forall i | 0 <= i < |run| - 1 ensures Follows(k, run[i], run[i + 1]) {
      assert Ready(k, run[i], acts[i]);
    }
  }

  // ------------------------------------------------------------------ in order, each once

  /** The descriptors that are still to be served. */
  function Todo(pc: Pc): seq<int> {
    match pc
    case Serving(todo) => todo
    case Accepting(_, todo) => todo
    case Removing(todo) => todo
    case Releasing(todo) => todo
    case _ => []
  }

  predicate InService(pc: Pc) {
    pc.Serving? || pc.Accepting? || pc.Removing? || pc.Releasing?
  }

  /** The descriptor that a step of t serves: one it processes, or the listening socket when it
      starts to accept. */
  function ServedBy(k: Config, s: State, a: Action, t: int): seq<int>
    requires Ready(k, s, a)
  {
    if a.t != t then []
    else if a.Process? then [s.threads[t].pc.todo[0]]
    else if a.StartAccepting? then [k.listen]
    else []
  }

  /** What t has served from step i up to step j. */
  function Served(k: Config, run: seq<State>, acts: seq<Action>, t: int, i: nat, j: nat): seq<int>
    requires Trace(k, run, acts) && i <= j <= |acts|
    decreases j
  {
    if i == j then [] else Served(k, run, acts, t, i, j - 1) + ServedBy(k, run[j - 1], acts[j - 1], t)
  }

  /** One step takes one descriptor from the front of the list, or none. */
  lemma {:induction false} ServesFront(k: Config, s: State, a: Action, t: int)
    requires Inv(k, s) && Ready(k, s, a) && t in s.threads && InService(s.threads[t].pc) && a != NextRound(t)
    ensures var s' := Do(k, s, a);
            && t in s'.threads && InService(s'.threads[t].pc)
            && ServedBy(k, s, a, t) + Todo(s'.threads[t].pc) == Todo(s.threads[t].pc)
  {
    assert ThreadOk(k.listen, s.threads[t], s.owner == Some(t));
    var todo := Todo(s.threads[t].pc);
    if a.t == t && (a.Process? || a.StartAccepting?) {
      assert todo == [todo[0]] + todo[1..];
    }
  }

  lemma {:induction false} PollSetsTodo(k: Config, s: State, t: int, reported: seq<int>)
    requires Inv(k, s) && Ready(k, s, Wait(t, reported))
    ensures Do(k, s, Wait(t, reported)).threads[t].pc == Serving(reported)
  {
    assert ThreadOk(k.listen, s.threads[t], s.owner == Some(t));
  }

  lemma {:induction false} TraceStep(k: Config, run: seq<State>, acts: seq<Action>, i: nat)
    requires Trace(k, run, acts) && i < |acts|
    ensures Inv(k, run[i]) && Ready(k, run[i], acts[i]) && run[i + 1] == Do(k, run[i], acts[i])
  {
    TraceIsRun(k, run, acts);
    RunInv(k, run, i);
  }

  /** `served` and what is still to be served make up what was reported. */
  ghost predicate PartServed(s: State, t: int, served: seq<int>, reported: seq<int>) {
    t in s.threads && InService(s.threads[t].pc) && served + Todo(s.threads[t].pc) == reported
  }

  lemma {:induction false} ServeStep(k: Config, s: State, a: Action, t: int, served: seq<int>, reported: seq<int>)
    requires Inv(k, s) && Ready(k, s, a) && a != NextRound(t) && PartServed(s, t, served, reported)
    ensures PartServed(Do(k, s, a), t, served + ServedBy(k, s, a, t), reported)
  {
    ServesFront(k, s, a, t);
    Assoc(served, ServedBy(k, s, a, t), Todo(Do(k, s, a).threads[t].pc));
  }

  lemma {:induction false} ServedSoFar(k: Config, run: seq<State>, acts: seq<Action>, t: int, i: nat, j: nat,
      reported: seq<int>)
    requires Trace(k, run, acts) && i < j <= |acts| && acts[i] == Wait(t, reported)
    requires forall m :: i < m < j ==> acts[m] != NextRound(t)
    ensures PartServed(run[j], t, Served(k, run, acts, t, i + 1, j), reported)
    decreases j
  {
    var m := j - 1;
    TraceStep(k, run, acts, m);
    if m == i {
      PollSetsTodo(k, run[i], t, reported);
      assert [] + reported == reported;
    } else {
      ServedSoFar(k, run, acts, t, i, m, reported);
      ServeStep(k, run[m], acts[m], t, Served(k, run, acts, t, i + 1, m), reported);
    }
  }

  /** Between a poll and the end of its round each reported descriptor is processed, or accepted
      on, exactly once and in the order in which it was reported, whatever other threads do. */
  lemma {:induction false} ReportedAreServed(k: Config, run: seq<State>, acts: seq<Action>, t: int, i: nat, j: nat,
      reported: seq<int>)
    requires Trace(k, run, acts) && i < j < |acts|
    requires acts[i] == Wait(t, reported) && acts[j] == NextRound(t)
    requires forall m :: i < m < j ==> acts[m] != NextRound(t)
    ensures Served(k, run, acts, t, i + 1, j) == reported
  {
    ServedSoFar(k, run, acts, t, i, j, reported);
    TraceStep(k, run, acts, j);
    assert Todo(run[j].threads[t].pc) == [];
    assert Served(k, run, acts, t, i + 1, j) + [] == Served(k, run, acts, t, i + 1, j);
  }

  /** A poll that reports the listening socket starts the way to the release of the lock. */
  lemma {:induction false} PollLeadsToRelease(k: Config, run: seq<State>, i: nat, t: int, reported: seq<int>)
    requires IsRun(k, run) && i < |run| && Ready(k, run[i], Wait(t, reported)) && k.listen in reported
    ensures var s' := Do(k, run[i], Wait(t, reported));
            && run[i].owner == Some(t) && s'.owner == Some(t)
            && Reported(k, s'.threads[t].pc)
            && StepsToRelease(k, s'.threads[t].pc) <= |reported| + (if k.batch > 0 then k.batch else 0) + 3
  {
    RunInv(k, run, i);
    assert ThreadOk(k.listen, run[i].threads[t], run[i].owner == Some(t));
  }

  // ------------------------------------------------------------------ accepting

  /** The connections that t has accepted from step i up to step j. */
  function AcceptedBy(acts: seq<Action>, t: int, i: nat, j: nat): nat
    requires i <= j <= |acts|
    decreases j
  {
    if i == j then 0
    else AcceptedBy(acts, t, i, j - 1) + if acts[j - 1].Accept? && acts[j - 1].t == t then 1 else 0
  }

  /** n connections of the batch have been accepted. */
  predicate PartAccepted(k: Config, s: State, t: int, n: nat) {
    && t in s.threads && s.threads[t].pc.Accepting? && s.threads[t].pc.left == k.batch - n
    && n <= if k.batch > 0 then k.batch else 0
  }

  lemma {:induction false} AcceptStart(k: Config, s: State, t: int)
    requires Ready(k, s, StartAccepting(t))
    ensures PartAccepted(k, Do(k, s, StartAccepting(t)), t, 0)
  {
  }

  lemma {:induction false} AcceptStep(k: Config, s: State, a: Action, t: int, n: nat)
    requires Ready(k, s, a) && a != NothingLeft(t) && a != BatchDone(t) && PartAccepted(k, s, t, n)
    ensures PartAccepted(k, Do(k, s, a), t, n + if a.Accept? && a.t == t then 1 else 0)
  {
  }

  lemma {:induction false} AcceptsSoFar(k: Config, run: seq<State>, acts: seq<Action>, t: int, i: nat, j: nat)
    requires Trace(k, run, acts) && i < j <= |acts| && acts[i] == StartAccepting(t)
    requires forall m :: i < m < j ==> acts[m] != NothingLeft(t) && acts[m] != BatchDone(t)
    ensures PartAccepted(k, run[j], t, AcceptedBy(acts, t, i + 1, j))
    decreases j
  {
    var m := j - 1;
    TraceStep(k, run, acts, m);
    if m == i {
      AcceptStart(k, run[i], t);
    } else {
      AcceptsSoFar(k, run, acts, t, i, m);
      var n := AcceptedBy(acts, t, i + 1, m);
      assert AcceptedBy(acts, t, i + 1, j) == n + if acts[m].Accept? && acts[m].t == t then 1 else 0;
      AcceptStep(k, run[m], acts[m], t, n);
    }
  }

  /** Accepting ends when accept4 would block, or after exactly a batch of connections. */
  lemma {:induction false} AcceptsBatch(k: Config, run: seq<State>, acts: seq<Action>, t: int, i: nat, j: nat)
    requires Trace(k, run, acts) && i < j < |acts| && acts[i] == StartAccepting(t)
    requires forall m :: i < m < j ==> acts[m] != NothingLeft(t) && acts[m] != BatchDone(t)
    requires acts[j] == NothingLeft(t) || acts[j] == BatchDone(t)
    ensures var batch := if k.batch > 0 then k.batch else 0;
            if acts[j].BatchDone? then AcceptedBy(acts, t, i + 1, j) == batch else AcceptedBy(acts, t, i + 1, j) < batch
  {
    AcceptsSoFar(k, run, acts, t, i, j);
    TraceStep(k, run, acts, j);
  }

  /** Nothing but processing its events takes an accepted connection from the epoll set. */
  lemma {:induction false} AcceptedIsPolled(k: Config, s: State, a: Action, t: int, conn: int)
    requires Inv(k, s) && Ready(k, s, a) && t in s.threads && conn != k.listen
    requires conn in s.threads[t].interest || (a.Accept? && a.t == t && a.conn == conn && a.kept)
    requires a.t == t ==> !a.Process? && !(a.Accept? && a.conn == conn && !a.kept)
    ensures conn in Do(k, s, a).threads[t].interest
  {
    assert ThreadOk(k.listen, s.threads[t], s.owner == Some(t));
  }

  lemma {:induction false} Onward(k: Config, run: seq<State>, a: Action) returns (longer: seq<State>)
    requires IsRun(k, run) && Ready(k, run[|run| - 1], a)
    ensures IsRun(k, longer) && run <= longer && longer[|longer| - 1] == Do(k, run[|run| - 1], a)
  {
    longer := run + [Do(k, run[|run| - 1], a)];
    assert Follows(k, run[|run| - 1], Do(k, run[|run| - 1], a));
  }

  /** A thread at the head of its loop comes to its poll by its own steps, unless it has no
      descriptor and another thread owns the lock.  It then listens exactly if the lock was
      free or its own: a free lock is always taken, and one that is not is not waited for by
      a thread that has something to poll. */
  lemma {:induction false} ListensWhenFree(k: Config, run: seq<State>, t: int) returns (longer: seq<State>)
    requires IsRun(k, run)
    requires var s := run[|run| - 1];
             t in s.threads && s.threads[t].pc.Head? && (s.owner == None || s.threads[t].fdNum > 0)
    ensures IsRun(k, longer) && run <= longer
    ensures var s, s' := run[|run| - 1], longer[|longer| - 1];
            && t in s'.threads && s'.threads[t].pc.Polling?
            && s'.owner == (if s.owner == None then Some(t) else s.owner)
            && (k.listen in s'.threads[t].interest <==> s.owner == None || s.owner == Some(t))
  {
    var s := run[|run| - 1];
    RunInv(k, run, |run| - 1);
    assert ThreadOk(k.listen, s.threads[t], s.owner == Some(t));
    longer := Onward(k, run, Test(t));
    longer := Onward(k, longer, if s.threads[t].fdNum == 0 then Lock(t) else TryLock(t));
    if s.owner == None {
      longer := Onward(k, longer, Register(t));
    }
  }
}
