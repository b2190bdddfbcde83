/** One call on the logger, from beginning to end. */
module LoggerCalls {
  import opened Common
  import opened LogRecords
  import opened LoggerMachine
  import opened LoggerInvariant
  import opened LoggerTheorems
  import opened LoggerWitnesses

  /** The thread is in its call c, or just through with it, having logged h before. */
  predicate Logging(th: Thread, h: seq<Call>, c: Call) {
    match th.pc
    case Idle => th.hist == h + [c]
    case Closing(_) => c == End && th.hist == h
    case Closed(_) => c == End && th.hist == h + [c]
    case Leaving(_) => th.hist == h + [c]
    case _ => th.pc.c == c && th.hist == h
  }

  lemma {:induction false} WithinKeepsLogging(th: Thread, e: Entry, me: Actor, now: int, h: seq<Call>, c: Call)
    requires Logging(th, h, c) && OnOwnEntry(th.pc)
    ensures Logging(Within(th, e, me, now).0, h, c)
  {
  }

  lemma {:induction false} StepKeepsLogging(s: State, t: Tid, h: seq<Call>, c: Call)
    requires StepReady(s, t) && Logging(s.threads[t], h, c)
    ensures t in DoStep(s, t).threads && Logging(DoStep(s, t).threads[t], h, c)
  {
    StepFrame(s, t);
    if OnOwnEntry(s.threads[t].pc) {
      WithinKeepsLogging(s.threads[t], s.entries[t], Logger(t), s.now, h, c);
    }
  }

  /** Only its own steps move a thread that is in a call. */
  lemma {:induction false} OthersKeepThread(s: State, a: Action, t: Tid)
    requires Ready(s, a) && t in s.threads && !s.threads[t].pc.Idle? && !(a.Step? && a.t == t)
    ensures t in Do(s, a).threads && Do(s, a).threads[t] == s.threads[t]
  {
    if a.Step? {
      StepFrame(s, a.t);
    } else if a.BackStep? {
      BackFrame(s);
    }
  }

  lemma {:induction false} NextKeepsLogging(s: State, s': State, t: Tid, h: seq<Call>, c: Call)
    requires Next(s, s') && t in s.threads && !s.threads[t].pc.Idle? && Logging(s.threads[t], h, c)
    ensures t in s'.threads && Logging(s'.threads[t], h, c)
  {
    var a :| Ready(s, a) && s' == Do(s, a);
    if a.Step? && a.t == t {
      StepKeepsLogging(s, t, h, c);
    } else {
      OthersKeepThread(s, a, t);
    }
  }

  /** In every run a call leaves exactly itself in the thread's history, whatever the others do
      meanwhile: nothing is dropped, doubled or changed. */
  lemma {:induction false} CallIsLogged(run: seq<State>, i: nat, j: nat, t: Tid, h: seq<Call>, c: Call)
    requires IsRun(run) && i < j < |run| && t in run[i].threads && run[i].threads[t] == Thread(WantRead(c), h)
    requires forall m :: i <= m < j ==> t in run[m].threads && !run[m].threads[t].pc.Idle?
    ensures t in run[j].threads && Logging(run[j].threads[t], h, c)
    ensures run[j].threads[t].pc.Idle? ==> run[j].threads[t].hist == h + [c]
    decreases j
  {
    var m := j - 1;
    if m > i {
      CallIsLogged(run, i, m, t, h, c);
    }
    assert Next(run[m], run[m + 1]);
    NextKeepsLogging(run[m], run[j], t, h, c);
  }

  // ------------------------------------------------------------------ calls come to an end

  /** How many lines are ahead of a thread, but for the unlocking. */
  function LinesAhead(pc: Pc): nat {
    match pc
    case Idle => 0
    case WantRead(_) => 12
    case Check(_) => 11
    case WantWrite(_) => 10
    case Init(_) => 9
    case Inited(_) => 8
    case WantReadAgain(_) => 7
    case WantLock(_) => 6
    case Locked(_) => 5
    case Counted(_) => 4
    case Headed(_) => 3
    case Closing(_) => 4
    case Closed(_) => 3
    case Leaving(_) => 2
  }

  function UnlocksAhead(pc: Pc): nat {
    if pc.Leaving? then pc.n else 0
  }

  predicate Shorter(pc': Pc, pc: Pc) {
    LinesAhead(pc') < LinesAhead(pc) || (LinesAhead(pc') == LinesAhead(pc) && UnlocksAhead(pc') < UnlocksAhead(pc))
  }

  lemma {:induction false} WithinIsShorter(th: Thread, e: Entry, me: Actor, now: int)
    requires OnOwnEntry(th.pc)
    ensures Shorter(Within(th, e, me, now).0.pc, th.pc)
  {
  }

  /** Every line a thread executes brings its call nearer to the end. */
  lemma {:induction false} StepIsShorter(s: State, t: Tid)
    requires StepReady(s, t)
    ensures Shorter(DoStep(s, t).threads[t].pc, s.threads[t].pc)
  {
    if OnOwnEntry(s.threads[t].pc) {
      WithinIsShorter(s.threads[t], s.entries[t], Logger(t), s.now);
    }
  }

  /** Nobody else holds the map lock, and the backend does not hold t's. */
  ghost predicate Alone(s: State, t: Tid) {
    && (forall a :: a in s.readers ==> a == Logger(t))
    && (s.writer.Some? ==> s.writer == Some(Logger(t)))
    && !BackendHolds(s, t)
  }

  lemma {:induction false} AloneCanStep(s: State, t: Tid)
    requires Inv(s) && t in s.threads && !s.threads[t].pc.Idle? && Alone(s, t)
    ensures StepReady(s, t)
  {
    assert ThreadOk(s, t);
    assert Logger(t) in s.readers <==> Reading(s, Logger(t));
    assert s.writer == Some(Logger(t)) <==> Writing(s, Logger(t));
  }

  lemma {:induction false} StepKeepsAlone(s: State, t: Tid)
    requires Inv(s) && StepReady(s, t) && Alone(s, t)
    ensures Alone(DoStep(s, t), t)
  {
    StepFrame(s, t);
    StepOwnLock(s, t);
  }

  lemma {:induction false} Say(run: seq<State>, a: Action) returns (longer: seq<State>)
    requires Undisturbed(run) && Ready(Last(run), a) && !a.Drop?
    ensures Undisturbed(longer) && longer == run + [Do(Last(run), a)]
  {
    var s := Last(run);
    longer := Go(run, a);
    forall i | 0 <= i < |longer| - 1 ensures !Strands(longer[i], longer[i + 1]) {
      if i < |run| - 1 {
        assert !Strands(run[i], run[i + 1]);
      } else {
        forall t | t in s.threads && InWindow(s.threads[t].pc) && t in s.entries ensures t in Do(s, a).entries {
          if t !in Do(s, a).entries {
            OnlyDropErases(s, a, t);
          }
        }
      }
    }
  }

  /** What a thread's own steps leave alone. */
  predicate Beside(s: State, s': State, t: Tid) {
    && t in s.threads && t in s'.threads && s'.threads == s.threads[t := s'.threads[t]]
    && s'.back == s.back && s'.destructor == s.destructor && s'.stop == s.stop
  }

  lemma {:induction false} StaysBeside(s: State, s': State, s'': State, t: Tid)
    requires Beside(s, s', t) && Beside(s', s'', t)
    ensures Beside(s, s'', t)
  {
  }

  /** What one line of t's call comes to while nobody else is in the way. */
  ghost predicate OneLineOn(s: State, s': State, t: Tid, h: seq<Call>, c: Call) {
    && Beside(s, s', t) && Shorter(s'.threads[t].pc, s.threads[t].pc)
    && Logging(s'.threads[t], h, c) && Alone(s', t)
  }

  lemma {:induction false} StepIsBeside(s: State, t: Tid)
    requires StepReady(s, t)
    ensures Beside(s, DoStep(s, t), t)
  {
    StepFrame(s, t);
  }

  lemma {:induction false} AloneStep(s: State, t: Tid, h: seq<Call>, c: Call)
    requires Inv(s) && t in s.threads && !s.threads[t].pc.Idle? && Alone(s, t) && Logging(s.threads[t], h, c)
    ensures StepReady(s, t) && OneLineOn(s, DoStep(s, t), t, h, c)
  {
    AloneCanStep(s, t);
    StepIsShorter(s, t);
    StepKeepsLogging(s, t, h, c);
    StepKeepsAlone(s, t);
    StepIsBeside(s, t);
  }

  lemma {:induction false} OneLine(run: seq<State>, t: Tid, h: seq<Call>, c: Call) returns (next: seq<State>)
    requires Undisturbed(run) && t in Last(run).threads && !Last(run).threads[t].pc.Idle?
    requires Alone(Last(run), t) && Logging(Last(run).threads[t], h, c)
    ensures Undisturbed(next) && run <= next && OneLineOn(Last(run), Last(next), t, h, c)
  {
    RunInv(run, |run| - 1);
    AloneStep(Last(run), t, h, c);
    next := Say(run, Step(t));
  }

  /** A call can always be finished when nobody else is in the way, and then it is logged. */
  lemma {:induction false} CallCanFinish(run: seq<State>, t: Tid, h: seq<Call>, c: Call) returns (longer: seq<State>)
    requires Undisturbed(run) && t in Last(run).threads && Alone(Last(run), t) && Logging(Last(run).threads[t], h, c)
    ensures Undisturbed(longer) && run <= longer && Beside(Last(run), Last(longer), t)
    ensures Last(longer).threads[t] == Thread(Idle, h + [c]) && Alone(Last(longer), t)
    decreases LinesAhead(Last(run).threads[t].pc), UnlocksAhead(Last(run).threads[t].pc)
  {
    longer := run;
    if !Last(run).threads[t].pc.Idle? {
      var next := OneLine(run, t, h, c);
      longer := CallCanFinish(next, t, h, c);
      StaysBeside(Last(run), Last(next), Last(longer), t);
    }
  }

  /** A whole call, from an idle thread. */
  lemma {:induction false} WholeCall(run: seq<State>, t: Tid, c: Call) returns (longer: seq<State>)
    requires Undisturbed(run) && t in Last(run).threads && Last(run).threads[t].pc.Idle? && Alone(Last(run), t)
    requires HasHead(c)
    ensures Undisturbed(longer) && run <= longer && Beside(Last(run), Last(longer), t)
    ensures Last(longer).threads[t] == Thread(Idle, Last(run).threads[t].hist + [c]) && Alone(Last(longer), t)
  {
    var s := Last(run);
    BeginFrame(s, t, c);
    var next := Say(run, Begin(t, c));
    longer := CallCanFinish(next, t, s.threads[t].hist, c);
    StaysBeside(s, Last(next), Last(longer), t);
  }
}
