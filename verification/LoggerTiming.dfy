/** A timely clock keeps the backend away from fresh entries. */
module LoggerTiming {
  import opened LogRecords
  import opened LoggerMachine
  import opened LoggerInvariant
  import opened LoggerTheorems

  /** Nothing the backend is about to erase is inside its owner's window. */
  predicate NoneFresh(s: State, todo: set<Tid>) {
    forall t :: t in todo && t in s.threads ==> !InWindow(s.threads[t].pc)
  }

  predicate NoneListed(s: State) {
    NoneFresh(s, s.back.remove) && (s.back.pc.Erase? ==> NoneFresh(s, s.back.pc.todo))
  }

  /** A thread enters its window only by creating its entry. */
  lemma {:induction false} WindowOpens(s: State, t: Tid)
    requires StepReady(s, t)
    ensures InWindow(DoStep(s, t).threads[t].pc) ==> InWindow(s.threads[t].pc) || s.threads[t].pc.Init?
  {
    if OnOwnEntry(s.threads[t].pc) {
      WithinOpensNone(s.threads[t], s.entries[t], Logger(t), s.now);
    }
  }

  lemma {:induction false} WithinOpensNone(th: Thread, e: Entry, me: Actor, now: int)
    requires OnOwnEntry(th.pc)
    ensures !InWindow(Within(th, e, me, now).0.pc)
  {
  }

  /** What is listed has an entry, so creating an entry puts nobody listed into a window. */
  lemma {:induction false} ListingLocal(s: State, s': State, t: Tid)
    requires BackOk(s) && NoneListed(s) && t in s.threads
    requires s'.back == s.back && t in s'.threads && s'.threads == s.threads[t := s'.threads[t]]
    requires InWindow(s'.threads[t].pc) ==> InWindow(s.threads[t].pc) || t !in s.entries
    ensures NoneListed(s')
  {
  }

  lemma {:induction false} InitIsNew(s: State, t: Tid)
    requires t in s.threads && ThreadOk(s, t) && s.threads[t].pc.Init?
    ensures t !in s.entries
  {
  }

  lemma {:induction false} StepListsNone(s: State, t: Tid)
    requires AllOk(s) && BackOk(s) && StepReady(s, t) && NoneListed(s)
    ensures NoneListed(DoStep(s, t))
  {
    StepFrame(s, t);
    WindowOpens(s, t);
    if s.threads[t].pc.Init? {
      InitIsNew(s, t);
    }
    ListingLocal(s, DoStep(s, t), t);
  }

  /** A fresh entry lands on the remove list exactly when its expiry has passed. */
  lemma {:induction false} LateEntryIsListed(s: State, t: Tid)
    requires t in s.threads && ThreadOk(s, t) && BackReady(s) && s.back.pc.Have? && s.back.pc.t == t
    requires InWindow(s.threads[t].pc) && t !in s.back.remove
    ensures t in DoBack(s).back.remove <==> !TimelyFor(s, t)
  {
    WindowIsEmpty(s, t);
  }

  lemma {:induction false} HaveListsNone(s: State)
    requires AllOk(s) && Rest(s) && BackReady(s) && NoneListed(s) && Timely(s) && s.back.pc.Have?
    ensures NoneListed(DoBack(s))
  {
    HaveFrame(s);
    var t := s.back.pc.t;
    assert ThreadOk(s, t);
    if InWindow(s.threads[t].pc) {
      LateEntryIsListed(s, t);
    }
  }

  lemma {:induction false} BackListsNone(s: State)
    requires AllOk(s) && Rest(s) && BackReady(s) && NoneListed(s) && Timely(s)
    ensures NoneListed(DoBack(s))
  {
    BackFrame(s);
    if s.back.pc.Have? {
      HaveListsNone(s);
    } else if s.back.pc.Flush? {
      FlushFrame(s);
    } else if Moves(s.back.pc) {
      MoveFrame(s);
    }
  }

  lemma {:induction false} NoneStranded(s: State, a: Action)
    requires Ready(s, a) && NoneListed(s)
    ensures !Strands(s, Do(s, a))
  {
    forall t | t in s.threads && InWindow(s.threads[t].pc) && t in s.entries
      ensures t in Do(s, a).entries
    {
      if t !in Do(s, a).entries {
        OnlyDropErases(s, a, t);
      }
    }
  }

  lemma {:induction false} AsideListsNone(s: State, a: Action)
    requires Ready(s, a) && NoneListed(s) && !a.Step? && !a.BackStep? && !a.Begin?
    ensures NoneListed(Do(s, a))
  {
  }

  lemma {:induction false} BeginListsNone(s: State, t: Tid, c: Call)
    requires BackOk(s) && Ready(s, Begin(t, c)) && NoneListed(s)
    ensures NoneListed(Do(s, Begin(t, c)))
  {
    BeginFrame(s, t, c);
    ListingLocal(s, Do(s, Begin(t, c)), t);
  }

  lemma {:induction false} ListsNone(s: State, a: Action)
    requires Inv(s) && Ready(s, a) && NoneListed(s) && Timely(s)
    ensures NoneListed(Do(s, a))
  {
    match a
    case Step(t) => StepListsNone(s, t);
    case BackStep => BackListsNone(s);
    case Begin(t, c) => BeginListsNone(s, t, c);
    case _ => AsideListsNone(s, a);
  }

  lemma {:induction false} TimelyInv(run: seq<State>, i: nat)
    requires TimelyRun(run) && i < |run|
    ensures Inv(run[i]) && NoneListed(run[i])
    ensures i < |run| - 1 ==> !Strands(run[i], run[i + 1])
  {
    if i == 0 {
      InitialInv(run[0]);
    } else {
      TimelyInv(run, i - 1);
      assert Next(run[i - 1], run[i - 1 + 1]);
      var a :| Ready(run[i - 1], a) && run[i] == Do(run[i - 1], a);
      ListsNone(run[i - 1], a);
      NoneStranded(run[i - 1], a);
      DoKeepsInv(run[i - 1], a);
    }
    if i < |run| - 1 {
      assert Next(run[i], run[i + 1]);
      var a :| Ready(run[i], a) && run[i + 1] == Do(run[i], a);
      NoneStranded(run[i], a);
    }
  }

  /** A sufficient condition on the clock: if it has never passed the expiry of an entry
      inside its owner's window when the backend tests that entry, no entry is erased inside
      its owner's window. */
  lemma {:induction false} TimelyIsUndisturbed(run: seq<State>)
    requires TimelyRun(run)
    ensures Undisturbed(run)
  {
    forall i | 0 <= i < |run| - 1 ensures !Strands(run[i], run[i + 1]) {
      TimelyInv(run, i);
    }
  }
}
