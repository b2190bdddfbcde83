/** What expires: what has been neither created nor closed by END for long enough, and only that. */
module LoggerExpiry {
  import opened Common
  import opened LogRecords
  import opened LoggerMachine
  import opened LoggerInvariant
  import opened LoggerTheorems
  import opened LoggerCalls

  // ------------------------------------------------------------------ the time of an entry

  /** Between the two states t's entry is created, or an END of t stamps it. */
  predicate Renews(s: State, s': State, t: Tid) {
    || (t in s'.entries && t !in s.entries)
    || (t in s.threads && t in s'.threads && s.threads[t].pc.Closed? && s'.threads[t].pc != s.threads[t].pc)
  }

  predicate RenewsAt(run: seq<State>, m: nat, t: Tid) {
    m + 1 < |run| && Renews(run[m], run[m + 1], t)
  }

  /** A thread that is about to create its entry has none. */
  predicate NoneYet(s: State) {
    forall t :: t in s.threads && (s.threads[t].pc.WantWrite? || s.threads[t].pc.Init?) ==> t !in s.entries
  }

  lemma {:induction false} WithinCreatesNone(th: Thread, e: Entry, me: Actor, now: int)
    requires OnOwnEntry(th.pc)
    ensures !Within(th, e, me, now).0.pc.WantWrite? && !Within(th, e, me, now).0.pc.Init?
  {
  }

  lemma {:induction false} StepNoneYet(s: State, t: Tid)
    requires NoneYet(s) && StepReady(s, t)
    ensures NoneYet(DoStep(s, t))
  {
    StepFrame(s, t);
    if OnOwnEntry(s.threads[t].pc) {
      WithinCreatesNone(s.threads[t], s.entries[t], Logger(t), s.now);
    }
  }

  lemma {:induction false} KeepsNoneYet(s: State, a: Action)
    requires NoneYet(s) && Ready(s, a)
    ensures NoneYet(Do(s, a))
  {
    if a.Step? {
      StepNoneYet(s, a.t);
    } else if a.BackStep? {
      BackFrame(s);
      BackKeepsEntries(s);
    }
  }

  lemma {:induction false} RunNoneYet(run: seq<State>, i: nat)
    requires IsRun(run) && i < |run|
    ensures NoneYet(run[i])
  {
    if i > 0 {
      var j := i - 1;
      RunNoneYet(run, j);
      assert Next(run[j], run[j + 1]);
      var a :| Ready(run[j], a) && run[i] == Do(run[j], a);
      KeepsNoneYet(run[j], a);
    }
  }

  lemma {:induction false} WithinTimes(th: Thread, e: Entry, me: Actor, now: int)
    requires OnOwnEntry(th.pc)
    ensures var p := Within(th, e, me, now);
            if th.pc.Closed? && p.0.pc != th.pc then p.1.time == now else p.1.time == e.time
  {
  }

  lemma {:induction false} StepTimes(s: State, t: Tid)
    requires NoneYet(s) && StepReady(s, t) && t in DoStep(s, t).entries
    ensures var s' := DoStep(s, t);
            if Renews(s, s', t) then s'.entries[t].time == s.now
            else t in s.entries && s'.entries[t].time == s.entries[t].time
  {
    if OnOwnEntry(s.threads[t].pc) {
      WithinTimes(s.threads[t], s.entries[t], Logger(t), s.now);
    }
  }

  /** The backend never touches a time. */
  lemma {:induction false} BackTimes(s: State, t: Tid)
    requires BackReady(s) && t in DoBack(s).entries
    ensures t in s.entries && DoBack(s).entries[t].time == s.entries[t].time
  {
  }

  /** An entry's time is the clock at its last renewal: only a renewal changes it. */
  lemma {:induction false} TimesChange(s: State, s': State, t: Tid)
    requires NoneYet(s) && Next(s, s') && t in s'.entries
    ensures if Renews(s, s', t) then s'.entries[t].time == s.now
            else t in s.entries && s'.entries[t].time == s.entries[t].time
  {
    var a :| Ready(s, a) && s' == Do(s, a);
    if a.Step? && a.t == t {
      StepTimes(s, t);
    } else if a.Step? {
      StepFrame(s, a.t);
    } else if a.BackStep? {
      BackFrame(s);
      BackTimes(s, t);
    }
  }

  /** The last renewal of t's entry in front of state i was at state m. */
  predicate LastRenewal(run: seq<State>, m: nat, i: nat, t: Tid)
    requires m < i < |run|
  {
    RenewsAt(run, m, t) && forall k :: m < k < i ==> !RenewsAt(run, k, t)
  }

  lemma {:induction false} RunTimes(run: seq<State>, j: nat, t: Tid)
    requires IsRun(run) && j + 1 < |run| && t in run[j + 1].entries
    ensures if RenewsAt(run, j, t) then run[j + 1].entries[t].time == run[j].now
            else t in run[j].entries && run[j + 1].entries[t].time == run[j].entries[t].time
  {
    RunNoneYet(run, j);
    assert Next(run[j], run[j + 1]);
    TimesChange(run[j], run[j + 1], t);
  }

  lemma {:induction false} NoneYetRenewed(run: seq<State>, m: nat, j: nat, t: Tid)
    requires m < j < |run| - 1 && LastRenewal(run, m, j, t) && !RenewsAt(run, j, t)
    ensures LastRenewal(run, m, j + 1, t)
  {
  }

  lemma {:induction false} TimeIsLastRenewal(run: seq<State>, i: nat, t: Tid) returns (m: nat)
    requires IsRun(run) && i < |run| && t in run[i].entries
    ensures m < i && LastRenewal(run, m, i, t) && run[i].entries[t].time == run[m].now
  {
    assert i > 0;
    var j := i - 1;
    RunTimes(run, j, t);
    if RenewsAt(run, j, t) {
      m := j;
    } else {
      m := TimeIsLastRenewal(run, j, t);
      NoneYetRenewed(run, m, j, t);
    }
  }

  // ------------------------------------------------------------------ END renews

  /** The thread is in an END, from its first line to its return, with no stamp made yet. */
  predicate Unstamped(th: Thread) {
    match th.pc
    case Idle => false
    case Counted(_) => false
    case Headed(_) => false
    case Closing(_) => true
    case Closed(_) => true
    case Leaving(_) => false
    case _ => th.pc.c == End
  }

  lemma {:induction false} WithinStaysUnstamped(th: Thread, e: Entry, me: Actor, now: int)
    requires Unstamped(th) && OnOwnEntry(th.pc)
    ensures Unstamped(Within(th, e, me, now).0) || th.pc.Closed?
  {
  }

  lemma {:induction false} StepStaysUnstamped(s: State, t: Tid)
    requires StepReady(s, t) && Unstamped(s.threads[t])
    ensures Unstamped(DoStep(s, t).threads[t]) || Renews(s, DoStep(s, t), t)
  {
    if OnOwnEntry(s.threads[t].pc) {
      WithinStaysUnstamped(s.threads[t], s.entries[t], Logger(t), s.now);
    }
  }

  lemma {:induction false} StaysUnstamped(s: State, s': State, t: Tid)
    requires Next(s, s') && t in s.threads && Unstamped(s.threads[t])
    ensures t in s'.threads && (Unstamped(s'.threads[t]) || Renews(s, s', t))
  {
    var a :| Ready(s, a) && s' == Do(s, a);
    if a.Step? && a.t == t {
      StepFrame(s, t);
      StepStaysUnstamped(s, t);
    } else {
      OthersKeepThread(s, a, t);
    }
  }

  predicate UnstampedAt(run: seq<State>, m: nat, t: Tid) {
    m < |run| && t in run[m].threads && Unstamped(run[m].threads[t])
  }

  lemma {:induction false} UnstampedNext(run: seq<State>, m: nat, j: nat, t: Tid)
    requires IsRun(run) && m + 1 == j < |run| && UnstampedAt(run, m, t) && !RenewsAt(run, m, t)
    ensures UnstampedAt(run, j, t)
  {
    assert Next(run[m], run[m + 1]);
    StaysUnstamped(run[m], run[j], t);
  }

  lemma {:induction false} UnstampedUntil(run: seq<State>, i: nat, j: nat, t: Tid)
    requires IsRun(run) && i <= j < |run| && UnstampedAt(run, i, t)
    requires forall m :: i <= m < j ==> !RenewsAt(run, m, t)
    ensures UnstampedAt(run, j, t)
    decreases j
  {
    if i < j {
      UnstampedUntil(run, i, j - 1, t);
      UnstampedNext(run, j - 1, j, t);
    }
  }

  /** Every END renews the entry before it returns. */
  lemma {:induction false} EndRenews(run: seq<State>, i: nat, j: nat, t: Tid) returns (m: nat)
    requires IsRun(run) && i < j < |run| && t in run[i].threads && run[i].threads[t].pc == WantRead(End)
    requires t in run[j].threads && run[j].threads[t].pc.Idle?
    ensures i <= m < j && RenewsAt(run, m, t)
  {
    if forall k :: i <= k < j ==> !RenewsAt(run, k, t) {
      UnstampedUntil(run, i, j, t);
    }
    m :| i <= m < j && RenewsAt(run, m, t);
  }

  // ------------------------------------------------------------------ what is listed

  /** At state i the backend puts t on its list. */
  predicate ListedAt(run: seq<State>, i: nat, t: Tid) {
    i + 1 < |run| && t !in run[i].back.remove && t in run[i + 1].back.remove
  }

  lemma {:induction false} BackLists(s: State, t: Tid)
    requires BackReady(s) && t !in s.back.remove && t in DoBack(s).back.remove
    ensures s.back.pc.Have? && s.back.pc.t == t && t in s.entries
    ensures s.entries[t].data == "" && s.entries[t].time + s.expired < s.now
  {
    if Moves(s.back.pc) {
      MoveFrame(s);
    }
  }

  lemma {:induction false} ListingLine(s: State, a: Action, t: Tid)
    requires Ready(s, a) && t !in s.back.remove && t in Do(s, a).back.remove
    ensures a.BackStep? && s.back.pc.Have? && s.back.pc.t == t && t in s.entries
    ensures s.entries[t].data == "" && s.entries[t].time + s.expired < s.now
  {
    if a.Step? {
      StepFrame(s, a.t);
    } else if a.BackStep? {
      BackLists(s, t);
    }
  }

  /** The backend tests an entry. */
  lemma {:induction false} TestLine(s: State, t: Tid)
    requires BackReady(s) && s.back.pc.Have? && s.back.pc.t == t
    ensures t in DoBack(s).back.remove
       <==> t in s.back.remove || (s.entries[t].data == "" && s.entries[t].time + s.expired < s.now)
  {
  }

  lemma {:induction false} MovesFromHave(s: State, s': State, t: Tid)
    requires Next(s, s') && s.back.pc.Have? && s.back.pc.t == t && s'.back.pc != s.back.pc
    ensures BackReady(s) && s' == DoBack(s)
  {
    var a :| Ready(s, a) && s' == Do(s, a);
    if a.Step? {
      StepFrame(s, a.t);
    }
  }

  /** What is listed, exactly: when the backend tests t's buffer it puts t on its list if and
      only if the buffer is empty and more than `_expired` has passed since the entry was last
      renewed, that is created or closed by END. */
  lemma {:induction false} ListedExactly(run: seq<State>, i: nat, t: Tid) returns (m: nat)
    requires IsRun(run) && i + 1 < |run| && run[i].back.pc.Have? && run[i].back.pc.t == t && t in run[i].entries
    requires run[i + 1].back.pc != run[i].back.pc && t !in run[i].back.remove
    ensures m < i && LastRenewal(run, m, i, t)
    ensures ListedAt(run, i, t) <==> run[i].entries[t].data == "" && run[m].now + run[i].expired < run[i].now
  {
    m := TimeIsLastRenewal(run, i, t);
    assert Next(run[i], run[i + 1]);
    MovesFromHave(run[i], run[i + 1], t);
    TestLine(run[i], t);
  }

  predicate NeverBack(run: seq<State>) {
    forall i, j :: 0 <= i <= j < |run| ==> run[i].now <= run[j].now
  }

  /** With a clock that never goes back, an entry that is listed was neither created nor
      renewed within the last `_expired`. */
  lemma {:induction false} ListedIsOld(run: seq<State>, i: nat, t: Tid, j: nat)
    requires IsRun(run) && NeverBack(run) && ListedAt(run, i, t)
    requires j < i && RenewsAt(run, j, t)
    ensures run[j].now + run[i].expired < run[i].now
  {
    assert Next(run[i], run[i + 1]);
    var a :| Ready(run[i], a) && run[i + 1] == Do(run[i], a);
    ListingLine(run[i], a, t);
    var m := TimeIsLastRenewal(run, i, t);
    assert j <= m;
  }

  /** In particular a thread that has returned from an END it began within the last `_expired`
      is not listed. */
  lemma {:induction false} RecentEndIsKept(run: seq<State>, i: nat, t: Tid, from: nat, to: nat)
    requires IsRun(run) && NeverBack(run) && from < to <= i < |run|
    requires t in run[from].threads && run[from].threads[t].pc == WantRead(End)
    requires t in run[to].threads && run[to].threads[t].pc.Idle?
    requires run[i].now <= run[from].now + run[i].expired
    ensures !ListedAt(run, i, t)
  {
    if ListedAt(run, i, t) {
      var m := EndRenews(run, from, to, t);
      ListedIsOld(run, i, t, m);
    }
  }

  // ------------------------------------------------------------------ what is erased

  /** t is on the list, or among what is left of it while the backend erases. */
  predicate Condemned(s: State, t: Tid) {
    t in s.back.remove || (s.back.pc.Erase? && t in s.back.pc.todo)
  }

  lemma {:induction false} BackCondemns(s: State, t: Tid)
    requires BackReady(s) && Condemned(DoBack(s), t) && !Condemned(s, t)
    ensures t in DoBack(s).back.remove
  {
  }

  lemma {:induction false} NewlyCondemned(s: State, s': State, t: Tid)
    requires Next(s, s') && Condemned(s', t) && !Condemned(s, t)
    ensures t !in s.back.remove && t in s'.back.remove
  {
    var a :| Ready(s, a) && s' == Do(s, a);
    if a.Step? {
      StepFrame(s, a.t);
    } else if a.BackStep? {
      BackCondemns(s, t);
    }
  }

  lemma {:induction false} WasListed(run: seq<State>, i: nat, t: Tid) returns (l: nat)
    requires IsRun(run) && i < |run| && Condemned(run[i], t)
    ensures l < i && ListedAt(run, l, t)
  {
    var j := i - 1;
    assert Next(run[j], run[j + 1]);
    if Condemned(run[j], t) {
      l := WasListed(run, j, t);
    } else {
      NewlyCondemned(run[j], run[i], t);
      l := j;
    }
  }

  /** Whatever entry goes was found empty by an earlier pass of the backend, at a time when
      more than `_expired` had passed since its last renewal. */
  lemma {:induction false} ErasedIsOld(run: seq<State>, i: nat, t: Tid) returns (l: nat, m: nat)
    requires IsRun(run) && i + 1 < |run| && t in run[i].entries && t !in run[i + 1].entries
    ensures m < l < i && ListedAt(run, l, t) && LastRenewal(run, m, l, t)
    ensures t in run[l].entries && run[l].entries[t].data == "" && run[m].now + run[l].expired < run[l].now
  {
    assert Next(run[i], run[i + 1]);
    var a :| Ready(run[i], a) && run[i + 1] == Do(run[i], a);
    OnlyDropErases(run[i], a, t);
    l := WasListed(run, i, t);
    assert Next(run[l], run[l + 1]);
    var b :| Ready(run[l], b) && run[l + 1] == Do(run[l], b);
    ListingLine(run[l], b, t);
    m := TimeIsLastRenewal(run, l, t);
  }

  // ------------------------------------------------------------------ the purge

  predicate Gone(s: State, t: Tid) {
    t !in s.entries || s.entries[t].data != ""
  }

  /** What was listed is still to be dealt with in this round, or has been. */
  predicate Pending(s: State, t: Tid) {
    match s.back.pc
    case Erase(todo) => t in todo || Gone(s, t)
    case Scan(_) => t in s.back.remove
    case WantEntry(_, _) => t in s.back.remove
    case Have(_, _) => t in s.back.remove
    case Flush(_, _) => t in s.back.remove
    case Release(_, _) => t in s.back.remove
    case Scanned => t in s.back.remove
    case WantErase => t in s.back.remove
    case _ => false
  }

  /** While the backend erases nobody is inside the logger with a lock. */
  lemma {:induction false} EraseIsAlone(s: State, t: Tid)
    requires LocksOk(s) && s.back.pc.Erase?
    ensures !StepReady(s, t)
  {
    assert Writing(s, Backend);
    assert s.writer == Some(Backend);
    assert Logger(t) !in s.readers;
    assert !Reading(s, Logger(t)) && !Writing(s, Logger(t));
  }

  lemma {:induction false} BackKeepsPending(s: State, t: Tid)
    requires BackReady(s) && Pending(s, t)
    ensures Pending(DoBack(s), t) || (DoBack(s).back.pc.Decide? && Gone(DoBack(s), t))
  {
  }

  lemma {:induction false} DropKeepsPending(s: State, t: Tid, u: Tid)
    requires Pending(s, t) && Ready(s, Drop(u))
    ensures Pending(Do(s, Drop(u)), t)
  {
  }

  lemma {:induction false} KeepsPending(s: State, a: Action, t: Tid)
    requires LocksOk(s) && Pending(s, t) && Ready(s, a)
    ensures var s' := Do(s, a); Pending(s', t) || (s'.back.pc.Decide? && Gone(s', t))
  {
    if a.Step? {
      StepFrame(s, a.t);
      if s.back.pc.Erase? {
        EraseIsAlone(s, a.t);
      }
    } else if a.BackStep? {
      BackKeepsPending(s, t);
    } else if a.Drop? {
      DropKeepsPending(s, t, a.t);
    }
  }

  /** The backend is through with the entries of a round. */
  predicate DecidesAt(run: seq<State>, m: nat) {
    m < |run| && run[m].back.pc.Decide?
  }

  /** t is still to be dealt with, or the round is over and it has been. */
  predicate DealtWith(s: State, t: Tid) {
    Pending(s, t) || (s.back.pc.Decide? && Gone(s, t))
  }

  predicate DealtWithAt(run: seq<State>, m: nat, t: Tid) {
    m < |run| && DealtWith(run[m], t)
  }

  lemma {:induction false} StaysDealtWith(run: seq<State>, m: nat, j: nat, t: Tid)
    requires Undisturbed(run) && m + 1 == j < |run| && DealtWithAt(run, m, t) && !DecidesAt(run, m)
    ensures DealtWithAt(run, j, t)
  {
    RunInv(run, m);
    assert Next(run[m], run[m + 1]);
    var a :| Ready(run[m], a) && run[m + 1] == Do(run[m], a);
    KeepsPending(run[m], a, t);
  }

  lemma {:induction false} BecomesPending(run: seq<State>, l: nat, j: nat, t: Tid)
    requires IsRun(run) && ListedAt(run, l, t) && j == l + 1
    ensures DealtWithAt(run, j, t)
  {
    assert Next(run[l], run[l + 1]);
    var a :| Ready(run[l], a) && run[l + 1] == Do(run[l], a);
    ListingLine(run[l], a, t);
  }

  predicate DealtOnward(run: seq<State>, m: nat, t: Tid) {
    m + 1 < |run| && DealtWithAt(run, m, t) && !DecidesAt(run, m) ==> DealtWithAt(run, m + 1, t)
  }

  lemma {:induction false} AlwaysDealtOnward(run: seq<State>, t: Tid)
    requires Undisturbed(run)
    ensures forall m: nat :: DealtOnward(run, m, t)
  {
    forall m: nat ensures DealtOnward(run, m, t) {
      if m + 1 < |run| && DealtWithAt(run, m, t) && !DecidesAt(run, m) {
        StaysDealtWith(run, m, m + 1, t);
      }
    }
  }

  lemma {:induction false} DealtWithUntil(run: seq<State>, i: nat, j: nat, t: Tid)
    requires i <= j < |run| && DealtWithAt(run, i, t) && forall m: nat :: DealtOnward(run, m, t)
    requires forall m :: i <= m < j ==> !DecidesAt(run, m)
    ensures DealtWithAt(run, j, t)
    decreases j
  {
    if i < j {
      var m := j - 1;
      DealtWithUntil(run, i, m, t);
      assert DealtOnward(run, m, t);
    }
  }

  /** The purge: when the backend is through with the round in which it listed t, t's entry is
      gone, unless something was logged into it meanwhile. */
  lemma {:induction false} ListedIsErased(run: seq<State>, l: nat, j: nat, t: Tid)
    requires Undisturbed(run) && ListedAt(run, l, t) && l < j < |run|
    requires run[j].back.pc.Decide? && forall m :: l < m < j ==> !DecidesAt(run, m)
    ensures t !in run[j].entries || run[j].entries[t].data != ""
  {
    BecomesPending(run, l, l + 1, t);
    AlwaysDealtOnward(run, t);
    DealtWithUntil(run, l + 1, j, t);
  }
}
