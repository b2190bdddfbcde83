/** One pass of the backend over the buffers. */
module LoggerPass {
  import opened Common
  import opened LogRecords
  import opened LoggerMachine
  import opened LoggerInvariant
  import opened LoggerTheorems
  import opened LoggerExit

  lemma {:induction false} WithinAppends(th: Thread, e: Entry, me: Actor, now: int)
    requires OnOwnEntry(th.pc)
    ensures var h := Within(th, e, me, now).0.hist; h == th.hist || exists c :: h == th.hist + [c]
  {
    if th.pc.Closing? {
      assert Within(th, e, me, now).0.hist == th.hist + [End];
    } else if th.pc.Headed? {
      assert Within(th, e, me, now).0.hist == th.hist + [th.pc.c];
    }
  }

  lemma {:induction false} RecordsOnlyGrow(h: seq<Call>, c: Call)
    ensures Records(h) <= Records(h + [c])
  {
    if c.Text? {
      TextAppended(h, c);
    } else {
      EndAppended(h);
    }
  }

  lemma {:induction false} StepOnlyLogs(s: State, t: Tid)
    requires StepReady(s, t)
    ensures Records(s.threads[t].hist) <= Records(DoStep(s, t).threads[t].hist)
  {
    if OnOwnEntry(s.threads[t].pc) {
      var th := s.threads[t];
      WithinAppends(th, s.entries[t], Logger(t), s.now);
      var h := Within(th, s.entries[t], Logger(t), s.now).0.hist;
      if h != th.hist {
        var c :| h == th.hist + [c];
        RecordsOnlyGrow(th.hist, c);
      }
    }
  }

  // ------------------------------------------------------------------ ahead of the backend

  /** In this pass the backend still comes to t's entry. */
  predicate Ahead(pc: BackPc, t: Tid) {
    (InScan(pc) && t in TodoOf(pc)) || AtEntry(pc, t)
  }

  /** The records `recs` of t are out, or the backend still comes to t's entry. */
  ghost predicate Due(s: State, t: Tid, recs: seq<string>) {
    && t in s.threads && recs <= Records(s.threads[t].hist)
    && (Ahead(s.back.pc, t) || recs <= Of(s.flushed, t))
  }

  lemma {:induction false} OthersKeepDue(s: State, a: Action, t: Tid, recs: seq<string>)
    requires Due(s, t, recs) && Ready(s, a) && !a.BackStep? && InScan(s.back.pc)
    ensures Due(Do(s, a), t, recs) && InScan(Do(s, a).back.pc)
  {
    if a.Step? {
      StepFrame(s, a.t);
      if a.t == t {
        StepOnlyLogs(s, t);
      }
    }
  }

  /** A step of the backend keeps what is due if it stays ahead of t, or all of t is out. */
  lemma {:induction false} DueKept(s: State, s': State, t: Tid, recs: seq<string>)
    requires Due(s, t, recs) && s'.threads == s.threads && Of(s.flushed, t) <= Of(s'.flushed, t)
    requires Ahead(s.back.pc, t) && !Ahead(s'.back.pc, t) ==> Of(s'.flushed, t) == Records(s.threads[t].hist)
    ensures Due(s', t, recs)
  {
  }

  lemma {:induction false} FlushSends(s: State, t: Tid)
    requires AllOk(s) && Rest(s) && BackReady(s) && s.back.pc.Flush? && t in s.threads
    ensures Of(s.flushed, t) <= Of(DoBack(s).flushed, t) && DoBack(s).threads == s.threads
    ensures t == s.back.pc.t ==> Of(DoBack(s).flushed, t) == Records(s.threads[t].hist)
  {
    var u := s.back.pc.t;
    assert ThreadOk(s, u);
    FlushFrame(s);
    FlushedData(s, u);
    TaggedOf(s.flushed, u, Unsent(s, u), t);
  }

  lemma {:induction false} FlushMoves(s: State)
    requires BackReady(s) && s.back.pc.Flush?
    ensures DoBack(s).back.pc == Release(s.back.pc.t, s.back.pc.todo)
  {
  }

  lemma {:induction false} FlushKeepsDue(s: State, t: Tid, recs: seq<string>)
    requires AllOk(s) && Rest(s) && Due(s, t, recs) && BackReady(s) && s.back.pc.Flush?
    ensures Due(DoBack(s), t, recs) && InScan(DoBack(s).back.pc)
  {
    FlushSends(s, t);
    FlushMoves(s);
    DueKept(s, DoBack(s), t, recs);
  }

  lemma {:induction false} FullIsFlushed(s: State)
    requires BackReady(s) && s.back.pc.Have? && s.entries[s.back.pc.t].data != ""
    ensures DoBack(s).back.pc == Flush(s.back.pc.t, s.back.pc.todo)
  {
  }

  lemma {:induction false} HavePasses(s: State)
    requires AllOk(s) && Rest(s) && BackReady(s) && s.back.pc.Have?
    ensures var t, s' := s.back.pc.t, DoBack(s);
            && t in s.threads && s'.threads == s.threads && s'.flushed == s.flushed && InScan(s'.back.pc)
            && TodoOf(s'.back.pc) == s.back.pc.todo
            && (s'.back.pc == Flush(t, s.back.pc.todo) || Of(s.flushed, t) == Records(s.threads[t].hist))
  {
    var t := s.back.pc.t;
    HaveFrame(s);
    assert ThreadOk(s, t);
    if s.entries[t].data == "" {
      EmptyMeansSent(s, t);
    } else {
      FullIsFlushed(s);
    }
  }

  lemma {:induction false} HaveKeepsDue(s: State, t: Tid, recs: seq<string>)
    requires AllOk(s) && Rest(s) && Due(s, t, recs) && BackReady(s) && s.back.pc.Have?
    ensures Due(DoBack(s), t, recs) && InScan(DoBack(s).back.pc)
  {
    HavePasses(s);
    DueKept(s, DoBack(s), t, recs);
  }

  lemma {:induction false} LockingKeepsDue(s: State, t: Tid, recs: seq<string>)
    requires Due(s, t, recs) && BackReady(s) && (s.back.pc.WantEntry? || s.back.pc.Release?)
    requires s.back.pc.Release? ==> !AtEntry(s.back.pc, t)
    ensures Due(DoBack(s), t, recs) && InScan(DoBack(s).back.pc)
  {
    if s.back.pc.WantEntry? {
      LockFrame(s);
    } else {
      ReleaseFrame(s);
    }
  }

  lemma {:induction false} LastOfScan(s: State, t: Tid, recs: seq<string>)
    requires Due(s, t, recs) && BackReady(s) && s.back.pc.Scan?
    ensures Due(DoBack(s), t, recs) && DoBack(s).back.pc.Scanned?
  {
    assert s.back.pc.todo == {} && !Ahead(s.back.pc, t);
    assert DoBack(s) == Leave(s);
  }

  lemma {:induction false} BackKeepsDue(s: State, t: Tid, recs: seq<string>)
    requires AllOk(s) && Rest(s) && Due(s, t, recs) && BackReady(s) && InScan(s.back.pc)
    ensures Due(DoBack(s), t, recs) && (InScan(DoBack(s).back.pc) || DoBack(s).back.pc.Scanned?)
  {
    match s.back.pc
    case Flush(_, _) => FlushKeepsDue(s, t, recs);
    case Have(_, _) => HaveKeepsDue(s, t, recs);
    case Scan(_) => LastOfScan(s, t, recs);
    case _ => LockingKeepsDue(s, t, recs);
  }

  lemma {:induction false} KeepsDue(s: State, s': State, t: Tid, recs: seq<string>)
    requires Inv(s) && Next(s, s') && Due(s, t, recs) && InScan(s.back.pc)
    ensures Due(s', t, recs) && (InScan(s'.back.pc) || s'.back.pc.Scanned?)
  {
    var a :| Ready(s, a) && s' == Do(s, a);
    if a.BackStep? {
      BackKeepsDue(s, t, recs);
    } else {
      OthersKeepDue(s, a, t, recs);
    }
  }

  // ------------------------------------------------------------------ the pass

  lemma {:induction false} ToTheScan(s: State, s': State)
    requires Next(s, s') && s.back.pc.WantScan? && s'.back.pc.Scan?
    ensures BackReady(s) && s' == Take(s)
  {
    var a :| Ready(s, a) && s' == Do(s, a);
    if a.Step? {
      StepFrame(s, a.t);
    }
  }

  lemma {:induction false} AllAhead(s: State, t: Tid)
    requires AllOk(s) && t in s.threads && s.back.pc.WantScan?
    ensures Due(Take(s), t, Records(s.threads[t].hist))
  {
    assert ThreadOk(s, t);
    assert Take(s).back.pc == Scan(s.entries.Keys);
  }

  ghost predicate DueAt(run: seq<State>, m: nat, t: Tid, recs: seq<string>) {
    m < |run| && Due(run[m], t, recs) && (InScan(run[m].back.pc) || run[m].back.pc.Scanned?)
  }

  predicate ScannedAt(run: seq<State>, m: nat) {
    m < |run| && run[m].back.pc.Scanned?
  }

  lemma {:induction false} DueNext(run: seq<State>, m: nat, j: nat, t: Tid, recs: seq<string>)
    requires Undisturbed(run) && m + 1 == j < |run| && DueAt(run, m, t, recs) && !ScannedAt(run, m)
    ensures DueAt(run, j, t, recs)
  {
    RunInv(run, m);
    assert Next(run[m], run[m + 1]);
    KeepsDue(run[m], run[j], t, recs);
  }

  ghost predicate DueOnward(run: seq<State>, m: nat, t: Tid, recs: seq<string>) {
    m + 1 < |run| && DueAt(run, m, t, recs) && !ScannedAt(run, m) ==> DueAt(run, m + 1, t, recs)
  }

  lemma {:induction false} AlwaysDueOnward(run: seq<State>, t: Tid, recs: seq<string>)
    requires Undisturbed(run)
    ensures forall m: nat :: DueOnward(run, m, t, recs)
  {
    forall m: nat ensures DueOnward(run, m, t, recs) {
      if m + 1 < |run| && DueAt(run, m, t, recs) && !ScannedAt(run, m) {
        DueNext(run, m, m + 1, t, recs);
      }
    }
  }

  lemma {:induction false} DueUntil(run: seq<State>, i: nat, j: nat, t: Tid, recs: seq<string>)
    requires i <= j < |run| && DueAt(run, i, t, recs) && forall m: nat :: DueOnward(run, m, t, recs)
    requires forall m :: i <= m < j ==> !ScannedAt(run, m)
    ensures DueAt(run, j, t, recs)
    decreases j
  {
    if i < j {
      var m := j - 1;
      DueUntil(run, i, m, t, recs);
      assert DueOnward(run, m, t, recs);
    }
  }

  lemma {:induction false} PassBegins(run: seq<State>, i: nat, j: nat, t: Tid)
    requires Undisturbed(run) && i + 1 == j < |run| && run[i].back.pc.WantScan? && run[j].back.pc.Scan?
    requires t in run[i].threads
    ensures DueAt(run, j, t, Records(run[i].threads[t].hist))
  {
    RunInv(run, i);
    assert Next(run[i], run[i + 1]);
    ToTheScan(run[i], run[j]);
    AllAhead(run[i], t);
  }

  /** A pass leaves nothing behind: every record that was closed when the backend began its
      pass has been written out when the pass is over, whatever the threads log meanwhile. */
  lemma {:induction false} PassFlushesAll(run: seq<State>, i: nat, j: nat, t: Tid)
    requires Undisturbed(run) && i + 1 < j < |run| && run[i].back.pc.WantScan? && run[i + 1].back.pc.Scan?
    requires run[j].back.pc.Scanned? && forall m :: i < m < j ==> !ScannedAt(run, m)
    requires t in run[i].threads
    ensures Records(run[i].threads[t].hist) <= Of(run[j].flushed, t)
  {
    PassBegins(run, i, i + 1, t);
    AlwaysDueOnward(run, t, Records(run[i].threads[t].hist));
    DueUntil(run, i + 1, j, t, Records(run[i].threads[t].hist));
  }
}
