/** How a round of the backend ends: with the next round, in sleep, or for good. */
module LoggerRounds {
  import opened Common
  import opened LogRecords
  import opened LoggerMachine
  import opened LoggerInvariant
  import opened LoggerTheorems
  import opened LoggerExit

  /** A round is over. */
  predicate Over(pc: BackPc) {
    pc.Top? || pc.Asleep? || pc.Exited?
  }

  /** The roads through a round: something was written out; nothing was so far; and the three
      after the last look at the buffers. */
  datatype Road = Wrote | WroteNone | ToTop | ToSleep | ToExit

  predicate Passing(pc: BackPc) {
    InScan(pc) || pc.Scanned? || pc.WantErase? || pc.Erase? || pc.Decide?
  }

  predicate On(road: Road, b: Back) {
    match road
    case Wrote => b.pc.Flush? || (Passing(b.pc) && !b.delay) || (b.pc.DecideWait? && !b.delay) || b.pc.Top?
    case WroteNone => b.delay && (b.pc.WantScan? || (Passing(b.pc) && !b.pc.Flush?) || b.pc.WantQuiet?)
    case ToTop => (b.pc.DecideWait? && !b.delay) || b.pc.Top?
    case ToSleep => b.delay && (b.pc.DecideWait? || b.pc.WantWait? || b.pc.Wait? || b.pc.Asleep?)
    case ToExit => b.pc.Exited?
  }

  /** What only the backend changes. */
  lemma {:induction false} BackMoves(s: State, s': State) returns (a: Action)
    requires Next(s, s')
    ensures s'.back == s.back || (ByBackend(a) && Ready(s, a) && s' == Do(s, a))
  {
    a :| Ready(s, a) && s' == Do(s, a);
    if a.Step? {
      StepFrame(s, a.t);
    }
  }

  lemma {:induction false} EntryStaysOn(road: Road, s: State)
    requires BackReady(s) && !Moves(s.back.pc) && On(road, s.back)
    ensures var b := DoBack(s).back; (road.WroteNone? && b.pc.Flush?) || On(road, b)
  {
  }

  lemma {:induction false} MoveStaysOn(road: Road, s: State)
    requires BackReady(s) && Moves(s.back.pc) && On(road, s.back) && !Over(s.back.pc)
    ensures var b := DoBack(s).back; (road.WroteNone? && b.pc.Quiet?) || On(road, b)
  {
  }

  lemma {:induction false} StaysOn(road: Road, s: State, s': State)
    requires Next(s, s') && On(road, s.back) && !Over(s.back.pc)
    ensures (road.WroteNone? && (s'.back.pc.Flush? || s'.back.pc.Quiet?)) || On(road, s'.back)
  {
    var a := BackMoves(s, s');
    if s'.back != s.back && a.BackStep? {
      if Moves(s.back.pc) {
        MoveStaysOn(road, s);
      } else {
        EntryStaysOn(road, s);
      }
    }
  }

  predicate OverAt(run: seq<State>, m: nat) {
    m < |run| && Over(run[m].back.pc)
  }

  predicate LooksAt(run: seq<State>, m: nat) {
    m < |run| && (FlushesAt(run, m) || run[m].back.pc.Quiet?)
  }

  predicate FlushesAt(run: seq<State>, m: nat) {
    m < |run| && run[m].back.pc.Flush?
  }

  predicate OnAt(road: Road, run: seq<State>, m: nat) {
    m < |run| && On(road, run[m].back)
  }

  lemma {:induction false} OnNext(road: Road, run: seq<State>, m: nat, j: nat)
    requires IsRun(run) && m + 1 == j < |run| && OnAt(road, run, m) && !OverAt(run, m)
    requires road.WroteNone? ==> !LooksAt(run, j)
    ensures OnAt(road, run, j)
  {
    assert Next(run[m], run[m + 1]);
    StaysOn(road, run[m], run[j]);
  }

  predicate Onward(road: Road, run: seq<State>, m: nat) {
    m + 1 < |run| && OnAt(road, run, m) && !OverAt(run, m) && (road.WroteNone? ==> !LooksAt(run, m + 1)) ==>
      OnAt(road, run, m + 1)
  }

  lemma {:induction false} AlwaysOnward(road: Road, run: seq<State>)
    requires IsRun(run)
    ensures forall m: nat :: Onward(road, run, m)
  {
    forall m: nat ensures Onward(road, run, m) {
      if m + 1 < |run| && OnAt(road, run, m) && !OverAt(run, m) && (road.WroteNone? ==> !LooksAt(run, m + 1)) {
        OnNext(road, run, m, m + 1);
      }
    }
  }

  lemma {:induction false} OnUntil(road: Road, run: seq<State>, i: nat, j: nat)
    requires i <= j < |run| && OnAt(road, run, i) && forall m: nat :: Onward(road, run, m)
    requires forall m :: i <= m < j ==> !OverAt(run, m)
    requires road.WroteNone? ==> forall m :: i < m <= j ==> !LooksAt(run, m)
    ensures OnAt(road, run, j)
    decreases j
  {
    if i < j {
      var m := j - 1;
      OnUntil(road, run, i, m);
      assert Onward(road, run, m);
    }
  }

  /** A round in which the backend writes something out is followed by another, with no sleep
      and no exit in between. */
  lemma {:induction false} WritingComesRound(run: seq<State>, i: nat, j: nat)
    requires IsRun(run) && i < j < |run| && run[i].back.pc.Flush? && Over(run[j].back.pc)
    requires forall m :: i <= m < j ==> !OverAt(run, m)
    ensures run[j].back.pc.Top?
  {
    AlwaysOnward(Wrote, run);
    OnUntil(Wrote, run, i, j);
  }

  lemma {:induction false} TopBegins(s: State, s': State)
    requires Next(s, s') && s.back.pc.Top? && !s'.back.pc.Top?
    ensures On(WroteNone, s'.back)
  {
    var a := BackMoves(s, s');
  }

  lemma {:induction false} RoundBegins(run: seq<State>, i: nat, j: nat)
    requires IsRun(run) && i + 1 == j < |run| && run[i].back.pc.Top? && !run[j].back.pc.Top?
    ensures OnAt(WroteNone, run, j)
  {
    assert Next(run[i], run[i + 1]);
    TopBegins(run[i], run[j]);
  }

  /** Without writing and without a last look no round comes to its end. */
  lemma {:induction false} LooksFirst(run: seq<State>, i: nat, j: nat)
    requires i < j < |run| && OnAt(WroteNone, run, i) && OverAt(run, j)
    requires forall m: nat :: Onward(WroteNone, run, m)
    requires forall m :: i <= m < j ==> !OverAt(run, m)
    ensures exists m :: i < m < j && LooksAt(run, m)
  {
    if forall m :: i < m < j ==> !LooksAt(run, m) {
      assert !LooksAt(run, j);
      OnUntil(WroteNone, run, i, j);
    }
  }

  /** A round in which it writes nothing out has a last look at the buffers. */
  lemma {:induction false} IdleRoundLooks(run: seq<State>, i: nat, j: nat)
    requires IsRun(run) && i + 1 < j < |run| && run[i].back.pc.Top? && OverAt(run, j)
    requires forall m :: i < m < j ==> !OverAt(run, m)
    requires forall m :: i < m < j ==> !FlushesAt(run, m)
    ensures exists m :: i < m < j && LooksAt(run, m) && !FlushesAt(run, m)
  {
    var k := i + 1;
    assert !OverAt(run, k);
    RoundBegins(run, i, k);
    AlwaysOnward(WroteNone, run);
    LooksFirst(run, k, j);
    var m :| k < m < j && LooksAt(run, m);
    assert !FlushesAt(run, m);
  }

  lemma {:induction false} LookLeads(s: State, s': State)
    requires Next(s, s') && s.back.pc.Quiet? && !s'.back.pc.Quiet?
    ensures On(if !NoLog(s) then ToTop else if s.stop then ToExit else ToSleep, s'.back)
  {
    var a := BackMoves(s, s');
  }

  /** That look decides the round: with anything in a buffer another round follows; with
      nothing the backend exits if it has been asked to, and goes to sleep otherwise. */
  lemma {:induction false} LookDecides(run: seq<State>, i: nat, j: nat)
    requires IsRun(run) && i < j < |run| && run[i].back.pc.Quiet? && !run[i + 1].back.pc.Quiet?
    requires Over(run[j].back.pc) && forall m :: i <= m < j ==> !OverAt(run, m)
    ensures run[j].back.pc.Top? <==> !NoLog(run[i])
    ensures run[j].back.pc.Exited? <==> NoLog(run[i]) && run[i].stop
    ensures run[j].back.pc.Asleep? <==> NoLog(run[i]) && !run[i].stop
  {
    assert Next(run[i], run[i + 1]);
    LookLeads(run[i], run[i + 1]);
    var road := if !NoLog(run[i]) then ToTop else if run[i].stop then ToExit else ToSleep;
    AlwaysOnward(road, run);
    OnUntil(road, run, i + 1, j);
  }
}
