/** Hosts whose keys collide: exactly when targets are mistaken for one another. */
module PoolCollisions {
  import opened Common
  import opened WorkPool
  import opened ClientThreads

  /** Every target added has been handed out or waits, as often as it was added. */
  ghost predicate Balanced(k: Config, s: State) {
    forall t :: s.handed[t] + Count(k.hash, s.pool, t) == s.added[t]
  }

  /** A target is added whose key waits in the pool, made for another host. */
  predicate Mistaken(k: Config, s: State, t: Target) {
    Key(k.hash, t.host) in s.pool && s.pool[Key(k.hash, t.host)].host != t.host
  }

  ghost predicate Clash(k: Config, s: State, s': State) {
    exists t :: Mistaken(k, s, t) && Ready(k, s, Add(t)) && s' == Do(k, s, Add(t))
  }

  lemma {:induction false} ClashUnbalances(k: Config, s: State, t: Target)
    requires Ready(k, s, Add(t)) && Mistaken(k, s, t) && Balanced(k, s)
    ensures !Balanced(k, Do(k, s, Add(t)))
  {
    AddCounts(k.hash, s.pool, t, t);
    assert s.handed[t] + Count(k.hash, s.pool, t) == s.added[t];
    assert Do(k, s, Add(t)).added[t] == s.added[t] + 1;
  }

  lemma {:induction false} AddBalances(k: Config, s: State, t: Target)
    requires Ready(k, s, Add(t)) && !Mistaken(k, s, t) && Balanced(k, s)
    ensures Balanced(k, Do(k, s, Add(t)))
  {
    forall u ensures s.handed[u] + Count(k.hash, Added(k.hash, s.pool, t), u) == (s.added + multiset{t})[u] {
      AddCounts(k.hash, s.pool, t, u);
    }
  }

  lemma {:induction false} TakeBalances(k: Config, s: State, t: int)
    requires Ready(k, s, Take(t)) && Balanced(k, s)
    ensures Balanced(k, Do(k, s, Take(t)))
  {
    if s.threads[t].pc.left != 0 && s.pool != map[] {
      forall u ensures (s.handed + multiset{Next(s.pool)})[u] + Count(k.hash, Without(s.pool), u) == s.added[u] {
        TakeCounts(k.hash, s.pool, u);
      }
    }
  }

  lemma {:induction false} OthersBalance(k: Config, s: State, a: Action)
    requires Ready(k, s, a) && !a.Add? && !a.Take?
    ensures var s' := Do(k, s, a); s'.pool == s.pool && s'.handed == s.handed && s'.added == s.added
  {
  }

  lemma {:induction false} StepBalances(k: Config, s: State, s': State)
    requires Follows(k, s, s') && !Clash(k, s, s') && Balanced(k, s)
    ensures Balanced(k, s')
  {
    var a :| Ready(k, s, a) && s' == Do(k, s, a);
    match a
    case Add(t) => AddBalances(k, s, t);
    case Take(t) => TakeBalances(k, s, t);
    case _ => OthersBalance(k, s, a);
  }

  lemma {:induction false} StaysBalanced(k: Config, run: seq<State>, i: nat)
    requires IsRun(k, run) && i < |run|
    requires forall j :: 0 <= j < |run| - 1 ==> !Clash(k, run[j], run[j + 1])
    ensures Balanced(k, run[i])
  {
    if i > 0 {
      var j := i - 1;
      StaysBalanced(k, run, j);
      assert Follows(k, run[j], run[j + 1]) && !Clash(k, run[j], run[j + 1]);
      StepBalances(k, run[j], run[i]);
    }
  }

  /** The exact condition for exactly-once distribution, over whole runs of any number of
      threads and adders: the balance holds for every target at every moment if and only if no
      target is ever added while its key waits in the pool for another host. */
  lemma {:induction false} HandedOutExactly(k: Config, run: seq<State>)
    requires IsRun(k, run)
    ensures (forall i :: 0 <= i < |run| ==> Balanced(k, run[i]))
       <==> (forall j :: 0 <= j < |run| - 1 ==> !Clash(k, run[j], run[j + 1]))
  {
    if forall j :: 0 <= j < |run| - 1 ==> !Clash(k, run[j], run[j + 1]) {
      forall i | 0 <= i < |run| ensures Balanced(k, run[i]) {
        StaysBalanced(k, run, i);
      }
    } else {
      var j :| 0 <= j < |run| - 1 && Clash(k, run[j], run[j + 1]);
      var t :| Mistaken(k, run[j], t) && Ready(k, run[j], Add(t)) && run[j + 1] == Do(k, run[j], Add(t));
      if Balanced(k, run[j]) {
        ClashUnbalances(k, run[j], t);
      }
    }
  }

  /** Different keys are enough. */
  lemma {:induction false} InjectiveNeverClashes(k: Config, run: seq<State>, i: nat)
    requires IsRun(k, run) && i < |run| - 1 && Injective(k.hash, run[i + 1].added)
    ensures !Clash(k, run[i], run[i + 1])
  {
    RunInv(k, run, i);
    RunInv(k, run, i + 1);
    if Clash(k, run[i], run[i + 1]) {
      var t :| Mistaken(k, run[i], t) && Ready(k, run[i], Add(t)) && run[i + 1] == Do(k, run[i], Add(t));
      StoredAsItself(k.hash, run[i].pool, run[i].added, t);
    }
  }

  /** Hosts of one name clash only if their ports' hashes agree modulo the width. */
  lemma {:induction false} OneNameClashes(k: Config, s: State, t: Target)
    requires Wellformed(k.hash, s.pool) && Mistaken(k, s, t)
    requires s.pool[Key(k.hash, t.host)].host.name == t.host.name
    ensures var waiting := s.pool[Key(k.hash, t.host)].host;
            waiting.port != t.host.port && k.hash.ofPort(waiting.port) % WIDTH == k.hash.ofPort(t.host.port) % WIDTH
  {
    var waiting := s.pool[Key(k.hash, t.host)].host;
    KeysOfOneName(k.hash, t.host.name, waiting.port, t.host.port);
    assert waiting == Host(t.host.name, waiting.port) && t.host == Host(t.host.name, t.host.port);
  }

  /** So targets of one name never clash if different ports have hashes that differ modulo the
      width. */
  lemma {:induction false} PortsNeverClash(k: Config, run: seq<State>, i: nat, name: string)
    requires IsRun(k, run) && i < |run| - 1
    requires forall t :: t in run[i + 1].added ==> t.host.name == name
    requires forall t, u :: t in run[i + 1].added && u in run[i + 1].added && t.host.port != u.host.port ==>
               k.hash.ofPort(t.host.port) % WIDTH != k.hash.ofPort(u.host.port) % WIDTH
    ensures !Clash(k, run[i], run[i + 1])
  {
    var added := run[i + 1].added;
    forall t, u | t in added && u in added && Key(k.hash, t.host) == Key(k.hash, u.host)
      ensures t.host == u.host
    {
      KeysOfOneName(k.hash, name, t.host.port, u.host.port);
      assert t.host == Host(name, t.host.port) && u.host == Host(name, u.host.port);
    }
    InjectiveNeverClashes(k, run, i);
  }

  // ------------------------------------------------------------------ collisions exist

  /** The numbers below n. */
  function Below(n: nat): set<nat> {
    if n == 0 then {} else Below(n - 1) + {n - 1}
  }

  lemma {:induction false} SizeBelow(n: nat)
    ensures |Below(n)| == n && forall x: nat :: x in Below(n) <==> x < n
  {
    if n > 0 {
      SizeBelow(n - 1);
    }
  }

  lemma {:induction false} SizeOfSubset(a: set<nat>, b: set<nat>)
    requires a <= b
    ensures |a| <= |b|
    decreases b
  {
    if x :| x in b {
      SizeOfSubset(a - {x}, b - {x});
    }
  }

  /** The values of f on the numbers below m. */
  ghost function Image(f: nat -> nat, m: nat): set<nat> {
    set i: nat | i < m :: f(i)
  }

  lemma {:induction false} SizeOfImage(f: nat -> nat, m: nat)
    requires forall i, j :: 0 <= i < j < m ==> f(i) != f(j)
    ensures |Image(f, m)| == m
  {
    if m > 0 {
      SizeOfImage(f, m - 1);
      assert Image(f, m) == Image(f, m - 1) + {f(m - 1)};
    }
  }

  /** A function into n values repeats one among its first n + 1 arguments. */
  lemma {:induction false} Pigeonhole(f: nat -> nat, n: nat) returns (i: nat, j: nat)
    requires forall x: nat :: f(x) < n
    ensures i < j <= n && f(i) == f(j)
  {
    if x: nat, y: nat :| x < y <= n && f(x) == f(y) {
      i, j := x, y;
    } else {
      SizeOfImage(f, n + 1);
      SizeBelow(n);
      SizeOfSubset(Image(f, n + 1), Below(n));
      assert false;
    }
  }

  /** The binary digits of a number, as a name. */
  function Name(i: nat): string {
    if i == 0 then "" else Name(i / 2) + (if i % 2 == 0 then "0" else "1")
  }

  lemma {:induction false} NamesDiffer(i: nat, j: nat)
    requires Name(i) == Name(j)
    ensures i == j
  {
    if i > 0 && j > 0 {
      var a, b := Name(i), Name(j);
      assert a[..|a| - 1] == Name(i / 2) && b[..|b| - 1] == Name(j / 2);
      assert a[|a| - 1] == b[|b| - 1];
      NamesDiffer(i / 2, j / 2);
    }
  }

  function Power(n: nat): nat {
    if n == 0 then 1 else 2 * Power(n - 1)
  }

  lemma {:induction false} NameIsShort(i: nat, n: nat)
    requires i < Power(n)
    ensures |Name(i)| <= n
  {
    if i > 0 {
      NameIsShort(i / 2, n - 1);
    }
  }

  lemma {:induction false} WidthIsPower()
    ensures Power(64) == WIDTH
  {
    assert Power(8) == 0x100;
    assert Power(16) == 0x1_0000 by { PowerAdds(8, 8); }
    assert Power(32) == 0x1_0000_0000 by { PowerAdds(16, 16); }
    PowerAdds(32, 32);
  }

  lemma {:induction false} PowerAdds(a: nat, b: nat)
    ensures Power(a + b) == Power(a) * Power(b)
  {
    if b > 0 {
      PowerAdds(a, b - 1);
    }
  }

  /** Whatever the library's hash functions are, two hosts on the same port with names of at
      most 65 letters are one key of the map. */
  lemma {:induction false} SomeHostsCollide(h: Hashing, port: int) returns (a: Host, b: Host)
    ensures a != b && a.port == b.port == port && Key(h, a) == Key(h, b)
    ensures |a.name| <= 65 && |b.name| <= 65
  {
    var f: nat -> nat := (x: nat) => Key(h, Host(Name(x), port));
    var i, j := Pigeonhole(f, WIDTH);
    a, b := Host(Name(i), port), Host(Name(j), port);
    if a.name == b.name {
      NamesDiffer(i, j);
    }
    WidthIsPower();
    assert Power(65) == 2 * WIDTH;
    NameIsShort(i, 65);
    NameIsShort(j, 65);
  }

  /** So exactly-once distribution fails in some run for every hash: two additions suffice. */
  lemma {:induction false} EveryHashClashes(k: Config) returns (run: seq<State>)
    ensures IsRun(k, run) && |run| == 3 && Clash(k, run[1], run[2]) && !Balanced(k, run[2])
  {
    var a, b := SomeHostsCollide(k.hash, 80);
    var s, t := Target(a, ""), Target(b, "");
    var s0 := State(map[], map[], None, 0, multiset{}, multiset{});
    run := Extend(k, [s0], Add(s), Do(k, s0, Add(s)));
    AddCounts(k.hash, s0.pool, s, s);
    var s1 := run[1];
    assert Mistaken(k, s1, t);
    AddBalances(k, s0, s);
    ClashUnbalances(k, s1, t);
    run := Extend(k, run, Add(t), Do(k, s1, Add(t)));
  }
}
