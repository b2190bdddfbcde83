/** The pool of connection targets that all client threads share. */
module WorkPool {
  import opened Common

  datatype Host = Host(name: string, port: int)

  datatype Target = Target(host: Host, init: string)

  /** A node of `_pool`: the host it was made for and the texts waiting for it. */
  datatype Entry = Entry(host: Host, inits: seq<string>)

  /** `std::hash` on strings and on ints, whatever the library makes of them. */
  datatype Hashing = Hashing(ofName: string -> nat, ofPort: int -> nat)

  const WIDTH := 0x1_0000_0000_0000_0000

  /** `_HostCompare` orders hosts by this number alone; hosts with equal numbers are one key
      of the map. */
  function Key(h: Hashing, host: Host): nat {
    (h.ofName(host.name) * 100 + h.ofPort(host.port)) % WIDTH
  }

  lemma {:induction false} SumModulo(c: nat, x: nat)
    ensures (c + x) % WIDTH == var s := c % WIDTH + x % WIDTH; if s < WIDTH then s else s - WIDTH
  {
    var s, q := c % WIDTH + x % WIDTH, c / WIDTH + x / WIDTH;
    assert c + x == q * WIDTH + s;
    if s < WIDTH {
      QuotientIs(c + x, q, s);
    } else {
      QuotientIs(c + x, q + 1, s - WIDTH);
    }
  }

  lemma {:induction false} QuotientIs(n: nat, q: nat, r: nat)
    requires n == q * WIDTH + r && r < WIDTH
    ensures n % WIDTH == r
  {
    assert n / WIDTH == q;
  }

  lemma {:induction false} SameAfterAdding(c: nat, x: nat, y: nat)
    ensures (c + x) % WIDTH == (c + y) % WIDTH <==> x % WIDTH == y % WIDTH
  {
    SumModulo(c, x);
    SumModulo(c, y);
  }

  /** For one name the port tells hosts apart, as far as its hash does. */
  lemma {:induction false} KeysOfOneName(h: Hashing, name: string, p: int, q: int)
    ensures Key(h, Host(name, p)) == Key(h, Host(name, q)) <==> h.ofPort(p) % WIDTH == h.ofPort(q) % WIDTH
  {
    SameAfterAdding(h.ofName(name) * 100, h.ofPort(p), h.ofPort(q));
  }

  /** For one port the name does, as far as a hundred times its hash does. */
  lemma {:induction false} KeysOfOnePort(h: Hashing, n: string, m: string, port: int)
    ensures Key(h, Host(n, port)) == Key(h, Host(m, port))
       <==> (100 * h.ofName(n)) % WIDTH == (100 * h.ofName(m)) % WIDTH
  {
    var x, y: nat := 100 * h.ofName(n), 100 * h.ofName(m);
    assert h.ofName(n) * 100 + h.ofPort(port) == h.ofPort(port) + x;
    assert h.ofName(m) * 100 + h.ofPort(port) == h.ofPort(port) + y;
    SameAfterAdding(h.ofPort(port), x, y);
  }

  /** The map, by key. */
  type Pool = map<nat, Entry>

  /** No host maps to an empty list. */
  ghost predicate Wellformed(h: Hashing, pool: Pool) {
    forall k :: k in pool ==> pool[k].inits != [] && Key(h, pool[k].host) == k
  }

  /** How often a target waits in the pool. */
  function Count(h: Hashing, pool: Pool, t: Target): nat {
    var k := Key(h, t.host);
    if k in pool && pool[k].host == t.host then multiset(pool[k].inits)[t.init] else 0
  }

  function Added(h: Hashing, pool: Pool, t: Target): Pool {
    var k := Key(h, t.host);
    if k in pool then pool[k := pool[k].(inits := pool[k].inits + [t.init])] else pool[k := Entry(t.host, [t.init])]
  }

  /** What an added target will be handed out as: the first host of a key stays. */
  function StoredAs(h: Hashing, pool: Pool, t: Target): Target {
    var k := Key(h, t.host);
    if k in pool then t.(host := pool[k].host) else t
  }

  lemma {:induction false} FrontExists(pool: Pool)
    requires pool != map[]
    ensures exists k :: k in pool && forall j :: j in pool ==> k <= j
  {
    var least := Smallest(pool.Keys);
  }

  ghost function Front(pool: Pool): (k: nat)
    requires pool != map[]
    ensures k in pool && forall j :: j in pool ==> k <= j
  {
    FrontExists(pool);
    var k :| k in pool && forall j :: j in pool ==> k <= j;
    k
  }

  /** The last text of the first entry. */
  ghost function Next(pool: Pool): Target
    requires pool != map[] && pool[Front(pool)].inits != []
  {
    var e := pool[Front(pool)];
    Target(e.host, e.inits[|e.inits| - 1])
  }

  ghost function Without(pool: Pool): Pool
    requires pool != map[] && pool[Front(pool)].inits != []
  {
    var k := Front(pool);
    var e := pool[k];
    if |e.inits| == 1 then pool - {k} else pool[k := e.(inits := e.inits[..|e.inits| - 1])]
  }

  /** The number of waiting texts. */
  ghost function Total(pool: Pool): nat
    decreases |pool|
  {
    if pool == map[] then 0
    else
      var k := Front(pool);
      |pool[k].inits| + Total(pool - {k})
  }

  lemma {:induction false} TotalBut(pool: Pool, k: nat)
    requires k in pool
    ensures Total(pool) == |pool[k].inits| + Total(pool - {k})
    decreases |pool|
  {
    var f := Front(pool);
    if f != k {
      TotalBut(pool - {f}, k);
      assert f in pool - {k};
      assert Front(pool - {k}) == f;
      assert pool - {f} - {k} == pool - {k} - {f};
    }
  }

  lemma {:induction false} TotalSet(pool: Pool, k: nat, e: Entry)
    ensures Total(pool[k := e]) == Total(pool) + |e.inits| - if k in pool then |pool[k].inits| else 0
  {
    TotalBut(pool[k := e], k);
    assert pool[k := e] - {k} == pool - {k};
    if k in pool {
      TotalBut(pool, k);
    } else {
      assert pool - {k} == pool;
    }
  }

  // ------------------------------------------------------------------ adding

  lemma {:induction false} AddCounts(h: Hashing, pool: Pool, t: Target, u: Target)
    requires Wellformed(h, pool)
    ensures Wellformed(h, Added(h, pool, t))
    ensures Count(h, Added(h, pool, t), u) == Count(h, pool, u) + if u == StoredAs(h, pool, t) then 1 else 0
  {
    var k := Key(h, t.host);
    assert Key(h, StoredAs(h, pool, t).host) == k;
    if k in pool {
      assert multiset(pool[k].inits + [t.init]) == multiset(pool[k].inits) + multiset{t.init};
    }
  }

  lemma {:induction false} AddTotal(h: Hashing, pool: Pool, t: Target)
    ensures Total(Added(h, pool, t)) == Total(pool) + 1
  {
    var k := Key(h, t.host);
    TotalSet(pool, k, Added(h, pool, t)[k]);
  }

  /** The exact condition under which adding a target adds that target and nothing else: its
      key is new, or it was made for the same host. */
  lemma {:induction false} AddsItselfExactly(h: Hashing, pool: Pool, t: Target)
    requires Wellformed(h, pool)
    ensures (forall u :: Count(h, Added(h, pool, t), u) == Count(h, pool, u) + if u == t then 1 else 0)
       <==> (Key(h, t.host) !in pool || pool[Key(h, t.host)].host == t.host)
  {
    forall u ensures Count(h, Added(h, pool, t), u) == Count(h, pool, u) + if u == StoredAs(h, pool, t) then 1 else 0 {
      AddCounts(h, pool, t, u);
    }
    if StoredAs(h, pool, t) != t {
      assert Count(h, Added(h, pool, t), t) == Count(h, pool, t);
    }
  }

  /** Making an empty entry first and appending to it then is `Added`. */
  lemma {:induction false} InsertThenAppend(h: Hashing, pool: Pool, t: Target)
    ensures var k := Key(h, t.host);
            var made := if k in pool then pool else pool[k := Entry(t.host, [])];
            made[k := made[k].(inits := made[k].inits + [t.init])] == Added(h, pool, t)
  {
    assert [] + [t.init] == [t.init];
  }

  // ------------------------------------------------------------------ taking

  lemma {:induction false} LastApart(s: seq<string>, x: string)
    requires s != []
    ensures multiset(s)[x] == multiset(s[..|s| - 1])[x] + if x == s[|s| - 1] then 1 else 0
  {
    assert s == s[..|s| - 1] + [s[|s| - 1]];
  }

  /** Only the counts of one key change. */
  lemma {:induction false} OtherKeys(h: Hashing, pool: Pool, u: Target)
    requires Wellformed(h, pool) && pool != map[]
    ensures Wellformed(h, Without(pool)) && Key(h, Next(pool).host) == Front(pool)
    ensures Key(h, u.host) != Front(pool) ==> Count(h, Without(pool), u) == Count(h, pool, u)
  {
  }

  lemma {:induction false} TakeCounts(h: Hashing, pool: Pool, u: Target)
    requires Wellformed(h, pool) && pool != map[]
    ensures Wellformed(h, Without(pool)) && Count(h, pool, Next(pool)) > 0
    ensures Count(h, Without(pool), u) == Count(h, pool, u) - if u == Next(pool) then 1 else 0
  {
    var k := Front(pool);
    var e := pool[k];
    OtherKeys(h, pool, u);
    LastApart(e.inits, Next(pool).init);
    LastApart(e.inits, u.init);
    if Key(h, u.host) == k && u.host == e.host {
      if |e.inits| == 1 {
        assert e.inits[..0] == [];
      } else {
        assert Without(pool)[k] == e.(inits := e.inits[..|e.inits| - 1]);
      }
    }
  }

  lemma {:induction false} TakeTotal(h: Hashing, pool: Pool)
    requires Wellformed(h, pool) && pool != map[]
    ensures Total(Without(pool)) == Total(pool) - 1
  {
    var k := Front(pool);
    TotalBut(pool, k);
    if |pool[k].inits| > 1 {
      TotalSet(pool, k, Without(pool)[k]);
    }
  }

  lemma {:induction false} EmptyMeansNone(h: Hashing, pool: Pool)
    requires Wellformed(h, pool)
    ensures Total(pool) == 0 <==> pool == map[]
  {
    if pool != map[] {
      TotalBut(pool, Front(pool));
    }
  }

  /** Popping the text and then erasing an empty entry is `Without`. */
  lemma {:induction false} PopThenErase(pool: Pool)
    requires pool != map[] && pool[Front(pool)].inits != []
    ensures var k := Front(pool); var e := pool[k];
            var popped := pool[k := e.(inits := e.inits[..|e.inits| - 1])];
            Without(pool) == if popped[k].inits == [] then popped - {k} else popped
  {
    var k := Front(pool);
    var e := pool[k];
    assert pool[k := e.(inits := e.inits[..|e.inits| - 1])] - {k} == pool - {k};
  }

  /** The target taken has the smallest key, and the others are not smaller afterwards. */
  lemma {:induction false} TakeSmallest(h: Hashing, pool: Pool)
    requires Wellformed(h, pool) && pool != map[]
    ensures forall k :: k in pool ==> Key(h, Next(pool).host) <= k
    ensures forall k :: k in Without(pool) ==> Key(h, Next(pool).host) <= k
    ensures Total(Without(pool)) == Total(pool) - 1 && (Without(pool) == map[] <==> Total(pool) == 1)
  {
    TakeTotal(h, pool);
    OtherKeys(h, pool, Next(pool));
    EmptyMeansNone(h, Without(pool));
  }

  /** What was added last to the first host is handed out first, and the pool is as before. */
  lemma {:induction false} LastInFirstOut(h: Hashing, pool: Pool, t: Target)
    requires Wellformed(h, pool) && forall k :: k in pool ==> Key(h, t.host) <= k
    ensures var pool' := Added(h, pool, t);
            && Wellformed(h, pool') && pool' != map[]
            && Next(pool') == StoredAs(h, pool, t) && Without(pool') == pool
  {
    var k, pool' := Key(h, t.host), Added(h, pool, t);
    AddCounts(h, pool, t, t);
    assert Front(pool') == k;
    if k in pool {
      var e := pool[k];
      assert (e.inits + [t.init])[..|e.inits|] == e.inits;
      assert pool'[k := e] == pool;
    } else {
      assert pool' - {k} == pool;
    }
  }

  // ------------------------------------------------------------------ over a whole life

  /** Different hosts among these have different keys. */
  ghost predicate Injective(h: Hashing, added: multiset<Target>) {
    forall t, u :: t in added && u in added && Key(h, t.host) == Key(h, u.host) ==> t.host == u.host
  }

  /** What was added is what was handed out and what still waits: always as a number, and
      target by target when the hosts' keys differ. */
  ghost predicate Conserved(h: Hashing, pool: Pool, added: multiset<Target>, handed: multiset<Target>) {
    && Wellformed(h, pool)
    && |handed| + Total(pool) == |added|
    && (forall k :: k in pool ==> exists t :: t in added && t.host == pool[k].host)
    && (Injective(h, added) ==> forall t :: handed[t] + Count(h, pool, t) == added[t])
  }

  lemma {:induction false} HostsWereAdded(h: Hashing, pool: Pool, added: multiset<Target>, t: Target)
    requires forall k :: k in pool ==> exists u :: u in added && u.host == pool[k].host
    ensures var pool' := Added(h, pool, t);
            forall k :: k in pool' ==> exists u :: u in added + multiset{t} && u.host == pool'[k].host
  {
    var pool', added' := Added(h, pool, t), added + multiset{t};
    forall k | k in pool' ensures exists u :: u in added' && u.host == pool'[k].host {
      if k in pool {
        var u :| u in added && u.host == pool[k].host;
        assert u in added';
      } else {
        assert t in added';
      }
    }
  }

  lemma {:induction false} StoredAsItself(h: Hashing, pool: Pool, added: multiset<Target>, t: Target)
    requires forall k :: k in pool ==> exists u :: u in added && u.host == pool[k].host
    requires Wellformed(h, pool) && Injective(h, added + multiset{t})
    ensures StoredAs(h, pool, t) == t && Injective(h, added)
  {
    var added' := added + multiset{t};
    assert t in added';
    assert forall u :: u in added ==> u in added';
    var k := Key(h, t.host);
    if k in pool {
      var u :| u in added && u.host == pool[k].host;
      assert u in added' && Key(h, u.host) == k;
    }
  }

  lemma {:induction false} AddConserves(h: Hashing, pool: Pool, added: multiset<Target>,
        handed: multiset<Target>, t: Target)
    requires Conserved(h, pool, added, handed)
    ensures Conserved(h, Added(h, pool, t), added + multiset{t}, handed)
  {
    AddTotal(h, pool, t);
    AddCounts(h, pool, t, t);
    HostsWereAdded(h, pool, added, t);
    if Injective(h, added + multiset{t}) {
      StoredAsItself(h, pool, added, t);
      forall u ensures handed[u] + Count(h, Added(h, pool, t), u) == (added + multiset{t})[u] {
        AddCounts(h, pool, t, u);
      }
    }
  }

  lemma {:induction false} TakeConserves(h: Hashing, pool: Pool, added: multiset<Target>, handed: multiset<Target>)
    requires Conserved(h, pool, added, handed) && pool != map[]
    ensures Conserved(h, Without(pool), added, handed + multiset{Next(pool)})
  {
    TakeTotal(h, pool);
    TakeCounts(h, pool, Next(pool));
    if Injective(h, added) {
      forall u ensures (handed + multiset{Next(pool)})[u] + Count(h, Without(pool), u) == added[u] {
        TakeCounts(h, pool, u);
      }
    }
  }

  /** Targets come in the order of their keys, all before the ones that wait. */
  ghost predicate InOrder(h: Hashing, got: seq<Target>, pool: Pool) {
    && (forall i, j :: 0 <= i < j < |got| ==> Key(h, got[i].host) <= Key(h, got[j].host))
    && (forall i, k :: 0 <= i < |got| && k in pool ==> Key(h, got[i].host) <= k)
  }

  lemma {:induction false} StaysInOrder(h: Hashing, got: seq<Target>, pool: Pool)
    requires Wellformed(h, pool) && pool != map[] && InOrder(h, got, pool)
    ensures InOrder(h, got + [Next(pool)], Without(pool))
  {
    TakeSmallest(h, pool);
    OtherKeys(h, pool, Next(pool));
    assert forall k :: k in Without(pool) ==> k in pool;
  }

  /** The shared data of the client threads. */
  class ClientData {
    const hash: Hashing
    var pool: Pool                      // `_pool`
    ghost var added: multiset<Target>   // history
    ghost var handed: multiset<Target>  // history

    ghost predicate Valid()
      reads this
    {
      Conserved(hash, pool, added, handed)
    }

    constructor (h: Hashing)
      ensures Valid() && hash == h && pool == map[] && added == handed == multiset{}
    {
      hash, pool, added, handed := h, map[], multiset{}, multiset{};
    }

    method RawAdd(host: string, port: int, init: string)
      requires Valid()
      modifies this
      ensures Valid() && handed == old(handed)
      ensures added == old(added) + multiset{Target(Host(host, port), init)}
      ensures pool == Added(hash, old(pool), Target(Host(host, port), init))
    {
      ghost var t := Target(Host(host, port), init);
      AddConserves(hash, pool, added, handed, t);
      EmplaceBack(Host(host, port), init);
      added := added + multiset{t};
    }

    /** `_pool[target].emplace_back(init)`. */
    method EmplaceBack(target: Host, init: string)
      modifies this`pool
      ensures pool == Added(hash, old(pool), Target(target, init))
    {
      var k := Key(hash, target);
      InsertThenAppend(hash, pool, Target(target, init));
      if k !in pool {
        pool := pool[k := Entry(target, [])];
      }
      pool := pool[k := pool[k].(inits := pool[k].inits + [init])];
    }

    /** The last text of the first host; the host goes when it was the only one. */
    method RawGet() returns (t: Target)
      requires Valid() && pool != map[]
      modifies this
      ensures Valid() && added == old(added)
      ensures handed == old(handed) + multiset{t}
      ensures old(Wellformed(hash, pool)) && t == Next(old(pool)) && pool == Without(old(pool))
      ensures Total(pool) == old(Total(pool)) - 1 && (pool == map[] <==> Total(pool) == 0)
    {
      TakeSmallest(hash, pool);
      TakeConserves(hash, pool, added, handed);
      t := PopFront();
      handed := handed + multiset{t};
    }

    /** `_pool.begin()`. */
    method Begin() returns (k: nat)
      requires pool != map[]
      ensures k == Front(pool)
    {
      FrontExists(pool);
      k :| k in pool && forall j :: j in pool ==> k <= j;
    }

    /** The body of raw_get. */
    method PopFront() returns (t: Target)
      requires pool != map[] && pool[Front(pool)].inits != []
      modifies this`pool
      ensures t == Next(old(pool)) && pool == Without(old(pool))
    {
      PopThenErase(pool);
      var k := Begin();
      var e := pool[k];
      t := Target(e.host, e.inits[|e.inits| - 1]);
      var popped := pool[k := Entry(e.host, e.inits[..|e.inits| - 1])];
      pool := if popped[k].inits == [] then popped - {k} else popped;
    }

    /** One thread's round: exactly `batch` targets, or all of them if there are fewer or the
        batch is negative. */
    method GetFromPool(batch: int, fdNum: int) returns (got: seq<Target>, now: int)
      requires Valid()
      modifies this
      ensures Valid() && added == old(added) && handed == old(handed) + multiset(got)
      ensures |got| == if 0 <= batch < old(Total(pool)) then batch else old(Total(pool))
      ensures Total(pool) == old(Total(pool)) - |got|
      ensures InOrder(hash, got, pool)
      ensures now == fdNum + |got|
    {
      got, now := [], fdNum;
      var left := batch;
      EmptyMeansNone(hash, pool);
      while left != 0
        invariant Valid() && added == old(added) && handed == old(handed) + multiset(got)
        invariant Total(pool) == old(Total(pool)) - |got| && now == fdNum + |got|
        invariant left == batch - |got| && (batch >= 0 ==> left >= 0)
        invariant pool == map[] <==> Total(pool) == 0
        invariant InOrder(hash, got, pool)
        decreases Total(pool)
      {
        left := left - 1;
        if |pool| == 0 {
          break;
        }
        now := now + 1;
        StaysInOrder(hash, got, pool);
        var t := RawGet();
        assert multiset(got + [t]) == multiset(got) + multiset{t};
        got := got + [t];
      }
    }
  }
}
