/**
 * The bounded cache of per-tenant engines.  The dictionary is the sequence of its items in insertion
 * order, which is also the order of last use.
 */
module EngineCache {
  import opened Basics

  datatype Key = Key(tenant: string, app: string)

  type Engine = nat

  /** What a key holds: a placeholder with its future, or an engine. */
  datatype Slot = Pending(future: nat) | Live(engine: Engine)

  type Item = (Key, Slot)

  // ---------------------------------------------------------------------------------------------
  // The dictionary
  // ---------------------------------------------------------------------------------------------

  predicate Distinct(d: seq<Item>) {
    forall i, j :: 0 <= i < j < |d| ==> d[i].0 != d[j].0
  }

  /** Where a key is, or the length. */
  function IndexOf(d: seq<Item>, k: Key): (i: nat)
    ensures i <= |d| && (i < |d| ==> d[i].0 == k)
    ensures forall j :: 0 <= j < i ==> d[j].0 != k
  {
    if |d| == 0 then 0 else if d[0].0 == k then 0 else 1 + IndexOf(d[1..], k)
  }

  function Lookup(d: seq<Item>, k: Key): Option<Slot> {
    var i := IndexOf(d, k);
    if i < |d| then Some(d[i].1) else None
  }

  function Without(d: seq<Item>, i: nat): seq<Item>
    requires i < |d|
  {
    d[..i] + d[i + 1..]
  }

  /** `del d[k]`, if it is there. */
  function Del(d: seq<Item>, k: Key): seq<Item> {
    var i := IndexOf(d, k);
    if i < |d| then Without(d, i) else d
  }

  /** `d[k] = v`: in place when the key is there, at the end otherwise. */
  function Put(d: seq<Item>, k: Key, v: Slot): seq<Item> {
    var i := IndexOf(d, k);
    if i < |d| then d[i := (k, v)] else d + [(k, v)]
  }

  /** The engines' items, oldest use first. */
  function Lives(d: seq<Item>): (r: seq<Item>)
    ensures |r| <= |d|
    ensures forall i :: 0 <= i < |r| ==> r[i].1.Live?
  {
    if |d| == 0 then [] else Lives(d[..|d| - 1]) + (if d[|d| - 1].1.Live? then [d[|d| - 1]] else [])
  }

  function FirstLive(d: seq<Item>): (i: nat)
    requires |Lives(d)| > 0
    ensures i < |d| && d[i].1.Live? && forall j :: 0 <= j < i ==> !d[j].1.Live?
  {
    if Lives(d[..|d| - 1]) != [] then FirstLive(d[..|d| - 1])
    else NoLives(d[..|d| - 1]); |d| - 1
  }

  lemma {:induction false} NoLives(d: seq<Item>)
    requires Lives(d) == []
    ensures forall j :: 0 <= j < |d| ==> !d[j].1.Live?
  {
    if |d| > 0 {
      NoLives(d[..|d| - 1]);
    }
  }

  /** What the eviction loop leaves, and what it takes out, in order. */
  function Evict(d: seq<Item>, limit: nat): (seq<Item>, seq<Engine>)
    decreases |d|
  {
    if |Lives(d)| <= limit then (d, [])
    else
      var i := FirstLive(d);
      var (rest, out) := Evict(Without(d, i), limit);
      (rest, [d[i].1.engine] + out)
  }

  function EnginesOf(items: seq<Item>): (r: seq<Engine>)
    requires forall i :: 0 <= i < |items| ==> items[i].1.Live?
    ensures |r| == |items| && forall i :: 0 <= i < |r| ==> r[i] == items[i].1.engine
  {
    seq(|items|, i requires 0 <= i < |items| => items[i].1.engine)
  }

  // ---------------------------------------------------------------------------------------------
  // Facts about the dictionary
  // ---------------------------------------------------------------------------------------------

  lemma {:induction false} LivesOfConcat(a: seq<Item>, b: seq<Item>)
    ensures Lives(a + b) == Lives(a) + Lives(b)
  {
    if |b| == 0 {
      assert a + b == a;
    } else {
      LivesOfConcat(a, b[..|b| - 1]);
      assert (a + b)[..|a + b| - 1] == a + b[..|b| - 1];
    }
  }

  lemma LivesOfOne(x: Item)
    ensures Lives([x]) == if x.1.Live? then [x] else []
  {
  }

  lemma LivesOfThree(a: seq<Item>, x: Item, b: seq<Item>)
    ensures Lives(a + [x] + b) == Lives(a) + (if x.1.Live? then [x] else []) + Lives(b)
  {
    LivesOfConcat(a + [x], b);
    LivesOfConcat(a, [x]);
    LivesOfOne(x);
  }

  /** Taking out one item. */
  lemma LivesWithout(d: seq<Item>, i: nat)
    requires i < |d|
    ensures Lives(d) == Lives(d[..i]) + (if d[i].1.Live? then [d[i]] else []) + Lives(d[i + 1..])
    ensures Lives(Without(d, i)) == Lives(d[..i]) + Lives(d[i + 1..])
  {
    hide Lives;
    Rejoin(d, i);
    LivesOfThree(d[..i], d[i], d[i + 1..]);
    LivesOfConcat(d[..i], d[i + 1..]);
  }

  lemma Rejoin(d: seq<Item>, i: nat)
    requires i < |d|
    ensures d == d[..i] + [d[i]] + d[i + 1..]
  {
  }

  lemma WithoutFacts(d: seq<Item>, i: nat)
    requires Distinct(d) && i < |d|
    ensures Distinct(Without(d, i))
    ensures forall x :: x in Without(d, i) <==> x in d && x.0 != d[i].0
    ensures IndexOf(Without(d, i), d[i].0) == |d| - 1
  {
  }

  lemma LookupIsMembership(d: seq<Item>, k: Key)
    requires Distinct(d)
    ensures forall v :: Lookup(d, k) == Some(v) <==> (k, v) in d
    ensures Lookup(d, k).None? <==> forall x :: x in d ==> x.0 != k
  {
  }

  lemma {:induction false} FirstLiveIsFirst(d: seq<Item>)
    requires |Lives(d)| > 0
    ensures Lives(d)[0] == d[FirstLive(d)] && Lives(Without(d, FirstLive(d))) == Lives(d)[1..]
  {
    var i := FirstLive(d);
    LivesWithout(d, i);
    NoneLive(d[..i]);
  }

  lemma {:induction false} NoneLive(d: seq<Item>)
    requires forall j :: 0 <= j < |d| ==> !d[j].1.Live?
    ensures Lives(d) == []
  {
    if |d| > 0 {
      NoneLive(d[..|d| - 1]);
    }
  }

  function Over(d: seq<Item>, limit: nat): nat {
    if |Lives(d)| <= limit then 0 else |Lives(d)| - limit
  }

  lemma CutAfterFirst(l: seq<Item>, n: nat)
    requires 1 <= n <= |l| && forall i :: 0 <= i < |l| ==> l[i].1.Live?
    ensures l[1..][n - 1..] == l[n..]
    ensures EnginesOf(l[..n]) == [l[0].1.engine] + EnginesOf(l[1..][..n - 1])
  {
  }

  /** Eviction takes the engines least recently used, as many as are over the limit, in that order. */
  lemma {:induction false} EvictTakesTheOldest(d: seq<Item>, limit: nat)
    ensures Lives(Evict(d, limit).0) == Lives(d)[Over(d, limit)..]
    ensures Evict(d, limit).1 == EnginesOf(Lives(d)[..Over(d, limit)])
    decreases |d|
  {
    if |Lives(d)| > limit {
      var r := Without(d, FirstLive(d));
      FirstLiveIsFirst(d);
      EvictTakesTheOldest(r, limit);
      hide Lives, FirstLive, Without;
      CutAfterFirst(Lives(d), Over(d, limit));
    }
  }

  /** And nothing else: every placeholder stays. */
  lemma {:induction false} EvictKeepsPlaceholders(d: seq<Item>, limit: nat)
    requires Distinct(d)
    ensures Distinct(Evict(d, limit).0)
    ensures forall x :: x in Evict(d, limit).0 ==> x in d
    ensures forall x :: x in d && x.1.Pending? ==> x in Evict(d, limit).0
    decreases |d|
  {
    if |Lives(d)| > limit {
      var i := FirstLive(d);
      WithoutFacts(d, i);
      hide Lives, FirstLive, Without;
      EvictKeepsPlaceholders(Without(d, i), limit);
      forall x | x in d && x.1.Pending? ensures x.0 != d[i].0 {
        var j :| 0 <= j < |d| && d[j] == x;
        assert j != i;
      }
    }
  }

  // ---------------------------------------------------------------------------------------------
  // The cache object: one method per critical section
  // ---------------------------------------------------------------------------------------------

  datatype Entered = Hit(engine: Engine) | Join(future: nat) | Build(future: nat)

  /** `MM_TENANT_ENGINE_CACHE`, at least one; 32 when unset or unreadable. */
  function Limit(env: Option<int>): (n: nat)
    ensures n >= 1
  {
    if env.None? then 32 else Max(1, env.value)
  }

  class TenantEngineCache {
    var data: seq<Item>

    constructor ()
      ensures data == []
    {
      data := [];
    }

    method RealCount() returns (n: nat)
      ensures n == |Lives(data)|
    {
      n := 0;
      for i := 0 to |data|
        invariant n == |Lives(data[..i])|
      {
        assert data[..i + 1][..i] == data[..i];
        if data[i].1.Live? {
          n := n + 1;
        }
      }
      assert data[..|data|] == data;
    }

    /** `get`: a hit moves to the end; a placeholder is no hit. */
    method Get(k: Key) returns (r: Option<Engine>)
      modifies this
      ensures data == AfterGet(old(data), k)
      ensures r == match Lookup(old(data), k) { case Some(Live(e)) => Some(e) case _ => None }
    {
      var i := IndexOf(data, k);
      if i == |data| || data[i].1.Pending? {
        return None;
      }
      var item := data[i];
      data := data[..i] + data[i + 1..];
      data := data + [item];
      return Some(item.1.engine);
    }

    /** The first critical section of `get_or_create`; `fresh'` is the future a new placeholder gets.  The answer is
        what the dictionary held for this key: its engine, its placeholder's future, or nothing. */
    method Enter(k: Key, fresh': nat) returns (r: Entered)
      modifies this
      ensures forall e :: r == Hit(e) <==> Lookup(old(data), k) == Some(Live(e))
      ensures forall f :: r == Join(f) <==> Lookup(old(data), k) == Some(Pending(f))
      ensures r.Build? <==> Lookup(old(data), k).None?
      ensures r.Build? ==> r.future == fresh' && data == old(data) + [(k, Pending(fresh'))]
      ensures data == AfterEnter(old(data), k, fresh').0 && r == AfterEnter(old(data), k, fresh').1
    {
      var i := IndexOf(data, k);
      if i < |data| && data[i].1.Live? {
        var item := data[i];
        data := data[..i] + data[i + 1..];
        data := data + [item];
        return Hit(item.1.engine);
      }
      if i == |data| {
        data := data + [(k, Pending(fresh'))];
        return Build(fresh');
      }
      return Join(data[i].1.future);
    }

    /** The second: the engine replaces its placeholder, and the oldest engines over the limit go. */
    method Land(k: Key, future: nat, engine: Engine, env: Option<int>) returns (evicted: seq<Engine>)
      modifies this
      ensures data == AfterLand(old(data), k, future, engine, Limit(env)).0
      ensures evicted == AfterLand(old(data), k, future, engine, Limit(env)).1
      ensures |Lives(data)| <= (if env.None? then 32 else if env.value < 1 then 1 else env.value)
      ensures evicted != [] ==> |Lives(data)| == if env.None? then 32 else if env.value < 1 then 1 else env.value
    {
      Unpark(k, future);
      var j := IndexOf(data, k);
      if j < |data| {
        data := data[j := (k, Live(engine))];
      } else {
        data := data + [(k, Live(engine))];
      }
      EvictTakesTheOldest(data, Limit(env));
      evicted := EvictDown(Limit(env));
    }

    method EvictDown(limit: nat) returns (evicted: seq<Engine>)
      modifies this
      ensures data == Evict(old(data), limit).0 && evicted == Evict(old(data), limit).1
    {
      ghost var d0 := data;
      evicted := [];
      var n := RealCount();
      while n > limit
        invariant n == |Lives(data)| && EvictedSoFar(d0, data, evicted, limit)
        decreases |data|
      {
        OneMoreEvicted(d0, data, evicted, limit);
        var oldest := FirstLive(data);
        evicted := evicted + [data[oldest].1.engine];
        data := data[..oldest] + data[oldest + 1..];
        hide Lives, EvictedSoFar;
        n := RealCount();
      }
    }

    /** A failed creation removes its own placeholder and no other. */
    method Unpark(k: Key, future: nat)
      modifies this
      ensures data == AfterUnpark(old(data), k, future)
    {
      var i := IndexOf(data, k);
      if i < |data| && data[i].1 == Pending(future) {
        data := data[..i] + data[i + 1..];
      }
    }

    /** `clear`: the engines go, the placeholders stay. */
    method Clear() returns (dropped: seq<Engine>)
      modifies this
      ensures data == Pendings(old(data)) && dropped == EnginesOf(Lives(old(data)))
    {
      var kept: seq<Item> := [];
      dropped := [];
      for i := 0 to |data|
        invariant data == old(data)
        invariant kept == Pendings(data[..i]) && dropped == EnginesOf(Lives(data[..i]))
      {
        assert data[..i + 1][..i] == data[..i];
        if data[i].1.Live? {
          dropped := dropped + [data[i].1.engine];
        } else {
          kept := kept + [data[i]];
        }
      }
      assert data[..|data|] == data;
      data := kept;
    }
  }

  function Pendings(d: seq<Item>): (r: seq<Item>)
    ensures |r| <= |d|
  {
    if |d| == 0 then [] else Pendings(d[..|d| - 1]) + (if d[|d| - 1].1.Live? then [] else [d[|d| - 1]])
  }

  function AfterGet(d: seq<Item>, k: Key): seq<Item> {
    match Lookup(d, k)
    case Some(Live(e)) => Del(d, k) + [(k, Live(e))]
    case _ => d
  }

  function AfterEnter(d: seq<Item>, k: Key, fresh': nat): (seq<Item>, Entered) {
    match Lookup(d, k)
    case Some(Live(e)) => (AfterGet(d, k), Hit(e))
    case Some(Pending(f)) => (d, Join(f))
    case None => (d + [(k, Pending(fresh'))], Build(fresh'))
  }

  /** What the first critical section answers: the key's own engine, its own placeholder's future, or a new one, and
      what it leaves under every key. */
  lemma EnterAnswers(d: seq<Item>, k: Key, fresh': nat)
    requires Distinct(d)
    ensures var (r, answer) := AfterEnter(d, k, fresh');
            && (forall e :: answer == Hit(e) <==> (k, Live(e)) in d)
            && (forall f :: answer == Join(f) <==> (k, Pending(f)) in d)
            && (answer.Build? <==> forall x :: x in d ==> x.0 != k) && (answer.Build? ==> answer.future == fresh')
            && (forall x :: x in r <==> x in d || (answer.Build? && x == (k, Pending(fresh'))))
  {
    LookupIsMembership(d, k);
    GetMembers(d, k);
  }

  lemma GetMembers(d: seq<Item>, k: Key)
    ensures forall x :: x in AfterGet(d, k) <==> x in d
  {
    var i := IndexOf(d, k);
    if i < |d| && d[i].1.Live? {
      Rejoin(d, i);
      forall x ensures x in Without(d, i) + [d[i]] <==> x in d {
        assert x in d[..i] + [d[i]] + d[i + 1..] <==> x in d[..i] || x == d[i] || x in d[i + 1..];
      }
    }
  }

  function AfterUnpark(d: seq<Item>, k: Key, future: nat): seq<Item> {
    if Lookup(d, k) == Some(Pending(future)) then Del(d, k) else d
  }

  /** A creation that gives up takes its own placeholder away and nothing else. */
  lemma UnparkTakesItsOwn(d: seq<Item>, k: Key, future: nat)
    requires Distinct(d)
    ensures forall x :: x in AfterUnpark(d, k, future) <==> x in d && x != (k, Pending(future))
    ensures Distinct(AfterUnpark(d, k, future))
  {
    LookupIsMembership(d, k);
    if Lookup(d, k) == Some(Pending(future)) {
      DelMembers(d, k);
      forall x | x in d && x.0 == k ensures x == (k, Pending(future)) {
        DistinctKeys(d, x, (k, Pending(future)));
      }
    }
  }

  /** After a landing the dictionary holds the new engine under its key, and otherwise only what it held before. */
  lemma LandMembers(d: seq<Item>, k: Key, future: nat, engine: Engine, limit: nat)
    requires Distinct(d) && (k, future) in Parked(d)
    ensures forall x :: x in AfterLand(d, k, future, engine, limit).0 ==> x in d || x == (k, Live(engine))
  {
    ParkedIsMembership(d, k, future);
    UnparkFacts(d, k, future);
    UnparkTakesItsOwn(d, k, future);
    UnevictedFacts(d, k, future, engine);
    hide Lives, Distinct, Evict, AfterUnpark, Parked;
    EvictKeepsPlaceholders(Unevicted(d, k, future, engine), limit);
  }

  predicate EvictedSoFar(d0: seq<Item>, d: seq<Item>, evicted: seq<Engine>, limit: nat) {
    && Evict(d0, limit).0 == Evict(d, limit).0
    && Evict(d0, limit).1 == evicted + Evict(d, limit).1
  }

  lemma OneMoreEvicted(d0: seq<Item>, d: seq<Item>, evicted: seq<Engine>, limit: nat)
    requires EvictedSoFar(d0, d, evicted, limit) && |Lives(d)| > limit
    ensures var i := FirstLive(d);
            EvictedSoFar(d0, Without(d, i), evicted + [d[i].1.engine], limit)
  {
    hide Lives, FirstLive, Without;
    var i := FirstLive(d);
    var (rest, out) := Evict(Without(d, i), limit);
    assert evicted + ([d[i].1.engine] + out) == evicted + [d[i].1.engine] + out;
  }

  function Unevicted(d: seq<Item>, k: Key, future: nat, engine: Engine): seq<Item> {
    Put(AfterUnpark(d, k, future), k, Live(engine))
  }

  function AfterLand(d: seq<Item>, k: Key, future: nat, engine: Engine, limit: nat): (seq<Item>, seq<Engine>) {
    Evict(Unevicted(d, k, future, engine), limit)
  }

  // ---------------------------------------------------------------------------------------------
  // What each critical section does to placeholders and engines
  // ---------------------------------------------------------------------------------------------

  function Parked(d: seq<Item>): set<(Key, nat)> {
    set x | x in d && x.1.Pending? :: (x.0, x.1.future)
  }

  function Stock(d: seq<Item>): multiset<Engine> {
    multiset(EnginesOf(Lives(d)))
  }

  /** The live item at index `i` moved to the end. */
  function MovedLast(l: seq<Item>, i: nat): seq<Item>
    requires i < |l|
  {
    Without(l, i) + [l[i]]
  }

  /** How many engines were used less recently than the one at `k`. */
  function Older(d: seq<Item>, k: Key): nat {
    |Lives(d[..IndexOf(d, k)])|
  }

  lemma ParkedIsMembership(d: seq<Item>, k: Key, f: nat)
    ensures (k, f) in Parked(d) <==> (k, Pending(f)) in d
  {
  }

  lemma DelMembers(d: seq<Item>, k: Key)
    requires Distinct(d) && Lookup(d, k).Some?
    ensures Distinct(Del(d, k)) && Lookup(Del(d, k), k).None?
    ensures forall x :: x in Del(d, k) <==> x in d && x.0 != k
  {
  }

  lemma CutOut(a: seq<Item>, x: Item, b: seq<Item>)
    ensures Without(a + [x] + b, |a|) == a + b && (a + [x] + b)[|a|] == x
  {
  }

  lemma DelLives(d: seq<Item>, k: Key)
    requires Lookup(d, k).Some?
    ensures var v := Lookup(d, k).value;
            if v.Pending? then Lives(Del(d, k)) == Lives(d)
            else
              var j := Older(d, k);
              j < |Lives(d)| && Lives(d)[j] == (k, v) && Lives(Del(d, k)) == Without(Lives(d), j)
  {
    var i := IndexOf(d, k);
    LivesWithout(d, i);
    var a, b := Lives(d[..i]), Lives(d[i + 1..]);
    CutOut(a, d[i], b);
    hide Lives, IndexOf, Without;
    assert a + [] == a;
  }

  lemma AppendFacts(d: seq<Item>, k: Key, v: Slot)
    requires Distinct(d) && Lookup(d, k).None?
    ensures Distinct(d + [(k, v)])
    ensures forall x :: x in d + [(k, v)] <==> x in d || x == (k, v)
    ensures Lives(d + [(k, v)]) == Lives(d) + (if v.Live? then [(k, v)] else [])
  {
  }

  lemma Rotate(a: seq<Engine>, e: Engine, b: seq<Engine>)
    ensures multiset(a + [e] + b) == multiset(a + b + [e])
  {
  }

  lemma StockMovedLast(l: seq<Item>, i: nat)
    requires i < |l| && forall j :: 0 <= j < |l| ==> l[j].1.Live?
    ensures forall j :: 0 <= j < |MovedLast(l, i)| ==> MovedLast(l, i)[j].1.Live?
    ensures multiset(EnginesOf(MovedLast(l, i))) == multiset(EnginesOf(l))
  {
    var es := EnginesOf(l);
    Rotate(es[..i], es[i], es[i + 1..]);
    assert es == es[..i] + [es[i]] + es[i + 1..];
    assert EnginesOf(MovedLast(l, i)) == es[..i] + es[i + 1..] + [es[i]];
  }

  /** No key has two lives. */
  lemma {:induction false} LivesKeys(d: seq<Item>)
    requires Distinct(d)
    ensures Distinct(Lives(d))
    ensures forall i :: 0 <= i < |Lives(d)| ==> Lives(d)[i] in d
  {
    if |d| > 0 {
      var c := d[..|d| - 1];
      LivesKeys(c);
      assert forall y :: y in c ==> y in d && y.0 != d[|d| - 1].0;
    }
  }

  /** A hit, and a first look that hits, move the engine to the end and change nothing else. */
  lemma GetFacts(d: seq<Item>, k: Key)
    requires Distinct(d)
    ensures Distinct(AfterGet(d, k)) && Parked(AfterGet(d, k)) == Parked(d) && Stock(AfterGet(d, k)) == Stock(d)
    ensures match Lookup(d, k) {
              case Some(Live(e)) =>
                && Older(d, k) < |Lives(d)| && Lives(d)[Older(d, k)] == (k, Live(e))
                && Lives(AfterGet(d, k)) == MovedLast(Lives(d), Older(d, k))
              case _ => AfterGet(d, k) == d
            }
  {
    match Lookup(d, k)
    case Some(Live(e)) =>
      GetParked(d, k, e);
      DelLives(d, k);
      DelMembers(d, k);
      AppendFacts(Del(d, k), k, Live(e));
      hide Lives, Distinct, Del, Older;
      StockMovedLast(Lives(d), Older(d, k));
      hide EnginesOf;
    case _ =>
  }

  lemma GetParked(d: seq<Item>, k: Key, e: Engine)
    requires Distinct(d) && Lookup(d, k) == Some(Live(e))
    ensures Parked(AfterGet(d, k)) == Parked(d)
  {
  }

  lemma DistinctKeys(d: seq<Item>, x: Item, y: Item)
    requires Distinct(d) && x in d && y in d && x.0 == y.0
    ensures x == y
  {
  }

  /** Taking a placeholder away. */
  lemma UnparkFacts(d: seq<Item>, k: Key, f: nat)
    requires Distinct(d) && (k, f) in Parked(d)
    ensures var r := AfterUnpark(d, k, f);
            && Distinct(r) && Parked(r) == Parked(d) - {(k, f)} && Lives(r) == Lives(d) && Stock(r) == Stock(d)
            && Lookup(r, k).None?
  {
    ParkedIsMembership(d, k, f);
    LookupIsMembership(d, k);
    DelMembers(d, k);
    DelLives(d, k);
    hide Lives, Distinct, Lookup, Del;
    forall x | x in d && x.1.Pending? ensures x.0 == k <==> x == (k, Pending(f)) {
      if x.0 == k {
        DistinctKeys(d, x, (k, Pending(f)));
      }
    }
  }

  lemma UnevictedFacts(d: seq<Item>, k: Key, f: nat, e: Engine)
    requires Distinct(d) && (k, f) in Parked(d)
    ensures var r := Unevicted(d, k, f, e);
            Distinct(r) && Parked(r) == Parked(d) - {(k, f)} && Lives(r) == Lives(d) + [(k, Live(e))]
  {
    UnparkFacts(d, k, f);
    var u := AfterUnpark(d, k, f);
    AppendFacts(u, k, Live(e));
    assert Unevicted(d, k, f, e) == u + [(k, Live(e))];
    hide Lives, Distinct, Lookup, IndexOf, AfterUnpark, Unevicted;
    ParkedAfterEviction(u, u + [(k, Live(e))], u + [(k, Live(e))], (k, Live(e)));
  }

  /** A landing: the new engine is the most recent one and stays; as many of the oldest as are over the limit
      are handed out. */
  lemma LandFacts(d: seq<Item>, k: Key, f: nat, e: Engine, limit: nat)
    requires Distinct(d) && (k, f) in Parked(d) && limit >= 1
    ensures var (r, evicted) := AfterLand(d, k, f, e, limit);
            var full := Lives(d) + [(k, Live(e))];
            var n := if |full| <= limit then 0 else |full| - limit;
            && Distinct(r) && Parked(r) == Parked(d) - {(k, f)}
            && Lives(r) == full[n..] && evicted == EnginesOf(full[..n])
            && 0 < |Lives(r)| <= limit && Lives(r)[|Lives(r)| - 1] == (k, Live(e))
            && Stock(d) + multiset{e} == Stock(r) + multiset(evicted)
  {
    UnevictedFacts(d, k, f, e);
    var full := Unevicted(d, k, f, e);
    EvictTakesTheOldest(full, limit);
    EvictKeepsPlaceholders(full, limit);
    hide Lives, Distinct, Lookup, Evict, Unevicted, EnginesOf;
    SameParked(full, Evict(full, limit).0);
    StockAfterEviction(Lives(d), (k, Live(e)), Over(full, limit));
  }

  lemma SameParked(d: seq<Item>, r: seq<Item>)
    requires forall y :: y in r ==> y in d
    requires forall y :: y in d && y.1.Pending? ==> y in r
    ensures Parked(r) == Parked(d)
  {
  }

  lemma ParkedAfterEviction(u: seq<Item>, full: seq<Item>, r: seq<Item>, x: Item)
    requires full == u + [x] && x.1.Live?
    requires forall y :: y in r ==> y in full
    requires forall y :: y in full && y.1.Pending? ==> y in r
    ensures Parked(r) == Parked(u)
  {
  }

  lemma StockAfterEviction(l: seq<Item>, x: Item, n: nat)
    requires forall i :: 0 <= i < |l| ==> l[i].1.Live?
    requires x.1.Live? && n <= |l| + 1
    ensures multiset(EnginesOf(l)) + multiset{x.1.engine}
            == multiset(EnginesOf((l + [x])[n..])) + multiset(EnginesOf((l + [x])[..n]))
  {
    var es := EnginesOf(l) + [x.1.engine];
    assert EnginesOf((l + [x])[n..]) == es[n..] && EnginesOf((l + [x])[..n]) == es[..n];
    SplitMultiset(es, n);
  }

  lemma SplitMultiset(es: seq<Engine>, n: nat)
    requires n <= |es|
    ensures multiset(es) == multiset(es[..n]) + multiset(es[n..])
  {
    assert es == es[..n] + es[n..];
  }

  /** `clear`. */
  lemma ClearFacts(d: seq<Item>)
    requires Distinct(d)
    ensures Distinct(Pendings(d)) && Parked(Pendings(d)) == Parked(d) && Lives(Pendings(d)) == []
  {
    PendingsAreKept(d);
    NoneLive(Pendings(d));
    assert forall x :: x in Pendings(d) <==> x in d && x.1.Pending?;
    hide Lives, Pendings, Distinct;
  }

  lemma {:induction false} PendingsAreKept(d: seq<Item>)
    requires Distinct(d)
    ensures Distinct(Pendings(d))
    ensures forall x :: x in Pendings(d) <==> x in d && x.1.Pending?
    ensures forall i :: 0 <= i < |Pendings(d)| ==> Pendings(d)[i].1.Pending?
  {
    if |d| > 0 {
      var c := d[..|d| - 1];
      var x := d[|d| - 1];
      PendingsAreKept(c);
      var p := Pendings(c);
      assert d == c + [x];
      assert forall y :: y in c ==> y.0 != x.0;
      assert forall i :: 0 <= i < |p| ==> p[i] in p;
      assert Pendings(d) == if x.1.Pending? then p + [x] else p;
      hide Pendings;
    }
  }
}
