/**
 * Threads on one engine cache: any interleaving of lookups, creations outside the lock, landings, failures
 * and clears.  Every critical section is one step, and so are a creation and the resolving of a future.
 */
module CacheThreads {
  import opened Basics
  import opened EngineCache

  datatype Outcome = Got(engine: Engine) | Threw(exception: nat)

  /** Where a thread is; `future` is the placeholder's future. */
  datatype Pc =
    | Idle
    | Creating(key: Key, future: nat)
    | Holding(key: Key, future: nat, engine: Engine)    // created, not landed yet
    | Broken(key: Key, future: nat, exception: nat)     // create raised, the placeholder still parked
    | Resolving(key: Key, future: nat, outcome: Outcome)  // before set_result / set_exception
    | Waiting(key: Key, future: nat)
    | Returned(key: Key, from: Option<nat>, outcome: Outcome)

  /** `made` is what the creator of each future got from `create`, `built` every engine ever created,
      `handed` what evictions and clears handed out for disposal, `used` when each key was last used; `asked` is
      the key each future was parked for, `builtFor` the key whose creation built each engine. */
  datatype State = State(
    data: seq<Item>, threads: map<nat, Pc>, resolved: map<nat, Outcome>, next: nat,
    made: map<nat, Outcome>, built: set<Engine>, handed: seq<Engine>, used: map<Key, nat>, clock: nat,
    asked: map<nat, Key>, builtFor: map<Engine, Key>)

  datatype Act =
    | Get(key: Key)
    | Enter(key: Key)
    | CreateReturns(engine: Engine)
    | CreateThrows(exception: nat)
    | Land(env: Option<int>)
    | Unpark
    | Resolve
    | Wake
    | ClearAll
    | Leave

  predicate Enabled(s: State, t: nat, a: Act) {
    t in s.threads &&
    var pc := s.threads[t];
    match a
    case Get(_) => pc.Idle?
    case Enter(_) => pc.Idle?
    case CreateReturns(e) => pc.Creating? && e !in s.built
    case CreateThrows(_) => pc.Creating?
    case Land(_) => pc.Holding?
    case Unpark => pc.Broken?
    case Resolve => pc.Resolving?
    case Wake => pc.Waiting? && pc.future in s.resolved
    case ClearAll => pc.Idle?
    case Leave => pc.Returned?
  }

  function Goto(s: State, t: nat, pc: Pc): State {
    s.(threads := s.threads[t := pc])
  }

  /** A key is used now. */
  function Use(s: State, k: Key): State {
    s.(used := s.used[k := s.clock], clock := s.clock + 1)
  }

  /** A lookup that hits. */
  function DoGet(s: State, k: Key): State {
    Use(s.(data := AfterGet(s.data, k)), k)
  }

  function DoHit(s: State, t: nat, k: Key, e: Engine): State {
    DoGet(Goto(s, t, Returned(k, None, Got(e))), k)
  }

  function DoPark(s: State, t: nat, k: Key): State {
    Goto(s.(data := s.data + [(k, Pending(s.next))], next := s.next + 1, asked := s.asked[s.next := k]),
         t, Creating(k, s.next))
  }

  function DoCreate(s: State, t: nat, k: Key, f: nat, e: Engine): State {
    Goto(s.(made := s.made[f := Got(e)], built := s.built + {e}, builtFor := s.builtFor[e := k]), t, Holding(k, f, e))
  }

  function DoThrow(s: State, t: nat, k: Key, f: nat, x: nat): State {
    Goto(s.(made := s.made[f := Threw(x)]), t, Broken(k, f, x))
  }

  function DoLand(s: State, t: nat, k: Key, f: nat, e: Engine, limit: nat): State {
    var (d, evicted) := AfterLand(s.data, k, f, e, limit);
    Use(Goto(s.(data := d, handed := s.handed + evicted), t, Resolving(k, f, Got(e))), k)
  }

  function DoUnpark(s: State, t: nat, k: Key, f: nat, x: nat): State {
    Goto(s.(data := AfterUnpark(s.data, k, f)), t, Resolving(k, f, Threw(x)))
  }

  function DoResolve(s: State, t: nat, k: Key, f: nat, o: Outcome): State {
    Goto(s.(resolved := s.resolved[f := o]), t, Returned(k, Some(f), o))
  }

  function DoClear(s: State): State {
    s.(data := Pendings(s.data), handed := s.handed + EnginesOf(Lives(s.data)))
  }

  function Next(s: State, t: nat, a: Act): State
    requires Enabled(s, t, a)
  {
    var pc := s.threads[t];
    match a
    case Get(k) =>
      (match Lookup(s.data, k)
       case Some(Live(_)) => DoGet(s, k)
       case _ => s)
    case Enter(k) =>
      (match AfterEnter(s.data, k, s.next).1
       case Hit(e) => DoHit(s, t, k, e)
       case Join(f) => Goto(s, t, Waiting(k, f))
       case Build(_) => DoPark(s, t, k))
    case CreateReturns(e) => DoCreate(s, t, pc.key, pc.future, e)
    case CreateThrows(x) => DoThrow(s, t, pc.key, pc.future, x)
    case Land(env) => DoLand(s, t, pc.key, pc.future, pc.engine, Limit(env))
    case Unpark => DoUnpark(s, t, pc.key, pc.future, pc.exception)
    case Resolve => DoResolve(s, t, pc.key, pc.future, pc.outcome)
    case Wake => Goto(s, t, Returned(pc.key, Some(pc.future), s.resolved[pc.future]))
    case ClearAll => DoClear(s)
    case Leave => Goto(s, t, Idle)
  }

  predicate Init(s: State) {
    && s.data == [] && (forall t :: t in s.threads ==> s.threads[t].Idle?)
    && s.resolved == map[] && s.next == 0 && s.made == map[] && s.built == {} && s.handed == []
    && s.asked == map[] && s.builtFor == map[]
  }

  // ---------------------------------------------------------------------------------------------
  // The invariant
  // ---------------------------------------------------------------------------------------------

  /** Inside get_or_create with its own placeholder parked. */
  predicate Creator(pc: Pc) { pc.Creating? || pc.Holding? || pc.Broken? }

  /** The thread that will resolve the future. */
  predicate Owner(pc: Pc) { Creator(pc) || pc.Resolving? }

  /** Placeholders and creators go together, one to one. */
  ghost predicate Slots(s: State) {
    && Distinct(s.data)
    && (forall t :: t in s.threads && Creator(s.threads[t]) ==>
                      (s.threads[t].key, s.threads[t].future) in Parked(s.data))
    && (forall p :: p in Parked(s.data) ==> exists t :: CreatesFor(s, t, p))
  }

  predicate CreatesFor(s: State, t: nat, p: (Key, nat)) {
    t in s.threads && Creator(s.threads[t]) && s.threads[t].key == p.0 && s.threads[t].future == p.1
  }

  predicate Owns(s: State, t: nat, f: int) {
    t in s.threads && Owner(s.threads[t]) && s.threads[t].future == f
  }

  /** What a thread's place says about what its future's creator made. */
  predicate Promise(pc: Pc, made: map<nat, Outcome>) {
    match pc
    case Idle => true
    case Creating(_, f) => f !in made
    case Holding(_, f, e) => f in made && made[f] == Got(e)
    case Broken(_, f, x) => f in made && made[f] == Threw(x)
    case Resolving(_, f, o) => f in made && made[f] == o
    case Waiting(_, _) => true
    case Returned(_, from, o) => from.Some? ==> from.value in made && made[from.value] == o
  }

  /** Every future is resolved once, by its one owner, with what the owner made. */
  ghost predicate Futures(s: State) {
    && (forall t, u, f: int :: Owns(s, t, f) && Owns(s, u, f) ==> t == u)
    && (forall t, f: int :: Owns(s, t, f) ==> f < s.next && f !in s.resolved)
    && (forall f :: f in s.resolved ==> f < s.next && f in s.made && s.made[f] == s.resolved[f])
    && (forall f :: f in s.made ==> f < s.next)
    && (forall f :: 0 <= f < s.next ==> f in s.resolved || exists t :: Owns(s, t, f))
    && (forall t :: t in s.threads ==> Promise(s.threads[t], s.made))
    && (forall t :: t in s.threads && s.threads[t].Waiting? ==> s.threads[t].future < s.next)
  }

  /** The engines in the cache and in the lists handed out. */
  function Inventory(d: seq<Item>, handed: seq<Engine>): multiset<Engine> {
    Stock(d) + multiset(handed)
  }

  function Placed(s: State, e: Engine): nat {
    Inventory(s.data, s.handed)[e]
  }

  predicate Holds(s: State, t: nat, e: Engine) {
    t in s.threads && s.threads[t].Holding? && s.threads[t].engine == e
  }

  /** Every engine ever built is in exactly one place: with its creator, in the cache, or handed out. */
  ghost predicate Engines(s: State) {
    && (forall t, u, e :: Holds(s, t, e) && Holds(s, u, e) ==> t == u)
    && (forall t, e :: Holds(s, t, e) ==> e in s.built && Placed(s, e) == 0)
    && (forall e :: Placed(s, e) <= 1 && (Placed(s, e) == 1 ==> e in s.built))
    && (forall e :: e in s.built ==> Placed(s, e) == 1 || exists t :: Holds(s, t, e))
  }

  /** The cache is in order of last use. */
  predicate ByRecency(l: seq<Item>, used: map<Key, nat>, clock: nat) {
    && (forall i :: 0 <= i < |l| ==> l[i].0 in used && used[l[i].0] < clock)
    && (forall i, j :: 0 <= i < j < |l| ==> l[i].0 in used && l[j].0 in used && used[l[i].0] < used[l[j].0])
  }

  ghost predicate Inv(s: State) {
    Slots(s) && Futures(s) && Engines(s) && ByRecency(Lives(s.data), s.used, s.clock)
  }

  // ---------------------------------------------------------------------------------------------
  // What a step does, as the invariant sees it
  // ---------------------------------------------------------------------------------------------

  /** A step moves at most one thread. */
  predicate MovesOne(s: State, s': State, t: nat) {
    && t in s.threads && s'.threads.Keys == s.threads.Keys
    && forall u :: u in s.threads && u != t ==> s'.threads[u] == s.threads[u]
  }

  function Parking(pc: Pc): set<(Key, nat)> {
    if Creator(pc) then {(pc.key, pc.future)} else {}
  }

  /** Placeholders come and go with their creator. */
  predicate SlotEffect(d: seq<Item>, d': seq<Item>, pc: Pc, pc': Pc) {
    && Distinct(d')
    && (if Parking(pc) == Parking(pc') then Parked(d') == Parked(d)
        else Parked(d') == Parked(d) - Parking(pc) + Parking(pc'))
  }

  /** A future is made with its owner, stays with it, and is resolved when it lets go. */
  predicate FutureEffect(s: State, s': State, pc: Pc, pc': Pc) {
    && (if Owner(pc) then
          if Owner(pc') then pc'.future == pc.future && s'.resolved == s.resolved
          else pc.Resolving? && s'.resolved == s.resolved[pc.future := pc.outcome]
        else s'.resolved == s.resolved)
    && (if !Owner(pc) && Owner(pc') then pc'.future == s.next && s'.next == s.next + 1 else s'.next == s.next)
    && (pc'.Waiting? ==> pc'.future < s'.next)
  }

  /** A creation puts its outcome on record, once. */
  predicate MadeEffect(s: State, s': State, pc: Pc, pc': Pc) {
    && (forall f :: f in s.made ==> f in s'.made && s'.made[f] == s.made[f])
    && (forall f :: f in s'.made ==> f in s.made || (pc.Creating? && f == pc.future))
    && Promise(pc', s'.made)
  }

  /** An engine is built into its creator's hands and leaves them into the cache. */
  predicate EngineEffect(s: State, s': State, pc: Pc, pc': Pc) {
    && Inventory(s'.data, s'.handed)
       == Inventory(s.data, s.handed) + (if pc.Holding? && !pc'.Holding? then multiset{pc.engine} else multiset{})
    && (if pc'.Holding? && !pc.Holding? then pc'.engine !in s.built && s'.built == s.built + {pc'.engine}
        else s'.built == s.built)
    && (pc.Holding? && pc'.Holding? ==> pc == pc')
  }

  ghost predicate Effect(s: State, s': State, t: nat) {
    && MovesOne(s, s', t)
    && SlotEffect(s.data, s'.data, s.threads[t], s'.threads[t])
    && FutureEffect(s, s', s.threads[t], s'.threads[t])
    && MadeEffect(s, s', s.threads[t], s'.threads[t])
    && EngineEffect(s, s', s.threads[t], s'.threads[t])
    && ByRecency(Lives(s'.data), s'.used, s'.clock)
  }

  /** Using an engine makes it the most recent one. */
  lemma RecencyAfterUse(l: seq<Item>, i: nat, used: map<Key, nat>, clock: nat, d: seq<Item>)
    requires ByRecency(l, used, clock) && i < |l| && d == MovedLast(l, i)
    requires Distinct(l)
    ensures ByRecency(d, used[l[i].0 := clock], clock + 1)
  {
  }

  lemma RecencyAfterLanding(l: seq<Item>, k: Key, e: Engine, n: nat, used: map<Key, nat>, clock: nat)
    requires ByRecency(l, used, clock) && n <= |l| + 1
    requires forall a :: 0 <= a < |l| ==> l[a].0 != k
    ensures ByRecency((l + [(k, Live(e))])[n..], used[k := clock], clock + 1)
  {
  }

  /** What the invariant says to one thread. */
  lemma OwnFacts(s: State, t: nat)
    requires Inv(s) && t in s.threads
    ensures var pc := s.threads[t];
            && Promise(pc, s.made) && (pc.Waiting? ==> pc.future < s.next)
            && (Creator(pc) ==> (pc.key, pc.future) in Parked(s.data))
            && (pc.Waiting? && pc.future in s.resolved ==>
                  pc.future in s.made && s.made[pc.future] == s.resolved[pc.future])
    ensures Distinct(s.data) && ByRecency(Lives(s.data), s.used, s.clock) && s.next !in s.made
  {
  }

  lemma NothingBut(s: State, s': State, t: nat, pc': Pc)
    requires Inv(s) && t in s.threads && s' == Goto(s, t, pc')
    requires !Owner(pc') && !Owner(s.threads[t]) && (pc'.Waiting? ==> pc'.future < s.next) && Promise(pc', s.made)
    ensures Effect(s, s', t)
  {
  }

  lemma GetData(d: seq<Item>, used: map<Key, nat>, clock: nat, handed: seq<Engine>, k: Key)
    requires Distinct(d) && ByRecency(Lives(d), used, clock) && Lookup(d, k).Some? && Lookup(d, k).value.Live?
    ensures var r := AfterGet(d, k);
            && Distinct(r) && Parked(r) == Parked(d)
            && ByRecency(Lives(r), used[k := clock], clock + 1)
            && Inventory(r, handed) == Inventory(d, handed)
  {
    hide Lives, Distinct, Parked, Stock, AfterGet, EnginesOf, ByRecency, Lookup, MovedLast;
    GetFacts(d, k);
    LivesKeys(d);
    RecencyAfterUse(Lives(d), Older(d, k), used, clock, Lives(AfterGet(d, k)));
  }

  lemma GetEffect(s: State, t: nat, k: Key)
    requires Inv(s) && t in s.threads && s.threads[t].Idle? && Lookup(s.data, k).Some? && Lookup(s.data, k).value.Live?
    ensures Effect(s, DoGet(s, k), t)
  {
    hide Inv, Lives, Distinct, Parked, Stock, EnginesOf, Inventory, ByRecency, AfterGet, Lookup;
    OwnFacts(s, t);
    GetData(s.data, s.used, s.clock, s.handed, k);
  }

  lemma HitEffect(s: State, t: nat, k: Key, e: Engine)
    requires Inv(s) && t in s.threads && s.threads[t].Idle? && Lookup(s.data, k) == Some(Live(e))
    ensures Effect(s, DoHit(s, t, k, e), t)
  {
    hide Inv, Lives, Distinct, Parked, Stock, EnginesOf, Inventory, ByRecency, AfterGet, Lookup;
    OwnFacts(s, t);
    GetData(s.data, s.used, s.clock, s.handed, k);
  }

  lemma JoinedHasOwner(s: State, k: Key, f: nat)
    requires Inv(s) && Lookup(s.data, k) == Some(Pending(f))
    ensures f < s.next
  {
    LookupIsMembership(s.data, k);
    ParkedIsMembership(s.data, k, f);
    hide Lives, Distinct, Parked;
    var t :| CreatesFor(s, t, (k, f));
    assert Owns(s, t, f);
  }

  lemma JoinEffect(s: State, t: nat, k: Key, f: nat)
    requires Inv(s) && t in s.threads && s.threads[t].Idle? && Lookup(s.data, k) == Some(Pending(f))
    ensures Effect(s, Goto(s, t, Waiting(k, f)), t)
  {
    hide Inv, Lives, Distinct, Parked, Stock, EnginesOf, Inventory, ByRecency, Lookup, Effect;
    JoinedHasOwner(s, k, f);
    NothingBut(s, Goto(s, t, Waiting(k, f)), t, Waiting(k, f));
  }

  lemma ParkData(d: seq<Item>, handed: seq<Engine>, k: Key, f: nat)
    requires Distinct(d) && Lookup(d, k).None?
    ensures var r := d + [(k, Pending(f))];
            && Distinct(r) && Parked(r) == Parked(d) - {} + {(k, f)} && Lives(r) == Lives(d)
            && Inventory(r, handed) == Inventory(d, handed)
  {
  }

  lemma ParkEffect(s: State, t: nat, k: Key)
    requires Inv(s) && t in s.threads && s.threads[t].Idle? && Lookup(s.data, k).None?
    ensures Effect(s, DoPark(s, t, k), t)
  {
    hide Inv, Lives, Distinct, Parked, Stock, EnginesOf, Inventory, ByRecency, Lookup;
    OwnFacts(s, t);
    ParkData(s.data, s.handed, k, s.next);
  }

  lemma CreateEffect(s: State, t: nat, k: Key, f: nat, e: Engine)
    requires Inv(s) && t in s.threads && s.threads[t] == Creating(k, f) && e !in s.built
    ensures Effect(s, DoCreate(s, t, k, f, e), t)
  {
    hide Inv, Lives, Distinct, Parked, Stock, EnginesOf, Inventory, ByRecency;
    OwnFacts(s, t);
  }

  lemma ThrowEffect(s: State, t: nat, k: Key, f: nat, x: nat)
    requires Inv(s) && t in s.threads && s.threads[t] == Creating(k, f)
    ensures Effect(s, DoThrow(s, t, k, f, x), t)
  {
    hide Inv, Lives, Distinct, Parked, Stock, EnginesOf, Inventory, ByRecency;
    OwnFacts(s, t);
  }

  lemma NoLifeBesideParked(d: seq<Item>, k: Key, f: nat)
    requires Distinct(d) && (k, f) in Parked(d)
    requires forall i :: 0 <= i < |Lives(d)| ==> Lives(d)[i] in d
    ensures forall i :: 0 <= i < |Lives(d)| ==> Lives(d)[i].0 != k
  {
  }

  lemma LandingKeys(d: seq<Item>, k: Key, f: nat)
    requires Distinct(d) && (k, f) in Parked(d)
    ensures forall i :: 0 <= i < |Lives(d)| ==> Lives(d)[i].0 != k
  {
    hide Distinct, Parked, Lives;
    LivesKeys(d);
    NoLifeBesideParked(d, k, f);
  }

  lemma LandRecency(d: seq<Item>, used: map<Key, nat>, clock: nat, k: Key, f: nat, e: Engine, limit: nat)
    requires Distinct(d) && ByRecency(Lives(d), used, clock) && (k, f) in Parked(d) && limit >= 1
    ensures ByRecency(Lives(AfterLand(d, k, f, e, limit).0), used[k := clock], clock + 1)
  {
    hide Lives, Distinct, Stock, AfterLand, EnginesOf, Parked, ByRecency;
    LandFacts(d, k, f, e, limit);
    LandingKeys(d, k, f);
    var full := Lives(d) + [(k, Live(e))];
    RecencyAfterLanding(Lives(d), k, e, if |full| <= limit then 0 else |full| - limit, used, clock);
  }

  lemma MoveStock(before: multiset<Engine>, after: multiset<Engine>, handed: seq<Engine>, evicted: seq<Engine>,
        e: Engine)
    requires before + multiset{e} == after + multiset(evicted)
    ensures after + multiset(handed + evicted) == before + multiset(handed) + multiset{e}
  {
    assert multiset(handed + evicted) == multiset(handed) + multiset(evicted);
    assert after + (multiset(handed) + multiset(evicted)) == (after + multiset(evicted)) + multiset(handed);
    assert (before + multiset{e}) + multiset(handed) == before + multiset(handed) + multiset{e};
  }

  lemma LandInventory(d: seq<Item>, handed: seq<Engine>, k: Key, f: nat, e: Engine, limit: nat)
    requires Distinct(d) && (k, f) in Parked(d) && limit >= 1
    ensures var (r, evicted) := AfterLand(d, k, f, e, limit);
            && Distinct(r) && Parked(r) == Parked(d) - {(k, f)} + {}
            && Inventory(r, handed + evicted) == Inventory(d, handed) + multiset{e}
  {
    hide Lives, Distinct, Stock, AfterLand, EnginesOf, Parked;
    LandFacts(d, k, f, e, limit);
    var (r, evicted) := AfterLand(d, k, f, e, limit);
    MoveStock(Stock(d), Stock(r), handed, evicted, e);
  }

  lemma LandEffect(s: State, t: nat, k: Key, f: nat, e: Engine, limit: nat)
    requires Inv(s) && t in s.threads && s.threads[t] == Holding(k, f, e) && limit >= 1
    ensures Effect(s, DoLand(s, t, k, f, e, limit), t)
  {
    hide Inv, Lives, Distinct, Parked, Stock, EnginesOf, Inventory, ByRecency, AfterLand;
    OwnFacts(s, t);
    LandRecency(s.data, s.used, s.clock, k, f, e, limit);
    LandInventory(s.data, s.handed, k, f, e, limit);
  }

  lemma UnparkData(d: seq<Item>, handed: seq<Engine>, k: Key, f: nat)
    requires Distinct(d) && (k, f) in Parked(d)
    ensures var r := AfterUnpark(d, k, f);
            && Distinct(r) && Parked(r) == Parked(d) - {(k, f)} + {} && Lives(r) == Lives(d)
            && Inventory(r, handed) == Inventory(d, handed)
  {
    hide Lives, Distinct, Parked, Stock, AfterUnpark;
    UnparkFacts(d, k, f);
  }

  lemma UnparkEffect(s: State, t: nat, k: Key, f: nat, x: nat)
    requires Inv(s) && t in s.threads && s.threads[t] == Broken(k, f, x)
    ensures Effect(s, DoUnpark(s, t, k, f, x), t)
  {
    hide Inv, Lives, Distinct, Parked, Stock, EnginesOf, Inventory, ByRecency, AfterUnpark;
    OwnFacts(s, t);
    UnparkData(s.data, s.handed, k, f);
  }

  lemma ResolveEffect(s: State, t: nat, k: Key, f: nat, o: Outcome)
    requires Inv(s) && t in s.threads && s.threads[t] == Resolving(k, f, o)
    ensures Effect(s, DoResolve(s, t, k, f, o), t)
  {
  }

  lemma WakeEffect(s: State, t: nat, k: Key, f: nat)
    requires Inv(s) && t in s.threads && s.threads[t] == Waiting(k, f) && f in s.resolved
    ensures Effect(s, Goto(s, t, Returned(k, Some(f), s.resolved[f])), t)
  {
  }

  lemma ClearData(d: seq<Item>, used: map<Key, nat>, clock: nat, handed: seq<Engine>)
    requires Distinct(d)
    ensures var r := Pendings(d);
            && Distinct(r) && Parked(r) == Parked(d) && ByRecency(Lives(r), used, clock)
            && Inventory(r, handed + EnginesOf(Lives(d))) == Inventory(d, handed)
  {
    hide Lives, Distinct, Parked, Pendings;
    ClearFacts(d);
    assert Stock(Pendings(d)) == multiset{};
    assert multiset(handed + EnginesOf(Lives(d))) == multiset(handed) + Stock(d);
  }

  lemma ClearEffect(s: State, t: nat)
    requires Inv(s) && t in s.threads && s.threads[t].Idle?
    ensures Effect(s, DoClear(s), t)
  {
    hide Inv, Lives, Distinct, Parked, Stock, EnginesOf, Inventory, ByRecency, Pendings;
    OwnFacts(s, t);
    ClearData(s.data, s.used, s.clock, s.handed);
  }

  lemma NoEffect(s: State, t: nat)
    requires Inv(s) && t in s.threads && !Owner(s.threads[t])
    ensures Effect(s, s, t)
  {
  }

  lemma LeaveEffect(s: State, t: nat)
    requires Inv(s) && t in s.threads && s.threads[t].Returned?
    ensures Effect(s, Goto(s, t, Idle), t)
  {
  }

  lemma StepEffect(s: State, t: nat, a: Act)
    requires Inv(s) && Enabled(s, t, a)
    ensures Effect(s, Next(s, t, a), t)
  {
    hide Inv, Effect, DoGet, DoHit, DoPark, DoCreate, DoThrow, DoLand, DoUnpark, DoResolve, DoClear, Goto, Lookup;
    var pc := s.threads[t];
    match a
    case Get(k) =>
      if Lookup(s.data, k).Some? && Lookup(s.data, k).value.Live? {
        GetEffect(s, t, k);
      } else {
        NoEffect(s, t);
      }
    case Enter(k) =>
      if Lookup(s.data, k).None? {
        ParkEffect(s, t, k);
      } else if Lookup(s.data, k).value.Live? {
        HitEffect(s, t, k, Lookup(s.data, k).value.engine);
      } else {
        JoinEffect(s, t, k, Lookup(s.data, k).value.future);
      }
    case CreateReturns(e) => CreateEffect(s, t, pc.key, pc.future, e);
    case CreateThrows(x) => ThrowEffect(s, t, pc.key, pc.future, x);
    case Land(env) => LandEffect(s, t, pc.key, pc.future, pc.engine, Limit(env));
    case Unpark => UnparkEffect(s, t, pc.key, pc.future, pc.exception);
    case Resolve => ResolveEffect(s, t, pc.key, pc.future, pc.outcome);
    case Wake => WakeEffect(s, t, pc.key, pc.future);
    case ClearAll => ClearEffect(s, t);
    case Leave => LeaveEffect(s, t);
  }

  // ---------------------------------------------------------------------------------------------
  // Each part of the invariant follows from the effect
  // ---------------------------------------------------------------------------------------------

  lemma SlotsKept(s: State, s': State, t: nat)
    requires Inv(s) && Effect(s, s', t)
    ensures Slots(s')
  {
    hide Parked, Distinct, Engines, ByRecency, Lives;
    forall u | u in s'.threads && Creator(s'.threads[u])
      ensures (s'.threads[u].key, s'.threads[u].future) in Parked(s'.data)
    {
      if u != t && Creator(s.threads[t]) {
        assert Owns(s, u, s.threads[u].future) && Owns(s, t, s.threads[t].future);
      }
    }
    forall p | p in Parked(s'.data) ensures exists u :: CreatesFor(s', u, p) {
      if p in Parking(s'.threads[t]) {
        assert CreatesFor(s', t, p);
      } else {
        var u :| CreatesFor(s, u, p);
        assert CreatesFor(s', u, p);
      }
    }
  }

  /** Who owns what afterwards. */
  lemma OwnersFollow(s: State, s': State, t: nat)
    requires MovesOne(s, s', t)
    ensures forall u, f: int :: u != t ==> (Owns(s', u, f) <==> Owns(s, u, f))
    ensures forall f: int :: Owns(s', t, f) <==> Owner(s'.threads[t]) && f == s'.threads[t].future
    ensures forall f: int :: Owns(s, t, f) <==> Owner(s.threads[t]) && f == s.threads[t].future
  {
  }

  /** What the invariant says about ownership. */
  lemma OwnershipFacts(s: State)
    requires Inv(s)
    ensures forall u, v, f: int :: Owns(s, u, f) && Owns(s, v, f) ==> u == v
    ensures forall u, f: int :: Owns(s, u, f) ==> f < s.next && f !in s.resolved
    ensures forall f :: f in s.resolved ==> f < s.next
    ensures forall f :: 0 <= f < s.next ==> f in s.resolved || exists u :: Owns(s, u, f)
  {
  }

  lemma OwnershipKept(s: State, s': State, t: nat)
    requires Inv(s) && MovesOne(s, s', t) && FutureEffect(s, s', s.threads[t], s'.threads[t])
    ensures forall u, v, f: int :: Owns(s', u, f) && Owns(s', v, f) ==> u == v
    ensures forall u, f: int :: Owns(s', u, f) ==> f < s'.next && f !in s'.resolved
    ensures forall f :: 0 <= f < s'.next ==> f in s'.resolved || exists u :: Owns(s', u, f)
  {
    hide Inv, Owns;
    OwnershipFacts(s);
    OwnersFollow(s, s', t);
    var pc, pc' := s.threads[t], s'.threads[t];
    assert Owner(pc) ==> Owns(s, t, pc.future);
    forall u, f: int | Owns(s', u, f) ensures Owns(s, u, f) || (u == t && f == s.next && !Owner(pc)) {
    }
    forall u, f: int | Owns(s', u, f) ensures f < s'.next && f !in s'.resolved {
    }
    forall f | 0 <= f < s'.next ensures f in s'.resolved || exists u :: Owns(s', u, f) {
      if f < s.next && f !in s'.resolved {
        var u :| Owns(s, u, f);
        assert Owns(s', u, f);
      } else if f == s.next {
        assert Owns(s', t, f);
      }
    }
  }

  lemma MadeKept(s: State, s': State, t: nat, u: nat)
    requires Inv(s) && Effect(s, s', t) && u in s.threads
    ensures Promise(s'.threads[u], s'.made)
    ensures s'.threads[u].Waiting? ==> s'.threads[u].future < s'.next
  {
    hide Slots, Engines, ByRecency, Lives, SlotEffect, EngineEffect;
    if u != t {
      assert Promise(s.threads[t], s.made) && Promise(s.threads[u], s.made);
      if s.threads[t].Creating? && s.threads[u].Creating? {
        assert Owns(s, t, s.threads[t].future) && Owns(s, u, s.threads[u].future);
      }
    }
  }

  /** Nothing already resolved changes, and what is resolved now is what was made. */
  lemma ResolvedKept(s: State, s': State, t: nat)
    requires Inv(s) && MovesOne(s, s', t)
    requires FutureEffect(s, s', s.threads[t], s'.threads[t]) && MadeEffect(s, s', s.threads[t], s'.threads[t])
    ensures forall f :: f in s'.resolved ==> f < s'.next && f in s'.made && s'.made[f] == s'.resolved[f]
    ensures forall f :: f in s'.made ==> f < s'.next
  {
    hide Slots, Engines, ByRecency, Lives;
    assert Promise(s.threads[t], s.made);
    if Owner(s.threads[t]) {
      assert Owns(s, t, s.threads[t].future);
    }
  }

  lemma FuturesKept(s: State, s': State, t: nat)
    requires Inv(s) && Effect(s, s', t)
    ensures Futures(s')
  {
    hide Inv, Owns, ByRecency, Lives, SlotEffect, EngineEffect, FutureEffect, MadeEffect, Promise;
    OwnershipKept(s, s', t);
    ResolvedKept(s, s', t);
    forall u | u in s'.threads
      ensures Promise(s'.threads[u], s'.made) && (s'.threads[u].Waiting? ==> s'.threads[u].future < s'.next)
    {
      MadeKept(s, s', t, u);
    }
  }

  lemma PlacedFollows(s: State, s': State, t: nat)
    requires MovesOne(s, s', t) && EngineEffect(s, s', s.threads[t], s'.threads[t])
    ensures var pc, pc' := s.threads[t], s'.threads[t];
            forall e :: Placed(s', e) == Placed(s, e) + if pc.Holding? && !pc'.Holding? && pc.engine == e then 1 else 0
  {
  }

  /** Who holds what afterwards. */
  lemma HoldersFollow(s: State, s': State, t: nat)
    requires MovesOne(s, s', t)
    ensures forall u, e :: u != t ==> (Holds(s', u, e) <==> Holds(s, u, e))
    ensures forall e :: Holds(s', t, e) <==> s'.threads[t].Holding? && s'.threads[t].engine == e
    ensures forall e :: Holds(s, t, e) <==> s.threads[t].Holding? && s.threads[t].engine == e
  {
  }

  lemma EnginesKept(s: State, s': State, t: nat)
    requires Engines(s) && MovesOne(s, s', t) && EngineEffect(s, s', s.threads[t], s'.threads[t])
    ensures Engines(s')
  {
    hide Placed, Inventory, Holds;
    PlacedFollows(s, s', t);
    HoldersFollow(s, s', t);
    assert s.threads[t].Holding? ==> Holds(s, t, s.threads[t].engine);
    forall e | e in s'.built ensures Placed(s', e) == 1 || exists u :: Holds(s', u, e) {
      if e !in s.built {
        assert Holds(s', t, e);
      } else if Placed(s', e) != 1 {
        var u :| Holds(s, u, e);
        assert Holds(s', u, e);
      }
    }
  }

  lemma StepKeepsInv(s: State, t: nat, a: Act)
    requires Inv(s) && Enabled(s, t, a)
    ensures Inv(Next(s, t, a))
  {
    hide Next, Enabled, Slots, Futures, Engines, SlotEffect, FutureEffect, MadeEffect, EngineEffect;
    StepEffect(s, t, a);
    var s' := Next(s, t, a);
    SlotsKept(s, s', t);
    FuturesKept(s, s', t);
    EnginesKept(s, s', t);
  }

  // ---------------------------------------------------------------------------------------------
  // Over all interleavings
  // ---------------------------------------------------------------------------------------------

  lemma InitHasInv(s: State)
    requires Init(s)
    ensures Inv(s)
  {
  }

  predicate IsRun(run: seq<State>, who: seq<nat>, acts: seq<Act>) {
    && |run| == |acts| + 1 && |who| == |acts| && Init(run[0])
    && forall i :: 0 <= i < |acts| ==> Enabled(run[i], who[i], acts[i]) && run[i + 1] == Next(run[i], who[i], acts[i])
  }

  lemma {:induction false} RunHasInv(run: seq<State>, who: seq<nat>, acts: seq<Act>, n: nat)
    requires IsRun(run, who, acts) && n <= |acts|
    ensures Inv(run[n])
  {
    hide Inv, Enabled, Next, Init;
    if n == 0 {
      InitHasInv(run[0]);
    } else {
      RunHasInv(run, who, acts, n - 1);
      StepKeepsInv(run[n - 1], who[n - 1], acts[n - 1]);
    }
  }

  /** A thread is between parking its placeholder for the key and landing or giving up. */
  predicate CreatingFor(s: State, t: nat, k: Key) {
    t in s.threads && Creator(s.threads[t]) && s.threads[t].key == k
  }

  /** In every state of every interleaving: a tenant has at most one creation in flight, and its placeholder is
      parked all the while; whoever waited on a future came back with exactly what that future's creator
      made; and a future somebody waits on is resolved or still has the thread that will resolve it. */
  lemma OneCreationPerTenant(run: seq<State>, who: seq<nat>, acts: seq<Act>, n: nat)
    requires IsRun(run, who, acts) && n <= |acts|
    ensures var s := run[n];
            && (forall t, u, k :: CreatingFor(s, t, k) && CreatingFor(s, u, k) ==> t == u)
            && (forall t, k :: CreatingFor(s, t, k) ==> Lookup(s.data, k) == Some(Pending(s.threads[t].future)))
            && (forall t :: t in s.threads && s.threads[t].Returned? && s.threads[t].from.Some? ==>
                              var f := s.threads[t].from.value;
                              f in s.made && s.threads[t].outcome == s.made[f])
            && (forall t :: t in s.threads && s.threads[t].Waiting? ==>
                              var f := s.threads[t].future;
                              f in s.resolved || exists u :: Owns(s, u, f))
  {
    hide Init, Enabled, Next, Lives, Distinct, Parked, Engines, ByRecency, Lookup;
    RunHasInv(run, who, acts, n);
    var s := run[n];
    forall t, k | CreatingFor(s, t, k) ensures Lookup(s.data, k) == Some(Pending(s.threads[t].future)) {
      ParkedIsMembership(s.data, k, s.threads[t].future);
      LookupIsMembership(s.data, k);
    }
    forall t, u, k | CreatingFor(s, t, k) && CreatingFor(s, u, k) ensures t == u {
      assert Owns(s, t, s.threads[t].future) && Owns(s, u, s.threads[u].future);
    }
    forall t | t in s.threads && s.threads[t].Returned? && s.threads[t].from.Some?
      ensures s.threads[t].from.value in s.made && s.threads[t].outcome == s.made[s.threads[t].from.value]
    {
      assert Promise(s.threads[t], s.made);
    }
  }

  /** Every engine ever built is in exactly one place, once: with its creator on the way in, in the cache, or
      in one list handed out for disposal. */
  lemma EveryEngineInOnePlace(run: seq<State>, who: seq<nat>, acts: seq<Act>, n: nat, e: Engine)
    requires IsRun(run, who, acts) && n <= |acts| && e in run[n].built
    ensures var s := run[n];
            if exists t :: Holds(s, t, e) then Stock(s.data)[e] == 0 && multiset(s.handed)[e] == 0
            else Stock(s.data)[e] + multiset(s.handed)[e] == 1
  {
    hide Init, Enabled, Next, Lives, Distinct, Stock, Slots, Futures, ByRecency;
    RunHasInv(run, who, acts, n);
  }

  /** At most the limit is left, the new engine among it as the most recent; handed out are the engines of the
      keys used longest ago, in that order, and no placeholder. */
  predicate LeastRecentOut(s: State, s': State, k: Key, f: nat, e: Engine, limit: nat) {
    var before := Lives(s.data) + [(k, Live(e))];
    var out := |before| - |Lives(s'.data)|;
    && |Lives(s'.data)| <= limit
    && 0 <= out <= |Lives(s.data)| && (out > 0 ==> |Lives(s'.data)| == limit)
    && Lives(s'.data) == before[out..] && s'.handed == s.handed + EnginesOf(before[..out])
    && Parked(s'.data) == Parked(s.data) - {(k, f)}
    && InOrder(before, s'.used)
  }

  predicate InOrder(l: seq<Item>, used: map<Key, nat>) {
    forall i, j :: 0 <= i < j < |l| ==> l[i].0 in used && l[j].0 in used && used[l[i].0] < used[l[j].0]
  }

  lemma LandingCut(d: seq<Item>, k: Key, f: nat, e: Engine, limit: nat)
    requires Distinct(d) && (k, f) in Parked(d) && limit >= 1
    ensures var (r, evicted) := AfterLand(d, k, f, e, limit);
            var before := Lives(d) + [(k, Live(e))];
            var out := |before| - |Lives(r)|;
            && |Lives(r)| <= limit && 0 <= out <= |Lives(d)| && (out > 0 ==> |Lives(r)| == limit)
            && Lives(r) == before[out..] && evicted == EnginesOf(before[..out])
            && Parked(r) == Parked(d) - {(k, f)}
  {
    hide Distinct, Parked, Lives, Stock, EnginesOf, AfterLand;
    LandFacts(d, k, f, e, limit);
  }

  lemma LandingOrder(s: State, t: nat, k: Key, f: nat, e: Engine, limit: nat)
    requires Inv(s) && t in s.threads && s.threads[t] == Holding(k, f, e) && limit >= 1
    ensures LeastRecentOut(s, DoLand(s, t, k, f, e, limit), k, f, e, limit)
  {
    hide Inv, Distinct, Parked, Lives, Stock, EnginesOf, AfterLand, ByRecency;
    OwnFacts(s, t);
    LandingCut(s.data, k, f, e, limit);
    LandingKeys(s.data, k, f);
    OrderWithNewest(Lives(s.data), k, e, s.used, s.clock);
  }

  lemma OrderWithNewest(l: seq<Item>, k: Key, e: Engine, used: map<Key, nat>, clock: nat)
    requires ByRecency(l, used, clock) && forall i :: 0 <= i < |l| ==> l[i].0 != k
    ensures InOrder(l + [(k, Live(e))], used[k := clock])
  {
  }

  /** Every landing of every interleaving evicts the least recently used, never the engine that lands. */
  lemma LandingEvictsTheLeastRecent(run: seq<State>, who: seq<nat>, acts: seq<Act>, n: nat, k: Key, f: nat, e: Engine)
    requires IsRun(run, who, acts) && n < |acts| && acts[n].Land?
    requires who[n] in run[n].threads && run[n].threads[who[n]] == Holding(k, f, e)
    ensures LeastRecentOut(run[n], run[n + 1], k, f, e, Limit(acts[n].env))
  {
    hide Init, Inv, LeastRecentOut, DoLand;
    assert Enabled(run[n], who[n], acts[n]) && run[n + 1] == Next(run[n], who[n], acts[n]);
    RunHasInv(run, who, acts, n);
    LandingOrder(run[n], who[n], k, f, e, Limit(acts[n].env));
  }

  /** The step uses the key: a lookup that hits its engine, by either door, or a landing. */
  predicate Uses(s: State, t: nat, a: Act, k: Key) {
    match a
    case Get(j) => j == k && exists x :: x in s.data && x.0 == k && x.1.Live?
    case Enter(j) => j == k && exists x :: x in s.data && x.0 == k && x.1.Live?
    case Land(_) => t in s.threads && s.threads[t].Holding? && s.threads[t].key == k
    case _ => false
  }

  /** Every use, and nothing else, is noted with its time. */
  lemma UsesAreNoted(s: State, t: nat, a: Act)
    requires Inv(s) && Enabled(s, t, a)
    ensures var s' := Next(s, t, a);
            && (forall k :: Uses(s, t, a, k) ==> s'.used == s.used[k := s.clock] && s'.clock == s.clock + 1)
            && ((forall k :: !Uses(s, t, a, k)) ==> s'.used == s.used && s'.clock == s.clock)
  {
    hide Inv, AfterGet, AfterLand, AfterUnpark, Pendings, Lives, EnginesOf, Limit, Lookup, Distinct, Next, Uses;
    OwnFacts(s, t);
    match a
    case Get(k) => GetIsNoted(s, t, k);
    case Enter(k) => EnterIsNoted(s, t, k);
    case Land(env) => LandIsNoted(s, t, env);
    case _ => NothingIsNoted(s, t, a);
  }

  lemma HitIsLookup(s: State, k: Key)
    requires Distinct(s.data)
    ensures (exists x :: x in s.data && x.0 == k && x.1.Live?)
       <==> Lookup(s.data, k).Some? && Lookup(s.data, k).value.Live?
  {
    hide Distinct, Lookup;
    LookupIsMembership(s.data, k);
    if x :| x in s.data && x.0 == k && x.1.Live? {
      assert (k, x.1) in s.data;
    }
    if Lookup(s.data, k).Some? {
      assert (k, Lookup(s.data, k).value) in s.data;
    }
  }

  lemma GetIsNoted(s: State, t: nat, k: Key)
    requires Distinct(s.data) && Enabled(s, t, Get(k))
    ensures var s' := Next(s, t, Get(k));
            && (forall j :: Uses(s, t, Get(k), j) ==> s'.used == s.used[j := s.clock] && s'.clock == s.clock + 1)
            && ((forall j :: !Uses(s, t, Get(k), j)) ==> s'.used == s.used && s'.clock == s.clock)
  {
    hide AfterGet, Lookup, Distinct;
    HitIsLookup(s, k);
    assert Uses(s, t, Get(k), k) <==> Lookup(s.data, k).Some? && Lookup(s.data, k).value.Live?;
  }

  lemma EnterIsNoted(s: State, t: nat, k: Key)
    requires Distinct(s.data) && Enabled(s, t, Enter(k))
    ensures var s' := Next(s, t, Enter(k));
            && (forall j :: Uses(s, t, Enter(k), j) ==> s'.used == s.used[j := s.clock] && s'.clock == s.clock + 1)
            && ((forall j :: !Uses(s, t, Enter(k), j)) ==> s'.used == s.used && s'.clock == s.clock)
  {
    hide AfterGet, Lookup, Distinct;
    HitIsLookup(s, k);
    assert Uses(s, t, Enter(k), k) <==> Lookup(s.data, k).Some? && Lookup(s.data, k).value.Live?;
  }

  lemma LandIsNoted(s: State, t: nat, env: Option<int>)
    requires Enabled(s, t, Land(env))
    ensures var s' := Next(s, t, Land(env));
            && (forall j :: Uses(s, t, Land(env), j) ==> s'.used == s.used[j := s.clock] && s'.clock == s.clock + 1)
            && Uses(s, t, Land(env), s.threads[t].key)
  {
    hide AfterLand, Limit;
  }

  lemma NothingIsNoted(s: State, t: nat, a: Act)
    requires Enabled(s, t, a) && !a.Get? && !a.Enter? && !a.Land?
    ensures Next(s, t, a).used == s.used && Next(s, t, a).clock == s.clock
    ensures forall k :: !Uses(s, t, a, k)
  {
    hide AfterUnpark, Pendings, Lives, EnginesOf, DoLand, DoGet, DoHit, AfterEnter, Lookup;
  }

  // ---------------------------------------------------------------------------------------------
  // Everybody gets the engine of the tenant they asked for
  // ---------------------------------------------------------------------------------------------

  /** The engine was built by a creation for the key. */
  predicate IsFor(o: Outcome, k: Key, builtFor: map<Engine, Key>) {
    o.Got? ==> o.engine in builtFor && builtFor[o.engine] == k
  }

  predicate AskedFor(f: nat, k: Key, asked: map<nat, Key>) {
    f in asked && asked[f] == k
  }

  /** What a thread has in hand belongs to its key. */
  predicate PcKeyed(pc: Pc, asked: map<nat, Key>, builtFor: map<Engine, Key>) {
    match pc
    case Idle => true
    case Creating(k, f) => AskedFor(f, k, asked)
    case Holding(k, f, e) => AskedFor(f, k, asked) && IsFor(Got(e), k, builtFor)
    case Broken(k, f, _) => AskedFor(f, k, asked)
    case Resolving(k, f, o) => AskedFor(f, k, asked) && IsFor(o, k, builtFor)
    case Waiting(k, f) => AskedFor(f, k, asked)
    case Returned(k, from, o) =>
      && IsFor(o, k, builtFor) && (from.Some? ==> AskedFor(from.value, k, asked)) && (o.Threw? ==> from.Some?)
  }

  predicate ItemKeyed(x: Item, asked: map<nat, Key>, builtFor: map<Engine, Key>) {
    match x.1
    case Pending(f) => AskedFor(f, x.0, asked)
    case Live(e) => IsFor(Got(e), x.0, builtFor)
  }

  ghost predicate Keyed(s: State) {
    && (forall t :: t in s.threads ==> PcKeyed(s.threads[t], s.asked, s.builtFor))
    && (forall x :: x in s.data ==> ItemKeyed(x, s.asked, s.builtFor))
    && (forall f :: f in s.resolved ==> f in s.asked && IsFor(s.resolved[f], s.asked[f], s.builtFor))
    && (forall f :: f in s.asked ==> f < s.next) && s.builtFor.Keys == s.built
  }

  /** The two records only grow. */
  predicate RecordsGrow(s: State, s': State) {
    && (forall f :: f in s.asked ==> f in s'.asked && s'.asked[f] == s.asked[f])
    && (forall e :: e in s.builtFor ==> e in s'.builtFor && s'.builtFor[e] == s.builtFor[e])
  }

  lemma PcStaysKeyed(s: State, s': State, pc: Pc)
    requires RecordsGrow(s, s') && PcKeyed(pc, s.asked, s.builtFor)
    ensures PcKeyed(pc, s'.asked, s'.builtFor)
  {
  }

  lemma ItemStaysKeyed(s: State, s': State, x: Item)
    requires RecordsGrow(s, s') && ItemKeyed(x, s.asked, s.builtFor)
    ensures ItemKeyed(x, s'.asked, s'.builtFor)
  {
  }

  /** A step that records more, moves one thread to a keyed place, and lets only keyed items into the dictionary. */
  lemma KeyedFollows(s: State, s': State, t: nat)
    requires Keyed(s) && MovesOne(s, s', t) && RecordsGrow(s, s')
    requires PcKeyed(s'.threads[t], s'.asked, s'.builtFor)
    requires forall x :: x in s'.data ==> x in s.data || ItemKeyed(x, s'.asked, s'.builtFor)
    requires forall f :: f in s'.resolved ==>
               (f in s.resolved && s'.resolved[f] == s.resolved[f])
               || (f in s'.asked && IsFor(s'.resolved[f], s'.asked[f], s'.builtFor))
    requires (forall f :: f in s'.asked ==> f < s'.next) && s'.builtFor.Keys == s'.built
    ensures Keyed(s')
  {
    hide PcKeyed, ItemKeyed;
    forall u | u in s'.threads ensures PcKeyed(s'.threads[u], s'.asked, s'.builtFor) {
      if u != t {
        PcStaysKeyed(s, s', s.threads[u]);
      }
    }
    forall x | x in s'.data ensures ItemKeyed(x, s'.asked, s'.builtFor) {
      if x in s.data {
        ItemStaysKeyed(s, s', x);
      }
    }
  }

  lemma PcIsKeyed(s: State, t: nat)
    requires Keyed(s) && t in s.threads
    ensures PcKeyed(s.threads[t], s.asked, s.builtFor)
    ensures (forall f :: f in s.asked ==> f < s.next) && s.builtFor.Keys == s.built
  {
  }

  lemma HitKeepsKeyed(s: State, t: nat, k: Key, e: Engine)
    requires Keyed(s) && t in s.threads && (k, Live(e)) in s.data
    ensures Keyed(DoHit(s, t, k, e))
  {
    hide Keyed, AfterGet;
    PcIsKeyed(s, t);
    GetMembers(s.data, k);
    HeldIsKeyed(s, (k, Live(e)));
    KeyedFollows(s, DoHit(s, t, k, e), t);
  }

  lemma JoinKeepsKeyed(s: State, t: nat, k: Key, f: nat)
    requires Keyed(s) && t in s.threads && (k, Pending(f)) in s.data
    ensures Keyed(Goto(s, t, Waiting(k, f)))
  {
    hide Keyed;
    PcIsKeyed(s, t);
    HeldIsKeyed(s, (k, Pending(f)));
    KeyedFollows(s, Goto(s, t, Waiting(k, f)), t);
  }

  lemma ParkKeepsKeyed(s: State, t: nat, k: Key)
    requires Keyed(s) && t in s.threads
    ensures Keyed(DoPark(s, t, k))
  {
    hide Keyed;
    PcIsKeyed(s, t);
    KeyedFollows(s, DoPark(s, t, k), t);
  }

  lemma EnterKeepsKeyed(s: State, t: nat, k: Key)
    requires Inv(s) && Keyed(s) && Enabled(s, t, Enter(k))
    ensures Keyed(Next(s, t, Enter(k)))
  {
    hide Inv, Keyed, AfterEnter, DoHit, DoPark, Goto, Lookup, Distinct;
    OwnFacts(s, t);
    EnterAnswers(s.data, k, s.next);
    match AfterEnter(s.data, k, s.next).1
    case Hit(e) => HitKeepsKeyed(s, t, k, e);
    case Join(f) => JoinKeepsKeyed(s, t, k, f);
    case Build(_) => ParkKeepsKeyed(s, t, k);
  }

  lemma HeldIsKeyed(s: State, x: Item)
    requires Keyed(s) && x in s.data
    ensures ItemKeyed(x, s.asked, s.builtFor)
  {
  }

  /** Dropping items, or moving them, keeps everything keyed. */
  lemma FewerItemsKeyed(s: State, s': State, t: nat)
    requires Keyed(s) && t in s.threads && s'.threads == s.threads && (forall x :: x in s'.data ==> x in s.data)
    requires s'.asked == s.asked && s'.builtFor == s.builtFor && s'.built == s.built && s'.next == s.next
    requires s'.resolved == s.resolved
    ensures Keyed(s')
  {
    hide Keyed;
    PcIsKeyed(s, t);
    KeyedFollows(s, s', t);
  }

  lemma CreateKeepsKeyed(s: State, t: nat, k: Key, f: nat, e: Engine)
    requires Keyed(s) && t in s.threads && s.threads[t] == Creating(k, f) && e !in s.built
    ensures Keyed(DoCreate(s, t, k, f, e))
  {
    hide Keyed;
    PcIsKeyed(s, t);
    KeyedFollows(s, DoCreate(s, t, k, f, e), t);
  }

  lemma LandKeepsKeyed(s: State, t: nat, k: Key, f: nat, e: Engine, limit: nat)
    requires Inv(s) && Keyed(s) && t in s.threads && s.threads[t] == Holding(k, f, e)
    ensures Keyed(DoLand(s, t, k, f, e, limit))
  {
    hide Inv, Keyed, AfterLand, Distinct, Parked;
    OwnFacts(s, t);
    PcIsKeyed(s, t);
    LandMembers(s.data, k, f, e, limit);
    KeyedFollows(s, DoLand(s, t, k, f, e, limit), t);
  }

  lemma UnparkKeepsKeyed(s: State, t: nat, k: Key, f: nat, x: nat)
    requires Inv(s) && Keyed(s) && t in s.threads && s.threads[t] == Broken(k, f, x)
    ensures Keyed(DoUnpark(s, t, k, f, x))
  {
    hide Inv, Keyed, AfterUnpark, Distinct;
    OwnFacts(s, t);
    PcIsKeyed(s, t);
    UnparkTakesItsOwn(s.data, k, f);
    KeyedFollows(s, DoUnpark(s, t, k, f, x), t);
  }

  lemma GoKeepsKeyed(s: State, t: nat, pc': Pc)
    requires Keyed(s) && t in s.threads && PcKeyed(pc', s.asked, s.builtFor)
    ensures Keyed(Goto(s, t, pc'))
  {
    hide Keyed, PcKeyed;
    PcIsKeyed(s, t);
    KeyedFollows(s, Goto(s, t, pc'), t);
  }

  lemma ThrowKeepsKeyed(s: State, t: nat, k: Key, f: nat, x: nat)
    requires Keyed(s) && t in s.threads && s.threads[t] == Creating(k, f)
    ensures Keyed(DoThrow(s, t, k, f, x))
  {
    hide Keyed;
    PcIsKeyed(s, t);
    KeyedFollows(s, DoThrow(s, t, k, f, x), t);
  }

  lemma ResolveKeepsKeyed(s: State, t: nat, k: Key, f: nat, o: Outcome)
    requires Keyed(s) && t in s.threads && s.threads[t] == Resolving(k, f, o)
    ensures Keyed(DoResolve(s, t, k, f, o))
  {
    hide Keyed;
    PcIsKeyed(s, t);
    KeyedFollows(s, DoResolve(s, t, k, f, o), t);
  }

  lemma StepKeepsKeyed(s: State, t: nat, a: Act)
    requires Inv(s) && Keyed(s) && Enabled(s, t, a)
    ensures Keyed(Next(s, t, a))
  {
    hide Inv, Keyed, AfterEnter, DoHit, DoPark, DoCreate, DoThrow, DoLand, DoUnpark, DoResolve, Goto, Lookup, Distinct,
         Pendings, Lives, EnginesOf, AfterGet;
    OwnFacts(s, t);
    PcIsKeyed(s, t);
    var pc := s.threads[t];
    match a
    case Get(k) =>
      GetMembers(s.data, k);
      FewerItemsKeyed(s, Next(s, t, a), t);
    case Enter(k) => EnterKeepsKeyed(s, t, k);
    case CreateReturns(e) => CreateKeepsKeyed(s, t, pc.key, pc.future, e);
    case CreateThrows(x) => ThrowKeepsKeyed(s, t, pc.key, pc.future, x);
    case Land(env) => LandKeepsKeyed(s, t, pc.key, pc.future, pc.engine, Limit(env));
    case Unpark => UnparkKeepsKeyed(s, t, pc.key, pc.future, pc.exception);
    case Resolve => ResolveKeepsKeyed(s, t, pc.key, pc.future, pc.outcome);
    case Wake =>
      ResolvedIsKeyed(s, pc.future);
      GoKeepsKeyed(s, t, Returned(pc.key, Some(pc.future), s.resolved[pc.future]));
    case ClearAll =>
      PendingsAreKept(s.data);
      FewerItemsKeyed(s, Next(s, t, a), t);
    case Leave => GoKeepsKeyed(s, t, Idle);
  }

  lemma ResolvedIsKeyed(s: State, f: nat)
    requires Keyed(s) && f in s.resolved
    ensures f in s.asked && IsFor(s.resolved[f], s.asked[f], s.builtFor)
  {
  }

  lemma {:induction false} RunIsKeyed(run: seq<State>, who: seq<nat>, acts: seq<Act>, n: nat)
    requires IsRun(run, who, acts) && n <= |acts|
    ensures Keyed(run[n])
  {
    hide Inv, Enabled, Next;
    if n > 0 {
      RunIsKeyed(run, who, acts, n - 1);
      RunHasInv(run, who, acts, n - 1);
      StepKeepsKeyed(run[n - 1], who[n - 1], acts[n - 1]);
    }
  }

  /** Step `i` is a creation for the key that ends so. */
  predicate CreatesAt(run: seq<State>, who: seq<nat>, acts: seq<Act>, i: nat, k: Key, o: Outcome) {
    && i < |acts| && i < |who| && i < |run| && who[i] in run[i].threads
    && run[i].threads[who[i]].Creating? && run[i].threads[who[i]].key == k
    && acts[i] == match o { case Got(e) => CreateReturns(e) case Threw(x) => CreateThrows(x) }
  }

  ghost predicate CreatedBefore(run: seq<State>, who: seq<nat>, acts: seq<Act>, n: nat, k: Key, o: Outcome) {
    exists i: nat :: i < n && CreatesAt(run, who, acts, i, k, o)
  }

  lemma CreatedEarlier(run: seq<State>, who: seq<nat>, acts: seq<Act>, m: nat, n: nat, k: Key, o: Outcome)
    requires CreatedBefore(run, who, acts, m, k, o) && m <= n
    ensures CreatedBefore(run, who, acts, n, k, o)
  {
    hide CreatesAt;
  }

  /** What is on record was put there by a creation for that key. */
  lemma {:induction false} RecordedByCreation(run: seq<State>, who: seq<nat>, acts: seq<Act>, n: nat)
    requires IsRun(run, who, acts) && n <= |acts|
    ensures forall e :: e in run[n].builtFor ==> CreatedBefore(run, who, acts, n, run[n].builtFor[e], Got(e))
    ensures forall f :: f in run[n].made && f in run[n].asked ==>
                          CreatedBefore(run, who, acts, n, run[n].asked[f], run[n].made[f])
  {
    hide Inv, Enabled, Next, CreatedBefore, Ends;
    if n > 0 {
      var m := n - 1;
      RecordedByCreation(run, who, acts, m);
      RunIsKeyed(run, who, acts, m);
      RunHasInv(run, who, acts, m);
      StepRecords(run[m], who[m], acts[m]);
      forall e | e in run[n].builtFor ensures CreatedBefore(run, who, acts, n, run[n].builtFor[e], Got(e)) {
        if Ends(run[m], who[m], acts[m], run[n].builtFor[e], Got(e)) {
          CreationIsHere(run, who, acts, m, run[n].builtFor[e], Got(e));
        } else {
          CreatedEarlier(run, who, acts, m, n, run[n].builtFor[e], Got(e));
        }
      }
      forall f | f in run[n].made && f in run[n].asked
        ensures CreatedBefore(run, who, acts, n, run[n].asked[f], run[n].made[f])
      {
        if Ends(run[m], who[m], acts[m], run[n].asked[f], run[n].made[f]) {
          CreationIsHere(run, who, acts, m, run[n].asked[f], run[n].made[f]);
        } else {
          CreatedEarlier(run, who, acts, m, n, run[n].asked[f], run[n].made[f]);
        }
      }
    }
  }

  /** The step records a creation of its thread's own, or nothing new. */
  predicate Ends(s: State, t: nat, a: Act, k: Key, o: Outcome) {
    && t in s.threads && s.threads[t].Creating? && s.threads[t].key == k
    && a == match o { case Got(e) => CreateReturns(e) case Threw(x) => CreateThrows(x) }
  }

  lemma CreationIsHere(run: seq<State>, who: seq<nat>, acts: seq<Act>, m: nat, k: Key, o: Outcome)
    requires IsRun(run, who, acts) && m < |acts| && Ends(run[m], who[m], acts[m], k, o)
    ensures CreatedBefore(run, who, acts, m + 1, k, o)
  {
    hide Enabled, Next, Init;
    assert CreatesAt(run, who, acts, m, k, o);
  }

  lemma StepRecords(s: State, t: nat, a: Act)
    requires Inv(s) && Keyed(s) && Enabled(s, t, a)
    ensures var s' := Next(s, t, a);
            && (forall e :: e in s'.builtFor ==>
                  (e in s.builtFor && s.builtFor[e] == s'.builtFor[e]) || Ends(s, t, a, s'.builtFor[e], Got(e)))
            && (forall f :: f in s'.made && f in s'.asked ==>
                  (f in s.made && f in s.asked && s.made[f] == s'.made[f] && s.asked[f] == s'.asked[f])
                  || Ends(s, t, a, s'.asked[f], s'.made[f]))
  {
    hide Inv, Keyed, AfterEnter, Lookup, Lives, Distinct, Parked, EnginesOf, DoGet, DoHit, DoLand, DoUnpark, DoResolve,
         DoClear, Next;
    PcIsKeyed(s, t);
    OwnFacts(s, t);
    MadeWasAsked(s);
    StepRecordsWhat(s, t, a);
  }

  /** Where each kind of step leaves its thread, and what it records. */
  lemma GetPlace(s: State, k: Key)
    ensures var s' := DoGet(s, k);
            s'.threads == s.threads && s'.asked == s.asked && s'.builtFor == s.builtFor && s'.made == s.made
  {
    hide AfterGet;
  }

  lemma HitPlace(s: State, t: nat, k: Key, e: Engine)
    ensures var s' := DoHit(s, t, k, e);
            && s'.threads == s.threads[t := Returned(k, None, Got(e))]
            && s'.asked == s.asked && s'.builtFor == s.builtFor && s'.made == s.made
  {
    hide DoGet;
    GetPlace(Goto(s, t, Returned(k, None, Got(e))), k);
  }

  lemma LandPlace(s: State, t: nat, k: Key, f: nat, e: Engine, limit: nat)
    ensures var s' := DoLand(s, t, k, f, e, limit);
            && s'.threads == s.threads[t := Resolving(k, f, Got(e))]
            && s'.asked == s.asked && s'.builtFor == s.builtFor && s'.made == s.made
  {
    hide AfterLand;
  }

  lemma UnparkPlace(s: State, t: nat, k: Key, f: nat, x: nat)
    ensures var s' := DoUnpark(s, t, k, f, x);
            && s'.threads == s.threads[t := Resolving(k, f, Threw(x))]
            && s'.asked == s.asked && s'.builtFor == s.builtFor && s'.made == s.made
  {
    hide AfterUnpark;
  }

  lemma ClearPlace(s: State)
    ensures var s' := DoClear(s);
            s'.threads == s.threads && s'.asked == s.asked && s'.builtFor == s.builtFor && s'.made == s.made
  {
    hide Pendings, Lives, EnginesOf;
  }

  lemma EnterPlace(s: State, t: nat, k: Key)
    requires Enabled(s, t, Enter(k))
    ensures var s' := Next(s, t, Enter(k));
            t in s'.threads && !s'.threads[t].Idle? && s'.threads[t].key == k
    ensures var s' := Next(s, t, Enter(k));
            && s'.builtFor == s.builtFor && s'.made == s.made
            && (s'.asked == s.asked || s'.asked == s.asked[s.next := k])
  {
    hide AfterEnter, DoHit;
    match AfterEnter(s.data, k, s.next).1
    case Hit(e) => HitPlace(s, t, k, e);
    case Join(f) =>
    case Build(_) =>
  }

  /** Which steps record what. */
  lemma StepRecordsWhat(s: State, t: nat, a: Act)
    requires Enabled(s, t, a)
    ensures var s', pc := Next(s, t, a), s.threads[t];
            && (s'.made == s.made || (pc.Creating? && a.CreateReturns? && s'.made == s.made[pc.future := Got(a.engine)])
                || (pc.Creating? && a.CreateThrows? && s'.made == s.made[pc.future := Threw(a.exception)]))
            && s'.builtFor == (if a.CreateReturns? then s.builtFor[a.engine := pc.key] else s.builtFor)
            && (s'.asked == s.asked || (a.Enter? && s'.asked == s.asked[s.next := a.key]))
  {
    hide Lookup, Limit, DoGet, DoLand, DoUnpark, DoClear, Next;
    match a
    case Enter(k) => EnterPlace(s, t, k);
    case _ => OtherRecordsWhat(s, t, a);
  }

  lemma OtherRecordsWhat(s: State, t: nat, a: Act)
    requires Enabled(s, t, a) && !a.Enter?
    ensures var s', pc := Next(s, t, a), s.threads[t];
            && (s'.made == s.made || (pc.Creating? && a.CreateReturns? && s'.made == s.made[pc.future := Got(a.engine)])
                || (pc.Creating? && a.CreateThrows? && s'.made == s.made[pc.future := Threw(a.exception)]))
            && s'.builtFor == (if a.CreateReturns? then s.builtFor[a.engine := pc.key] else s.builtFor)
            && s'.asked == s.asked
  {
    hide Lookup, Limit, DoGet, DoLand, DoUnpark, DoClear;
    var pc := s.threads[t];
    match a
    case Get(k) => GetPlace(s, k);
    case Land(env) => LandPlace(s, t, pc.key, pc.future, pc.engine, Limit(env));
    case Unpark => UnparkPlace(s, t, pc.key, pc.future, pc.exception);
    case ClearAll => ClearPlace(s);
    case _ =>
  }

  lemma MadeWasAsked(s: State)
    requires Inv(s) && Keyed(s)
    ensures forall f :: f in s.made ==> f < s.next
  {
  }

  /** The thread's last call of `get_or_create` was for the key, at step `j`. */
  predicate CalledAt(who: seq<nat>, acts: seq<Act>, j: nat, n: nat, t: nat, k: Key) {
    && j < n <= |acts| && n <= |who| && who[j] == t && acts[j] == Enter(k)
    && forall i :: j < i < n && who[i] == t ==> !acts[i].Enter?
  }

  lemma StepMovesOne(s: State, t: nat, a: Act)
    requires Inv(s) && Enabled(s, t, a)
    ensures MovesOne(s, Next(s, t, a), t)
  {
    hide Inv, Enabled, Next, SlotEffect, FutureEffect, MadeEffect, EngineEffect, ByRecency;
    StepEffect(s, t, a);
  }

  lemma OwnStepKeepsCall(s: State, t: nat, a: Act)
    requires Enabled(s, t, a) && t in Next(s, t, a).threads && !Next(s, t, a).threads[t].Idle?
    ensures var k := Next(s, t, a).threads[t].key;
            a == Enter(k) || (!s.threads[t].Idle? && s.threads[t].key == k && !a.Enter?)
  {
    hide Next;
    match a
    case Enter(k) => EnterPlace(s, t, k);
    case _ => OtherStaysWithKey(s, t, a);
  }

  lemma OtherStaysWithKey(s: State, t: nat, a: Act)
    requires Enabled(s, t, a) && !a.Enter?
    ensures t in Next(s, t, a).threads
    ensures var pc' := Next(s, t, a).threads[t];
            !pc'.Idle? ==> !s.threads[t].Idle? && pc'.key == s.threads[t].key
  {
    hide Lookup, Limit, DoGet, DoLand, DoUnpark, DoClear;
    var pc := s.threads[t];
    match a
    case Get(k) => GetPlace(s, k);
    case Land(env) => LandPlace(s, t, pc.key, pc.future, pc.engine, Limit(env));
    case Unpark => UnparkPlace(s, t, pc.key, pc.future, pc.exception);
    case ClearAll => ClearPlace(s);
    case _ =>
  }

  lemma {:induction false} WhoIsInsideCalled(run: seq<State>, who: seq<nat>, acts: seq<Act>, n: nat, t: nat)
    requires IsRun(run, who, acts) && n <= |acts| && t in run[n].threads && !run[n].threads[t].Idle?
    ensures exists j :: CalledAt(who, acts, j, n, t, run[n].threads[t].key)
  {
    hide Enabled, Next, Inv;
    if n > 0 {
      var m := n - 1;
      RunHasInv(run, who, acts, m);
      StepMovesOne(run[m], who[m], acts[m]);
      if who[m] == t {
        OwnStepKeepsCall(run[m], t, acts[m]);
      }
      var k := run[n].threads[t].key;
      if who[m] == t && acts[m] == Enter(k) {
        assert CalledAt(who, acts, m, n, t, k);
      } else {
        WhoIsInsideCalled(run, who, acts, m, t);
        var j :| CalledAt(who, acts, j, m, t, k);
        assert CalledAt(who, acts, j, n, t, k);
      }
    }
  }

  /** In every interleaving, whoever comes back from `get_or_create` for a tenant, with a hit, as creator or after
      waiting, got the engine or the exception of a creation for that very tenant; and so did the cache. */
  lemma EverybodyGetsTheirOwn(run: seq<State>, who: seq<nat>, acts: seq<Act>, n: nat)
    requires IsRun(run, who, acts) && n <= |acts|
    ensures forall t :: t in run[n].threads && run[n].threads[t].Returned? ==>
                          var pc := run[n].threads[t];
                          && (exists j :: CalledAt(who, acts, j, n, t, pc.key))
                          && CreatedBefore(run, who, acts, n, pc.key, pc.outcome)
    ensures forall k, e :: (k, Live(e)) in run[n].data ==> CreatedBefore(run, who, acts, n, k, Got(e))
  {
    hide Enabled, Next, Inv, Keyed, CreatedBefore, CalledAt;
    RunIsKeyed(run, who, acts, n);
    RunHasInv(run, who, acts, n);
    RecordedByCreation(run, who, acts, n);
    forall t | t in run[n].threads && run[n].threads[t].Returned?
      ensures exists j :: CalledAt(who, acts, j, n, t, run[n].threads[t].key)
      ensures CreatedBefore(run, who, acts, n, run[n].threads[t].key, run[n].threads[t].outcome)
    {
      WhoIsInsideCalled(run, who, acts, n, t);
      PcIsKeyed(run[n], t);
      OwnFacts(run[n], t);
    }
    forall k, e | (k, Live(e)) in run[n].data ensures CreatedBefore(run, who, acts, n, k, Got(e)) {
      HeldIsKeyed(run[n], (k, Live(e)));
    }
  }
}
