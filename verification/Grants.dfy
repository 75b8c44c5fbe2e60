/**
 * Purpose grants: issued, updated and revoked by compare-and-swap on a version, each accepted change leaving
 * an event.  Reading the row and writing it are separate steps, so other issuers come in between.
 */
module Grants {
  import opened Basics

  datatype Action = Granted | Updated | Revoked

  datatype Event = Event(user: string, purpose: string, action: Action, oldVersion: Option<int>, newVersion: int)

  /** A grant row: its lock, whether it is revoked, and what it allows. */
  datatype Grant = Grant(version: int, revoked: bool, operations: set<string>)

  /** A user and a purpose. */
  type Key = (string, string)

  datatype Store = Store(grants: map<Key, Grant>, events: seq<Event>)

  /** How a call ends. */
  datatype Answer = Accepted(version: int) | AlreadyRevoked | Stale

  function Lookup(db: Store, k: Key): Option<Grant> {
    if k in db.grants then Some(db.grants[k]) else None
  }

  /** The store once a change is written and logged. */
  function Changed(db: Store, k: Key, g: Grant, action: Action, before: Option<int>): Store {
    Store(db.grants[k := g], db.events + [Event(k.0, k.1, action, before, g.version)])
  }

  // ---------------------------------------------------------------------------------------------
  // The writes, given what was read before
  // ---------------------------------------------------------------------------------------------

  /** `grant_purpose` from its read of the row, `seen`, on.  A first issuance collides on the key with a
      concurrent one; an update lands only where the version still is the expected one. */
  function AfterGrant(db: Store, k: Key, operations: set<string>, expected: Option<int>,
        seen: Option<Grant>): (Store, Answer) {
    if seen.None? then
      if expected.Some? || k in db.grants then (db, Stale)
      else (Changed(db, k, Grant(1, false, operations), Granted, None), Accepted(1))
    else if expected.None? || k !in db.grants || db.grants[k].version != expected.value then (db, Stale)
    else (Changed(db, k, Grant(expected.value + 1, false, operations), Updated, expected), Accepted(expected.value + 1))
  }

  /** `revoke_purpose` from its read on. */
  function AfterRevoke(db: Store, k: Key, expected: Option<int>, seen: Option<Grant>): (Store, Answer) {
    if seen.None? || seen.value.revoked then (db, AlreadyRevoked)
    else
      var version := seen.value.version;
      if (expected.Some? && expected.value != version) || k !in db.grants || db.grants[k].version != version then
        (db, Stale)
      else
        (Changed(db, k, db.grants[k].(revoked := true, version := version + 1), Revoked, Some(version)),
         Accepted(version + 1))
  }

  // ---------------------------------------------------------------------------------------------
  // What the events say
  // ---------------------------------------------------------------------------------------------

  predicate About(e: Event, k: Key) {
    e.user == k.0 && e.purpose == k.1
  }

  /** The events about one grant. */
  function EventsOf(events: seq<Event>, k: Key): seq<Event> {
    if |events| == 0 then []
    else
      EventsOf(events[..|events| - 1], k)
      + (if About(events[|events| - 1], k) then [events[|events| - 1]] else [])
  }

  /** The version and revoked flag a history leaves. */
  function Fold(history: seq<Event>): Option<(int, bool)> {
    if |history| == 0 then None
    else
      var last := history[|history| - 1];
      Some((last.newVersion, last.action.Revoked?))
  }

  function StateOf(db: Store, k: Key): Option<(int, bool)> {
    match Lookup(db, k)
    case None => None
    case Some(g) => Some((g.version, g.revoked))
  }

  /** An event goes on from what the history before it left: an issuance from nothing, to version 1; any other
      change from the version, by one; a revocation from an unrevoked grant. */
  predicate Follows(before: Option<(int, bool)>, e: Event) {
    match before
    case None => e.action.Granted? && e.oldVersion.None? && e.newVersion == 1
    case Some((version, revoked)) =>
      && !e.action.Granted? && e.oldVersion == Some(version) && e.newVersion == version + 1
      && (e.action.Revoked? ==> !revoked)
  }

  predicate Chained(history: seq<Event>) {
    forall i :: 0 <= i < |history| ==> Follows(Fold(history[..i]), history[i])
  }

  /** Every grant's events chain, and fold to its row. */
  ghost predicate StoreOk(db: Store) {
    forall k: Key :: Chained(EventsOf(db.events, k)) && Fold(EventsOf(db.events, k)) == StateOf(db, k)
  }

  lemma ChainGrows(history: seq<Event>, e: Event)
    requires Chained(history) && Follows(Fold(history), e)
    ensures Chained(history + [e]) && Fold(history + [e]) == Some((e.newVersion, e.action.Revoked?))
  {
  }

  lemma EventsGrow(events: seq<Event>, e: Event, k: Key)
    ensures EventsOf(events + [e], k) == EventsOf(events, k) + (if About(e, k) then [e] else [])
  {
  }

  /** Writing a change that follows from the row keeps every chain. */
  lemma ChangeKeepsStore(db: Store, k: Key, g: Grant, action: Action, before: Option<int>)
    requires StoreOk(db)
    requires Follows(StateOf(db, k), Event(k.0, k.1, action, before, g.version)) && (g.revoked <==> action.Revoked?)
    ensures StoreOk(Changed(db, k, g, action, before))
  {
    var e := Event(k.0, k.1, action, before, g.version);
    var db' := Changed(db, k, g, action, before);
    hide Chained, Fold, EventsOf, Follows;
    forall j: Key ensures Chained(EventsOf(db'.events, j)) && Fold(EventsOf(db'.events, j)) == StateOf(db', j) {
      EventsGrow(db.events, e, j);
      if About(e, j) {
        assert j == k;
        ChainGrows(EventsOf(db.events, k), e);
      } else {
        assert j != k && EventsOf(db.events, j) + [] == EventsOf(db.events, j);
      }
    }
  }

  /** One grant is written and one event says how: it follows from what the row was. */
  ghost predicate WrittenOnce(before: Store, after: Store, k: Key, g: Grant) {
    && after.grants == before.grants[k := g]
    && exists e :: after.events == before.events + [e] && About(e, k) && Follows(StateOf(before, k), e)
                   && e.newVersion == g.version && (g.revoked <==> e.action.Revoked?)
  }

  lemma IssueIsWritten(db: Store, k: Key, g: Grant, action: Action, before: Option<int>)
    requires Follows(StateOf(db, k), Event(k.0, k.1, action, before, g.version)) && (g.revoked <==> action.Revoked?)
    ensures WrittenOnce(db, Changed(db, k, g, action, before), k, g)
    ensures StoreOk(db) ==> StoreOk(Changed(db, k, g, action, before))
  {
    if StoreOk(db) {
      ChangeKeepsStore(db, k, g, action, before);
    }
    hide StoreOk;
    var e := Event(k.0, k.1, action, before, g.version);
    assert Changed(db, k, g, action, before).events == db.events + [e];
  }

  /** A row read earlier is the live one, or the live one has a higher version. */
  predicate SeenIs(db: Store, k: Key, seen: Option<Grant>) {
    seen.Some? ==>
      && k in db.grants && seen.value.version <= db.grants[k].version
      && (seen.value.version == db.grants[k].version ==> seen.value == db.grants[k])
  }

  /** The two tables. */
  class GrantTables {
    var grants: map<Key, Grant>
    var events: seq<Event>

    constructor ()
      ensures State() == Store(map[], [])
    {
      grants, events := map[], [];
    }

    function State(): Store
      reads this
    {
      Store(grants, events)
    }

    /** `grant_purpose`, from its read of the row on.  It is accepted exactly as a first issuance of a missing
        grant or as an update that names the live version; then the grant is unrevoked at the next version,
        one event says so, and no other grant changes. */
    method GrantPurpose(k: Key, operations: set<string>, expected: Option<int>, seen: Option<Grant>) returns (a: Answer)
      modifies this
      ensures a.Accepted? <==> if seen.None? then expected.None? && k !in old(grants)
                               else k in old(grants) && expected == Some(old(grants)[k].version)
      ensures a.Accepted? ==> WrittenOnce(old(State()), State(), k, Grant(a.version, false, operations))
      ensures !a.Accepted? ==> State() == old(State())
      ensures old(StoreOk(State())) ==> StoreOk(State())
      ensures State() == AfterGrant(old(State()), k, operations, expected, seen).0
      ensures a == AfterGrant(old(State()), k, operations, expected, seen).1
    {
      hide StoreOk, WrittenOnce;
      if seen.None? {
        if expected.Some? {
          return Stale;
        }
        if k in grants {
          return Stale;
        }
        IssueIsWritten(State(), k, Grant(1, false, operations), Granted, None);
        grants := grants[k := Grant(1, false, operations)];
        events := events + [Event(k.0, k.1, Granted, None, 1)];
        return Accepted(1);
      }
      if expected.None? {
        return Stale;
      }
      if k !in grants || grants[k].version != expected.value {
        return Stale;
      }
      var version := grants[k].version + 1;
      IssueIsWritten(State(), k, Grant(version, false, operations), Updated, expected);
      grants := grants[k := Grant(version, false, operations)];
      events := events + [Event(k.0, k.1, Updated, expected, version)];
      return Accepted(version);
    }

    /** `revoke_purpose`, from its read of the row on.  It is accepted exactly when the row read was unrevoked, is
        of the expected version if one is named, and still is the live version. */
    method RevokePurpose(k: Key, expected: Option<int>, seen: Option<Grant>) returns (a: Answer)
      requires SeenIs(State(), k, seen)
      modifies this
      ensures a.AlreadyRevoked? <==> seen.None? || seen.value.revoked
      ensures a.Accepted? <==> && seen.Some? && !seen.value.revoked
                               && (expected.Some? ==> expected == Some(seen.value.version))
                               && k in old(grants) && old(grants)[k].version == seen.value.version
      ensures a.Accepted? ==>
                WrittenOnce(old(State()), State(), k, old(grants)[k].(revoked := true, version := a.version))
      ensures !a.Accepted? ==> State() == old(State())
      ensures old(StoreOk(State())) ==> StoreOk(State())
      ensures State() == AfterRevoke(old(State()), k, expected, seen).0
      ensures a == AfterRevoke(old(State()), k, expected, seen).1
    {
      hide StoreOk, WrittenOnce;
      if seen.None? || seen.value.revoked {
        return AlreadyRevoked;
      }
      var version := seen.value.version;
      if expected.Some? && expected.value != version {
        return Stale;
      }
      if k !in grants || grants[k].version != version {
        return Stale;
      }
      IssueIsWritten(State(), k, grants[k].(revoked := true, version := version + 1), Revoked, Some(version));
      grants := grants[k := grants[k].(revoked := true, version := version + 1)];
      events := events + [Event(k.0, k.1, Revoked, Some(version), version + 1)];
      return Accepted(version + 1);
    }
  }

  // ---------------------------------------------------------------------------------------------
  // Concurrent issuers
  // ---------------------------------------------------------------------------------------------

  datatype Call =
    | GrantCall(key: Key, operations: set<string>, expected: Option<int>)
    | RevokeCall(key: Key, expected: Option<int>)

  datatype Pc = Idle | Read(call: Call, seen: Option<Grant>) | Done(answer: Answer)

  datatype World = World(db: Store, callers: map<nat, Pc>)

  datatype Act = Begin(call: Call) | Write | Leave

  predicate Enabled(w: World, t: nat, a: Act) {
    t in w.callers &&
    match a
    case Begin(_) => w.callers[t].Idle?
    case Write => w.callers[t].Read?
    case Leave => w.callers[t].Done?
  }

  function Effect(db: Store, call: Call, seen: Option<Grant>): (Store, Answer) {
    match call
    case GrantCall(k, operations, expected) => AfterGrant(db, k, operations, expected, seen)
    case RevokeCall(k, expected) => AfterRevoke(db, k, expected, seen)
  }

  function Next(w: World, t: nat, a: Act): World
    requires Enabled(w, t, a)
  {
    match a
    case Begin(call) => w.(callers := w.callers[t := Read(call, Lookup(w.db, call.key))])
    case Write =>
      var (db, answer) := Effect(w.db, w.callers[t].call, w.callers[t].seen);
      World(db, w.callers[t := Done(answer)])
    case Leave => w.(callers := w.callers[t := Idle])
  }

  predicate SeenOk(db: Store, pc: Pc) {
    pc.Read? ==> SeenIs(db, pc.call.key, pc.seen)
  }

  ghost predicate Inv(w: World) {
    StoreOk(w.db) && forall t :: t in w.callers ==> SeenOk(w.db, w.callers[t])
  }

  predicate Init(w: World) {
    w.db == Store(map[], []) && forall t :: t in w.callers ==> w.callers[t].Idle?
  }

  /** Rows stay, and change only by raising their version. */
  predicate Rises(db: Store, db': Store) {
    forall k :: k in db.grants ==>
      k in db'.grants && (db'.grants[k] == db.grants[k] || db'.grants[k].version > db.grants[k].version)
  }

  lemma EffectKeepsStore(db: Store, call: Call, seen: Option<Grant>)
    requires StoreOk(db) && SeenOk(db, Read(call, seen))
    ensures StoreOk(Effect(db, call, seen).0) && Rises(db, Effect(db, call, seen).0)
    ensures !Effect(db, call, seen).1.Accepted? ==> Effect(db, call, seen).0 == db
  {
    hide StoreOk;
    var k := call.key;
    match call
    case GrantCall(_, operations, expected) =>
      if AfterGrant(db, k, operations, expected, seen).1.Accepted? {
        if seen.None? {
          ChangeKeepsStore(db, k, Grant(1, false, operations), Granted, None);
        } else {
          ChangeKeepsStore(db, k, Grant(expected.value + 1, false, operations), Updated, expected);
        }
      }
    case RevokeCall(_, expected) =>
      if AfterRevoke(db, k, expected, seen).1.Accepted? {
        var version := seen.value.version;
        ChangeKeepsStore(db, k, db.grants[k].(revoked := true, version := version + 1), Revoked, Some(version));
      }
  }

  lemma StepKeepsInv(w: World, t: nat, a: Act)
    requires Inv(w) && Enabled(w, t, a)
    ensures Inv(Next(w, t, a))
  {
    hide StoreOk, Effect;
    if a.Write? {
      var pc := w.callers[t];
      EffectKeepsStore(w.db, pc.call, pc.seen);
      var db := Effect(w.db, pc.call, pc.seen).0;
      forall u | u in w.callers ensures SeenOk(db, w.callers[u]) {
        assert SeenOk(w.db, w.callers[u]);
      }
    }
  }

  predicate IsRun(run: seq<World>, who: seq<nat>, acts: seq<Act>) {
    && |run| == |acts| + 1 && |who| == |acts| && Init(run[0])
    && forall i :: 0 <= i < |acts| ==> Enabled(run[i], who[i], acts[i]) && run[i + 1] == Next(run[i], who[i], acts[i])
  }

  lemma {:induction false} RunHasInv(run: seq<World>, who: seq<nat>, acts: seq<Act>, n: nat)
    requires IsRun(run, who, acts) && n <= |acts|
    ensures Inv(run[n])
  {
    if n > 0 {
      RunHasInv(run, who, acts, n - 1);
      hide Inv, Next, Enabled;
      StepKeepsInv(run[n - 1], who[n - 1], acts[n - 1]);
    }
  }

  /** A chained history counts: its i-th event raises version i to i + 1, so there is no gap and no fork. */
  lemma {:induction false} ChainedCounts(history: seq<Event>, i: nat)
    requires Chained(history) && i < |history|
    ensures history[i].newVersion == i + 1
    ensures history[i].oldVersion == if i == 0 then None else Some(i)
    ensures history[i].action.Granted? <==> i == 0
    ensures history[i].action.Revoked? ==> i > 0 && !history[i - 1].action.Revoked?
  {
    assert Follows(Fold(history[..i]), history[i]);
    if i > 0 {
      ChainedCounts(history, i - 1);
      assert history[..i][|history[..i]| - 1] == history[i - 1];
    }
  }

  /** The event takes a grant from version `n`, or from nothing, to version `n + 1`. */
  predicate Raises(e: Event, n: nat) {
    e.newVersion == n + 1 && e.oldVersion == if n == 0 then None else Some(n)
  }

  /** In every interleaving of grants and revocations, for every user and purpose: the events number the versions
      1, 2, 3, ..., each from the one before, and folding them gives the row's version and revoked flag; the
      version is the number of accepted changes. */
  lemma EventsFoldToTheGrant(run: seq<World>, who: seq<nat>, acts: seq<Act>, n: nat, k: Key)
    requires IsRun(run, who, acts) && n <= |acts|
    ensures var history := EventsOf(run[n].db.events, k);
            && Fold(history) == StateOf(run[n].db, k)
            && (forall i :: 0 <= i < |history| ==> Raises(history[i], i))
            && (k in run[n].db.grants <==> |history| > 0)
            && (k in run[n].db.grants ==> run[n].db.grants[k].version == |history|)
  {
    RunHasInv(run, who, acts, n);
    hide Chained, EventsOf, IsRun;
    var history := EventsOf(run[n].db.events, k);
    forall i | 0 <= i < |history|
      ensures Raises(history[i], i)
    {
      ChainedCounts(history, i);
    }
  }

  /** A call that is refused or finds the grant already revoked adds nothing. */
  lemma RefusedAddsNothing(run: seq<World>, who: seq<nat>, acts: seq<Act>, n: nat)
    requires IsRun(run, who, acts) && n < |acts|
    ensures run[n + 1].db == run[n].db ||
            (acts[n].Write? && run[n + 1].callers[who[n]].Done? && run[n + 1].callers[who[n]].answer.Accepted?
             && |run[n + 1].db.events| == |run[n].db.events| + 1 && run[n].db.events <= run[n + 1].db.events)
  {
  }
}
