/**
 * One device: its memory, its own deletion log, and how it applies the tombstones of others.
 *
 * A device is first described as a value, with the effect of every operation as a function; the
 * properties of the channel are proved about that value.  The class `Engine` then has the fields and
 * the loops of the engine object, and its methods are proved to compute those functions.
 */
module Device {
  import opened Basics
  import opened Chain
  import opened FileLog
  import opened Compaction
  import opened Tombstones

  /** What the receiver stores per sender: how far it read and the sender's chain hash there. */
  datatype Anchor = Anchor(cursor: int, chain: Hash)

  /** A row of the applied table. */
  datatype Mark = Mark(user: string, scope: Scope, scopeKey: string)

  /** `file` is what the log has on disk; `history` is the same log had it never been compacted.
      Beliefs are known by (user, global id), session summaries by (user, session id). */
  datatype Device = Device(
    id: string, tenant: string, app: string,
    file: seq<Entry>, history: seq<Entry>,
    beliefs: set<(string, string)>, sessions: set<(string, string)>,
    applied: map<Key, Mark>, peers: map<string, Anchor>)

  /** What a local deletion adds of its own: the clock, the generation, the rows it collected, and whether the
      publisher refuses it: a concurrent change moved the user's revision, or the commit raised. */
  datatype Local = Local(now: int, generation: int, fingerprints: seq<Fingerprint>, rowId: string, refused: bool)

  predicate OwnsAll(lines: seq<Entry>, id: string) {
    forall i :: 0 <= i < |lines| ==> lines[i].dbId == id
  }

  /** The log is a verified log of this device, compacted or not. */
  ghost predicate DeviceOk(d: Device) {
    && Refines(d.file, d.history)
    && OwnsAll(d.history, d.id)
    && d.id != ""
  }

  // ---------------------------------------------------------------------------------------------
  // Local deletions
  // ---------------------------------------------------------------------------------------------

  /** The log entry of a deletion; `origin` and `originSeq` and `originHash` are set when it applies a tombstone. */
  function LogEntry(d: Device, user: string, scope: Scope, key: string, l: Local,
                    origin: string, originSeq: int, originHash: Hash): Entry {
    Entry(d.id,
          Deletion(d.tenant, d.app, user, scope,
                   match scope case Belief => l.rowId case Session => key case _ => "",
                   l.fingerprints, l.generation, "sync",
                   match scope case Belief => key case Session => key case _ => ""),
          None, origin, originSeq, originHash, 0, NoHash, NoHash)
  }

  /** Does the deletion find anything?  A whole-user deletion always runs and is always logged. */
  predicate Hits(d: Device, user: string, scope: Scope, key: string) {
    match scope
    case User => true
    case Session => (user, key) in d.sessions
    case Belief => (user, key) in d.beliefs
    case _ => false
  }

  /** Is it carried out?  Only the deletion of a belief goes through the publisher. */
  predicate Deletes(d: Device, user: string, scope: Scope, key: string, l: Local) {
    Hits(d, user, scope, key) && !(scope.Belief? && l.refused)
  }

  function OfOthers(rows: set<(string, string)>, user: string): set<(string, string)> {
    set r | r in rows && r.0 != user
  }

  /** The three local deletions, `_delete_user_in`, `_forget_session_in` and `_forget_belief_in`:
      remove the scope's rows and write the log; nothing happens when there is nothing to delete, or when the
      publisher refuses. */
  function Delete(d: Device, user: string, scope: Scope, key: string, l: Local,
                  origin: string, originSeq: int, originHash: Hash): Device {
    if !Deletes(d, user, scope, key, l) then d
    else
      var e := LogEntry(d, user, scope, key, l, origin, originSeq, originHash);
      d.(file := AppendLines(d.file, e, l.now),
         history := AppendLines(d.history, e, l.now),
         beliefs := match scope
                    case User => OfOthers(d.beliefs, user)
                    case Belief => d.beliefs - {(user, key)}
                    case _ => d.beliefs,
         sessions := match scope
                     case User => OfOthers(d.sessions, user)
                     case Session => d.sessions - {(user, key)}
                     case _ => d.sessions)
  }

  function LocalDelete(d: Device, user: string, scope: Scope, key: string, l: Local): Device {
    Delete(d, user, scope, key, l, "", 0, NoHash)
  }

  // ---------------------------------------------------------------------------------------------
  // Applying tombstones
  // ---------------------------------------------------------------------------------------------

  /** A tombstone is skipped when it is recorded as applied, or when it originated here and the local
      log still holds it. */
  predicate Known(d: Device, t: TombBody) {
    KeyOf(t) in d.applied || (t.origin == d.id && ScanHasTombstone(d.file, t.originSeq, t.originHash))
  }

  function MarkOf(t: TombBody): Mark {
    Mark(t.user, t.scope, t.scopeKey)
  }

  /** Delete locally and, found or not, record the identity. */
  function ApplyOne(d: Device, t: TombBody, l: Local): Device {
    var d' := Delete(d, t.user, t.scope, t.scopeKey, l, t.origin, t.originSeq, t.originHash);
    d'.(applied := d.applied[KeyOf(t) := MarkOf(t)])
  }

  function ApplyNext(d: Device, t: TombBody, l: Local): Device {
    if Known(d, t) then d else ApplyOne(d, t, l)
  }

  /** The first `n` entries of a batch applied in order; `tape` supplies the local data per entry. */
  function ApplyUpTo(d: Device, ts: seq<Tombstone>, tape: nat -> Local, n: nat): Device
    requires n <= |ts|
  {
    if n == 0 then d else ApplyNext(ApplyUpTo(d, ts, tape, n - 1), ts[n - 1].body, tape(n - 1))
  }

  function StoredAnchor(d: Device, sender: string): Anchor {
    if sender in d.peers
    then Anchor(d.peers[sender].cursor, if d.peers[sender].chain == NoHash then Genesis else d.peers[sender].chain)
    else Anchor(0, Genesis)
  }

  /** The batch does not continue the stored position: the sender's log was rewritten. */
  predicate Rescans(d: Device, b: Batch) {
    b.from != StoredAnchor(d, b.sender).cursor || b.fromChain != StoredAnchor(d, b.sender).chain
  }

  /** `apply_tombstones` of an accepted batch: every entry, then the anchor, which moves to the batch's
      end or, on a rescan, back to the start. */
  function Apply(d: Device, b: Batch, tape: nat -> Local): Device {
    var d' := ApplyUpTo(d, b.entries, tape, |b.entries|);
    d'.(peers := d.peers[b.sender := if Rescans(d, b) then Anchor(0, Genesis) else Anchor(b.to, b.toChain)])
  }

  // ---------------------------------------------------------------------------------------------
  // Which rows go
  // ---------------------------------------------------------------------------------------------

  /** A deletion of this scope names the belief row. */
  predicate NamesBelief(user: string, scope: Scope, key: string, row: (string, string)) {
    row.0 == user && (scope.User? || (scope.Belief? && row.1 == key))
  }

  /** A deletion of this scope names the session row. */
  predicate NamesSession(user: string, scope: Scope, key: string, row: (string, string)) {
    row.0 == user && (scope.User? || (scope.Session? && row.1 == key))
  }

  /** A deletion that is carried out removes exactly the rows it names, logs one entry that says what was deleted, and
      touches nothing else; one that is not changes nothing. */
  lemma DeleteIsExact(d: Device, user: string, scope: Scope, key: string, l: Local,
                      origin: string, originSeq: int, originHash: Hash)
    ensures var d' := Delete(d, user, scope, key, l, origin, originSeq, originHash);
            var goes := Deletes(d, user, scope, key, l);
            && (forall row :: row in d'.beliefs <==>
                                row in d.beliefs && !(goes && NamesBelief(user, scope, key, row)))
            && (forall row :: row in d'.sessions <==>
                                row in d.sessions && !(goes && NamesSession(user, scope, key, row)))
            && d'.applied == d.applied && d'.peers == d.peers
            && d'.id == d.id && d'.tenant == d.tenant && d'.app == d.app
            && |d'.history| == |d.history| + (if goes then 1 else 0) && |d'.file| == |d.file| + (if goes then 1 else 0)
    ensures Deletes(d, user, scope, key, l) ==>
              var e := Delete(d, user, scope, key, l, origin, originSeq, originHash).history[|d.history|];
              && e.dbId == d.id && e.origin == origin && e.originSeq == originSeq && e.originHash == originHash
              && e.what.tenant == d.tenant && e.what.app == d.app && e.what.user == user && e.what.scope == scope
              && e.what.fingerprints == l.fingerprints && e.what.generation == l.generation
              && e.createdAt == Some(l.now)
              && (scope.Belief? ==> e.what.globalKey == key && e.what.scopeKey == l.rowId)
              && (scope.Session? ==> e.what.globalKey == key && e.what.scopeKey == key)
              && (scope.User? ==> e.what.globalKey == "" && e.what.scopeKey == "")
  {
    hide ScanTail;
  }

  /** A deletion is carried out exactly when it is a whole user's, or its session is stored, or its belief is and the
      publisher does not refuse. */
  lemma DeletesIff(d: Device, user: string, scope: Scope, key: string, l: Local)
    ensures Deletes(d, user, scope, key, l) <==>
              || scope == User
              || (scope == Session && (user, key) in d.sessions)
              || (scope == Belief && (user, key) in d.beliefs && !l.refused)
  {
  }

  /** A tombstone that is new to the device is put on record, with the user, the scope and the key it names, whether it
      found anything or not; one that it knows leaves no trace. */
  lemma NextRecords(d: Device, t: TombBody, l: Local)
    ensures var d' := ApplyNext(d, t, l);
            forall k :: k in d'.applied <==>
                          k in d.applied || (!Known(d, t) && k == Key(t.origin, t.originSeq, t.originHash))
    ensures var d' := ApplyNext(d, t, l);
            forall k :: k in d'.applied ==>
                          d'.applied[k] == if !Known(d, t) && k == Key(t.origin, t.originSeq, t.originHash)
                                           then Mark(t.user, t.scope, t.scopeKey) else d.applied[k]
    ensures Known(d, t) ==> ApplyNext(d, t, l) == d
  {
    hide Deletes, ScanHasTombstone, AppendLines;
  }

  /** Tombstone `i` of a batch is new to the device when its turn comes, and is carried out. */
  predicate CarriesOut(d: Device, ts: seq<Tombstone>, tape: nat -> Local, i: nat)
    requires i < |ts|
  {
    var c, t := ApplyUpTo(d, ts, tape, i), ts[i].body;
    !Known(c, t) && Deletes(c, t.user, t.scope, t.scopeKey, tape(i))
  }

  predicate TakesBelief(d: Device, ts: seq<Tombstone>, tape: nat -> Local, i: nat, row: (string, string))
    requires i < |ts|
  {
    CarriesOut(d, ts, tape, i) && NamesBelief(ts[i].body.user, ts[i].body.scope, ts[i].body.scopeKey, row)
  }

  predicate TakesSession(d: Device, ts: seq<Tombstone>, tape: nat -> Local, i: nat, row: (string, string))
    requires i < |ts|
  {
    CarriesOut(d, ts, tape, i) && NamesSession(ts[i].body.user, ts[i].body.scope, ts[i].body.scopeKey, row)
  }

  predicate BeliefTaken(d: Device, ts: seq<Tombstone>, tape: nat -> Local, n: nat, row: (string, string))
    requires n <= |ts|
  {
    exists i :: 0 <= i < n && TakesBelief(d, ts, tape, i, row)
  }

  predicate SessionTaken(d: Device, ts: seq<Tombstone>, tape: nat -> Local, n: nat, row: (string, string))
    requires n <= |ts|
  {
    exists i :: 0 <= i < n && TakesSession(d, ts, tape, i, row)
  }

  /** An application removes exactly the rows that some tombstone carried out names. */
  lemma {:induction false} ApplyIsExact(d: Device, ts: seq<Tombstone>, tape: nat -> Local, n: nat)
    requires n <= |ts|
    ensures var d' := ApplyUpTo(d, ts, tape, n);
            && (forall row :: row in d'.beliefs <==> row in d.beliefs && !BeliefTaken(d, ts, tape, n, row))
            && (forall row :: row in d'.sessions <==> row in d.sessions && !SessionTaken(d, ts, tape, n, row))
  {
    hide Delete, Deletes, Known, NamesBelief, NamesSession;
    if n > 0 {
      var m := n - 1;
      ApplyIsExact(d, ts, tape, m);
      var c, t := ApplyUpTo(d, ts, tape, m), ts[m].body;
      DeleteIsExact(c, t.user, t.scope, t.scopeKey, tape(m), t.origin, t.originSeq, t.originHash);
      var d' := ApplyUpTo(d, ts, tape, n);
      forall row ensures row in d'.beliefs <==> row in c.beliefs && !TakesBelief(d, ts, tape, m, row) {
      }
      forall row ensures row in d'.sessions <==> row in c.sessions && !TakesSession(d, ts, tape, m, row) {
      }
      hide TakesBelief, TakesSession, ApplyUpTo;
      forall row
        ensures BeliefTaken(d, ts, tape, n, row)
           <==> BeliefTaken(d, ts, tape, m, row) || TakesBelief(d, ts, tape, m, row)
        ensures SessionTaken(d, ts, tape, n, row)
           <==> SessionTaken(d, ts, tape, m, row) || TakesSession(d, ts, tape, m, row)
      {
      }
    }
  }

  /** A row gone by entry `i` or taken by it is taken by some entry of the batch. */
  lemma TakenStaysTaken(d: Device, ts: seq<Tombstone>, tape: nat -> Local, i: nat, row: (string, string))
    requires i < |ts|
    ensures BeliefTaken(d, ts, tape, i, row) || TakesBelief(d, ts, tape, i, row) ==> BeliefTaken(d, ts, tape, |ts|, row)
    ensures SessionTaken(d, ts, tape, i, row) || TakesSession(d, ts, tape, i, row) ==>
              SessionTaken(d, ts, tape, |ts|, row)
  {
    hide TakesBelief, TakesSession;
  }

  /** What a carried-out deletion names is among what it finds. */
  lemma NamedIsFound(c: Device, t: TombBody, l: Local, row: (string, string))
    requires !(t.scope.Belief? && l.refused)
    ensures NamesBelief(t.user, t.scope, t.scopeKey, row) && row in c.beliefs ==>
              Deletes(c, t.user, t.scope, t.scopeKey, l)
    ensures NamesSession(t.user, t.scope, t.scopeKey, row) && row in c.sessions ==>
              Deletes(c, t.user, t.scope, t.scopeKey, l)
  {
    assert row == (row.0, row.1);
  }

  /** After an accepted batch no row is left that one of its tombstones names, unless the device knew the tombstone
      before, or it is a forget that the publisher refused. */
  lemma NothingNamedIsLeft(d: Device, b: Batch, tape: nat -> Local, i: nat, row: (string, string))
    requires i < |b.entries| && !Known(ApplyUpTo(d, b.entries, tape, i), b.entries[i].body)
    requires !(b.entries[i].body.scope.Belief? && tape(i).refused)
    ensures var t := b.entries[i].body;
            && (NamesBelief(t.user, t.scope, t.scopeKey, row) ==> row !in Apply(d, b, tape).beliefs)
            && (NamesSession(t.user, t.scope, t.scopeKey, row) ==> row !in Apply(d, b, tape).sessions)
  {
    hide Known, ApplyUpTo, Deletes, BeliefTaken, SessionTaken, NamesBelief, NamesSession;
    ApplyIsExact(d, b.entries, tape, i);
    ApplyIsExact(d, b.entries, tape, |b.entries|);
    TakenStaysTaken(d, b.entries, tape, i, row);
    NamedIsFound(ApplyUpTo(d, b.entries, tape, i), b.entries[i].body, tape(i), row);
  }

  // ---------------------------------------------------------------------------------------------
  // What every application keeps
  // ---------------------------------------------------------------------------------------------

  /** Appending never hides an entry. */
  lemma AppendKeepsTombstones(lines: seq<Entry>, e: Entry, now: int, n: int, x: Hash)
    requires ScanHasTombstone(lines, n, x)
    ensures ScanHasTombstone(AppendLines(lines, e, now), n, x)
  {
    TailIsMaximum(lines);
    var r := AppendLines(lines, e, now);
    assert r[..|r| - 1] == lines;
    assert n in ScanIndex(lines);
  }

  /** Nothing the log of `d` held is missing from the log of `d'`. */
  ghost predicate TombstonesKept(f: seq<Entry>, f': seq<Entry>) {
    forall n, x :: ScanHasTombstone(f, n, x) ==> ScanHasTombstone(f', n, x)
  }

  /** `d'` is `d` after deletions and applications. */
  ghost predicate Grows(d: Device, d': Device) {
    && d'.id == d.id && d'.tenant == d.tenant && d'.app == d.app && d'.peers == d.peers
    && d.history <= d'.history && TombstonesKept(d.file, d'.file)
    && d'.beliefs <= d.beliefs && d'.sessions <= d.sessions
    && d.applied.Keys <= d'.applied.Keys
    && (forall k :: k in d.applied ==> d'.applied[k] == d.applied[k])
  }

  lemma AppendKeepsAllTombstones(f: seq<Entry>, e: Entry, now: int)
    ensures TombstonesKept(f, AppendLines(f, e, now))
  {
    hide AppendLines, ScanHasTombstone;
    forall n, x | ScanHasTombstone(f, n, x) ensures ScanHasTombstone(AppendLines(f, e, now), n, x) {
      AppendKeepsTombstones(f, e, now, n, x);
    }
  }

  lemma AppendKeepsOwner(h: seq<Entry>, e: Entry, now: int, id: string)
    requires OwnsAll(h, id) && e.dbId == id
    ensures OwnsAll(AppendLines(h, e, now), id) && h <= AppendLines(h, e, now)
  {
  }

  lemma DeleteKeeps(d: Device, user: string, scope: Scope, key: string, l: Local,
                    origin: string, originSeq: int, originHash: Hash)
    requires DeviceOk(d) && (origin == "" ==> originSeq == 0)
    ensures var d' := Delete(d, user, scope, key, l, origin, originSeq, originHash);
            DeviceOk(d') && Grows(d, d') && d'.applied == d.applied
  {
    hide AppendLines, Refines, OwnsAll, TombstonesKept;
    if Deletes(d, user, scope, key, l) {
      var e := LogEntry(d, user, scope, key, l, origin, originSeq, originHash);
      AppendRefines(d.file, d.history, e, l.now);
      AppendKeepsAllTombstones(d.file, e, l.now);
      AppendKeepsOwner(d.history, e, l.now, d.id);
    } else {
      KeptByItself(d.file);
    }
  }

  lemma KeptByItself(f: seq<Entry>)
    ensures TombstonesKept(f, f)
  {
  }

  lemma KnownPersists(d: Device, d': Device, t: TombBody)
    requires Grows(d, d') && Known(d, t)
    ensures Known(d', t)
  {
  }

  /** The tombstones of a batch name an origin. */
  predicate NamesOrigins(ts: seq<Tombstone>) {
    forall i :: 0 <= i < |ts| ==> ts[i].body.origin != ""
  }

  /** Applying a batch keeps the device well formed, only ever grows its log and its applied table and
      shrinks its memory, and leaves every tombstone of the batch known. */
  lemma {:induction false} ApplyKeeps(d: Device, ts: seq<Tombstone>, tape: nat -> Local, n: nat)
    requires DeviceOk(d) && n <= |ts| && NamesOrigins(ts)
    ensures DeviceOk(ApplyUpTo(d, ts, tape, n)) && Grows(d, ApplyUpTo(d, ts, tape, n))
    ensures forall i :: 0 <= i < n ==> Known(ApplyUpTo(d, ts, tape, n), ts[i].body)
  {
    hide DeviceOk, TombstonesKept, Known, ApplyNext;
    if n == 0 {
      KeptByItself(d.file);
    } else {
      ApplyKeeps(d, ts, tape, n - 1);
      var c := ApplyUpTo(d, ts, tape, n - 1);
      var d' := ApplyUpTo(d, ts, tape, n);
      var t := ts[n - 1].body;
      assert t.origin != "";
      NextKeeps(c, t, tape(n - 1));
      KeptTransitively(d.file, c.file, d'.file);
      forall i | 0 <= i < n ensures Known(d', ts[i].body) {
        if i < n - 1 {
          assert Known(c, ts[i].body);
          KnownPersists(c, d', ts[i].body);
        }
      }
    }
  }

  lemma KeptTransitively(f: seq<Entry>, g: seq<Entry>, h: seq<Entry>)
    requires TombstonesKept(f, g) && TombstonesKept(g, h)
    ensures TombstonesKept(f, h)
  {
  }

  lemma NextKeeps(c: Device, t: TombBody, l: Local)
    requires DeviceOk(c) && t.origin != ""
    ensures DeviceOk(ApplyNext(c, t, l)) && Grows(c, ApplyNext(c, t, l)) && Known(ApplyNext(c, t, l), t)
  {
    hide ScanAt;
    if !Known(c, t) {
      DeleteKeeps(c, t.user, t.scope, t.scopeKey, l, t.origin, t.originSeq, t.originHash);
      hide Delete, Refines;
    }
  }

  /** A tombstone whose identity is on record, or came earlier in the batch, is known by its turn. */
  lemma SeenIsKnown(d: Device, ts: seq<Tombstone>, tape: nat -> Local, i: nat)
    requires DeviceOk(d) && i < |ts| && NamesOrigins(ts)
    requires KeyOf(ts[i].body) in d.applied || exists j :: 0 <= j < i && KeyOf(ts[j].body) == KeyOf(ts[i].body)
    ensures Known(ApplyUpTo(d, ts, tape, i), ts[i].body)
  {
    hide DeviceOk, ScanHasTombstone;
    ApplyKeeps(d, ts, tape, i);
  }

  /** The number of tombstones an application records. */
  function RecordedCount(d: Device, ts: seq<Tombstone>, tape: nat -> Local, n: nat): nat
    requires n <= |ts|
  {
    if n == 0 then 0
    else RecordedCount(d, ts, tape, n - 1) + (if Known(ApplyUpTo(d, ts, tape, n - 1), ts[n - 1].body) then 0 else 1)
  }

  /** The number of tombstones among them that deleted nothing: the scope no longer exists here, or the publisher
      refused. */
  function NoopCount(d: Device, ts: seq<Tombstone>, tape: nat -> Local, n: nat): nat
    requires n <= |ts|
  {
    if n == 0 then 0
    else
      NoopCount(d, ts, tape, n - 1)
      + (if IsNoop(ApplyUpTo(d, ts, tape, n - 1), ts[n - 1].body, tape(n - 1)) then 1 else 0)
  }

  predicate IsNoop(d: Device, t: TombBody, l: Local) {
    !Known(d, t) && !Deletes(d, t.user, t.scope, t.scopeKey, l)
  }

  /** The counts add up: every tombstone recorded is a new row of the applied table, and every one of them that is no
      no-op is a new entry of the log. */
  lemma {:induction false} CountsAddUp(d: Device, ts: seq<Tombstone>, tape: nat -> Local, n: nat)
    requires n <= |ts|
    ensures var d' := ApplyUpTo(d, ts, tape, n);
            && |d'.applied| == |d.applied| + RecordedCount(d, ts, tape, n)
            && |d'.history| + NoopCount(d, ts, tape, n) == |d.history| + RecordedCount(d, ts, tape, n)
  {
    hide Delete, Deletes, Known, ApplyUpTo, RecordedCount, NoopCount, IsNoop;
    NothingApplied(d, ts, tape);
    if n > 0 {
      CountsAddUp(d, ts, tape, n - 1);
      OneMoreApplied(d, ts, tape, n - 1);
      NoopIsNotCarriedOut(ApplyUpTo(d, ts, tape, n - 1), ts[n - 1].body, tape(n - 1));
      var c, t := ApplyUpTo(d, ts, tape, n - 1), ts[n - 1].body;
      DeleteIsExact(c, t.user, t.scope, t.scopeKey, tape(n - 1), t.origin, t.originSeq, t.originHash);
      if !Known(c, t) {
        UnknownIsNew(c, t);
        var a := c.applied[KeyOf(t) := MarkOf(t)];
        assert a.Keys == c.applied.Keys + {KeyOf(t)};
        assert |a.Keys| == |c.applied.Keys| + 1;
      }
    }
  }

  lemma NoopIsNotCarriedOut(d: Device, t: TombBody, l: Local)
    ensures IsNoop(d, t, l) <==> !Known(d, t) && !Deletes(d, t.user, t.scope, t.scopeKey, l)
  {
    hide Known, Deletes;
  }

  lemma UnknownIsNew(d: Device, t: TombBody)
    requires !Known(d, t)
    ensures KeyOf(t) !in d.applied
  {
  }

  /** One more deletion in the log: it chains behind the last one, a lookup finds it, and nothing the log held
      is missing. */
  ghost predicate LogGrew(d: Device, d': Device, e: Entry) {
    var n := |d.history|;
    && DeviceOk(d') && Grows(d, d') && |d'.history| == n + 1
    && d'.history[n].what == e.what && d'.history[n].pos == n
    && d'.history[n].createdAt.Some? && (e.createdAt.Some? ==> d'.history[n].createdAt == e.createdAt)
    && (n > 0 ==> d'.history[n].prevHash == d.history[n - 1].hash) && d'.history[n].hash == ComputeHash(d'.history[n])
    && ScanHasTombstone(d'.file, n, d'.history[n].hash)
  }

  lemma AppendGrowsLog(d: Device, e: Entry, now: int)
    requires DeviceOk(d) && IsDeletion(e) && e.dbId == d.id
    ensures LogGrew(d, d.(file := AppendLines(d.file, e, now), history := AppendLines(d.history, e, now)), e)
  {
    hide ScanHasTombstone, TombstonesKept, OwnsAll;
    var d' := d.(file := AppendLines(d.file, e, now), history := AppendLines(d.history, e, now));
    AppendRefines(d.file, d.history, e, now);
    AppendKeepsAllTombstones(d.file, e, now);
    AppendKeepsOwner(d.history, e, now, d.id);
    ShapeScans(d.history, 0);
    HistoryHead(d.history);
    var n := |d.history|;
    LookupsRefine(d'.file, d'.history, n, d'.history[n].hash);
    LastIsFound(d'.history);
  }

  lemma LastIsFound(h: seq<Entry>)
    requires |h| > 0 && h[|h| - 1].pos == |h| - 1
    ensures ScanHasTombstone(h, |h| - 1, h[|h| - 1].hash)
  {
  }

  // ---------------------------------------------------------------------------------------------
  // The engine object
  // ---------------------------------------------------------------------------------------------

  datatype ApplyResult = ApplyResult(applied: nat, skipped: nat, noop: nat, rescan: bool)

  datatype Row = Row(key: Key, mark: Mark)

  function Recorded(applied: map<Key, Mark>, rows: seq<Row>): map<Key, Mark> {
    if |rows| == 0 then applied
    else Recorded(applied, rows[..|rows| - 1])[rows[|rows| - 1].key := rows[|rows| - 1].mark]
  }

  /** The local database fails before the batch is through. */
  predicate FailsWithin(failAt: Option<nat>, b: Batch) {
    failAt.Some? && failAt.value < |b.entries|
  }

  lemma OneMoreRow(applied: map<Key, Mark>, rows: seq<Row>, r: Row)
    ensures Recorded(applied, rows + [r]) == Recorded(applied, rows)[r.key := r.mark]
  {
    assert (rows + [r])[..|rows + [r]| - 1] == rows;
  }

  lemma NothingApplied(d: Device, ts: seq<Tombstone>, tape: nat -> Local)
    ensures ApplyUpTo(d, ts, tape, 0) == d && RecordedCount(d, ts, tape, 0) == 0 && NoopCount(d, ts, tape, 0) == 0
    ensures forall a :: Recorded(a, []) == a
  {
  }

  lemma OneMoreApplied(d: Device, ts: seq<Tombstone>, tape: nat -> Local, i: nat)
    requires i < |ts|
    ensures var c, t, l := ApplyUpTo(d, ts, tape, i), ts[i].body, tape(i);
            && ApplyUpTo(d, ts, tape, i + 1) == (if Known(c, t) then c else ApplyOne(c, t, l))
            && RecordedCount(d, ts, tape, i + 1) == RecordedCount(d, ts, tape, i) + (if Known(c, t) then 0 else 1)
            && NoopCount(d, ts, tape, i + 1) == NoopCount(d, ts, tape, i) + (if IsNoop(c, t, l) then 1 else 0)
  {
  }

  class Engine {
    const id: string
    const tenant: string
    const app: string
    const singleTenant: bool
    var file: seq<Entry>
    ghost var history: seq<Entry>
    var beliefs: set<(string, string)>
    var sessions: set<(string, string)>
    var applied: map<Key, Mark>
    var peers: map<string, Anchor>
    /** Users the tenant has a preference, grant or user row for. */
    var known: set<string>

    /** A new device: an empty memory and a log that holds its genesis. */
    constructor (id: string, tenant: string, app: string, singleTenant: bool, now: int)
      ensures this.id == id && this.tenant == tenant && this.app == app && this.singleTenant == singleTenant
      ensures State() == Device(id, tenant, app, [GenesisOf(id, now)], [GenesisOf(id, now)], {}, {}, map[], map[])
      ensures known == {}
    {
      this.id, this.tenant, this.app, this.singleTenant := id, tenant, app, singleTenant;
      file, history := [GenesisOf(id, now)], [GenesisOf(id, now)];
      beliefs, sessions, applied, peers, known := {}, {}, map[], map[], {};
    }

    ghost function State(): Device
      reads this
    {
      Device(id, tenant, app, file, history, beliefs, sessions, applied, peers)
    }

    predicate TenantKnows(user: string)
      reads this
    {
      user in known || exists r :: r in beliefs && r.0 == user
    }

    /** Nothing in the batch keeps it from being applied. */
    predicate Takes(b: Batch)
      reads this
    {
      && Accepted(b, tenant, app)
      && (singleTenant || forall i :: 0 <= i < |b.entries| ==> TenantKnows(b.entries[i].body.user))
    }

    /** `_append_deletion_log`: the log is written at once, outside the transaction. */
    method AppendDeletionLog(e: Entry, now: int)
      modifies this`file, this`history
      ensures file == AppendLines(old(file), e, now) && history == AppendLines(old(history), e, now)
      ensures old(DeviceOk(State())) && IsDeletion(e) && e.dbId == id ==> LogGrew(old(State()), State(), e)
    {
      hide DeviceOk, LogGrew;
      if DeviceOk(State()) && IsDeletion(e) && e.dbId == id {
        AppendGrowsLog(State(), e, now);
      }
      file := AppendLines(file, e, now);
      history := AppendLines(history, e, now);
    }

    /** `_apply_one_tombstone`: the local deletion of the tombstone's scope; `found` is false for a no-op. */
    method ApplyOneTombstone(t: TombBody, l: Local) returns (found: bool)
      modifies this`file, this`history, this`beliefs, this`sessions
      ensures State() == Delete(old(State()), t.user, t.scope, t.scopeKey, l, t.origin, t.originSeq, t.originHash)
      ensures found == Deletes(old(State()), t.user, t.scope, t.scopeKey, l)
    {
      ghost var before := State();
      var e := Entry(id,
          Deletion(tenant, app, t.user, t.scope,
                   match t.scope case Belief => l.rowId case Session => t.scopeKey case _ => "",
                   l.fingerprints, l.generation, "sync",
                   match t.scope case Belief => t.scopeKey case Session => t.scopeKey case _ => ""),
          None, t.origin, t.originSeq, t.originHash, 0, NoHash, NoHash);
      match t.scope
      case User =>
        beliefs := set r | r in beliefs && r.0 != t.user;
        sessions := set r | r in sessions && r.0 != t.user;
        AppendDeletionLog(e, l.now);
        found := true;
      case Session =>
        found := (t.user, t.scopeKey) in sessions;
        if found {
          sessions := sessions - {(t.user, t.scopeKey)};
          AppendDeletionLog(e, l.now);
        }
      case Belief =>
        found := (t.user, t.scopeKey) in beliefs && !l.refused;
        if found {
          beliefs := beliefs - {(t.user, t.scopeKey)};
          AppendDeletionLog(e, l.now);
        }
      case _ =>
        found := false;
    }

    /** The loop of `apply_tombstones` over the first `upTo` entries.  `existing` was read before the
        loop; the applied rows are written after it. */
    method ApplyEntries(ts: seq<Tombstone>, tape: nat -> Local, upTo: nat, existing: set<Key>)
      returns (rows: seq<Row>, skipped: nat, noop: nat)
      requires upTo <= |ts| && NamesOrigins(ts) && DeviceOk(State())
      requires existing == set i | 0 <= i < |ts| && KeyOf(ts[i].body) in applied :: KeyOf(ts[i].body)
      modifies this`file, this`history, this`beliefs, this`sessions
      ensures State().(applied := Recorded(applied, rows)) == ApplyUpTo(old(State()), ts, tape, upTo)
      ensures |rows| + skipped == upTo
      ensures |rows| == RecordedCount(old(State()), ts, tape, upTo)
      ensures noop == NoopCount(old(State()), ts, tape, upTo)
    {
      hide DeviceOk, Delete, Deletes, ScanHasTombstone, NamesOrigins, ApplyUpTo, RecordedCount, NoopCount, Recorded;
      NothingApplied(State(), ts, tape);
      rows, skipped, noop := [], 0, 0;
      var seen: set<Key> := {};
      ghost var d0 := State();
      for i := 0 to upTo
        invariant State().(applied := Recorded(applied, rows)) == ApplyUpTo(d0, ts, tape, i)
        invariant applied == d0.applied
        invariant |rows| + skipped == i && |rows| == RecordedCount(d0, ts, tape, i)
        invariant noop == NoopCount(d0, ts, tape, i)
        invariant forall k :: k in seen ==> exists j :: 0 <= j < i && KeyOf(ts[j].body) == k
        invariant forall k :: k in Recorded(applied, rows) ==> k in applied || k in seen
      {
        var t := ts[i].body;
        var key := KeyOf(t);
        ghost var c := ApplyUpTo(d0, ts, tape, i);
        OneMoreApplied(d0, ts, tape, i);
        if key in existing || key in seen {
          SeenIsKnown(d0, ts, tape, i);
          skipped := skipped + 1;
          continue;
        }
        seen := seen + {key};
        if t.origin == id {
          var held := ScanHasTombstone(file, t.originSeq, t.originHash);
          if held {
            skipped := skipped + 1;
            continue;
          }
        }
        assert !Known(c, t);
        ghost var before := State();
        DeletesIgnoresApplied(before, c, t, tape(i));
        var found := ApplyOneTombstone(t, tape(i));
        DeleteIgnoresApplied(before, c.applied, t, tape(i));
        if !found {
          noop := noop + 1;
        }
        OneMoreRow(applied, rows, Row(key, MarkOf(t)));
        rows := rows + [Row(key, MarkOf(t))];
      }
    }

    /** A multi-tenant receiver only takes tombstones for users its tenant knows. */
    method AllUsersKnown(ts: seq<Tombstone>) returns (ok: bool)
      ensures ok <==> singleTenant || forall i :: 0 <= i < |ts| ==> TenantKnows(ts[i].body.user)
      ensures ok <==> || singleTenant
                      || forall i :: 0 <= i < |ts| ==>
                           || ts[i].body.user in known
                           || exists r :: r in beliefs && r.0 == ts[i].body.user
    {
      if !singleTenant {
        for i := 0 to |ts|
          invariant forall k :: 0 <= k < i ==> TenantKnows(ts[k].body.user)
        {
          if !TenantKnows(ts[i].body.user) {
            return false;
          }
        }
      }
      return true;
    }

    /** The transaction of `apply_tombstones`.  `failAt` is the entry whose local deletion raises, if any:
        the main database then returns to its state, the log does not. */
    method ApplyAccepted(b: Batch, tape: nat -> Local, failAt: Option<nat>) returns (r: Result<ApplyResult, Reason>)
      requires DeviceOk(State()) && NamesOrigins(b.entries)
      modifies this`file, this`history, this`beliefs, this`sessions, this`applied, this`peers
      ensures r.Ok? <==> !FailsWithin(failAt, b)
      ensures r.Ok? ==>
                && State() == Apply(old(State()), b, tape)
                && r.value.rescan == Rescans(old(State()), b)
                && r.value.applied + r.value.skipped == |b.entries|
                && r.value.applied == RecordedCount(old(State()), b.entries, tape, |b.entries|)
                && r.value.noop == NoopCount(old(State()), b.entries, tape, |b.entries|)
      ensures r.Err? ==>
                && r.error == ApplyFailed
                && var c := ApplyUpTo(old(State()), b.entries, tape, failAt.value);
                   State() == old(State()).(file := c.file, history := c.history)
    {
      hide DeviceOk, NamesOrigins, RecordedCount, NoopCount, Recorded, ApplyUpTo;
      var stored := if b.sender in peers then peers[b.sender] else Anchor(0, Genesis);
      var storedChain := if stored.chain == NoHash then Genesis else stored.chain;
      var rescan := b.from != stored.cursor || b.fromChain != storedChain;
      var ts := b.entries;
      var existing := set i | 0 <= i < |ts| && KeyOf(ts[i].body) in applied :: KeyOf(ts[i].body);
      var beliefs0, sessions0 := beliefs, sessions;
      if failAt.Some? && failAt.value < |ts| {
        var rows, skipped, noop := ApplyEntries(ts, tape, failAt.value, existing);
        beliefs, sessions := beliefs0, sessions0;
        return Err(ApplyFailed);
      }
      var rows, skipped, noop := ApplyEntries(ts, tape, |ts|, existing);
      applied := Recorded(applied, rows);
      peers := peers[b.sender := if rescan then Anchor(0, Genesis) else Anchor(b.to, b.toChain)];
      r := Ok(ApplyResult(|rows|, skipped, noop, rescan));
    }

    /** `apply_tombstones`: check the authenticated tenant, validate, check the users, then apply every entry and
        move the anchor in one transaction.  Any refusal before the transaction leaves everything as it was. */
    method ApplyTombstones(b: Batch, auth: Option<(string, string)>, tape: nat -> Local, failAt: Option<nat>)
      returns (r: Result<ApplyResult, Reason>)
      requires DeviceOk(State())
      modifies this`file, this`history, this`beliefs, this`sessions, this`applied, this`peers
      ensures r.Ok? <==> (auth.Some? ==> auth.value == (tenant, app)) && old(Takes(b)) && !FailsWithin(failAt, b)
      ensures r.Ok? ==>
                && State() == Apply(old(State()), b, tape)
                && r.value.rescan == Rescans(old(State()), b)
                && r.value.applied + r.value.skipped == |b.entries|
                && r.value.applied == RecordedCount(old(State()), b.entries, tape, |b.entries|)
                && r.value.noop == NoopCount(old(State()), b.entries, tape, |b.entries|)
      ensures r.Err? && r.error != ApplyFailed ==> State() == old(State())
      ensures auth.Some? && auth.value != (tenant, app) ==> r == Err(Tenant)
      ensures r == Err(UnknownUser) ==>
                && Accepted(b, tenant, app) && !singleTenant
                && exists i :: 0 <= i < |b.entries| && b.entries[i].body.user !in known
      ensures (auth.Some? ==> auth.value == (tenant, app)) && Accepted(b, tenant, app) && r.Err? ==>
                r.error == UnknownUser || r.error == ApplyFailed
      ensures r.Err? && r.error == ApplyFailed ==>
                && Accepted(b, tenant, app) && failAt.Some? && failAt.value < |b.entries|
                && var c := ApplyUpTo(old(State()), b.entries, tape, failAt.value);
                   State() == old(State()).(file := c.file, history := c.history)
    {
      hide DeviceOk, RecordedCount, NoopCount, Apply, Rescans, ApplyUpTo, TenantKnows;
      if auth.Some? && auth.value != (tenant, app) {
        return Err(Tenant);
      }
      var problem := ValidateBatch(b, tenant, app);
      if problem.Some? {
        return Err(problem.value);
      }
      var ok := AllUsersKnown(b.entries);
      if !ok {
        return Err(UnknownUser);
      }
      AcceptedNamesOrigins(b, tenant, app);
      r := ApplyAccepted(b, tape, failAt);
    }
  }

  lemma AcceptedNamesOrigins(b: Batch, tenant: string, app: string)
    requires Accepted(b, tenant, app)
    ensures NamesOrigins(b.entries)
  {
  }

  lemma DeletesIgnoresApplied(d: Device, d': Device, t: TombBody, l: Local)
    requires d'.beliefs == d.beliefs && d'.sessions == d.sessions
    ensures Deletes(d, t.user, t.scope, t.scopeKey, l) == Deletes(d', t.user, t.scope, t.scopeKey, l)
  {
  }

  /** The applied table plays no part in a local deletion. */
  lemma DeleteIgnoresApplied(d: Device, a: map<Key, Mark>, t: TombBody, l: Local)
    ensures Delete(d.(applied := a), t.user, t.scope, t.scopeKey, l, t.origin, t.originSeq, t.originHash)
         == Delete(d, t.user, t.scope, t.scopeKey, l, t.origin, t.originSeq, t.originHash).(applied := a)
  {
  }
}
