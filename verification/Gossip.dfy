/**
 * Gossip quiesces: redelivery is inert, a tombstone keeps its identity over every relay, and a device that
 * is never restored logs each identity at most once, whoever it pulls from.  The one exception, for both,
 * is a device's own tombstone that comes back after its entry was compacted away; the conditions here say
 * exactly when.
 */
module Gossip {
  import opened Basics
  import opened Chain
  import opened FileLog
  import opened Compaction
  import opened Tombstones
  import opened Device
  import opened Channel

  // ---------------------------------------------------------------------------------------------
  // Redelivery
  // ---------------------------------------------------------------------------------------------

  /** Everything of the device except where its channels stand. */
  predicate SameData(d: Device, d': Device) {
    d' == d.(peers := d'.peers)
  }

  predicate AllKnown(d: Device, b: Batch) {
    forall i :: 0 <= i < |b.entries| ==> Known(d, b.entries[i].body)
  }

  lemma {:induction false} KnownBatchIsInert(d: Device, ts: seq<Tombstone>, tape: nat -> Local, n: nat)
    requires n <= |ts| && forall i :: 0 <= i < n ==> Known(d, ts[i].body)
    ensures ApplyUpTo(d, ts, tape, n) == d
  {
    if n > 0 {
      KnownBatchIsInert(d, ts, tape, n - 1);
    }
  }

  lemma {:induction false} UnknownIsRecorded(d: Device, ts: seq<Tombstone>, tape: nat -> Local, n: nat)
    requires n <= |ts| && exists i :: 0 <= i < n && !Known(d, ts[i].body)
    ensures d.applied.Keys < ApplyUpTo(d, ts, tape, n).applied.Keys
    decreases n
  {
    if exists i :: 0 <= i < n - 1 && !Known(d, ts[i].body) {
      UnknownIsRecorded(d, ts, tape, n - 1);
      AppliedGrows(ApplyUpTo(d, ts, tape, n - 1), ts[n - 1].body, tape(n - 1));
    } else {
      KnownBatchIsInert(d, ts, tape, n - 1);
      assert KeyOf(ts[n - 1].body) !in d.applied;
      assert KeyOf(ts[n - 1].body) in ApplyUpTo(d, ts, tape, n).applied;
      AppliedGrows(d, ts[n - 1].body, tape(n - 1));
    }
  }

  lemma AppliedGrows(d: Device, t: TombBody, l: Local)
    ensures d.applied.Keys <= ApplyNext(d, t, l).applied.Keys
  {
  }

  /** Delivering a batch leaves data, applied records and log alone exactly when every tombstone in it is
      already known. */
  lemma InertIffKnown(d: Device, b: Batch, tape: nat -> Local)
    ensures SameData(d, Apply(d, b, tape)) <==> AllKnown(d, b)
  {
    if AllKnown(d, b) {
      KnownBatchIsInert(d, b.entries, tape, |b.entries|);
    } else {
      UnknownIsRecorded(d, b.entries, tape, |b.entries|);
    }
  }

  /** Things that can happen to a device between two deliveries, other than a restore. */
  datatype Event =
    | Remember(user: string, gid: string)
    | Summarise(user: string, session: string)
    | Forget(user: string, scope: Scope, key: string, local: Local)
    | Compact(before: int, now: int)
    | Deliver(batch: Batch, tape: nat -> Local)
    | Abort(batch: Batch, tape: nat -> Local, n: nat)

  predicate EventOk(e: Event) {
    && (e.Deliver? || e.Abort? ==> NamesOrigins(e.batch.entries))
    && (e.Abort? ==> e.n <= |e.batch.entries|)
  }

  function After(d: Device, e: Event): Device {
    match e
    case Remember(user, gid) => d.(beliefs := d.beliefs + {(user, gid)})
    case Summarise(user, session) => d.(sessions := d.sessions + {(user, session)})
    case Forget(user, scope, key, l) => LocalDelete(d, user, scope, key, l)
    case Compact(before, now) => d.(file := PruneLines(d.file, d.id, before, now).0)
    case Deliver(b, tape) => Apply(d, b, tape)
    case Abort(b, tape, n) =>
      if n <= |b.entries| then
        d.(file := ApplyUpTo(d, b.entries, tape, n).file, history := ApplyUpTo(d, b.entries, tape, n).history)
      else d
  }

  function AfterAll(d: Device, events: seq<Event>): Device {
    if |events| == 0 then d else After(AfterAll(d, events[..|events| - 1]), events[|events| - 1])
  }

  /** The applied table and the log, had it never been compacted, only grow. */
  predicate Remembers(d: Device, d': Device) {
    d'.id == d.id && d.applied.Keys <= d'.applied.Keys && d.history <= d'.history
  }

  lemma EventKeeps(d: Device, e: Event)
    requires DeviceOk(d) && EventOk(e)
    ensures DeviceOk(After(d, e)) && Remembers(d, After(d, e))
  {
    hide Refines, OwnsAll, Delete, ApplyUpTo, PruneLines, NamesOrigins, TombstonesKept, Known;
    match e
    case Remember(_, _) =>
    case Summarise(_, _) =>
    case Forget(user, scope, key, l) => DeleteKeeps(d, user, scope, key, l, "", 0, NoHash);
    case Compact(before, now) => PruneRefines(d.file, d.history, d.id, before, now);
    case Deliver(b, tape) => ApplyKeeps(d, b.entries, tape, |b.entries|);
    case Abort(b, tape, n) => ApplyKeeps(d, b.entries, tape, n);
  }

  lemma {:induction false} EventsKeep(d: Device, events: seq<Event>)
    requires DeviceOk(d) && forall i :: 0 <= i < |events| ==> EventOk(events[i])
    ensures DeviceOk(AfterAll(d, events)) && Remembers(d, AfterAll(d, events))
  {
    hide DeviceOk, After;
    if |events| > 0 {
      EventsKeep(d, events[..|events| - 1]);
      EventKeeps(AfterAll(d, events[..|events| - 1]), events[|events| - 1]);
    }
  }

  /** The tombstone names a position that the log was compacted past, and not the hash the checkpoint carries. */
  predicate PrunedAway(d: Device, t: TombBody)
    requires LogShape(d.file)
  {
    var c := CheckpointOf(d.file);
    0 < t.originSeq < c || (0 < t.originSeq == c && t.originHash != d.file[1].hash)
  }

  /** The device's own tombstone, not on record as applied, whose entry was compacted away. */
  predicate Forgot(d: Device, t: TombBody)
    requires LogShape(d.file)
  {
    t.origin == d.id && KeyOf(t) !in d.applied && PrunedAway(d, t)
  }

  lemma OkHasShape(d: Device)
    requires DeviceOk(d)
    ensures LogShape(d.file)
  {
  }

  /** A position the log once held is still found unless it was compacted away. */
  lemma HeldIsFoundIff(d: Device, t: TombBody)
    requires DeviceOk(d) && Held(d.history, KeyOf(t)) && t.originHash != NoHash
    ensures ScanHasTombstone(d.file, t.originSeq, t.originHash) <==> !PrunedAway(d, t)
  {
    var n := t.originSeq;
    LookupsRefine(d.file, d.history, n, t.originHash);
    ShapeScans(d.history, n);
    ShapeFacts(d.history);
    ShapeFacts(d.file);
  }

  /** A tombstone known once is known later exactly when the device has not forgotten it. */
  lemma KnownLaterIff(d: Device, d': Device, t: TombBody)
    requires DeviceOk(d) && DeviceOk(d') && Remembers(d, d') && Known(d, t) && t.originHash != NoHash
    ensures LogShape(d'.file) && (Known(d', t) <==> !Forgot(d', t))
  {
    hide DeviceOk, ScanHasTombstone, PrunedAway, LogShape;
    KnownIsHad(d, t);
    OkHasShape(d');
    if KeyOf(t) !in d.applied {
      assert Held(d.history, KeyOf(t)) && Held(d'.history, KeyOf(t));
      HeldIsFoundIff(d', t);
    }
  }

  predicate HasHashes(b: Batch) {
    forall i :: 0 <= i < |b.entries| ==> b.entries[i].body.originHash != NoHash
  }

  /** Redelivery: once a batch has been applied, delivering it again, after any deletions, insertions,
      compactions, aborted applications and deliveries of other batches, changes nothing but the channel's
      anchor, exactly when none of its tombstones is one the device has forgotten by compaction. */
  lemma RedeliveryIsInertIff(d: Device, b: Batch, tape: nat -> Local, events: seq<Event>, tape': nat -> Local)
    requires DeviceOk(d) && NamesOrigins(b.entries) && HasHashes(b)
    requires forall i :: 0 <= i < |events| ==> EventOk(events[i])
    ensures var between := AfterAll(Apply(d, b, tape), events);
            && LogShape(between.file)
            && (SameData(between, Apply(between, b, tape')) <==>
                  forall i :: 0 <= i < |b.entries| ==> !Forgot(between, b.entries[i].body))
  {
    hide DeviceOk, AfterAll, ApplyUpTo, Known, Forgot, SameData, LogShape;
    var c := ApplyUpTo(d, b.entries, tape, |b.entries|);
    var once := Apply(d, b, tape);
    ApplyKeeps(d, b.entries, tape, |b.entries|);
    PeersDoNotMatter(c, once);
    EventsKeep(once, events);
    var between := AfterAll(once, events);
    OkHasShape(between);
    forall i | 0 <= i < |b.entries| ensures Known(between, b.entries[i].body) <==> !Forgot(between, b.entries[i].body) {
      KnownDespitePeers(c, once, b.entries[i].body);
      KnownLaterIff(once, between, b.entries[i].body);
    }
    InertIffKnown(between, b, tape');
  }

  lemma PeersDoNotMatter(d: Device, d': Device)
    requires DeviceOk(d) && d' == d.(peers := d'.peers)
    ensures DeviceOk(d')
  {
  }

  lemma KnownDespitePeers(d: Device, d': Device, t: TombBody)
    requires Known(d, t) && d' == d.(peers := d'.peers)
    ensures Known(d', t)
  {
  }

  // ---------------------------------------------------------------------------------------------
  // Relays
  // ---------------------------------------------------------------------------------------------

  /** A tombstone that can travel and names where it came from. */
  predicate Relayable(t: TombBody) {
    && t.origin != "" && t.originHash != NoHash
    && (t.scope.Belief? || t.scope.Session? || t.scope.User?)
    && (t.scope.Belief? ==> IsHex32(t.scopeKey))
    && (t.scope.User? ==> t.scopeKey == "")
  }

  /** What device `d` exports after logging the application of `t`. */
  function Relayed(d: Device, t: TombBody, l: Local): TombBody {
    var e := LogEntry(d, t.user, t.scope, t.scopeKey, l, t.origin, t.originSeq, t.originHash);
    BodyOf(Sealed(ScanTail(d.file), e, l.now))
  }

  /** What the last of a chain of relays exports. */
  function AfterHops(t: TombBody, hops: seq<(Device, Local)>): TombBody {
    if |hops| == 0 then t
    else Relayed(hops[|hops| - 1].0, AfterHops(t, hops[..|hops| - 1]), hops[|hops| - 1].1)
  }

  /** Over any number of relays a tombstone keeps its origin, origin position and origin hash, and still
      names the same deletion. */
  lemma {:induction false} RelaysKeepIdentity(t: TombBody, hops: seq<(Device, Local)>)
    requires Relayable(t)
    ensures var r := AfterHops(t, hops);
            && Relayable(r) && KeyOf(r) == KeyOf(t)
            && r.user == t.user && r.scope == t.scope && r.scopeKey == t.scopeKey
  {
    if |hops| > 0 {
      RelaysKeepIdentity(t, hops[..|hops| - 1]);
    }
  }

  // ---------------------------------------------------------------------------------------------
  // Each identity is logged at most once
  // ---------------------------------------------------------------------------------------------

  /** No identity is in the log twice. */
  predicate AllDistinct(h: seq<Entry>) {
    forall m, n :: 1 <= m < n < |h| ==> EntryKey(h[m]) != EntryKey(h[n])
  }

  /** The identities of the log are distinct, and every relayed one is recorded as applied. */
  predicate LoggedOnce(d: Device) {
    && AllDistinct(d.history)
    && (forall n :: 1 <= n < |d.history| && d.history[n].origin != "" ==> EntryKey(d.history[n]) in d.applied)
  }

  /** The tombstone is the device's own, its entry was compacted away, it is not on record as applied, and it
      is carried out. */
  predicate Relogs(d: Device, t: TombBody, l: Local)
    requires LogShape(d.file)
  {
    && Forgot(d, t) && Deletes(d, t.user, t.scope, t.scopeKey, l)
    && t.originSeq < |d.history| && d.history[t.originSeq].origin == "" && EntryKey(d.history[t.originSeq]) == KeyOf(t)
  }

  /** An entry's relay hash is part of what its own hash, and every later one, is computed over. */
  lemma OriginHashIsOlder(h: seq<Entry>, id: string, m: int, n: int)
    requires LogShape(h) && Verified(h) && CheckpointOf(h) == 0 && OwnsAll(h, id)
    requires 1 <= m < n < |h| && HeadPos(h) == |h| - 1
    ensures h[m].originHash != h[n].hash
  {
    EntryFacts(h, id, m);
    HashesGrow(h, m, n);
    assert At(h, m) == h[m] && At(h, n) == h[n];
    assert PayloadOf(h[m]).originHash == h[m].originHash;
    assert h[m].originHash < h[m].hash;
  }

  /** The new last entry of a history and what it says. */
  lemma LoggedEntry(d: Device, user: string, scope: Scope, key: string, l: Local,
                    origin: string, originSeq: int, originHash: Hash)
    requires DeviceOk(d) && (origin == "" ==> originSeq == 0) && Deletes(d, user, scope, key, l)
    ensures var d' := Delete(d, user, scope, key, l, origin, originSeq, originHash);
            var n := |d.history|;
            && |d'.history| == n + 1 && d'.history[..n] == d.history
            && d'.history[n].origin == origin && d'.history[n].originHash == originHash
            && d'.history[n].dbId == d.id
            && EntryKey(d'.history[n]) == Key(if origin == "" then d.id else origin,
                                              if origin == "" then n else originSeq,
                                              if originHash == NoHash then d'.history[n].hash else originHash)
  {
    ShapeScans(d.history, 0);
    HistoryHead(d.history);
  }

  lemma NothingDeleted(d: Device, user: string, scope: Scope, key: string, l: Local)
    requires !Deletes(d, user, scope, key, l)
    ensures LocalDelete(d, user, scope, key, l) == d
  {
  }

  lemma OkHistory(d: Device)
    requires DeviceOk(d)
    ensures LogShape(d.history) && Verified(d.history) && CheckpointOf(d.history) == 0 && OwnsAll(d.history, d.id)
    ensures HeadPos(d.history) == |d.history| - 1
  {
  }

  /** A deletion that happened here has an identity no earlier entry has. */
  lemma LocalIsNew(h: seq<Entry>, id: string, m: int, n: int)
    requires LogShape(h) && Verified(h) && CheckpointOf(h) == 0 && OwnsAll(h, id)
    requires 1 <= m < n < |h| && HeadPos(h) == |h| - 1 && h[n].origin == "" && h[n].originHash == NoHash
    ensures EntryKey(h[m]) != EntryKey(h[n])
  {
    OriginHashIsOlder(h, id, m, n);
    EntryFacts(h, id, m);
    EntryFacts(h, id, n);
    HashesGrow(h, m, n);
    assert At(h, m) == h[m] && At(h, n) == h[n];
  }

  /** A local deletion logs a new identity. */
  lemma ForgetLogsOnce(d: Device, user: string, scope: Scope, key: string, l: Local)
    requires DeviceOk(d) && LoggedOnce(d)
    ensures LoggedOnce(LocalDelete(d, user, scope, key, l))
  {
    hide DeviceOk, Refines, Verified, LogShape, Delete, EntryKey, Deletes;
    if !Deletes(d, user, scope, key, l) {
      NothingDeleted(d, user, scope, key, l);
    } else {
      LoggedEntry(d, user, scope, key, l, "", 0, NoHash);
      DeleteKeeps(d, user, scope, key, l, "", 0, NoHash);
      var d' := LocalDelete(d, user, scope, key, l);
      var h := d'.history;
      var n := |d.history|;
      OkHistory(d');
      forall m | 1 <= m < n ensures EntryKey(h[m]) != EntryKey(h[n]) {
        LocalIsNew(h, d.id, m, n);
      }
      forall m, k | 1 <= m < k < |h| ensures EntryKey(h[m]) != EntryKey(h[k]) {
        if k < n {
          assert h[m] == d.history[m] && h[k] == d.history[k];
        }
      }
    }
  }

  /** A tombstone the device does not know, whose identity its log already has, is one it relogs. */
  lemma UnknownButLogged(d: Device, t: TombBody, m: int)
    requires DeviceOk(d) && LoggedOnce(d) && !Known(d, t) && t.originHash != NoHash
    requires 1 <= m < |d.history| && EntryKey(d.history[m]) == KeyOf(t)
    ensures LogShape(d.file) && Forgot(d, t) && m == t.originSeq && d.history[m].origin == ""
  {
    OkHasShape(d);
    EntryFacts(d.history, d.id, m);
    assert d.history[m].dbId == d.id;
    HeldIsFoundIff(d, t);
  }

  /** Applying a tombstone logs an identity the log already has exactly when the device relogs it; otherwise every
      identity is still logged once. */
  lemma ApplyNextLogsOnceIff(d: Device, t: TombBody, l: Local)
    requires DeviceOk(d) && LoggedOnce(d) && t.origin != "" && t.originHash != NoHash
    ensures LogShape(d.file)
    ensures Relogs(d, t, l) ==> !AllDistinct(ApplyNext(d, t, l).history)
    ensures !Relogs(d, t, l) ==> LoggedOnce(ApplyNext(d, t, l))
  {
    hide DeviceOk, Delete, EntryKey, Known, Forgot, LogShape;
    OkHasShape(d);
    if Known(d, t) {
      KnownIsNotForgotten(d, t);
    } else if Deletes(d, t.user, t.scope, t.scopeKey, l) {
      LoggedEntry(d, t.user, t.scope, t.scopeKey, l, t.origin, t.originSeq, t.originHash);
      var h := ApplyOne(d, t, l).history;
      var n := |d.history|;
      LoggedUnder(d, t, l);
      if Relogs(d, t, l) {
        ForgotIsInside(d, t);
        assert h[t.originSeq] == d.history[t.originSeq];
      } else {
        forall m | 1 <= m < n ensures EntryKey(h[m]) != KeyOf(t) {
          assert h[m] == d.history[m];
          if EntryKey(h[m]) == KeyOf(t) {
            UnknownButLogged(d, t, m);
          }
        }
        OneMoreIdentity(d, ApplyOne(d, t, l), KeyOf(t));
      }
    } else {
      assert ApplyNext(d, t, l).history == d.history by { MissLogsNothing(d, t, l); }
    }
  }

  lemma KnownIsNotForgotten(d: Device, t: TombBody)
    requires DeviceOk(d) && Known(d, t) && t.originHash != NoHash
    ensures LogShape(d.file) && !Forgot(d, t)
  {
    OkHasShape(d);
    if KeyOf(t) !in d.applied {
      KnownIsHad(d, t);
      HeldIsFoundIff(d, t);
    }
  }

  lemma ForgotIsInside(d: Device, t: TombBody)
    requires LogShape(d.file) && Forgot(d, t)
    ensures t.originSeq >= 1
  {
  }

  lemma MissLogsNothing(d: Device, t: TombBody, l: Local)
    requires !Deletes(d, t.user, t.scope, t.scopeKey, l)
    ensures ApplyNext(d, t, l).history == d.history && d.applied.Keys <= ApplyNext(d, t, l).applied.Keys
  {
  }

  /** The identity an application logs is the tombstone's. */
  lemma LoggedUnder(d: Device, t: TombBody, l: Local)
    requires DeviceOk(d) && t.origin != "" && t.originHash != NoHash && Deletes(d, t.user, t.scope, t.scopeKey, l)
    ensures var d' := ApplyOne(d, t, l);
            && |d'.history| == |d.history| + 1 && d'.history[..|d.history|] == d.history
            && EntryKey(d'.history[|d.history|]) == KeyOf(t)
            && d'.applied.Keys == d.applied.Keys + {KeyOf(t)}
  {
    LoggedEntry(d, t.user, t.scope, t.scopeKey, l, t.origin, t.originSeq, t.originHash);
    DeleteKeeps(d, t.user, t.scope, t.scopeKey, l, t.origin, t.originSeq, t.originHash);
  }

  lemma OneMoreIdentity(d: Device, d': Device, k: Key)
    requires LoggedOnce(d) && |d'.history| == |d.history| + 1 && d'.history[..|d.history|] == d.history
    requires EntryKey(d'.history[|d.history|]) == k && d'.applied.Keys == d.applied.Keys + {k}
    requires forall m :: 1 <= m < |d.history| ==> EntryKey(d'.history[m]) != k
    ensures LoggedOnce(d')
  {
    hide EntryKey;
    var h, n := d'.history, |d.history|;
    assert forall m :: 0 <= m < n ==> h[m] == d.history[m];
  }

  /** A batch whose entries are applied in order: one of them is relogged. */
  ghost predicate BatchRelogs(d: Device, ts: seq<Tombstone>, tape: nat -> Local, n: nat)
    requires n <= |ts|
  {
    exists i :: 0 <= i < n && RelogsAt(d, ts, tape, i)
  }

  predicate RelogsAt(d: Device, ts: seq<Tombstone>, tape: nat -> Local, i: nat)
    requires i < |ts|
  {
    var c := ApplyUpTo(d, ts, tape, i);
    LogShape(c.file) && Relogs(c, ts[i].body, tape(i))
  }

  lemma DistinctIsLost(h: seq<Entry>, h': seq<Entry>)
    requires h <= h' && AllDistinct(h')
    ensures AllDistinct(h)
  {
    hide EntryKey;
    assert forall m :: 0 <= m < |h| ==> h[m] == h'[m];
  }

  lemma {:induction false} BatchLogsOnceIff(d: Device, ts: seq<Tombstone>, tape: nat -> Local, n: nat)
    requires DeviceOk(d) && LoggedOnce(d) && n <= |ts| && NamesOrigins(ts)
    requires forall i :: 0 <= i < |ts| ==> ts[i].body.originHash != NoHash
    ensures BatchRelogs(d, ts, tape, n) ==> !AllDistinct(ApplyUpTo(d, ts, tape, n).history)
    ensures !BatchRelogs(d, ts, tape, n) ==> LoggedOnce(ApplyUpTo(d, ts, tape, n))
  {
    hide DeviceOk, LoggedOnce, AllDistinct, Relogs, ApplyNext, LogShape;
    if n > 0 {
      BatchLogsOnceIff(d, ts, tape, n - 1);
      ApplyKeeps(d, ts, tape, n - 1);
      ApplyKeeps(d, ts, tape, n);
      var c := ApplyUpTo(d, ts, tape, n - 1);
      if BatchRelogs(d, ts, tape, n - 1) {
        NextGrows(c, ts[n - 1].body, tape(n - 1));
        if AllDistinct(ApplyUpTo(d, ts, tape, n).history) {
          DistinctIsLost(c.history, ApplyUpTo(d, ts, tape, n).history);
        }
      } else {
        ApplyNextLogsOnceIff(c, ts[n - 1].body, tape(n - 1));
        if Relogs(c, ts[n - 1].body, tape(n - 1)) {
          assert RelogsAt(d, ts, tape, n - 1);
        }
      }
    }
  }

  lemma NextGrows(c: Device, t: TombBody, l: Local)
    requires DeviceOk(c) && t.origin != ""
    ensures c.history <= ApplyNext(c, t, l).history
  {
    NextKeeps(c, t, l);
  }

  /** At some delivery of the run the device relogs a tombstone. */
  ghost predicate RunRelogs(d: Device, events: seq<Event>) {
    exists k :: 0 <= k < |events| && RelogsDuring(d, events, k)
  }

  ghost predicate RelogsDuring(d: Device, events: seq<Event>, k: nat)
    requires k < |events|
  {
    events[k].Deliver?
    && BatchRelogs(AfterAll(d, events[..k]), events[k].batch.entries, events[k].tape, |events[k].batch.entries|)
  }

  /** Batches carry relay hashes, as every exported batch does. */
  predicate Hashed(e: Event) {
    e.Deliver? ==> HasHashes(e.batch)
  }

  /** One event of a run without aborts. */
  lemma EventLogsOnceIff(d: Device, e: Event)
    requires DeviceOk(d) && LoggedOnce(d) && EventOk(e) && Hashed(e) && !e.Abort?
    ensures var relogs := e.Deliver? && BatchRelogs(d, e.batch.entries, e.tape, |e.batch.entries|);
            && (relogs ==> !AllDistinct(After(d, e).history))
            && (!relogs ==> LoggedOnce(After(d, e)))
  {
    hide DeviceOk, AllDistinct, ApplyUpTo, BatchRelogs;
    match e
    case Forget(user, scope, key, l) => ForgetLogsOnce(d, user, scope, key, l);
    case Deliver(b, tape) => BatchLogsOnceIff(d, b.entries, tape, |b.entries|);
    case _ =>
  }

  /** In a run without restores and aborted applications, with deletions, insertions, compactions and deliveries in
      any order, the device logs each identity at most once exactly when it never relogs: no delivery brings
      it an own tombstone that it compacted away, has not on record, and carries out. */
  lemma {:induction false} EachIdentityIsLoggedOnceIff(d: Device, events: seq<Event>)
    requires DeviceOk(d) && LoggedOnce(d)
    requires forall i :: 0 <= i < |events| ==> EventOk(events[i]) && Hashed(events[i]) && !events[i].Abort?
    ensures RunRelogs(d, events) ==> !AllDistinct(AfterAll(d, events).history)
    ensures !RunRelogs(d, events) ==> LoggedOnce(AfterAll(d, events))
  {
    hide DeviceOk, LoggedOnce, AllDistinct, BatchRelogs, After, EventOk, Hashed;
    if |events| > 0 {
      var before := events[..|events| - 1];
      var e := events[|events| - 1];
      EachIdentityIsLoggedOnceIff(d, before);
      EventsKeep(d, before);
      var c := AfterAll(d, before);
      EventKeeps(c, e);
      assert forall k :: 0 <= k < |before| ==> before[k] == events[k] && before[..k] == events[..k];
      if RunRelogs(d, before) {
        var k :| 0 <= k < |before| && RelogsDuring(d, before, k);
        assert RelogsDuring(d, events, k);
        if AllDistinct(After(c, e).history) {
          DistinctIsLost(c.history, After(c, e).history);
        }
      } else {
        EventLogsOnceIff(c, e);
        if RunRelogs(d, events) {
          var k :| 0 <= k < |events| && RelogsDuring(d, events, k);
          assert k < |before| ==> RelogsDuring(d, before, k);
        }
        assert e.Deliver? && BatchRelogs(c, e.batch.entries, e.tape, |e.batch.entries|) ==>
                 RelogsDuring(d, events, |before|);
      }
    }
  }

  // ---------------------------------------------------------------------------------------------
  // Without compaction, never; with it, here is a run
  // ---------------------------------------------------------------------------------------------

  lemma DeleteKeepsCheckpoint(d: Device, user: string, scope: Scope, key: string, l: Local,
                              origin: string, originSeq: int, originHash: Hash)
    requires DeviceOk(d) && (origin == "" ==> originSeq == 0)
    ensures CheckpointOf(Delete(d, user, scope, key, l, origin, originSeq, originHash).file) == CheckpointOf(d.file)
  {
    if Deletes(d, user, scope, key, l) {
      AppendKeepsShape(d.file, LogEntry(d, user, scope, key, l, origin, originSeq, originHash), l.now);
    }
  }

  lemma {:induction false} BatchKeepsCheckpoint(d: Device, ts: seq<Tombstone>, tape: nat -> Local, n: nat)
    requires DeviceOk(d) && n <= |ts| && NamesOrigins(ts)
    ensures CheckpointOf(ApplyUpTo(d, ts, tape, n).file) == CheckpointOf(d.file)
  {
    hide DeviceOk, CheckpointOf, Delete;
    if n > 0 {
      BatchKeepsCheckpoint(d, ts, tape, n - 1);
      ApplyKeeps(d, ts, tape, n - 1);
      var c := ApplyUpTo(d, ts, tape, n - 1);
      var t := ts[n - 1].body;
      DeleteKeepsCheckpoint(c, t.user, t.scope, t.scopeKey, tape(n - 1), t.origin, t.originSeq, t.originHash);
    }
  }

  lemma {:induction false} RunKeepsCheckpoint(d: Device, events: seq<Event>)
    requires DeviceOk(d) && forall i :: 0 <= i < |events| ==> EventOk(events[i]) && !events[i].Compact?
    ensures CheckpointOf(AfterAll(d, events).file) == CheckpointOf(d.file)
  {
    hide DeviceOk, CheckpointOf, Delete, ApplyUpTo;
    if |events| > 0 {
      var before := events[..|events| - 1];
      RunKeepsCheckpoint(d, before);
      EventsKeep(d, before);
      var c := AfterAll(d, before);
      match events[|events| - 1]
      case Forget(user, scope, key, l) => DeleteKeepsCheckpoint(c, user, scope, key, l, "", 0, NoHash);
      case Deliver(b, tape) => BatchKeepsCheckpoint(c, b.entries, tape, |b.entries|);
      case Abort(b, tape, n) => BatchKeepsCheckpoint(c, b.entries, tape, n);
      case _ =>
    }
  }

  /** A device that never compacts logs each identity at most once, whatever batches it is sent and however
      often. */
  lemma EachIdentityIsLoggedOnce(d: Device, events: seq<Event>)
    requires DeviceOk(d) && LoggedOnce(d) && CheckpointOf(d.file) == 0
    requires forall i :: 0 <= i < |events| ==>
               EventOk(events[i]) && Hashed(events[i]) && !events[i].Abort? && !events[i].Compact?
    ensures LoggedOnce(AfterAll(d, events))
  {
    hide DeviceOk, LoggedOnce, AfterAll, Hashed, CheckpointOf;
    EachIdentityIsLoggedOnceIff(d, events);
    forall k | 0 <= k < |events| ensures !RelogsDuring(d, events, k) {
      var before := events[..k];
      EventsKeep(d, before);
      RunKeepsCheckpoint(d, before);
      if events[k].Deliver? {
        NothingToRelog(AfterAll(d, before), events[k].batch.entries, events[k].tape);
      }
    }
  }

  lemma NothingToRelog(d: Device, ts: seq<Tombstone>, tape: nat -> Local)
    requires DeviceOk(d) && CheckpointOf(d.file) == 0 && NamesOrigins(ts)
    ensures !BatchRelogs(d, ts, tape, |ts|)
  {
    hide DeviceOk, ApplyUpTo, CheckpointOf, LogShape;
    forall i | 0 <= i < |ts| ensures !RelogsAt(d, ts, tape, i) {
      BatchKeepsCheckpoint(d, ts, tape, i);
    }
  }

  /** The first deletion of a fresh device. */
  lemma FirstForget(d: Device, u: string, l: Local)
    requires DeviceOk(d) && |d.history| == 1 && d.applied == map[]
    ensures var d1 := LocalDelete(d, u, User, "", l);
            && DeviceOk(d1) && d1.id == d.id != "" && d1.applied == map[] && LoggedOnce(d)
            && |d1.history| == 2 && d1.history[1].origin == "" && d1.history[1].hash != NoHash
            && EntryKey(d1.history[1]) == Key(d.id, 1, d1.history[1].hash) && d1.history[1].what.scope.User?
            && CheckpointOf(d1.file) == 0
  {
    hide Delete, AppendLines;
    LoggedEntry(d, u, User, "", l, "", 0, NoHash);
    DeleteKeeps(d, u, User, "", l, "", 0, NoHash);
    DeleteKeepsCheckpoint(d, u, User, "", l, "", 0, NoHash);
    RefinesBasics(d.file, d.history);
    var d1 := LocalDelete(d, u, User, "", l);
    EntryFacts(d1.history, d.id, 1);
    UserEntry(d, u, l);
  }

  lemma UserEntry(d: Device, u: string, l: Local)
    requires |LocalDelete(d, u, User, "", l).history| == |d.history| + 1
    ensures LocalDelete(d, u, User, "", l).history[|d.history|].what.scope.User?
  {
  }

  lemma HeldIsKnown(d: Device, t: TombBody)
    requires DeviceOk(d) && CheckpointOf(d.file) == 0 && t.origin == d.id && t.originHash != NoHash
    requires Held(d.history, KeyOf(t))
    ensures Known(d, t)
  {
    OkHasShape(d);
    HeldIsFoundIff(d, t);
  }

  /** A second deletion, and a compaction through it. */
  lemma SecondForget(d: Device, v: string, l: Local, now: int)
    requires DeviceOk(d) && |d.history| == 2 && CheckpointOf(d.file) == 0
    ensures var d' := After(LocalDelete(d, v, User, "", l), Compact(2, now));
            && DeviceOk(d') && d'.id == d.id && d'.applied == d.applied
            && |d'.history| == 3 && d'.history[1] == d.history[1] && CheckpointOf(d'.file) == 2
  {
    hide Delete, AppendLines;
    LoggedEntry(d, v, User, "", l, "", 0, NoHash);
    DeleteKeeps(d, v, User, "", l, "", 0, NoHash);
    DeleteKeepsCheckpoint(d, v, User, "", l, "", 0, NoHash);
    var d1 := LocalDelete(d, v, User, "", l);
    assert d1.history[..2][1] == d1.history[1];
    hide LogShape, Verified;
    PruneRefines(d1.file, d1.history, d1.id, 2, now);
    RefinesBasics(d1.file, d1.history);
    OkHasShape(d1);
    PruneOfShape(d1.file, d1.id, 2, now);
  }

  lemma AfterOneMore(d: Device, events: seq<Event>, e: Event)
    ensures AfterAll(d, events + [e]) == After(AfterAll(d, events), e)
  {
    assert (events + [e])[..|events + [e]| - 1] == events;
  }

  lemma AfterFour(d: Device, a: Event, b: Event, c: Event, e: Event)
    ensures AfterAll(d, [a, b, c, e]) == After(After(After(After(d, a), b), c), e)
  {
    hide After;
    AfterOneMore(d, [], a);
    AfterOneMore(d, [a], b);
    AfterOneMore(d, [a, b], c);
    AfterOneMore(d, [a, b, c], e);
    assert [] + [a] == [a] && [a] + [b] == [a, b] && [a, b] + [c] == [a, b, c] && [a, b, c] + [e] == [a, b, c, e];
  }

  /** A run in which compaction makes a device forget: it deletes a user, its own tombstone comes back and changes
      nothing, it deletes another user and compacts, and the same batch is now carried out and logged a second
      time. */
  lemma ForgottenEchoRun(d: Device, u: string, v: string, l: Local, b: Batch, tape: nat -> Local, now: int)
    requires DeviceOk(d) && |d.history| == 1 && d.applied == map[]
    requires var h := LocalDelete(d, u, User, "", l).history;
             |h| == 2 && b.entries == [TombstoneOf(h[1])]
    ensures var d1 := LocalDelete(d, u, User, "", l);
            var events := [Forget(u, User, "", l), Deliver(b, tape), Forget(v, User, "", l), Compact(2, now),
                           Deliver(b, tape)];
            && (forall i :: 0 <= i < 5 ==> EventOk(events[i]) && Hashed(events[i]))
            && SameData(d1, Apply(d1, b, tape))
            && RunRelogs(d, events) && !AllDistinct(AfterAll(d, events).history)
  {
    hide DeviceOk, Delete, EntryKey, Apply, PruneLines, LogShape, AllDistinct, LoggedOnce, Known, CheckpointOf,
         BatchRelogs, RunRelogs, AfterAll;
    var d1 := LocalDelete(d, u, User, "", l);
    FirstForget(d, u, l);
    var t := BodyOf(d1.history[1]);
    HeldIsKnown(d1, t);
    InertIffKnown(d1, b, tape);
    var d2 := Apply(d1, b, tape);
    PeersDoNotMatter(d1, d2);
    SecondForget(d2, v, l, now);
    var d4 := After(LocalDelete(d2, v, User, "", l), Compact(2, now));
    var events := [Forget(u, User, "", l), Deliver(b, tape), Forget(v, User, "", l), Compact(2, now), Deliver(b, tape)];
    AfterFour(d, events[0], events[1], events[2], events[3]);
    assert events[..4] == [events[0], events[1], events[2], events[3]];
    OkHasShape(d4);
    assert Relogs(d4, t, tape(0));
    RelogsFirst(d4, b, tape);
    RelogsLast(d, events, 4);
    EachIdentityIsLoggedOnceIff(d, events);
  }

  lemma RelogsLast(d: Device, events: seq<Event>, k: nat)
    requires k < |events| && events[k].Deliver?
    requires var b := events[k].batch;
             BatchRelogs(AfterAll(d, events[..k]), b.entries, events[k].tape, |b.entries|)
    ensures RunRelogs(d, events)
  {
    hide BatchRelogs, AfterAll;
    assert RelogsDuring(d, events, k);
  }

  lemma RelogsFirst(d: Device, b: Batch, tape: nat -> Local)
    requires LogShape(d.file) && |b.entries| > 0 && Relogs(d, b.entries[0].body, tape(0))
    ensures BatchRelogs(d, b.entries, tape, |b.entries|)
  {
    hide Relogs;
    assert RelogsAt(d, b.entries, tape, 0);
  }
}
