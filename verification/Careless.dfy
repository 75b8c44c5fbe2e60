/**
 * The two careless steps and the refused forget, in runs that two fresh devices of one tenant can take: after
 * a careless step a receiver stands on the sender's chain above a deletion it has no record of; after a
 * refused forget it stores a belief that its own record says is deleted.
 */
module Careless {
  import opened Basics
  import opened Chain
  import opened FileLog
  import opened Compaction
  import opened Tombstones
  import opened Device
  import opened Channel
  import opened Mesh
  import Gossip

  // ---------------------------------------------------------------------------------------------
  // Building a run step by step
  // ---------------------------------------------------------------------------------------------

  ghost predicate Reaches(m0: Mesh, steps: seq<Step>, m: Mesh) {
    exists states :: IsRunOf(states, steps) && states[0] == m0 && states[|steps|] == m
  }

  lemma ReachStart(m: Mesh)
    requires Init(m)
    ensures Reaches(m, [], m)
  {
    hide Init;
    assert IsRunOf([m], []);
  }

  lemma ReachNext(m0: Mesh, steps: seq<Step>, m: Mesh, s: Step)
    requires Reaches(m0, steps, m) && Enabled(m, s)
    ensures Reaches(m0, steps + [s], Next(m, s))
  {
    hide Enabled, Next, Init;
    var states :| IsRunOf(states, steps) && states[0] == m0 && states[|steps|] == m;
    var states' := states + [Next(m, s)];
    var steps' := steps + [s];
    forall i | 0 <= i < |steps'|
      ensures Enabled(states'[i], steps'[i]) && states'[i + 1] == Next(states'[i], steps'[i])
    {
      assert i < |steps| ==> states'[i] == states[i] && states'[i + 1] == states[i + 1] && steps'[i] == steps[i];
    }
    assert IsRunOf(states', steps');
  }

  lemma ReachedIsCore(m0: Mesh, steps: seq<Step>, m: Mesh)
    requires Reaches(m0, steps, m)
    ensures Core(m)
  {
    hide Core, Enabled, Next, Init;
    var states :| IsRunOf(states, steps) && states[0] == m0 && states[|steps|] == m;
    RunHasCore(states, steps, |steps|);
  }

  lemma ReachedIsOk(m0: Mesh, steps: seq<Step>, m: Mesh, id: string)
    requires Reaches(m0, steps, m) && id in m.devices
    ensures DeviceOk(m.devices[id]) && m.devices[id].id == id && LogMinted(m.devices[id].history, m.minted)
  {
    hide DeviceOk, LogMinted, Reaches;
    ReachedIsCore(m0, steps, m);
    assert DeviceCore(m.devices[id], m.minted);
  }

  /** The mesh with device `id` replaced. */
  function With(m: Mesh, id: string, d: Device): Mesh {
    m.(devices := m.devices[id := d])
  }

  function DeleteUser(d: Device, u: string, l: Local): Device {
    LocalDelete(d, u, User, "", l)
  }

  lemma GoForget(m0: Mesh, steps: seq<Step>, m: Mesh, id: string, u: string, l: Local)
    requires Reaches(m0, steps, m) && id in m.devices
    ensures Reaches(m0, steps + [Forget(id, u, User, "", l)], With(m, id, DeleteUser(m.devices[id], u, l)))
  {
    hide Reaches, LocalDelete;
    ReachNext(m0, steps, m, Forget(id, u, User, "", l));
  }

  lemma GoCompact(m0: Mesh, steps: seq<Step>, m: Mesh, id: string, before: int, now: int)
    requires Reaches(m0, steps, m) && id in m.devices
    ensures var d := m.devices[id];
            Reaches(m0, steps + [Compact(id, before, now)],
                    With(m, id, d.(file := PruneLines(d.file, d.id, before, now).0)))
  {
    hide Reaches, PruneLines;
    ReachNext(m0, steps, m, Compact(id, before, now));
  }

  lemma GoSend(m0: Mesh, steps: seq<Step>, m: Mesh, id: string, since: int, n: nat)
    requires Reaches(m0, steps, m) && id in m.devices && m.devices[id].id == id && Served(m.devices[id].file, since, n)
    ensures var f := m.devices[id].file;
            Reaches(m0, steps + [Send(id, since, n)],
                    m.(flight := m.flight + {BatchOf(f, id, ServedFrom(f, since), n)}))
  {
    hide Reaches, BatchOf, ServedFrom, ReadFrom;
    ReachNext(m0, steps, m, Send(id, since, n));
    assert m.devices[id := m.devices[id]] == m.devices;
  }

  lemma GoDeliver(m0: Mesh, steps: seq<Step>, m: Mesh, id: string, b: Batch, tape: nat -> Local)
    requires Reaches(m0, steps, m) && id in m.devices && b in m.flight
    requires Accepted(b, m.devices[id].tenant, m.devices[id].app)
    ensures Reaches(m0, steps + [Deliver(id, b, tape)], With(m, id, Apply(m.devices[id], b, tape)))
  {
    hide Reaches, Accepted, Apply;
    ReachNext(m0, steps, m, Deliver(id, b, tape));
  }

  lemma GoBackup(m0: Mesh, steps: seq<Step>, m: Mesh, id: string)
    requires Reaches(m0, steps, m) && id in m.devices
    ensures Reaches(m0, steps + [Backup(id)], m.(backups := m.backups + {m.devices[id]}))
  {
    hide Reaches;
    ReachNext(m0, steps, m, Backup(id));
    assert m.devices[id := m.devices[id]] == m.devices;
  }

  /** The restore of `k` as it was, beside the log of device `d`. */
  function RestoreOf(k: Device, d: Device): Step {
    Restore(k.id, k, d.file, d.history, k.beliefs, k.sessions)
  }

  /** The positions that are compared at a start, the head of the backup's own log being its watermark. */
  predicate PositionsFit(k: Device, d: Device) {
    CheckpointOf(d.file) < |k.history| <= |d.history|
  }

  lemma GoRestore(m0: Mesh, steps: seq<Step>, m: Mesh, k: Device, d: Device)
    requires Reaches(m0, steps, m) && k.id in m.devices && k in m.backups
    requires DeviceOk(d) && d.id == k.id && LogMinted(d.history, m.minted)
    ensures Reaches(m0, steps + [RestoreOf(k, d)], With(m, k.id, k.(file := d.file, history := d.history)))
  {
    hide Reaches, LogMinted, Refines, OwnsAll;
    ReachNext(m0, steps, m, RestoreOf(k, d));
    assert k.(file := d.file, history := d.history)
        == k.(file := d.file, history := d.history, beliefs := k.beliefs, sessions := k.sessions);
  }

  // ---------------------------------------------------------------------------------------------
  // Deletions of users and beliefs, and their exports
  // ---------------------------------------------------------------------------------------------

  /** What a device deletes here: a user, or one belief by its global id. */
  predicate GoodScope(scope: Scope, key: string) {
    scope.User? || (scope.Belief? && IsHex32(key))
  }

  /** A deletion that another device of the tenant accepts. */
  predicate GoodEntry(e: Entry, tenant: string, app: string) {
    && GoodScope(e.what.scope, e.what.globalKey) && NotBlank(e.what.user)
    && e.what.tenant == tenant != "" && e.what.app == app != ""
    && e.what.generation >= 0 && e.createdAt.Some? && e.hash == ComputeHash(e)
    && IsHex32(EntryKey(e).origin) && EntryKey(e).seq_ >= 1
  }

  lemma GoodEntryTravels(e: Entry, tenant: string, app: string)
    requires GoodEntry(e, tenant, app)
    ensures Travels(e) && EntryOk(TombstoneOf(e), tenant, app)
  {
    hide EntryOk, NotBlank, IsHex32;
    ExportedEntryIsOk(e, tenant, app);
  }

  lemma OneIsAcceptable(h: seq<Entry>, id: string, tenant: string, app: string)
    requires IsHex32(id) && |h| == 2 && GoodEntry(h[1], tenant, app)
    ensures Acceptable(h, id, tenant, app) && Travels(h[1])
  {
    hide EntryOk, GoodEntry, IsHex32;
    GoodEntryTravels(h[1], tenant, app);
  }

  lemma TwoAreAcceptable(h: seq<Entry>, id: string, tenant: string, app: string)
    requires IsHex32(id) && |h| == 3 && GoodEntry(h[1], tenant, app) && GoodEntry(h[2], tenant, app)
    requires EntryKey(h[1]).hash != EntryKey(h[2]).hash
    ensures Acceptable(h, id, tenant, app)
  {
    hide EntryOk, IsHex32, NotBlank;
    GoodEntryTravels(h[1], tenant, app);
    GoodEntryTravels(h[2], tenant, app);
  }

  /** One more deletion, local or applied. */
  lemma OneMoreEntry(d: Device, u: string, scope: Scope, key: string, l: Local,
                     origin: string, originSeq: int, originHash: Hash)
    requires GoodScope(scope, key) && Deletes(d, u, scope, key, l)
    requires DeviceOk(d) && NotBlank(u) && l.generation >= 0 && d.tenant != "" && d.app != "" && IsHex32(d.id)
    requires if origin == "" then originSeq == 0 && originHash == NoHash && |d.history| > 0
             else IsHex32(origin) && originSeq >= 1 && originHash.Digest?
    ensures var d' := Delete(d, u, scope, key, l, origin, originSeq, originHash);
            var n := |d.history|;
            && DeviceOk(d') && Grows(d, d') && d'.applied == d.applied && CheckpointOf(d'.file) == CheckpointOf(d.file)
            && |d'.history| == n + 1 && d'.history[..n] == d.history
            && GoodEntry(d'.history[n], d.tenant, d.app) && d'.history[n].what.user == u
            && d'.history[n].originHash == originHash
            && d'.history[n].what.scope == scope && (scope.Belief? ==> d'.history[n].what.globalKey == key)
            && EntryKey(d'.history[n]) == Key(if origin == "" then d.id else origin,
                                              if origin == "" then n else originSeq,
                                              if origin == "" then d'.history[n].hash else originHash)
  {
    hide DeviceOk, Grows, CheckpointOf, NotBlank, IsHex32, ScanTail;
    Gossip.LoggedEntry(d, u, scope, key, l, origin, originSeq, originHash);
    DeleteKeeps(d, u, scope, key, l, origin, originSeq, originHash);
    Gossip.DeleteKeepsCheckpoint(d, u, scope, key, l, origin, originSeq, originHash);
  }

  /** Two deletions of different users have different hashes. */
  lemma UsersTellApart(a: Entry, b: Entry)
    requires a.hash == ComputeHash(a) && b.hash == ComputeHash(b) && a.what.user != b.what.user
    ensures a.hash != b.hash
  {
  }

  /** The whole of an uncompacted log, sent over a channel that was never used. */
  lemma FirstBatch(r: Device, s: Device, tape: nat -> Local)
    requires DeviceOk(r) && DeviceOk(s) && CheckpointOf(s.file) == 0 && |s.history| > 1 && s.id !in r.peers
    requires Acceptable(s.history, s.id, r.tenant, r.app)
    ensures var n := |s.history| - 1;
            && Served(s.file, 0, n) && ServedFrom(s.file, 0) == 0 && n <= |ReadFrom(s.file, 0)|
            && var b := BatchOf(s.file, s.id, 0, n);
               && Accepted(b, r.tenant, r.app) && b.entries == Travelling(s.history[1..n + 1])
               && Apply(r, b, tape)
               == ApplyUpTo(r, b.entries, tape, |b.entries|).(peers := r.peers[s.id := Anchor(n, s.history[n].hash)])
               && ScanChainHash(s.file, n) == s.history[n].hash
  {
    hide Refines, ReadFrom, Accepted, Acceptable, Travelling, ScanChainHash, ApplyUpTo, CheckpointOf, ScanHead,
         ScanCheckpoint, OwnsAll;
    var n := |s.history| - 1;
    RefinesBasics(s.file, s.history);
    FullRead(s.file, s.history);
    ExportReads(s.file, s.history, s.id, 0, n);
    ExportIsAccepted(s.file, s.history, s.id, r.tenant, r.app, 0, n);
    ChainHashOf(s.file, s.history, n);
  }

  lemma FullRead(f: seq<Entry>, h: seq<Entry>)
    requires Refines(f, h) && CheckpointOf(f) == 0
    ensures |ReadFrom(f, 0)| == |h| - 1
  {
    hide LogShape, Keep;
    RefinesBasics(f, h);
    ReadFromRefines(f, h, 0);
  }

  // ---------------------------------------------------------------------------------------------
  // The runs
  // ---------------------------------------------------------------------------------------------

  /** Two new devices of one tenant. */
  ghost predicate FreshPair(m: Mesh, r: string, s: string) {
    && Init(m) && r in m.devices && s in m.devices && r != s && IsHex32(r) && IsHex32(s)
    && m.devices[r].tenant == m.devices[s].tenant != "" && m.devices[r].app == m.devices[s].app != ""
  }

  lemma FreshFacts(m: Mesh, r: string, s: string)
    requires FreshPair(m, r, s)
    ensures Reaches(m, [], m) && DeviceOk(m.devices[r]) && DeviceOk(m.devices[s])
    ensures forall id :: id in {r, s} ==>
              var d := m.devices[id];
              && d.id == id && d.applied == map[] && d.peers == map[] && d.file == d.history && |d.history| == 1
              && CheckpointOf(d.file) == 0 && LogMinted(d.history, m.minted)
  {
    hide Reaches, DeviceOk;
    ReachStart(m);
    ReachedIsOk(m, [], m, r);
    ReachedIsOk(m, [], m, s);
  }

  /** The first deletion of a new device. */
  lemma FirstDelete(d: Device, u: string, scope: Scope, key: string, l: Local)
    requires DeviceOk(d) && NotBlank(u) && l.generation >= 0 && d.tenant != "" && d.app != "" && IsHex32(d.id)
    requires GoodScope(scope, key) && Deletes(d, u, scope, key, l)
    requires |d.history| == 1 && CheckpointOf(d.file) == 0
    ensures var d' := LocalDelete(d, u, scope, key, l);
            && DeviceOk(d') && CheckpointOf(d'.file) == 0 && |d'.history| == 2
            && d'.id == d.id && d'.tenant == d.tenant && d'.app == d.app
            && d'.peers == d.peers && d'.applied == d.applied
            && GoodEntry(d'.history[1], d.tenant, d.app) && d'.history[1].what.user == u
            && d'.history[1].originHash == NoHash
            && d'.history[1].what.scope == scope && (scope.Belief? ==> d'.history[1].what.globalKey == key)
            && EntryKey(d'.history[1]) == Key(d.id, 1, d'.history[1].hash)
            && Acceptable(d'.history, d.id, d.tenant, d.app) && Travels(d'.history[1])
  {
    hide DeviceOk, GoodEntry, GoodScope, Deletes, IsHex32, NotBlank, Delete, CheckpointOf, EntryKey, Acceptable,
         CanTravel;
    OneMoreEntry(d, u, scope, key, l, "", 0, NoHash);
    OneIsAcceptable(LocalDelete(d, u, scope, key, l).history, d.id, d.tenant, d.app);
  }

  lemma FirstDeletion(d: Device, u: string, l: Local)
    requires DeviceOk(d) && NotBlank(u) && l.generation >= 0 && d.tenant != "" && d.app != "" && IsHex32(d.id)
    requires |d.history| == 1 && CheckpointOf(d.file) == 0
    ensures var d' := DeleteUser(d, u, l);
            && DeviceOk(d') && CheckpointOf(d'.file) == 0 && |d'.history| == 2
            && d'.id == d.id && d'.tenant == d.tenant && d'.app == d.app
            && d'.peers == d.peers && d'.applied == d.applied
            && GoodEntry(d'.history[1], d.tenant, d.app) && d'.history[1].what.user == u
            && d'.history[1].what.scope.User? && d'.history[1].originHash == NoHash
            && EntryKey(d'.history[1]) == Key(d.id, 1, d'.history[1].hash)
            && Acceptable(d'.history, d.id, d.tenant, d.app) && Travels(d'.history[1])
  {
    hide DeviceOk, GoodEntry, IsHex32, NotBlank, LocalDelete, CheckpointOf, EntryKey, Acceptable, CanTravel;
    FirstDelete(d, u, User, "", l);
  }

  /** Two deletions. */
  lemma TwoDeletions(d: Device, u: string, w: string, l: Local)
    requires DeviceOk(d) && NotBlank(u) && NotBlank(w) && u != w && l.generation >= 0
    requires d.tenant != "" && d.app != "" && IsHex32(d.id) && |d.history| == 1 && CheckpointOf(d.file) == 0
    ensures var d' := DeleteUser(DeleteUser(d, u, l), w, l);
            && DeviceOk(d') && CheckpointOf(d'.file) == 0 && |d'.history| == 3
            && Acceptable(d'.history, d.id, d.tenant, d.app)
            && d'.id == d.id && d'.tenant == d.tenant && d'.app == d.app
            && GoodEntry(d'.history[1], d.tenant, d.app) && d'.history[1].what.user == u
            && EntryKey(d'.history[1]) == Key(d.id, 1, d'.history[1].hash) && EntryKey(d'.history[2]).seq_ == 2
  {
    hide DeviceOk, IsHex32, NotBlank, Delete, CheckpointOf, EntryKey, Acceptable, CanTravel;
    FirstDeletion(d, u, l);
    var d1 := DeleteUser(d, u, l);
    OneMoreEntry(d1, w, User, "", l, "", 0, NoHash);
    var h := DeleteUser(d1, w, l).history;
    assert h[1] == h[..2][1] == d1.history[1];
    UsersTellApart(h[1], h[2]);
    TwoAreAcceptable(h, d.id, d.tenant, d.app);
  }

  /** What a receiver records of the first batch of another device. */
  lemma FirstRecords(r: Device, s: Device, tape: nat -> Local, k: Key)
    requires r.applied == map[] && |s.history| > 1
    requires var n := |s.history| - 1;
             n <= |ReadFrom(s.file, 0)| && BatchOf(s.file, s.id, 0, n).entries == Travelling(s.history[1..n + 1])
    requires k in Apply(r, BatchOf(s.file, s.id, 0, |s.history| - 1), tape).applied
    ensures exists i :: 1 <= i < |s.history| && Travels(s.history[i]) && EntryKey(s.history[i]) == k
  {
    hide ReadFrom, BatchOf, Travelling, EntryKey, CanTravel;
    var n := |s.history| - 1;
    var b := BatchOf(s.file, s.id, 0, n);
    OnlyBatchKeysAreAdded(r, b.entries, tape, |b.entries|);
    KeyOfRun(s.history, 1, n + 1, k);
  }

  /** A log of one deletion, compacted away: asked from 2, it overshoots. */
  lemma CompactOne(d: Device, now: int)
    requires DeviceOk(d) && |d.history| == 2 && CheckpointOf(d.file) == 0
    ensures var f := PruneLines(d.file, d.id, 1, now).0;
            && DeviceOk(d.(file := f)) && CheckpointOf(f) == 1 && Overshoots(f, 2) && ServedFrom(f, 2) == 0
            && |ReadFrom(f, 0)| == 1 && Served(f, 2, 1) && IsCut(ReadFrom(f, 0), 1, 1)
  {
    hide LogShape, Verified, PruneLines, Keep, HeadPos, OwnsAll, CheckpointOf, ScanHead, ScanCheckpoint, Travelling;
    var f := PruneLines(d.file, d.id, 1, now).0;
    RefinesBasics(d.file, d.history);
    PruneRefines(d.file, d.history, d.id, 1, now);
    PruneOfShape(d.file, d.id, 1, now);
    RefinesBasics(f, d.history);
    SuffixOfFile(f, d.history);
    FileReads(f);
    EmptyPrefix(ReadFrom(f, 0));
  }

  /** The receiver of two deletions, shown twice the batch of a log that was begun again and compacted. */
  lemma ShownTwice(r: Device, s: Device, w: string, tape: nat -> Local, h: seq<Entry>)
    requires DeviceOk(r) && DeviceOk(s) && CheckpointOf(s.file) == 1 && |s.history| == 2
    requires Overshoots(s.file, 2) && IsCut(ReadFrom(s.file, 0), 1, 1)
    requires Acceptable(s.history, s.id, r.tenant, r.app) && Travels(s.history[1]) && s.id != r.id
    requires EntryKey(s.history[1]) == Key(s.id, 1, s.history[1].hash)
    requires s.id in r.peers && r.peers[s.id].cursor == 2
    requires |h| == 3 && EntryKey(h[1]).hash != s.history[1].hash && EntryKey(h[2]).seq_ == 2
    requires forall k :: k in r.applied ==> exists i :: 1 <= i < |h| && EntryKey(h[i]) == k
    ensures 1 <= |ReadFrom(s.file, 0)|
    ensures var b := BatchOf(s.file, s.id, 0, 1);
            && Accepted(b, r.tenant, r.app) && Apply(r, b, tape).tenant == r.tenant && Apply(r, b, tape).app == r.app
            && Misses(Apply(Apply(r, b, tape), b, tape), s, 1)
  {
    hide DeviceOk, Acceptable, EntryKey, CanTravel, IsCut, ReadFrom, Accepted, Apply, Held, CheckpointOf, Misses;
    assert EntryKey(s.history[1]) !in r.applied;
    OvershootOfCompactedLogLosesDeletions(r, s, 2, 1, 1, tape, tape, 1);
  }

  /** The first half: `s` deletes two users, `r` applies both, `s` goes back to its empty backup, database and log. */
  lemma BeginAgain(m0: Mesh, r: string, s: string, u: string, w: string, l: Local) returns (steps: seq<Step>, m: Mesh)
    requires FreshPair(m0, r, s) && NotBlank(u) && NotBlank(w) && u != w && l.generation >= 0
    ensures Reaches(m0, steps, m) && m.devices.Keys == m0.devices.Keys && m.devices[s] == m0.devices[s]
    ensures var d := DeleteUser(DeleteUser(m0.devices[s], u, l), w, l);
            && Served(d.file, 0, 2) && ServedFrom(d.file, 0) == 0
            && var b := BatchOf(d.file, s, 0, 2);
               && steps == [Backup(s), Forget(s, u, User, "", l), Forget(s, w, User, "", l), Send(s, 0, 2),
                            Deliver(r, b, _ => l), RestoreOf(m0.devices[s], m0.devices[s])]
               && m.devices[r] == Apply(m0.devices[r], b, _ => l)
               && s in m.devices[r].peers && m.devices[r].peers[s].cursor == 2
               && m.devices[r].tenant == m0.devices[r].tenant && m.devices[r].app == m0.devices[r].app
    ensures var h := DeleteUser(DeleteUser(m0.devices[s], u, l), w, l).history;
            && |h| == 3 && EntryKey(h[1]).hash == h[1].hash == ComputeHash(h[1]) && h[1].what.user == u
            && EntryKey(h[2]).seq_ == 2
            && forall k :: k in m.devices[r].applied ==> exists i :: 1 <= i < |h| && EntryKey(h[i]) == k
  {
    hide Reaches, FreshPair, DeviceOk, IsHex32, NotBlank, DeleteUser, Apply, BatchOf, Accepted, Acceptable, Served,
         ServedFrom, EntryKey, LogMinted, CheckpointOf, ReadFrom, Travelling, CanTravel, ScanChainHash, ApplyUpTo;
    FreshFacts(m0, r, s);
    PairFacts(m0, r, s);
    var d0, e0 := m0.devices[s], m0.devices[r];
    var d1 := DeleteUser(d0, u, l);
    var d2 := DeleteUser(d1, w, l);
    TwoDeletions(d0, u, w, l);
    var tape: nat -> Local := _ => l;
    FirstBatch(e0, d2, tape);
    var b := BatchOf(d2.file, s, 0, 2);
    ApplyKeepsTenant(e0, b, tape);
    forall k | k in Apply(e0, b, tape).applied ensures exists i :: 1 <= i < 3 && EntryKey(d2.history[i]) == k {
      FirstRecords(e0, d2, tape, k);
    }

    GoBackup(m0, [], m0, s);
    var m1 := m0.(backups := m0.backups + {d0});
    var steps1 := [Backup(s)];
    assert [] + [Backup(s)] == steps1;
    GoForget(m0, steps1, m1, s, u, l);
    var m2 := With(m1, s, d1);
    GoForget(m0, steps1 + [Forget(s, u, User, "", l)], m2, s, w, l);
    var m3 := With(m2, s, d2);
    var steps3 := [Backup(s), Forget(s, u, User, "", l), Forget(s, w, User, "", l)];
    assert steps1 + [Forget(s, u, User, "", l)] + [Forget(s, w, User, "", l)] == steps3;
    GoSend(m0, steps3, m3, s, 0, 2);
    var m4 := m3.(flight := m3.flight + {b});
    GoDeliver(m0, steps3 + [Send(s, 0, 2)], m4, r, b, tape);
    var m5 := With(m4, r, Apply(e0, b, tape));
    GoRestore(m0, steps3 + [Send(s, 0, 2)] + [Deliver(r, b, tape)], m5, d0, d0);
    m := With(m5, s, d0.(file := d0.file, history := d0.history));
    steps := steps3 + [Send(s, 0, 2)] + [Deliver(r, b, tape)] + [RestoreOf(d0, d0)];
  }

  lemma ApplyKeepsTenant(d: Device, b: Batch, tape: nat -> Local)
    requires DeviceOk(d) && Accepted(b, d.tenant, d.app)
    ensures Apply(d, b, tape).tenant == d.tenant && Apply(d, b, tape).app == d.app
  {
    hide DeviceOk, Accepted, ApplyUpTo;
    AcceptedNamesOrigins(b, d.tenant, d.app);
    ApplyKeeps(d, b.entries, tape, |b.entries|);
  }

  lemma PairFacts(m: Mesh, r: string, s: string)
    requires FreshPair(m, r, s)
    ensures r in m.devices && s in m.devices && r != s && IsHex32(r) && IsHex32(s)
    ensures m.devices[r].tenant == m.devices[s].tenant != "" && m.devices[r].app == m.devices[s].app != ""
  {
  }

  /** The overshoot, in a run: `s` deletes two users and `r` applies both; `s` begins again from an empty backup,
      deletes `w` and compacts; `r`, still at 2, is served from 0 without that deletion, and the same batch
      delivered a second time moves it past. */
  lemma OvershootRun(m0: Mesh, r: string, s: string, u: string, w: string, l: Local, now: int)
    returns (steps: seq<Step>, b: Batch, m: Mesh)
    requires FreshPair(m0, r, s) && NotBlank(u) && NotBlank(w) && u != w && l.generation >= 0
    ensures Reaches(m0, steps, m) && |steps| == 11
    ensures steps[6..] == [Forget(s, w, User, "", l), Compact(s, 1, now), Send(s, 2, 1),
                           Deliver(r, b, _ => l), Deliver(r, b, _ => l)]
    ensures forall i :: 0 <= i < |steps| && steps[i].Restore? ==>
                          && steps[i] == RestoreOf(m0.devices[s], m0.devices[s])
                          && PositionsFit(m0.devices[s], m0.devices[s])
    ensures r in m.devices && s in m.devices && Misses(m.devices[r], m.devices[s], 1)
    ensures s in m.devices[r].peers && !MissesNothing(m, r, s)
  {
    hide Reaches, FreshPair, DeviceOk, IsHex32, NotBlank, Apply, BatchOf, Accepted, Acceptable, Served, CanTravel,
         ServedFrom, EntryKey, LogMinted, CheckpointOf, ReadFrom, Overshoots, IsCut, PruneLines, Misses, MissesNothing,
         LocalDelete;
    var m6;
    steps, m6 := BeginAgain(m0, r, s, u, w, l);
    FreshFacts(m0, r, s);
    PairFacts(m0, r, s);
    ReachedIsOk(m0, steps, m6, r);
    var h := DeleteUser(DeleteUser(m0.devices[s], u, l), w, l).history;
    var e := m6.devices[r];
    var d := DeleteUser(m6.devices[s], w, l);
    FirstDeletion(m6.devices[s], w, l);
    UsersTellApart(h[1], d.history[1]);
    CompactOne(d, now);
    var c := d.(file := PruneLines(d.file, d.id, 1, now).0);
    var tape: nat -> Local := _ => l;
    ShownTwice(e, c, w, tape, h);
    b := BatchOf(c.file, s, 0, 1);

    var six := steps;
    GoForget(m0, six, m6, s, w, l);
    var m7 := With(m6, s, d);
    GoCompact(m0, six + [Forget(s, w, User, "", l)], m7, s, 1, now);
    var m8 := With(m7, s, c);
    GoSend(m0, six + [Forget(s, w, User, "", l)] + [Compact(s, 1, now)], m8, s, 2, 1);
    var m9 := m8.(flight := m8.flight + {b});
    steps := six + [Forget(s, w, User, "", l)] + [Compact(s, 1, now)] + [Send(s, 2, 1)];
    GoDeliver(m0, steps, m9, r, b, tape);
    var m10 := With(m9, r, Apply(e, b, tape));
    GoDeliver(m0, steps + [Deliver(r, b, tape)], m10, r, b, tape);
    m := With(m10, r, Apply(Apply(e, b, tape), b, tape));
    steps := steps + [Deliver(r, b, tape)] + [Deliver(r, b, tape)];
    MissesSome(m, r, s, 1);
  }

  lemma MissesSome(m: Mesh, r: string, s: string, p: int)
    requires r in m.devices && s in m.devices && m.devices[s].id == s && Misses(m.devices[r], m.devices[s], p)
    ensures s in m.devices[r].peers && !MissesNothing(m, r, s)
  {
  }

  /** A relay: `b` applies the one deletion of `a` and sends its own log. */
  lemma RelayOne(b: Device, a: Device, l: Local)
    requires DeviceOk(b) && DeviceOk(a) && b.applied == map[] && b.peers == map[] && a.id != b.id
    requires |b.history| == 1 && CheckpointOf(b.file) == 0 && |a.history| == 2 && CheckpointOf(a.file) == 0
    requires b.tenant == a.tenant != "" && b.app == a.app != "" && IsHex32(b.id) && IsHex32(a.id) && l.generation >= 0
    requires GoodEntry(a.history[1], a.tenant, a.app) && a.history[1].what.scope.User?
    requires Acceptable(a.history, a.id, a.tenant, a.app)
    requires EntryKey(a.history[1]) == Key(a.id, 1, a.history[1].hash)
    ensures 1 <= |ReadFrom(a.file, 0)|
    ensures var b' := Apply(b, BatchOf(a.file, a.id, 0, 1), _ => l);
            && DeviceOk(b') && b'.id == b.id && CheckpointOf(b'.file) == 0 && |b'.history| == 2
            && b'.tenant == b.tenant && b'.app == b.app
            && Acceptable(b'.history, b.id, b.tenant, b.app) && Travels(b'.history[1])
            && EntryKey(b'.history[1]) == Key(a.id, 1, a.history[1].hash)
  {
    hide DeviceOk, Acceptable, IsHex32, BatchOf, ReadFrom, CheckpointOf, EntryKey, Accepted, Delete, ScanHasTombstone,
         CanTravel, ScanChainHash;
    var tape: nat -> Local := _ => l;
    HasName(a);
    FirstBatch(b, a, tape);
    GoodEntryTravels(a.history[1], a.tenant, a.app);
    OneTravels(a.history);
    var t := TombstoneOf(a.history[1]);
    var ts := Travelling(a.history[1..2]);
    assert ApplyUpTo(b, ts, tape, 1) == ApplyNext(ApplyUpTo(b, ts, tape, 0), t.body, l);
    assert !Known(b, t.body);
    assert a.history[1].what.user == t.body.user && a.history[1].hash.Digest?;
    OneMoreEntry(b, t.body.user, User, "", l, a.id, 1, a.history[1].hash);
    var b' := Apply(b, BatchOf(a.file, a.id, 0, 1), tape);
    ApplyKeepsOk(b, BatchOf(a.file, a.id, 0, 1), tape);
    OneIsAcceptable(b'.history, b.id, b.tenant, b.app);
  }

  lemma ApplyKeepsOk(d: Device, b: Batch, tape: nat -> Local)
    requires DeviceOk(d) && Accepted(b, d.tenant, d.app)
    ensures DeviceOk(Apply(d, b, tape)) && Apply(d, b, tape).id == d.id
  {
    hide Refines, OwnsAll, Accepted, ApplyUpTo;
    AcceptedNamesOrigins(b, d.tenant, d.app);
    ApplyKeeps(d, b.entries, tape, |b.entries|);
  }

  lemma HasName(d: Device)
    requires DeviceOk(d)
    ensures d.id != ""
  {
  }

  lemma OneTravels(h: seq<Entry>)
    requires |h| == 2 && Travels(h[1])
    ensures Travelling(h[1..2]) == [TombstoneOf(h[1])]
  {
    assert h[1..2] == [h[1]] && [h[1]][..0] == [];
  }

  /** The echo: `a` is shown its own deletion, which its log holds, and only moves its anchor. */
  lemma EchoOne(a: Device, b: Device, l: Local)
    requires DeviceOk(a) && DeviceOk(b) && a.applied == map[] && b.id !in a.peers && a.id != b.id
    requires |a.history| == 2 && CheckpointOf(a.file) == 0 && |b.history| == 2 && CheckpointOf(b.file) == 0
    requires Acceptable(b.history, b.id, a.tenant, a.app) && Travels(b.history[1])
    requires EntryKey(b.history[1]) == Key(a.id, 1, a.history[1].hash) && a.history[1].hash.Digest?
    ensures 1 <= |ReadFrom(b.file, 0)| && ScanChainHash(b.file, 1) == b.history[1].hash
    ensures Apply(a, BatchOf(b.file, b.id, 0, 1), _ => l) == a.(peers := a.peers[b.id := Anchor(1, b.history[1].hash)])
  {
    hide DeviceOk, Acceptable, BatchOf, ReadFrom, CheckpointOf, EntryKey, Accepted, Delete, ScanHasTombstone,
         CanTravel, ScanChainHash, Known;
    var tape: nat -> Local := _ => l;
    FirstBatch(a, b, tape);
    OneTravels(b.history);
    var t := TombstoneOf(b.history[1]);
    Gossip.HeldIsKnown(a, t.body);
    var ts := Travelling(b.history[1..2]);
    assert ApplyUpTo(a, ts, tape, 1) == ApplyNext(ApplyUpTo(a, ts, tape, 0), t.body, l);
  }

  /** A log that does not hold the echo a database met is not one to put it beside. */
  lemma EchoIsLost(k: Device, b: Device, h: seq<Entry>)
    requires DeviceOk(b) && |b.history| == 2 && Travels(b.history[1])
    requires b.id in k.peers && k.peers[b.id] == Anchor(1, b.history[1].hash) && k.applied == map[]
    requires EntryKey(b.history[1]).origin == k.id && !Held(h, EntryKey(b.history[1]))
    ensures !EchoesHeld(k, h)
  {
    hide EntryKey, CanTravel, LogShape, Verified, Held, PayloadKey;
    RefinesBasics(b.file, b.history);
    EntryFacts(b.history, b.id, 1);
    var x := b.history[1].hash;
    assert CanTravel(x.payload.what) by { assert Travels(b.history[1]); }
    assert EntryKey(b.history[1]) in Met(x, 1);
    assert k.peers[b.id].chain == x;
  }

  /** `s` sends its whole log to `r`, over a channel that was never used. */
  lemma GoFirst(m0: Mesh, steps: seq<Step>, m: Mesh, r: string, s: string, l: Local)
    requires Reaches(m0, steps, m) && r in m.devices && s in m.devices && m.devices[r].id == r && m.devices[s].id == s
    requires DeviceOk(m.devices[r]) && DeviceOk(m.devices[s]) && s !in m.devices[r].peers
    requires CheckpointOf(m.devices[s].file) == 0 && |m.devices[s].history| == 2
    requires Acceptable(m.devices[s].history, s, m.devices[r].tenant, m.devices[r].app)
    ensures 1 <= |ReadFrom(m.devices[s].file, 0)|
    ensures var b := BatchOf(m.devices[s].file, s, 0, 1);
            && Reaches(m0, steps + [Send(s, 0, 1)] + [Deliver(r, b, _ => l)],
                       With(m.(flight := m.flight + {b}), r, Apply(m.devices[r], b, _ => l)))
            && ScanChainHash(m.devices[s].file, 1) == m.devices[s].history[1].hash
  {
    hide Reaches, DeviceOk, Apply, BatchOf, Accepted, Acceptable, Served, ServedFrom, CheckpointOf, ReadFrom,
         ScanChainHash, Travelling;
    FirstBatch(m.devices[r], m.devices[s], _ => l);
    var b := BatchOf(m.devices[s].file, s, 0, 1);
    GoSend(m0, steps, m, s, 0, 1);
    GoDeliver(m0, steps + [Send(s, 0, 1)], m.(flight := m.flight + {b}), r, b, _ => l);
  }

  /** The first half: `a` deletes `u`, `b` relays the deletion, and `a` skips the echo, for its log holds it. */
  lemma SkipEcho(m0: Mesh, a: string, b: string, u: string, l: Local) returns (steps: seq<Step>, m: Mesh)
    requires FreshPair(m0, a, b) && NotBlank(u) && l.generation >= 0
    ensures Reaches(m0, steps, m) && |steps| == 7
    ensures forall i :: 0 <= i < 7 ==> !steps[i].Restore? && !(steps[i].Send? && steps[i].since > 0)
    ensures m.devices.Keys == m0.devices.Keys && {m0.devices[a], m.devices[a]} <= m.backups && m.minted == m0.minted
    ensures var k, x := m.devices[a], m.devices[b];
            var was := DeleteUser(m0.devices[a], u, l);
            && DeviceOk(x) && x.id == b && |x.history| == 2 && Travels(x.history[1])
            && ScanChainHash(x.file, 1) == x.history[1].hash
            && k == was.(peers := was.peers[b := Anchor(1, x.history[1].hash)])
            && |was.history| == 2 && EntryKey(x.history[1]) == Key(a, 1, was.history[1].hash)
  {
    hide Reaches, FreshPair, DeviceOk, IsHex32, NotBlank, Apply, BatchOf, Accepted, Acceptable, Served, CanTravel,
         IsCut, ServedFrom, EntryKey, LogMinted, CheckpointOf, ReadFrom, DeleteUser, ScanChainHash, Travelling;
    FreshFacts(m0, a, b);
    PairFacts(m0, a, b);
    var a0, b0 := m0.devices[a], m0.devices[b];
    FirstDeletion(a0, u, l);
    var a1 := DeleteUser(a0, u, l);

    GoBackup(m0, [], m0, a);
    var m1 := m0.(backups := m0.backups + {a0});
    var steps1: seq<Step> := [] + [Backup(a)];
    GoForget(m0, steps1, m1, a, u, l);
    var m2 := With(m1, a, a1);
    var steps2 := steps1 + [Forget(a, u, User, "", l)];
    GoFirst(m0, steps2, m2, b, a, l);
    var x := BatchOf(a1.file, a, 0, 1);
    RelayOne(b0, a1, l);
    var b1 := Apply(b0, x, _ => l);
    var m4 := With(m2.(flight := m2.flight + {x}), b, b1);
    var steps4 := steps2 + [Send(a, 0, 1)] + [Deliver(b, x, _ => l)];
    GoFirst(m0, steps4, m4, a, b, l);
    var y := BatchOf(b1.file, b, 0, 1);
    EchoOne(a1, b1, l);
    var k := a1.(peers := a1.peers[b := Anchor(1, b1.history[1].hash)]);
    var m6 := With(m4.(flight := m4.flight + {y}), a, k);
    var steps6 := steps4 + [Send(b, 0, 1)] + [Deliver(a, y, _ => l)];
    GoBackup(m0, steps6, m6, a);
    m := m6.(backups := m6.backups + {k});
    steps := steps6 + [Backup(a)];
  }

  /** The forked log, in a run: after skipping the echo, `a` goes back to its empty backup, database and log, and
      deletes `w`; then only its database is taken forward again, to the backup that had skipped the echo.  The
      positions fit, but the log does not hold the echo. */
  lemma ForkedLogRun(m0: Mesh, a: string, b: string, u: string, w: string, l: Local)
    returns (steps: seq<Step>, k: Device, d: Device, m: Mesh)
    requires FreshPair(m0, a, b) && NotBlank(u) && NotBlank(w) && u != w && l.generation >= 0
    ensures Reaches(m0, steps, m) && |steps| == 10 && steps[9] == RestoreOf(k, d)
    ensures steps[8] == Forget(a, w, User, "", l) && steps[7] == RestoreOf(m0.devices[a], m0.devices[a])
    ensures forall i :: 0 <= i < 7 ==> !steps[i].Restore? && !(steps[i].Send? && steps[i].since > 0)
    ensures PositionsFit(k, d) && PositionsFit(m0.devices[a], m0.devices[a]) && !EchoesHeld(k, d.history)
    ensures a in m.devices && b in m.devices && Misses(m.devices[a], m.devices[b], 1)
    ensures b in m.devices[a].peers && !MissesNothing(m, a, b)
  {
    hide Reaches, FreshPair, DeviceOk, IsHex32, NotBlank, Acceptable, CanTravel, EntryKey, LogMinted, CheckpointOf,
         MissesNothing, LocalDelete, ScanChainHash, EchoesHeld;
    FreshFacts(m0, a, b);
    PairFacts(m0, a, b);
    var m7;
    steps, m7 := SkipEcho(m0, a, b, u, l);
    var a0, x := m0.devices[a], m7.devices[b];
    k := m7.devices[a];
    FirstDeletion(a0, u, l);
    FirstDeletion(a0, w, l);
    d := DeleteUser(a0, w, l);
    UsersTellApart(k.history[1], d.history[1]);

    GoRestore(m0, steps, m7, a0, a0);
    var m8 := With(m7, a, a0.(file := a0.file, history := a0.history));
    var steps8 := steps + [RestoreOf(a0, a0)];
    GoForget(m0, steps8, m8, a, w, l);
    var m9 := With(m8, a, d);
    var steps9 := steps8 + [Forget(a, w, User, "", l)];
    ReachedIsOk(m0, steps9, m9, a);
    GoRestore(m0, steps9, m9, k, d);
    m := With(m9, a, k.(file := d.file, history := d.history));
    steps := steps9 + [RestoreOf(k, d)];
    EchoIsLost(k, x, d.history);
    MissesSome(m, a, b, 1);
  }

  /** What the receiver makes of a forget that its publisher refuses: the belief stays, the tombstone counts as
      applied, and no later delivery of it changes that. */
  lemma RefusedForGood(r: Device, s: Device, u: string, gid: string, no: Local)
    requires no.refused
    requires DeviceOk(r) && DeviceOk(s) && CheckpointOf(s.file) == 0 && |s.history| == 2 && r.applied == map[]
    requires r.id != s.id && s.id !in r.peers && Acceptable(s.history, s.id, r.tenant, r.app) && Travels(s.history[1])
    requires EntryKey(s.history[1]).origin == s.id && (u, gid) in r.beliefs
    requires s.history[1].what.scope.Belief? && s.history[1].what.user == u && s.history[1].what.globalKey == gid
    ensures 1 <= |ReadFrom(s.file, 0)|
    ensures var b := BatchOf(s.file, s.id, 0, 1);
            var r' := Apply(r, b, _ => no);
            && (u, gid) in r'.beliefs && !NoResurrection(r')
            && forall tape: nat -> Local :: Apply(r', b, tape).beliefs == r'.beliefs
  {
    hide DeviceOk, Acceptable, BatchOf, ReadFrom, CheckpointOf, EntryKey, Accepted, Delete, ScanHasTombstone,
         CanTravel, ScanChainHash, NoResurrection, Resurrected;
    var tape: nat -> Local := _ => no;
    FirstBatch(r, s, tape);
    OneTravels(s.history);
    var t := TombstoneOf(s.history[1]);
    var b := BatchOf(s.file, s.id, 0, 1);
    var ts := b.entries;
    assert ts == [t];
    var r1 := ApplyNext(r, t.body, tape(0));
    assert ApplyUpTo(r, ts, tape, 1) == ApplyNext(ApplyUpTo(r, ts, tape, 0), t.body, tape(0));
    assert Refuses(r, t.body, tape(0));
    NextResurrectsIff(r, t.body, tape(0), (u, gid));
    RefusedStays(r, t.body, tape(0));
    NoResurrectionIff(r1);
    var r' := Apply(r, b, tape);
    PeersAside(r1, r');
    forall again: nat -> Local ensures Apply(r', b, again).beliefs == r'.beliefs {
      assert ApplyUpTo(r', ts, again, 1) == ApplyNext(ApplyUpTo(r', ts, again, 0), t.body, again(0));
    }
  }

  lemma RefusedStays(d: Device, t: TombBody, l: Local)
    requires Refuses(d, t, l)
    ensures ApplyNext(d, t, l).beliefs == d.beliefs && KeyOf(t) in ApplyNext(d, t, l).applied
  {
  }

  /** The refused forget, in a run: `s` forgets a belief both devices hold, `r` is sent the tombstone while its
      publisher refuses, and holds the belief for good. */
  lemma RefusedForgetRun(m0: Mesh, r: string, s: string, u: string, gid: string, l: Local, no: Local)
    returns (b: Batch, m: Mesh)
    requires FreshPair(m0, r, s) && NotBlank(u) && IsHex32(gid) && l.generation >= 0 && !l.refused && no.refused
    requires (u, gid) in m0.devices[r].beliefs && (u, gid) in m0.devices[s].beliefs
    ensures Reaches(m0, [Forget(s, u, Belief, gid, l), Send(s, 0, 1), Deliver(r, b, _ => no)], m)
    ensures r in m.devices && s in m.devices && (u, gid) !in m.devices[s].beliefs
    ensures (u, gid) in m.devices[r].beliefs && !NoResurrection(m.devices[r])
    ensures forall tape: nat -> Local :: (u, gid) in Apply(m.devices[r], b, tape).beliefs
  {
    hide Reaches, FreshPair, DeviceOk, IsHex32, NotBlank, Apply, BatchOf, Accepted, Acceptable, Served, CanTravel,
         IsCut, ServedFrom, EntryKey, LogMinted, CheckpointOf, ReadFrom, ScanChainHash, Travelling, NoResurrection,
         LocalDelete;
    FreshFacts(m0, r, s);
    PairFacts(m0, r, s);
    var r0, s0 := m0.devices[r], m0.devices[s];
    FirstDelete(s0, u, Belief, gid, l);
    var s1 := LocalDelete(s0, u, Belief, gid, l);
    ForgottenHere(s0, u, gid, l);
    RefusedForGood(r0, s1, u, gid, no);
    b := BatchOf(s1.file, s, 0, 1);
    ReachNext(m0, [], m0, Forget(s, u, Belief, gid, l));
    var m1 := With(m0, s, s1);
    var steps1 := [Forget(s, u, Belief, gid, l)];
    assert [] + steps1 == steps1;
    GoFirst(m0, steps1, m1, r, s, no);
    m := With(m1.(flight := m1.flight + {b}), r, Apply(r0, b, _ => no));
    assert steps1 + [Send(s, 0, 1)] + [Deliver(r, b, _ => no)]
        == [Forget(s, u, Belief, gid, l), Send(s, 0, 1), Deliver(r, b, _ => no)];
  }

  lemma ForgottenHere(d: Device, u: string, gid: string, l: Local)
    requires !l.refused
    ensures (u, gid) !in LocalDelete(d, u, Belief, gid, l).beliefs
  {
  }
}
