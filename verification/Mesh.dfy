/**
 * Runs of a mesh of devices that delete, compact, export, deliver late and twice, abort, back up and
 * restore.  The channel stays safe until one of two careless steps, and no forgotten belief is stored until
 * the publisher refuses a forget that a tombstone asks for; each is characterised exactly.
 */
module Mesh {
  import opened Basics
  import opened Chain
  import opened FileLog
  import opened Compaction
  import opened Tombstones
  import opened Device
  import opened Channel

  /** The devices, the batches that were ever sent (they may arrive at any time and again), the device
      backups that were ever taken, and the global ids that were ever minted. */
  datatype Mesh = Mesh(
    devices: map<string, Device>, flight: set<Batch>, backups: set<Device>, minted: set<string>)

  datatype Step =
    | Remember(id: string, user: string, gid: string)
    | Summarise(id: string, user: string, session: string)
    | Forget(id: string, user: string, scope: Scope, key: string, local: Local)
    | Compact(id: string, before: int, now: int)
    | Send(id: string, since: int, n: nat)
    | Deliver(id: string, batch: Batch, tape: nat -> Local)
    | Abort(id: string, batch: Batch, tape: nat -> Local, n: nat)
    | Backup(id: string)
    | Restore(id: string, backup: Device, file: seq<Entry>, history: seq<Entry>,
              beliefs: set<(string, string)>, sessions: set<(string, string)>)

  /** The global ids a log can name. */
  predicate LogMinted(h: seq<Entry>, minted: set<string>) {
    forall i :: 0 <= i < |h| && h[i].what.scope.Belief? ==> h[i].what.globalKey in minted
  }

  predicate BatchMinted(b: Batch, minted: set<string>) {
    forall i :: 0 <= i < |b.entries| && b.entries[i].body.scope.Belief? ==> b.entries[i].body.scopeKey in minted
  }

  predicate DeviceMinted(d: Device, minted: set<string>) {
    && (forall r :: r in d.beliefs ==> r.1 in minted)
    && (forall k :: k in d.applied && d.applied[k].scope.Belief? ==> d.applied[k].scopeKey in minted)
    && LogMinted(d.history, minted)
  }

  /** When a step may happen.  A new belief gets a global id never minted before.  A restore puts a backup of
      this device beside any verified log of this device, and the replay may only have removed rows. */
  ghost predicate Enabled(m: Mesh, s: Step) {
    && s.id in m.devices
    && var d := m.devices[s.id];
       match s
       case Remember(_, _, gid) => gid !in m.minted
       case Summarise(_, _, _) => true
       case Forget(_, _, _, _, _) => true
       case Compact(_, _, _) => true
       case Send(_, since, n) => Served(d.file, since, n)
       case Deliver(_, b, _) => b in m.flight && Accepted(b, d.tenant, d.app)
       case Abort(_, b, _, n) => b in m.flight && Accepted(b, d.tenant, d.app) && n <= |b.entries|
       case Backup(_) => true
       case Restore(_, k, f, h, beliefs, sessions) =>
         && k in m.backups && k.id == s.id
         && Refines(f, h) && OwnsAll(h, s.id) && LogMinted(h, m.minted)
         && beliefs <= k.beliefs && sessions <= k.sessions
  }

  /** The guard of the two steps that can break the channel: an overshoot of a compacted log is served only if
      nothing compacted away could have travelled, and a backup is put only beside a log that holds the echoes
      it skipped. */
  ghost predicate Careful(m: Mesh, s: Step)
    requires Enabled(m, s)
  {
    match s
    case Send(id, since, _) =>
      Overshoots(m.devices[id].file, since) ==> PrunedStayHome(m.devices[id].file, m.devices[id].history)
    case Restore(_, k, _, h, _, _) => EchoesHeld(k, h)
    case _ => true
  }

  /** What a step does to the device that takes it. */
  function DeviceAfter(d: Device, s: Step): Device {
    match s
    case Remember(_, user, gid) => d.(beliefs := d.beliefs + {(user, gid)})
    case Summarise(_, user, session) => d.(sessions := d.sessions + {(user, session)})
    case Forget(_, user, scope, key, l) => LocalDelete(d, user, scope, key, l)
    case Compact(_, before, now) => d.(file := PruneLines(d.file, d.id, before, now).0)
    case Send(_, _, _) => d
    case Deliver(_, b, tape) => Apply(d, b, tape)
    case Abort(_, b, tape, n) =>
      if n <= |b.entries| then
        var c := ApplyUpTo(d, b.entries, tape, n);
        d.(file := c.file, history := c.history)
      else d
    case Backup(_) => d
    case Restore(_, k, f, h, beliefs, sessions) =>
      k.(file := f, history := h, beliefs := beliefs, sessions := sessions)
  }

  ghost function Next(m: Mesh, s: Step): Mesh
    requires Enabled(m, s)
  {
    var d := m.devices[s.id];
    var m' := m.(devices := m.devices[s.id := DeviceAfter(d, s)]);
    match s
    case Remember(_, _, gid) => m'.(minted := m.minted + {gid})
    case Send(_, since, n) => m'.(flight := m.flight + {BatchOf(d.file, d.id, ServedFrom(d.file, since), n)})
    case Backup(_) => m'.(backups := m.backups + {d})
    case _ => m'
  }

  /** Every device starts with a log that holds its genesis; memories may already share global ids. */
  ghost predicate Init(m: Mesh) {
    && m.flight == {} && m.backups == {}
    && forall id :: id in m.devices ==>
         var d := m.devices[id];
         && d.id == id && id != "" && d.applied == map[] && d.peers == map[]
         && (exists now :: d.file == [GenesisOf(id, now)]) && d.history == d.file
         && forall r :: r in d.beliefs ==> r.1 in m.minted
  }

  // ---------------------------------------------------------------------------------------------
  // No resurrection
  // ---------------------------------------------------------------------------------------------

  /** No stored belief is one that the applied table says was forgotten. */
  predicate NoResurrection(d: Device) {
    forall k :: k in d.applied && d.applied[k].scope.Belief? ==>
                  (d.applied[k].user, d.applied[k].scopeKey) !in d.beliefs
  }

  /** The tombstone finds its belief, and the publisher refuses the forget. */
  predicate Refuses(d: Device, t: TombBody, l: Local) {
    !Known(d, t) && t.scope.Belief? && (t.user, t.scopeKey) in d.beliefs && l.refused
  }

  /** The tombstone carries the row off. */
  predicate Removes(d: Device, t: TombBody, l: Local, row: (string, string)) {
    && !Known(d, t) && Deletes(d, t.user, t.scope, t.scopeKey, l) && t.user == row.0
    && (t.scope.User? || (t.scope.Belief? && t.scopeKey == row.1))
  }

  /** The belief is stored although a recorded tombstone names it. */
  ghost predicate Resurrected(d: Device, row: (string, string)) {
    && row in d.beliefs
    && exists k :: k in d.applied && d.applied[k].scope.Belief? && row == (d.applied[k].user, d.applied[k].scopeKey)
  }

  /** A refused forget is recorded as applied like one that found nothing: that, and nothing else, resurrects. */
  lemma NextResurrectsIff(d: Device, t: TombBody, l: Local, row: (string, string))
    ensures Resurrected(ApplyNext(d, t, l), row)
       <==> (Resurrected(d, row) && !Removes(d, t, l, row)) || (Refuses(d, t, l) && row == (t.user, t.scopeKey))
  {
    hide AppendLines, ScanHasTombstone;
    var d' := ApplyNext(d, t, l);
    if !Known(d, t) {
      assert d'.applied[KeyOf(t)] == MarkOf(t);
      assert KeyOf(t) !in d.applied;
      assert forall k :: k in d.applied ==> k in d'.applied && d'.applied[k] == d.applied[k];
    }
  }

  predicate RefusesAt(d: Device, ts: seq<Tombstone>, tape: nat -> Local, i: nat, row: (string, string))
    requires i < |ts|
  {
    Refuses(ApplyUpTo(d, ts, tape, i), ts[i].body, tape(i)) && row == (ts[i].body.user, ts[i].body.scopeKey)
  }

  predicate RemovesAt(d: Device, ts: seq<Tombstone>, tape: nat -> Local, i: nat, row: (string, string))
    requires i < |ts|
  {
    Removes(ApplyUpTo(d, ts, tape, i), ts[i].body, tape(i), row)
  }

  /** Entry `i` is a forget of the row that the publisher refuses, and none of the entries up to `n` makes up for it. */
  predicate LeavesAt(d: Device, ts: seq<Tombstone>, tape: nat -> Local, i: nat, n: nat, row: (string, string))
    requires i < n <= |ts|
  {
    RefusesAt(d, ts, tape, i, row) && forall j :: i < j < n ==> !RemovesAt(d, ts, tape, j, row)
  }

  lemma {:induction false} BatchResurrectsIff(d: Device, ts: seq<Tombstone>, tape: nat -> Local, n: nat,
                                              row: (string, string))
    requires NoResurrection(d) && n <= |ts|
    ensures Resurrected(ApplyUpTo(d, ts, tape, n), row) <==> exists i :: 0 <= i < n && LeavesAt(d, ts, tape, i, n, row)
  {
    hide Resurrected, Refuses, Removes, ApplyNext;
    if n == 0 {
      NoneResurrected(d, row);
    } else {
      var last := n - 1;
      BatchResurrectsIff(d, ts, tape, last, row);
      NextResurrectsIff(ApplyUpTo(d, ts, tape, last), ts[last].body, tape(last), row);
      forall i | 0 <= i < last
        ensures LeavesAt(d, ts, tape, i, n, row)
           <==> LeavesAt(d, ts, tape, i, last, row) && !RemovesAt(d, ts, tape, last, row)
      {
      }
      assert LeavesAt(d, ts, tape, last, n, row) <==> RefusesAt(d, ts, tape, last, row);
      if i :| 0 <= i < last && LeavesAt(d, ts, tape, i, last, row) {
        assert !RemovesAt(d, ts, tape, last, row) ==> LeavesAt(d, ts, tape, i, n, row);
      }
    }
  }

  lemma NoneResurrected(d: Device, row: (string, string))
    requires NoResurrection(d)
    ensures !Resurrected(d, row)
  {
  }

  lemma NoResurrectionIff(d: Device)
    ensures NoResurrection(d) <==> forall row :: !Resurrected(d, row)
  {
    if !NoResurrection(d) {
      var k :| k in d.applied && d.applied[k].scope.Belief? && (d.applied[k].user, d.applied[k].scopeKey) in d.beliefs;
      assert Resurrected(d, (d.applied[k].user, d.applied[k].scopeKey));
    }
  }

  /** Every forget that the publisher refuses during the delivery is made up for by a later entry of the batch. */
  ghost predicate Heeds(d: Device, b: Batch, tape: nat -> Local) {
    forall i, row :: 0 <= i < |b.entries| ==> !LeavesAt(d, b.entries, tape, i, |b.entries|, row)
  }

  lemma ApplyKeepsForgottenIff(d: Device, b: Batch, tape: nat -> Local)
    requires NoResurrection(d)
    ensures NoResurrection(Apply(d, b, tape)) <==> Heeds(d, b, tape)
  {
    hide Resurrected, LeavesAt, NoResurrection, ApplyUpTo;
    var n := |b.entries|;
    var c := ApplyUpTo(d, b.entries, tape, n);
    NoResurrectionIff(c);
    PeersAside(c, Apply(d, b, tape));
    forall row ensures Heeds(d, b, tape) ==> !Resurrected(c, row) {
      BatchResurrectsIff(d, b.entries, tape, n, row);
    }
    if i, row :| 0 <= i < n && LeavesAt(d, b.entries, tape, i, n, row) {
      BatchResurrectsIff(d, b.entries, tape, n, row);
      assert Resurrected(c, row);
    }
  }

  lemma PeersAside(d: Device, d': Device)
    requires d'.beliefs == d.beliefs && d'.applied == d.applied
    ensures NoResurrection(d) <==> NoResurrection(d')
  {
  }

  // ---------------------------------------------------------------------------------------------
  // Minted ids
  // ---------------------------------------------------------------------------------------------

  lemma DeleteKeepsMinted(d: Device, user: string, scope: Scope, key: string, l: Local,
                          origin: string, originSeq: int, originHash: Hash, minted: set<string>)
    requires DeviceMinted(d, minted)
    ensures var d' := Delete(d, user, scope, key, l, origin, originSeq, originHash);
            DeviceMinted(d', minted)
  {
  }

  lemma NextKeepsMinted(d: Device, t: TombBody, l: Local, minted: set<string>)
    requires DeviceMinted(d, minted) && (t.scope.Belief? ==> t.scopeKey in minted)
    ensures DeviceMinted(ApplyNext(d, t, l), minted)
  {
  }

  lemma {:induction false} ApplyKeepsMinted(d: Device, b: Batch, tape: nat -> Local, n: nat, minted: set<string>)
    requires DeviceMinted(d, minted) && BatchMinted(b, minted) && n <= |b.entries|
    ensures DeviceMinted(ApplyUpTo(d, b.entries, tape, n), minted)
  {
    if n > 0 {
      ApplyKeepsMinted(d, b, tape, n - 1, minted);
      NextKeepsMinted(ApplyUpTo(d, b.entries, tape, n - 1), b.entries[n - 1].body, tape(n - 1), minted);
    }
  }

  /** What a run of a log names was named by the log. */
  lemma RunIsMinted(h: seq<Entry>, a: nat, z: nat, b: Batch, minted: set<string>)
    requires LogMinted(h, minted) && a <= z <= |h| && b.entries == Travelling(h[a..z])
    ensures BatchMinted(b, minted)
  {
    hide Travelling, CanTravel;
    forall i | 0 <= i < |b.entries| && b.entries[i].body.scope.Belief? ensures b.entries[i].body.scopeKey in minted {
      EntryOfRun(h, a, z, b.entries[i]);
    }
  }

  // ---------------------------------------------------------------------------------------------
  // The invariant of every run
  // ---------------------------------------------------------------------------------------------

  ghost predicate DeviceCore(d: Device, minted: set<string>) {
    DeviceOk(d) && DeviceMinted(d, minted)
  }

  ghost predicate Core(m: Mesh) {
    && (forall id :: id in m.devices ==> m.devices[id].id == id && DeviceCore(m.devices[id], m.minted))
    && (forall b :: b in m.flight ==> BatchMinted(b, m.minted))
    && (forall k :: k in m.backups ==> DeviceCore(k, m.minted))
  }

  lemma MintedGrows(d: Device, minted: set<string>, more: set<string>)
    requires DeviceCore(d, minted) && minted <= more
    ensures DeviceCore(d, more)
  {
  }

  lemma BatchMintedGrows(b: Batch, minted: set<string>, more: set<string>)
    requires BatchMinted(b, minted) && minted <= more
    ensures BatchMinted(b, more)
  {
  }

  lemma ForgetKeepsCore(d: Device, user: string, scope: Scope, key: string, l: Local, minted: set<string>)
    requires DeviceCore(d, minted)
    ensures DeviceCore(LocalDelete(d, user, scope, key, l), minted) && LocalDelete(d, user, scope, key, l).id == d.id
  {
    DeleteKeeps(d, user, scope, key, l, "", 0, NoHash);
    DeleteKeepsMinted(d, user, scope, key, l, "", 0, NoHash, minted);
    hide Delete, DeviceOk, TombstonesKept;
  }

  lemma ApplyKeepsCore(d: Device, b: Batch, tape: nat -> Local, n: nat, minted: set<string>)
    requires DeviceCore(d, minted) && BatchMinted(b, minted) && NamesOrigins(b.entries) && n <= |b.entries|
    ensures DeviceCore(ApplyUpTo(d, b.entries, tape, n), minted) && ApplyUpTo(d, b.entries, tape, n).id == d.id
  {
    ApplyKeeps(d, b.entries, tape, n);
    ApplyKeepsMinted(d, b, tape, n, minted);
    hide ApplyUpTo;
  }

  lemma CompactKeepsCore(d: Device, before: int, now: int, minted: set<string>)
    requires DeviceCore(d, minted)
    ensures DeviceCore(d.(file := PruneLines(d.file, d.id, before, now).0), minted)
  {
    PruneRefines(d.file, d.history, d.id, before, now);
    hide PruneLines, Refines;
  }

  lemma RememberKeepsCore(d: Device, user: string, gid: string, minted: set<string>)
    requires DeviceCore(d, minted) && gid !in minted
    ensures DeviceCore(d.(beliefs := d.beliefs + {(user, gid)}), minted + {gid})
  {
    hide Refines, OwnsAll;
  }

  lemma SummariseKeepsCore(d: Device, user: string, session: string, minted: set<string>)
    requires DeviceCore(d, minted)
    ensures DeviceCore(d.(sessions := d.sessions + {(user, session)}), minted)
  {
    hide Refines, OwnsAll;
  }

  lemma DeliverKeepsCore(d: Device, b: Batch, tape: nat -> Local, minted: set<string>)
    requires DeviceCore(d, minted) && BatchMinted(b, minted) && NamesOrigins(b.entries)
    ensures DeviceCore(Apply(d, b, tape), minted) && Apply(d, b, tape).id == d.id
  {
    hide ApplyUpTo, Refines, OwnsAll, LogMinted, BatchMinted;
    ApplyKeepsCore(d, b, tape, |b.entries|, minted);
  }

  lemma AbortKeepsCore(d: Device, b: Batch, tape: nat -> Local, n: nat, minted: set<string>)
    requires DeviceCore(d, minted) && BatchMinted(b, minted) && NamesOrigins(b.entries) && n <= |b.entries|
    ensures var c := ApplyUpTo(d, b.entries, tape, n);
            DeviceCore(d.(file := c.file, history := c.history), minted)
  {
    hide ApplyUpTo, Refines, OwnsAll, LogMinted, BatchMinted;
    ApplyKeepsCore(d, b, tape, n, minted);
  }

  lemma RestoreKeepsCore(k: Device, f: seq<Entry>, h: seq<Entry>,
                         beliefs: set<(string, string)>, sessions: set<(string, string)>, minted: set<string>)
    requires DeviceCore(k, minted)
    requires Refines(f, h) && OwnsAll(h, k.id) && LogMinted(h, minted) && beliefs <= k.beliefs
    ensures DeviceCore(k.(file := f, history := h, beliefs := beliefs, sessions := sessions), minted)
  {
    hide Refines, OwnsAll, LogMinted;
  }

  /** Each step keeps the invariant of the device that takes it. */
  lemma DeviceAfterKeepsCore(m: Mesh, s: Step)
    requires Core(m) && Enabled(m, s)
    ensures DeviceCore(DeviceAfter(m.devices[s.id], s), Next(m, s).minted) && DeviceAfter(m.devices[s.id], s).id == s.id
  {
    hide DeviceCore, BatchMinted, LogMinted, Refines, OwnsAll, Served, Accepted, NamesOrigins, LocalDelete, Apply,
         ApplyUpTo, PruneLines;
    var d := m.devices[s.id];
    match s
    case Remember(_, user, gid) => RememberKeepsCore(d, user, gid, m.minted);
    case Summarise(_, user, session) => SummariseKeepsCore(d, user, session, m.minted);
    case Forget(_, user, scope, key, l) => ForgetKeepsCore(d, user, scope, key, l, m.minted);
    case Compact(_, before, now) => CompactKeepsCore(d, before, now, m.minted);
    case Send(_, _, _) =>
    case Deliver(_, b, tape) =>
      AcceptedNamesOrigins(b, d.tenant, d.app);
      DeliverKeepsCore(d, b, tape, m.minted);
    case Abort(_, b, tape, n) =>
      AcceptedNamesOrigins(b, d.tenant, d.app);
      AbortKeepsCore(d, b, tape, n, m.minted);
    case Backup(_) =>
    case Restore(_, k, f, h, beliefs, sessions) => RestoreKeepsCore(k, f, h, beliefs, sessions, m.minted);
  }

  lemma SendIsMinted(d: Device, since: int, n: nat, minted: set<string>)
    requires DeviceCore(d, minted) && Served(d.file, since, n)
    ensures BatchMinted(BatchOf(d.file, d.id, ServedFrom(d.file, since), n), minted)
  {
    hide Refines, ReadFrom, BatchMinted, LogMinted, BatchOf, Travelling, OwnsAll, ScanHead,
         ScanCheckpoint, CheckpointOf, ScanChainHash, ChainAt;
    RefinesBasics(d.file, d.history);
    var b := BatchOf(d.file, d.id, ServedFrom(d.file, since), n);
    if Overshoots(d.file, since) {
      OvershootReads(d.file, d.history, d.id, n);
      RunIsMinted(d.history, CheckpointOf(d.file) + 1, CheckpointOf(d.file) + n, b, minted);
    } else {
      ExportReads(d.file, d.history, d.id, since, n);
      RunIsMinted(d.history, b.from + 1, b.to + 1, b, minted);
    }
  }

  lemma StepKeepsCore(m: Mesh, s: Step)
    requires Core(m) && Enabled(m, s)
    ensures Core(Next(m, s))
  {
    hide DeviceCore, DeviceAfter, BatchMinted, Served, LogMinted, Refines, OwnsAll, Accepted, BatchOf;
    var m' := Next(m, s);
    var d := m.devices[s.id];
    DeviceAfterKeepsCore(m, s);
    if s.Send? {
      SendIsMinted(d, s.since, s.n, m.minted);
    }
    assert m.minted <= m'.minted;
    forall id | id in m'.devices ensures m'.devices[id].id == id && DeviceCore(m'.devices[id], m'.minted) {
      if id != s.id {
        MintedGrows(m.devices[id], m.minted, m'.minted);
      }
    }
    forall b | b in m'.flight ensures BatchMinted(b, m'.minted) {
      if b in m.flight {
        BatchMintedGrows(b, m.minted, m'.minted);
      }
    }
    forall k | k in m'.backups ensures DeviceCore(k, m'.minted) {
      MintedGrows(if k in m.backups then k else d, m.minted, m'.minted);
    }
  }

  // ---------------------------------------------------------------------------------------------
  // The invariant of careful runs
  // ---------------------------------------------------------------------------------------------

  ghost predicate ChannelSafe(m: Mesh) {
    && (forall id :: id in m.devices ==> Safe(m.devices[id]))
    && (forall b :: b in m.flight ==> Honest(b))
    && (forall k :: k in m.backups ==> Safe(k))
  }

  lemma ForgetKeepsSafe(d: Device, user: string, scope: Scope, key: string, l: Local)
    requires Safe(d)
    ensures Safe(LocalDelete(d, user, scope, key, l))
  {
    DeleteKeeps(d, user, scope, key, l, "", 0, NoHash);
    hide Delete, DeviceOk, TombstonesKept;
    SafeGrows(d, LocalDelete(d, user, scope, key, l));
  }

  lemma CompactKeepsSafe(d: Device, before: int, now: int)
    requires Safe(d)
    ensures Safe(d.(file := PruneLines(d.file, d.id, before, now).0))
  {
    PruneRefines(d.file, d.history, d.id, before, now);
    hide PruneLines, Refines;
    SafeGrows(d, d.(file := PruneLines(d.file, d.id, before, now).0));
  }

  lemma MemoryKeepsSafe(d: Device, beliefs: set<(string, string)>, sessions: set<(string, string)>)
    requires Safe(d)
    ensures Safe(d.(beliefs := beliefs, sessions := sessions))
  {
    var d' := d.(beliefs := beliefs, sessions := sessions);
    assert DeviceOk(d') by { hide Refines; }
    hide DeviceOk;
    SafeGrows(d, d');
  }

  lemma RestoreKeepsSafeIff(k: Device, f: seq<Entry>, h: seq<Entry>,
                            beliefs: set<(string, string)>, sessions: set<(string, string)>)
    requires Safe(k) && Refines(f, h) && OwnsAll(h, k.id)
    ensures Safe(k.(file := f, history := h, beliefs := beliefs, sessions := sessions)) <==> EchoesHeld(k, h)
  {
    hide Refines, OwnsAll, EchoesHeld;
    var k' := k.(file := f, history := h, beliefs := beliefs, sessions := sessions);
    assert DeviceOk(k');
    hide DeviceOk;
    OtherLogKeepsSafeIff(k, k');
  }

  /** Each step leaves the device that takes it safe, except a careless restore. */
  lemma DeviceAfterIsSafeIff(m: Mesh, s: Step)
    requires Core(m) && ChannelSafe(m) && Enabled(m, s)
    ensures Safe(DeviceAfter(m.devices[s.id], s)) <==> (s.Restore? ==> Careful(m, s))
  {
    hide Core, Safe, Honest, LogMinted, Refines, OwnsAll, Served, EchoesHeld, PrunedStayHome, Accepted, NamesOrigins,
         LocalDelete, Apply, ApplyUpTo, PruneLines;
    var d := m.devices[s.id];
    match s
    case Remember(_, user, gid) => MemoryKeepsSafe(d, d.beliefs + {(user, gid)}, d.sessions);
    case Summarise(_, user, session) => MemoryKeepsSafe(d, d.beliefs, d.sessions + {(user, session)});
    case Forget(_, user, scope, key, l) => ForgetKeepsSafe(d, user, scope, key, l);
    case Compact(_, before, now) => CompactKeepsSafe(d, before, now);
    case Send(_, _, _) =>
    case Deliver(_, b, tape) =>
      AcceptedNamesOrigins(b, d.tenant, d.app);
      ApplyKeepsSafe(d, b, tape);
    case Abort(_, b, tape, n) =>
      AcceptedNamesOrigins(b, d.tenant, d.app);
      FailedApplyKeepsSafe(d, b, tape, n);
    case Backup(_) =>
    case Restore(_, k, f, h, beliefs, sessions) => RestoreKeepsSafeIff(k, f, h, beliefs, sessions);
  }

  /** An export is honest, except a careless one. */
  lemma SendIsHonestIff(d: Device, since: int, n: nat)
    requires DeviceOk(d) && Served(d.file, since, n) && (Overshoots(d.file, since) ==> DistinctKeys(d.history))
    ensures Honest(BatchOf(d.file, d.id, ServedFrom(d.file, since), n))
       <==> (Overshoots(d.file, since) ==> PrunedStayHome(d.file, d.history))
  {
    hide Refines, ReadFrom, Honest, PrunedStayHome, DistinctKeys, OwnsAll;
    RefinesBasics(d.file, d.history);
    if Overshoots(d.file, since) {
      OvershootIsHonestIff(d.file, d.history, d.id, n);
    } else {
      ExportIsHonest(d.file, d.history, d.id, since, n);
    }
  }

  lemma CarefulSendIsHonest(d: Device, since: int, n: nat)
    requires DeviceOk(d) && Served(d.file, since, n)
    requires Overshoots(d.file, since) ==> PrunedStayHome(d.file, d.history)
    ensures Honest(BatchOf(d.file, d.id, ServedFrom(d.file, since), n))
  {
    hide Refines, ReadFrom, Honest, PrunedStayHome, OwnsAll;
    RefinesBasics(d.file, d.history);
    if Overshoots(d.file, since) {
      OvershootIsHonest(d.file, d.history, d.id, n);
    } else {
      ExportIsHonest(d.file, d.history, d.id, since, n);
    }
  }

  lemma StepKeepsSafe(m: Mesh, s: Step)
    requires Core(m) && ChannelSafe(m) && Enabled(m, s) && Careful(m, s)
    ensures ChannelSafe(Next(m, s))
  {
    hide Safe, Honest, Core, DeviceAfter, BatchOf, Served, ServedFrom, EchoesHeld, PrunedStayHome, Accepted, Refines;
    DeviceAfterIsSafeIff(m, s);
    if s.Send? {
      CoreIsOk(m, s.id);
      CarefulSendIsHonest(m.devices[s.id], s.since, s.n);
    }
  }

  /** A step keeps the channel safe exactly when it is careful. */
  lemma StepKeepsSafeIff(m: Mesh, s: Step)
    requires Core(m) && ChannelSafe(m) && Enabled(m, s)
    requires s.Send? && Overshoots(m.devices[s.id].file, s.since) ==> DistinctKeys(m.devices[s.id].history)
    ensures ChannelSafe(Next(m, s)) <==> Careful(m, s)
  {
    hide Safe, Honest, Core, DeviceAfter, BatchOf, ServedFrom, EchoesHeld, PrunedStayHome, Accepted, Refines,
         DistinctKeys, ReadFrom;
    if Careful(m, s) {
      StepKeepsSafe(m, s);
    } else {
      DeviceAfterIsSafeIff(m, s);
      if s.Send? {
        CoreIsOk(m, s.id);
        SendIsHonestIff(m.devices[s.id], s.since, s.n);
        assert BatchOf(m.devices[s.id].file, s.id, ServedFrom(m.devices[s.id].file, s.since), s.n) in Next(m, s).flight;
      } else {
        assert Next(m, s).devices[s.id] == DeviceAfter(m.devices[s.id], s);
      }
    }
  }

  lemma CoreIsOk(m: Mesh, id: string)
    requires Core(m) && id in m.devices
    ensures DeviceOk(m.devices[id]) && m.devices[id].id == id
  {
  }

  // ---------------------------------------------------------------------------------------------
  // The invariant of runs in which refused forgets are made up for
  // ---------------------------------------------------------------------------------------------

  ghost predicate Forgotten(m: Mesh) {
    && (forall id :: id in m.devices ==> NoResurrection(m.devices[id]))
    && (forall k :: k in m.backups ==> NoResurrection(k))
  }

  /** The step leaves no refused forget behind. */
  ghost predicate Heeded(m: Mesh, s: Step)
    requires Enabled(m, s)
  {
    s.Deliver? ==> Heeds(m.devices[s.id], s.batch, s.tape)
  }

  lemma DeleteKeepsForgotten(d: Device, user: string, scope: Scope, key: string, l: Local)
    requires NoResurrection(d)
    ensures NoResurrection(LocalDelete(d, user, scope, key, l))
  {
    hide AppendLines;
  }

  /** A new global id is one that no recorded tombstone names. */
  lemma RememberKeepsForgotten(d: Device, user: string, gid: string, minted: set<string>)
    requires DeviceCore(d, minted) && NoResurrection(d) && gid !in minted
    ensures NoResurrection(d.(beliefs := d.beliefs + {(user, gid)}))
  {
    hide DeviceOk;
  }

  lemma DeviceAfterForgetsIff(m: Mesh, s: Step)
    requires Core(m) && Forgotten(m) && Enabled(m, s)
    ensures NoResurrection(DeviceAfter(m.devices[s.id], s)) <==> Heeded(m, s)
  {
    hide DeviceCore, LogMinted, Refines, OwnsAll, Served, Accepted, LocalDelete, ApplyUpTo, Apply, PruneLines, Heeds,
         BatchMinted;
    var d := m.devices[s.id];
    match s
    case Remember(_, user, gid) => RememberKeepsForgotten(d, user, gid, m.minted);
    case Forget(_, user, scope, key, l) => DeleteKeepsForgotten(d, user, scope, key, l);
    case Deliver(_, b, tape) => ApplyKeepsForgottenIff(d, b, tape);
    case _ =>
  }

  /** A step keeps forgotten beliefs out of every memory and backup exactly when it leaves no refused forget behind. */
  lemma StepKeepsForgottenIff(m: Mesh, s: Step)
    requires Core(m) && Forgotten(m) && Enabled(m, s)
    ensures Forgotten(Next(m, s)) <==> Heeded(m, s)
  {
    hide Core, NoResurrection, DeviceAfter, BatchOf, Served, ServedFrom, Accepted, Refines, Heeds;
    DeviceAfterForgetsIff(m, s);
    assert Next(m, s).devices[s.id] == DeviceAfter(m.devices[s.id], s);
  }

  lemma InitIsSafe(m: Mesh)
    requires Init(m)
    ensures Core(m) && ChannelSafe(m) && Forgotten(m)
  {
    forall id | id in m.devices ensures DeviceCore(m.devices[id], m.minted) && Safe(m.devices[id]) {
      var d := m.devices[id];
      var now :| d.file == [GenesisOf(id, now)];
      var g := GenesisOf(id, now);
      assert LineOk([g], 0) && LinkOk([g], 0);
      assert Refines(d.file, d.history);
    }
  }

  // ---------------------------------------------------------------------------------------------
  // Runs
  // ---------------------------------------------------------------------------------------------

  /** A run: consecutive states joined by enabled steps. */
  ghost predicate IsRunOf(states: seq<Mesh>, steps: seq<Step>) {
    && |states| == |steps| + 1 && Init(states[0])
    && forall i :: 0 <= i < |steps| ==> Enabled(states[i], steps[i]) && states[i + 1] == Next(states[i], steps[i])
  }

  ghost predicate IsCarefulRunOf(states: seq<Mesh>, steps: seq<Step>) {
    IsRunOf(states, steps) && forall i :: 0 <= i < |steps| ==> Careful(states[i], steps[i])
  }

  lemma {:induction false} RunHasCore(states: seq<Mesh>, steps: seq<Step>, i: nat)
    requires IsRunOf(states, steps) && i < |states|
    ensures Core(states[i])
  {
    hide Core, Enabled, Next, Init;
    if i == 0 {
      InitIsSafe(states[0]);
    } else {
      RunHasCore(states, steps, i - 1);
      StepKeepsCore(states[i - 1], steps[i - 1]);
    }
  }

  lemma {:induction false} CarefulRunIsSafe(states: seq<Mesh>, steps: seq<Step>, i: nat)
    requires IsCarefulRunOf(states, steps) && i < |states|
    ensures ChannelSafe(states[i])
  {
    hide Core, ChannelSafe, Enabled, Next, Init, Careful;
    if i == 0 {
      InitIsSafe(states[0]);
    } else {
      CarefulRunIsSafe(states, steps, i - 1);
      RunHasCore(states, steps, i - 1);
      StepKeepsSafe(states[i - 1], steps[i - 1]);
    }
  }

  /** If the sender's log still has the hash a receiver stored for it, at the cursor it stored, then
      every travelling entry of the sender up to that cursor was applied at the receiver or happened
      there. */
  ghost predicate MissesNothing(m: Mesh, r: string, s: string)
    requires r in m.devices && s in m.devices && s in m.devices[r].peers
  {
    var a := m.devices[r].peers[s];
    var sender := m.devices[s];
    ScanChainHash(sender.file, a.cursor) == a.chain ==>
      forall n :: 1 <= n <= a.cursor ==>
                    && n < |sender.history|
                    && (Travels(sender.history[n]) ==> Has(m.devices[r], EntryKey(sender.history[n])))
  }

  lemma SafeMeshMissesNothing(m: Mesh, r: string, s: string)
    requires Core(m) && ChannelSafe(m) && r in m.devices && s in m.devices && s in m.devices[r].peers
    ensures MissesNothing(m, r, s)
  {
    CoreIsOk(m, s);
    hide Core, DeviceMinted, Travels, Has, ScanChainHash, DeviceOk;
    assert Safe(m.devices[r]);
    if ScanChainHash(m.devices[s].file, m.devices[r].peers[s].cursor) == m.devices[r].peers[s].chain {
      SafeMissesNothing(m.devices[r], m.devices[s]);
    }
  }

  /** Channel safety holds between every two devices in every state of a careful run. */
  lemma ChannelSafety(states: seq<Mesh>, steps: seq<Step>, i: nat, r: string, s: string)
    requires IsCarefulRunOf(states, steps) && i < |states|
    requires r in states[i].devices && s in states[i].devices && s in states[i].devices[r].peers
    ensures MissesNothing(states[i], r, s)
  {
    RunHasCore(states, steps, i);
    CarefulRunIsSafe(states, steps, i);
    hide Core, ChannelSafe, MissesNothing, IsRunOf, IsCarefulRunOf;
    SafeMeshMissesNothing(states[i], r, s);
  }

  /** In every state of every run that left no refused forget behind, on every device and in every backup, no stored
      belief carries a global id that a recorded belief tombstone of its user names. */
  lemma {:induction false} NoBeliefResurrection(states: seq<Mesh>, steps: seq<Step>, i: nat)
    requires IsRunOf(states, steps) && i < |states|
    requires forall j :: 0 <= j < i ==> Heeded(states[j], steps[j])
    ensures forall id :: id in states[i].devices ==> NoResurrection(states[i].devices[id])
    ensures forall k :: k in states[i].backups ==> NoResurrection(k)
  {
    RunForgets(states, steps, i);
    hide NoResurrection, IsRunOf, Heeded;
  }

  lemma {:induction false} RunForgets(states: seq<Mesh>, steps: seq<Step>, i: nat)
    requires IsRunOf(states, steps) && i < |states|
    requires forall j :: 0 <= j < i ==> Heeded(states[j], steps[j])
    ensures Forgotten(states[i])
  {
    hide Core, Forgotten, Enabled, Next, Init, Heeded;
    if i == 0 {
      InitIsSafe(states[0]);
    } else {
      RunForgets(states, steps, i - 1);
      RunHasCore(states, steps, i - 1);
      StepKeepsForgottenIff(states[i - 1], steps[i - 1]);
    }
  }
}
