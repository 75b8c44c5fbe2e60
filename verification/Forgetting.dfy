/**
 * `forget_belief`: which of the rows it deletes end up fingerprinted in the deletion log.  Two of its
 * appends are skipped when nothing was collected before them; since every stored belief has an event,
 * over whole runs with open deletions, backups and replays, that never happens.  And when exactly a
 * forgotten belief stays gone.
 */
module Forgetting {
  import opened Basics
  import opened Chain
  import opened Replay

  /** The rows one targeted forget deletes, as fingerprints.  `versions` belong to `identity`: without the
      identity nobody looks for them. */
  datatype Footprint = Footprint(
    belief: Fingerprint, events: seq<Fingerprint>, links: seq<Fingerprint>, digests: seq<Fingerprint>,
    transitions: seq<Fingerprint>, identity: Option<Fingerprint>, versions: seq<Fingerprint>,
    proposals: seq<Fingerprint>, orphans: seq<Fingerprint>, snapshots: seq<Fingerprint>)

  predicate AllIn(fps: seq<Fingerprint>, table: string) {
    forall i :: 0 <= i < |fps| ==> fps[i].table == table
  }

  /** Every row lies in its own table. */
  predicate WellTabled(p: Footprint) {
    && p.belief.table == "mm_beliefs"
    && AllIn(p.events, "mm_belief_events") && AllIn(p.links, "mm_belief_evidence_links")
    && AllIn(p.digests, "mm_evidence_digests") && AllIn(p.transitions, "mm_memory_transitions")
    && (p.identity.Some? ==> p.identity.value.table == "mm_belief_identities")
    && AllIn(p.versions, "mm_belief_versions") && AllIn(p.proposals, "mm_proposal_log")
    && AllIn(p.orphans, "mm_evidence") && AllIn(p.snapshots, "mm_snapshots")
  }

  /** The rows that go. */
  function Deleted(p: Footprint): set<Fingerprint> {
    {p.belief} + (set f | f in p.events) + (set f | f in p.links) + (set f | f in p.digests)
    + (set f | f in p.transitions) + (set f | f in p.proposals) + (set f | f in p.orphans) + (set f | f in p.snapshots)
    + (if p.identity.Some? then {p.identity.value} + (set f | f in p.versions) else {})
  }

  /** Something was collected before the identity row's turn came. */
  predicate IdentityRecorded(p: Footprint) {
    |p.events| + |p.links| + |p.digests| + |p.transitions| + |p.versions| > 0
  }

  /** Something was collected before the belief row's turn came. */
  predicate BeliefRecorded(p: Footprint) {
    || |p.events| + |p.links| + |p.digests| + |p.transitions| + |p.proposals| > 0
    || (p.identity.Some? && |p.versions| > 0)
  }

  /** `fingerprints and fingerprints.append(...)`: an empty list is false, so a first row is skipped. */
  function AppendIfAny(fps: seq<Fingerprint>, f: Fingerprint): seq<Fingerprint> {
    if fps == [] then [] else fps + [f]
  }

  function Ledger(p: Footprint, fps: seq<Fingerprint>): seq<Fingerprint> {
    if p.identity.Some? then AppendIfAny(fps + p.versions, p.identity.value) else fps
  }

  /** What one forget puts into its log entry. */
  function Recorded(p: Footprint): seq<Fingerprint> {
    AppendIfAny(Ledger(p, p.events + p.links + p.digests + p.transitions) + p.proposals, p.belief)
    + p.orphans + p.snapshots
  }

  /** The belief row is recorded exactly when something was collected before it. */
  lemma BeliefIsRecordedIff(p: Footprint)
    requires WellTabled(p)
    ensures p.belief in Recorded(p) <==> BeliefRecorded(p)
  {
  }

  /** The identity row is recorded exactly when something was collected before it. */
  lemma IdentityIsRecordedIff(p: Footprint)
    requires WellTabled(p) && p.identity.Some?
    ensures p.identity.value in Recorded(p) <==> IdentityRecorded(p)
  {
  }

  /** A recorded row is one that goes, and every row that goes is recorded but for the two above. */
  lemma OthersAreRecorded(p: Footprint, f: Fingerprint)
    ensures f in Recorded(p) ==> f in Deleted(p)
    ensures f in Deleted(p) && f != p.belief && p.identity != Some(f) ==> f in Recorded(p)
  {
  }

  /** A forget's log entry covers everything the forget deletes exactly when something was collected before
      the identity, if there is one, and before the belief. */
  lemma ForgetIsFullyRecordedIff(p: Footprint)
    requires WellTabled(p)
    ensures (forall f :: f in Deleted(p) ==> f in Recorded(p))
            <==> BeliefRecorded(p) && (p.identity.Some? ==> IdentityRecorded(p))
  {
    BeliefIsRecordedIff(p);
    if p.identity.Some? {
      IdentityIsRecordedIff(p);
    }
    assert p.belief in Deleted(p) && (p.identity.Some? ==> p.identity.value in Deleted(p));
    hide Recorded, Deleted, BeliefRecorded, IdentityRecorded;
    forall f | f in Deleted(p) && f != p.belief && p.identity != Some(f) ensures f in Recorded(p) {
      OthersAreRecorded(p, f);
    }
  }

  lemma CollectionFacts(p: Footprint)
    requires WellTabled(p)
    ensures forall f :: f in Recorded(p) ==> f in Deleted(p)
    ensures forall f :: f in Deleted(p) && f != p.belief && p.identity != Some(f) ==> f in Recorded(p)
    ensures p.belief in Recorded(p) <==> BeliefRecorded(p)
    ensures p.identity.Some? ==> (p.identity.value in Recorded(p) <==> IdentityRecorded(p))
    ensures |p.events| > 0 ==> forall f :: f in Deleted(p) ==> f in Recorded(p)
  {
    ForgetIsFullyRecordedIff(p);
    BeliefIsRecordedIff(p);
    if p.identity.Some? {
      IdentityIsRecordedIff(p);
    }
    hide Recorded, Deleted, WellTabled;
    forall f ensures f in Recorded(p) ==> f in Deleted(p)
             ensures f in Deleted(p) && f != p.belief && p.identity != Some(f) ==> f in Recorded(p) {
      OthersAreRecorded(p, f);
    }
  }

  /** `forget_belief`, its fingerprint collection.  No row is recorded that does not go; every row that goes is
      recorded, but the identity and the belief only if something was collected before them, which a
      single event of the belief is enough for. */
  method ForgetBelief(p: Footprint) returns (fps: seq<Fingerprint>)
    requires WellTabled(p)
    ensures fps == Recorded(p)
    ensures forall f :: f in fps ==> f in Deleted(p)
    ensures forall f :: f in Deleted(p) && f != p.belief && p.identity != Some(f) ==> f in fps
    ensures p.belief in fps <==> BeliefRecorded(p)
    ensures p.identity.Some? ==> (p.identity.value in fps <==> IdentityRecorded(p))
    ensures |p.events| > 0 ==> forall f :: f in Deleted(p) ==> f in fps
  {
    hide AllIn, Deleted, WellTabled;
    fps := p.events;
    fps := fps + p.links;
    fps := fps + p.digests;
    fps := fps + p.transitions;
    if p.identity.Some? {
      fps := fps + p.versions;
      if |fps| > 0 {
        fps := fps + [p.identity.value];
      }
    }
    fps := fps + p.proposals;
    if |fps| > 0 {
      fps := fps + [p.belief];
    }
    fps := fps + p.orphans;
    fps := fps + p.snapshots;
    assert fps == Recorded(p);
    CollectionFacts(p);
  }

  /** A belief about which nothing had been collected comes back with every backup that holds it, however
      often its entry is replayed: the condition is exact. */
  lemma ForgottenBeliefStaysGoneIff(db: Db, es: seq<Entry>, i: nat, p: Footprint, row: Row)
    requires WellTabled(p) && row in db.rows && row.fp == p.belief
    requires i < |es| && !IsMarker(es[i]) && Candidate(row, es[i].what) && es[i].what.fingerprints == Recorded(p)
    requires forall j :: 0 <= j < |es| && j != i ==> row.fp !in es[j].what.fingerprints
    ensures row !in ReplayAll(db, es).rows <==> BeliefRecorded(p)
  {
    BeliefIsRecordedIff(p);
    hide Recorded, BeliefRecorded, WellTabled, Candidate;
    ReplayClosedForm(db, es);
  }

  // ---------------------------------------------------------------------------------------------
  // What deletions record, replay deletes
  // ---------------------------------------------------------------------------------------------

  /** Field by field: a forget about which an event was collected records every row of its footprint. */
  lemma RecordsEveryField(p: Footprint)
    requires WellTabled(p) && |p.events| > 0
    ensures forall f :: f in Recorded(p) <==>
                          || f in p.events || f in p.links || f in p.digests || f in p.transitions || f in p.proposals
                          || f in p.orphans || f in p.snapshots || f == p.belief
                          || (p.identity.Some? && (f == p.identity.value || f in p.versions))
  {
    CollectionFacts(p);
    hide Recorded, WellTabled;
  }

  /** Every table that a targeted forget records has a replay handler. */
  lemma ForgetIsHandled(p: Footprint, e: Entry)
    requires WellTabled(p) && e.what.fingerprints == Recorded(p)
    ensures !Unhandled(e)
  {
    hide Recorded;
    forall i | 0 <= i < |e.what.fingerprints| ensures e.what.fingerprints[i].table in HANDLERS {
      assert e.what.fingerprints[i] in Recorded(p);
      OthersAreRecorded(p, e.what.fingerprints[i]);
      DeletedTables(p, e.what.fingerprints[i]);
    }
  }

  lemma DeletedTables(p: Footprint, f: Fingerprint)
    requires WellTabled(p) && f in Deleted(p)
    ensures f.table in {"mm_beliefs", "mm_belief_events", "mm_belief_evidence_links", "mm_evidence_digests",
                        "mm_memory_transitions", "mm_belief_identities", "mm_belief_versions", "mm_proposal_log",
                        "mm_evidence", "mm_snapshots"}
  {
    hide AllIn;
    if f in p.events { TableOf(p.events, "mm_belief_events", f); }
    if f in p.links { TableOf(p.links, "mm_belief_evidence_links", f); }
    if f in p.digests { TableOf(p.digests, "mm_evidence_digests", f); }
    if f in p.transitions { TableOf(p.transitions, "mm_memory_transitions", f); }
    if f in p.proposals { TableOf(p.proposals, "mm_proposal_log", f); }
    if f in p.orphans { TableOf(p.orphans, "mm_evidence", f); }
    if f in p.snapshots { TableOf(p.snapshots, "mm_snapshots", f); }
    if f in p.versions { TableOf(p.versions, "mm_belief_versions", f); }
  }

  lemma TableOf(fps: seq<Fingerprint>, table: string, f: Fingerprint)
    requires AllIn(fps, table) && f in fps
    ensures f.table == table
  {
  }

  /** The tables of a whole-user deletion. */
  const USER_TABLES: set<string> := {
    "mm_belief_events", "mm_intervention_events", "mm_evidence_digests", "mm_memory_transitions",
    "mm_belief_versions", "mm_belief_identities", "mm_proposal_log", "mm_beliefs",
    "mm_belief_evidence_links", "mm_evidence", "mm_extraction_stats", "mm_evolution_jobs",
    "mm_snapshots", "mm_session_summaries" }

  /** The one table of a session deletion. */
  const SESSION_TABLE := "mm_session_summaries"

  /** Every fingerprint lies in a table that the deletion of this scope collects from. */
  ghost predicate CollectedBy(scope: Scope, fps: seq<Fingerprint>) {
    match scope
    case User => forall i :: 0 <= i < |fps| ==> fps[i].table in USER_TABLES
    case Session => forall i :: 0 <= i < |fps| ==> fps[i].table == SESSION_TABLE
    case Belief => exists p :: WellTabled(p) && fps == Recorded(p)
    case _ => false
  }

  /** Replay handles whatever a deletion of any scope records, and no table that none of them does. */
  lemma CollectedIsHandled(e: Entry)
    requires CollectedBy(e.what.scope, e.what.fingerprints)
    ensures !Unhandled(e) && !IsMarker(e) && HANDLERS == USER_TABLES
  {
    hide Recorded, WellTabled;
    EveryTableIsHandled();
    if e.what.scope.Belief? {
      var p :| WellTabled(p) && e.what.fingerprints == Recorded(p);
      ForgetIsHandled(p, e);
    }
  }

  lemma EveryTableIsHandled()
    ensures HANDLERS == USER_TABLES && SESSION_TABLE in HANDLERS
  {
  }

  /** Replaying a log in which a deletion of any scope recorded a row, for the row's tenant and user, leaves no such
      row; an evidence link, which has no user, goes for the tenant alone. */
  lemma RecordedRowsAreGone(db: Db, es: seq<Entry>, i: nat, r: Row)
    requires i < |es| && CollectedBy(es[i].what.scope, es[i].what.fingerprints) && r.fp in es[i].what.fingerprints
    requires r.tenant == es[i].what.tenant && r.app == es[i].what.app
    requires r.user == es[i].what.user || r.fp.table == "mm_belief_evidence_links"
    ensures !Unhandled(es[i]) && r !in ReplayAll(db, es).rows
  {
    hide CollectedBy;
    CollectedIsHandled(es[i]);
    RowSurvivesIff(db, es, r);
  }

  /** So a replayed forget leaves no row of its footprint that is its tenant's and its user's, or a link. */
  lemma ForgottenFootprintIsGone(db: Db, es: seq<Entry>, i: nat, p: Footprint, r: Row)
    requires WellTabled(p) && |p.events| > 0 && r.fp in Deleted(p)
    requires i < |es| && es[i].what.scope == Belief && es[i].what.fingerprints == Recorded(p)
    requires r.tenant == es[i].what.tenant && r.app == es[i].what.app
    requires r.user == es[i].what.user || r.fp.table == "mm_belief_evidence_links"
    ensures !Unhandled(es[i]) && r !in ReplayAll(db, es).rows
  {
    hide Recorded, Deleted, WellTabled;
    CollectionFacts(p);
    RecordedRowsAreGone(db, es, i, r);
  }

  // ---------------------------------------------------------------------------------------------
  // Every stored belief has an event
  // ---------------------------------------------------------------------------------------------

  /** The belief rows, and the event rows with the belief each is about. */
  datatype Memory = Memory(beliefs: set<Fingerprint>, about: map<Fingerprint, Fingerprint>)

  /** The main database: what it holds, and up to which entry of the log that is. */
  datatype Main = Main(memory: Memory, watermark: nat)

  /** A deletion whose entry is in the log at `pos` and whose transaction is still open. */
  datatype Txn = Txn(pos: nat, rows: set<Fingerprint>)

  /** A backup, and the positions at or below its watermark that were still open when it was taken. */
  datatype Backup = Backup(main: Main, open: set<nat>)

  /** The log as the rows each entry names, the entry at position `n` being `log[n - 1]`, and every event row there
      ever was.  The log is not compacted here: compaction only refuses some restores. */
  datatype World = World(
    now: Main, log: seq<set<Fingerprint>>, open: set<Txn>, backups: set<Backup>, born: map<Fingerprint, Fingerprint>)

  /** Every way a belief comes to be writes its "created" event in the same transaction.  A deletion logs first and
      then commits or not, and others come in between. */
  datatype Move =
    | Create(belief: Fingerprint, event: Fingerprint)
    | Note(belief: Fingerprint, event: Fingerprint)
    | LogForget(p: Footprint)
    | LogUser(gone: set<Fingerprint>)
    | Commit(txn: Txn)
    | Abort(txn: Txn)
    | TakeBackup
    | Restart
    | Restore(backup: Backup)

  function RowsOf(fps: seq<Fingerprint>): set<Fingerprint> {
    set f | f in fps
  }

  function EventsAbout(m: Memory, beliefs: set<Fingerprint>): set<Fingerprint> {
    set e | e in m.about && m.about[e] in beliefs
  }

  function Without(m: Memory, rows: set<Fingerprint>): Memory {
    Memory(m.beliefs - rows, map e | e in m.about && e !in rows :: m.about[e])
  }

  function Replayed(m: Memory, log: seq<set<Fingerprint>>): Memory {
    if |log| == 0 then m else Without(Replayed(m, log[..|log| - 1]), log[|log| - 1])
  }

  /** The footprint is that of a stored belief, with exactly its event rows. */
  predicate FootprintOf(m: Memory, p: Footprint) {
    && WellTabled(p) && p.belief in m.beliefs
    && RowsOf(p.events) == EventsAbout(m, {p.belief})
  }

  predicate FreshEvent(w: World, e: Fingerprint) {
    && e.table == "mm_belief_events" && e !in w.born
    && forall i :: 0 <= i < |w.log| ==> e !in w.log[i]
  }

  predicate Enabled(w: World, m: Move) {
    match m
    case Create(b, e) => b.table == "mm_beliefs" && FreshEvent(w, e)
    case Note(b, e) => b in w.now.memory.beliefs && FreshEvent(w, e)
    case LogForget(p) => FootprintOf(w.now.memory, p)
    case LogUser(gone) => gone <= w.now.memory.beliefs
    case Commit(t) => t in w.open
    case Abort(t) => t in w.open
    case TakeBackup => true
    case Restart => w.now.watermark <= |w.log|
    case Restore(k) => k in w.backups && k.main.watermark <= |w.log|
  }

  /** The deletion logs `entry` and is about to delete `rows`. */
  function Logged(w: World, entry: set<Fingerprint>, rows: set<Fingerprint>): World {
    w.(log := w.log + [entry], open := w.open + {Txn(|w.log| + 1, rows)})
  }

  function Written(w: World, b: Fingerprint, e: Fingerprint): World {
    w.(now := w.now.(memory := Memory(w.now.memory.beliefs + {b}, w.now.memory.about[e := b])), born := w.born[e := b])
  }

  /** The process stops, its open transactions roll back, and it comes up again on database `d`. */
  function UpAgain(w: World, d: Main): World
    requires d.watermark <= |w.log|
  {
    w.(now := Main(Replayed(d.memory, w.log[d.watermark..]), |w.log|), open := {})
  }

  function OpenBelow(open: set<Txn>, n: nat): set<nat> {
    set t | t in open && t.pos <= n :: t.pos
  }

  function Next(w: World, m: Move): World
    requires Enabled(w, m)
  {
    match m
    case Create(b, e) => Written(w, b, e)
    case Note(b, e) => Written(w, b, e)
    case LogForget(p) => Logged(w, RowsOf(Recorded(p)), {p.belief} + EventsAbout(w.now.memory, {p.belief}))
    case LogUser(gone) =>
      var rows := gone + EventsAbout(w.now.memory, gone);
      Logged(w, rows, rows)
    case Commit(t) => w.(now := Main(Without(w.now.memory, t.rows), t.pos), open := w.open - {t})
    case Abort(t) => w.(open := w.open - {t})
    case TakeBackup => w.(backups := w.backups + {Backup(w.now, OpenBelow(w.open, w.now.watermark))})
    case Restart => UpAgain(w, w.now)
    case Restore(k) => UpAgain(w, k.main)
  }

  /** Each belief has an event, and events keep the belief they were written for. */
  ghost predicate Witnessed(m: Memory, born: map<Fingerprint, Fingerprint>) {
    && (forall b :: b in m.beliefs ==> b.table == "mm_beliefs" && exists e :: e in m.about && m.about[e] == b)
    && (forall e :: e in m.about ==> e in born && born[e] == m.about[e])
  }

  /** Rows that include an event include its belief. */
  predicate Closed(rows: set<Fingerprint>, born: map<Fingerprint, Fingerprint>) {
    forall e :: e in rows && e in born ==> born[e] in rows
  }

  /** A database of this log. */
  ghost predicate MainOk(d: Main, w: World) {
    Witnessed(d.memory, w.born) && d.watermark <= |w.log|
  }

  /** An open deletion deletes rows that its entry names. */
  predicate TxnOk(t: Txn, w: World) {
    1 <= t.pos <= |w.log| && t.rows <= w.log[t.pos - 1] && Closed(t.rows, w.born)
  }

  ghost predicate Inv(w: World) {
    && MainOk(w.now, w)
    && (forall k :: k in w.backups ==> MainOk(k.main, w))
    && (forall t :: t in w.open ==> TxnOk(t, w))
    && (forall t, k :: t in w.open && k in w.backups && t.pos <= k.main.watermark ==> t.pos in k.open)
    && (forall i :: 0 <= i < |w.log| ==> Closed(w.log[i], w.born))
    && (forall e :: e in w.born ==> e.table == "mm_belief_events")
  }

  /** Removing rows closed under "is about" takes no belief's last event alone. */
  lemma WithoutKeepsWitnesses(m: Memory, rows: set<Fingerprint>, born: map<Fingerprint, Fingerprint>)
    requires Witnessed(m, born) && Closed(rows, born)
    ensures Witnessed(Without(m, rows), born)
  {
    var r := Without(m, rows);
    forall b | b in r.beliefs ensures exists e :: e in r.about && r.about[e] == b {
      var e :| e in m.about && m.about[e] == b;
      assert e in r.about;
    }
  }

  lemma {:induction false} ReplayKeepsWitnesses(m: Memory, log: seq<set<Fingerprint>>,
                                                born: map<Fingerprint, Fingerprint>)
    requires Witnessed(m, born) && forall i :: 0 <= i < |log| ==> Closed(log[i], born)
    ensures Witnessed(Replayed(m, log), born)
  {
    hide Witnessed, Closed;
    if |log| > 0 {
      ReplayKeepsWitnesses(m, log[..|log| - 1], born);
      WithoutKeepsWitnesses(Replayed(m, log[..|log| - 1]), log[|log| - 1], born);
    }
  }

  /** A forget of a belief that has an event covers everything it deletes. */
  lemma WitnessedIsFullyRecorded(m: Memory, born: map<Fingerprint, Fingerprint>, p: Footprint)
    requires Witnessed(m, born) && FootprintOf(m, p)
    ensures forall f :: f in Deleted(p) ==> f in Recorded(p)
  {
    hide Recorded, Deleted, AllIn;
    var e :| e in m.about && m.about[e] == p.belief;
    assert e in EventsAbout(m, {p.belief});
    ForgetIsFullyRecordedIff(p);
  }

  /** The entry of a forget is closed, and names the belief and its events. */
  lemma ForgetEntryIsClosed(m: Memory, born: map<Fingerprint, Fingerprint>, p: Footprint)
    requires Witnessed(m, born) && FootprintOf(m, p) && forall e :: e in born ==> e.table == "mm_belief_events"
    ensures Closed(RowsOf(Recorded(p)), born)
    ensures {p.belief} + EventsAbout(m, {p.belief}) <= RowsOf(Recorded(p))
  {
    hide Recorded, Deleted;
    WitnessedIsFullyRecorded(m, born, p);
    DeletedEvents(p);
    forall e | e in Recorded(p) && e in born ensures born[e] in Recorded(p) {
      OthersAreRecorded(p, e);
      assert e in EventsAbout(m, {p.belief});
    }
    assert forall e :: e in EventsAbout(m, {p.belief}) ==> e in RowsOf(p.events);
  }

  /** The belief is among the rows that go, its events are, and no other events are. */
  lemma DeletedEvents(p: Footprint)
    requires WellTabled(p)
    ensures p.belief in Deleted(p)
    ensures forall f :: f in p.events ==> f in Deleted(p)
    ensures forall f :: f in Deleted(p) && f.table == "mm_belief_events" ==> f in p.events
  {
  }

  lemma UserRowsAreClosed(m: Memory, born: map<Fingerprint, Fingerprint>, gone: set<Fingerprint>)
    requires Witnessed(m, born) && gone <= m.beliefs
    requires forall e :: e in born ==> e.table == "mm_belief_events"
    ensures Closed(gone + EventsAbout(m, gone), born)
  {
  }

  lemma WriteKeepsWitnesses(m: Memory, born: map<Fingerprint, Fingerprint>, b: Fingerprint, e: Fingerprint)
    requires Witnessed(m, born) && b.table == "mm_beliefs" && e !in born
    ensures Witnessed(Memory(m.beliefs + {b}, m.about[e := b]), born[e := b])
  {
    var m' := Memory(m.beliefs + {b}, m.about[e := b]);
    forall c | c in m'.beliefs ensures exists x :: x in m'.about && m'.about[x] == c {
      if c == b {
        assert e in m'.about && m'.about[e] == b;
      } else {
        var x :| x in m.about && m.about[x] == c;
        assert x in m'.about && m'.about[x] == c;
      }
    }
  }

  lemma BornKeepsWitnesses(m: Memory, born: map<Fingerprint, Fingerprint>, b: Fingerprint, e: Fingerprint)
    requires Witnessed(m, born) && e !in born
    ensures Witnessed(m, born[e := b])
  {
  }

  lemma BornKeepsClosed(rows: set<Fingerprint>, born: map<Fingerprint, Fingerprint>, b: Fingerprint, e: Fingerprint)
    requires Closed(rows, born) && e !in rows
    ensures Closed(rows, born[e := b])
  {
  }

  /** Writing an event row, with its belief or for one that is stored, keeps everything. */
  lemma WriteKeepsInv(w: World, b: Fingerprint, e: Fingerprint)
    requires Inv(w) && b.table == "mm_beliefs" && FreshEvent(w, e)
    ensures Inv(Written(w, b, e))
  {
    hide Witnessed, Closed;
    var w' := Written(w, b, e);
    WriteKeepsWitnesses(w.now.memory, w.born, b, e);
    forall k | k in w.backups ensures MainOk(k.main, w') {
      BornKeepsWitnesses(k.main.memory, w.born, b, e);
    }
    forall i | 0 <= i < |w.log| ensures Closed(w.log[i], w'.born) {
      BornKeepsClosed(w.log[i], w.born, b, e);
    }
    forall t | t in w.open ensures TxnOk(t, w') {
      assert TxnOk(t, w) && e !in w.log[t.pos - 1];
      BornKeepsClosed(t.rows, w.born, b, e);
    }
  }

  /** Logging a deletion whose entry is closed and names all it deletes. */
  lemma LogKeepsInv(w: World, entry: set<Fingerprint>, rows: set<Fingerprint>)
    requires Inv(w) && Closed(entry, w.born) && Closed(rows, w.born) && rows <= entry
    ensures Inv(Logged(w, entry, rows))
  {
    hide Witnessed, Closed;
    var w' := Logged(w, entry, rows);
    forall t | t in w'.open ensures TxnOk(t, w') {
      assert t in w.open ==> TxnOk(t, w);
    }
    forall k | k in w.backups ensures MainOk(k.main, w') {
      assert MainOk(k.main, w);
    }
  }

  lemma CommitKeepsInv(w: World, t: Txn)
    requires Inv(w) && t in w.open
    ensures Inv(Next(w, Commit(t)))
  {
    assert TxnOk(t, w);
    WithoutKeepsWitnesses(w.now.memory, t.rows, w.born);
    hide Witnessed, Closed, Without;
    var w' := Next(w, Commit(t));
    forall k | k in w.backups ensures MainOk(k.main, w') {
      assert MainOk(k.main, w);
    }
    forall u | u in w'.open ensures TxnOk(u, w') {
      assert TxnOk(u, w);
    }
  }

  lemma UpAgainKeepsInv(w: World, d: Main)
    requires Inv(w) && MainOk(d, w)
    ensures Inv(UpAgain(w, d))
  {
    hide Witnessed, Closed, Replayed;
    ReplayKeepsWitnesses(d.memory, w.log[d.watermark..], w.born);
    var w' := UpAgain(w, d);
    forall k | k in w.backups ensures MainOk(k.main, w') {
      assert MainOk(k.main, w);
    }
  }

  lemma BackupKeepsInv(w: World)
    requires Inv(w)
    ensures Inv(Next(w, TakeBackup))
  {
    hide Witnessed, Closed;
    var w' := Next(w, TakeBackup);
    forall k | k in w'.backups ensures MainOk(k.main, w') {
      assert k in w.backups ==> MainOk(k.main, w);
    }
    forall t | t in w'.open ensures TxnOk(t, w') {
      assert TxnOk(t, w);
    }
  }

  lemma AbortKeepsInv(w: World, t: Txn)
    requires Inv(w) && t in w.open
    ensures Inv(Next(w, Abort(t)))
  {
    hide Witnessed, Closed;
    var w' := Next(w, Abort(t));
    forall k | k in w.backups ensures MainOk(k.main, w') {
      assert MainOk(k.main, w);
    }
    forall u | u in w'.open ensures TxnOk(u, w') {
      assert TxnOk(u, w);
    }
  }

  lemma StepKeepsInv(w: World, m: Move)
    requires Inv(w) && Enabled(w, m)
    ensures Inv(Next(w, m))
  {
    hide Witnessed, Closed, Logged, Written, UpAgain, EventsAbout, Recorded, WellTabled, FreshEvent;
    match m
    case Create(b, e) => WriteKeepsInv(w, b, e);
    case Note(b, e) =>
      BeliefTable(w, b);
      WriteKeepsInv(w, b, e);
    case LogForget(p) =>
      ForgetEntryIsClosed(w.now.memory, w.born, p);
      UserRowsAreClosed(w.now.memory, w.born, {p.belief});
      LogKeepsInv(w, RowsOf(Recorded(p)), {p.belief} + EventsAbout(w.now.memory, {p.belief}));
    case LogUser(gone) =>
      UserRowsAreClosed(w.now.memory, w.born, gone);
      var rows := gone + EventsAbout(w.now.memory, gone);
      LogKeepsInv(w, rows, rows);
    case Commit(t) => CommitKeepsInv(w, t);
    case Abort(t) => AbortKeepsInv(w, t);
    case TakeBackup => BackupKeepsInv(w);
    case Restart => UpAgainKeepsInv(w, w.now);
    case Restore(k) => UpAgainKeepsInv(w, k.main);
  }

  lemma BeliefTable(w: World, b: Fingerprint)
    requires Inv(w) && b in w.now.memory.beliefs
    ensures b.table == "mm_beliefs"
  {
  }

  predicate Init(w: World) {
    w.now == Main(Memory({}, map[]), 0) && w.log == [] && w.open == {} && w.backups == {} && w.born == map[]
  }

  predicate IsRun(run: seq<World>, moves: seq<Move>) {
    && |run| == |moves| + 1 && Init(run[0])
    && forall i :: 0 <= i < |moves| ==> Enabled(run[i], moves[i]) && run[i + 1] == Next(run[i], moves[i])
  }

  lemma {:induction false} RunHasInv(run: seq<World>, moves: seq<Move>, n: nat)
    requires IsRun(run, moves) && n <= |moves|
    ensures Inv(run[n])
  {
    hide Enabled, Next, Inv;
    if n == 0 {
      InitHasInv(run[0]);
    } else {
      RunHasInv(run, moves, n - 1);
      StepKeepsInv(run[n - 1], moves[n - 1]);
    }
  }

  lemma InitHasInv(w: World)
    requires Init(w)
    ensures Inv(w)
  {
  }

  /** In every reachable state, between deletions that are open, through failed ones, backups, restores and replays, a
      forget records every row it deletes: the appends that an empty list would skip are never skipped. */
  lemma EveryForgetIsFullyRecorded(run: seq<World>, moves: seq<Move>, n: nat, p: Footprint)
    requires IsRun(run, moves) && n <= |moves| && FootprintOf(run[n].now.memory, p)
    ensures forall f :: f in Deleted(p) <==> f in Recorded(p)
  {
    hide Recorded, Deleted, WellTabled;
    RunHasInv(run, moves, n);
    WitnessedIsFullyRecorded(run[n].now.memory, run[n].born, p);
    forall f | f in Recorded(p) ensures f in Deleted(p) {
      OthersAreRecorded(p, f);
    }
  }

  // ---------------------------------------------------------------------------------------------
  // Forgotten beliefs stay gone
  // ---------------------------------------------------------------------------------------------

  /** Some entry above position `n` names the belief. */
  predicate NamedAbove(log: seq<set<Fingerprint>>, n: nat, b: Fingerprint) {
    exists i :: n <= i < |log| && b in log[i]
  }

  /** The backup holds the belief, was taken while the deletion at `at` was open at or below its watermark, and no
      entry above that watermark names the belief. */
  predicate BringsBack(w: World, k: Backup, b: Fingerprint, at: nat) {
    b in k.main.memory.beliefs && at in k.open && at <= k.main.watermark && !NamedAbove(w.log, k.main.watermark, b)
  }

  /** A replay removes exactly the named beliefs. */
  lemma {:induction false} ReplayRemovesIff(m: Memory, log: seq<set<Fingerprint>>, b: Fingerprint)
    ensures b in Replayed(m, log).beliefs <==> b in m.beliefs && !NamedAbove(log, 0, b)
  {
    if |log| > 0 {
      var rest := log[..|log| - 1];
      ReplayRemovesIff(m, rest, b);
      assert forall i :: 0 <= i < |rest| ==> rest[i] == log[i];
      if b in log[|log| - 1] {
        assert NamedAbove(log, 0, b);
      } else if i :| 0 <= i < |log| && b in log[i] {
        assert b in rest[i];
      }
    }
  }

  lemma NamedInSuffix(log: seq<set<Fingerprint>>, n: nat, b: Fingerprint)
    requires n <= |log|
    ensures NamedAbove(log[n..], 0, b) <==> NamedAbove(log, n, b)
  {
    if i :| n <= i < |log| && b in log[i] {
      assert log[n..][i - n] == log[i];
    }
  }

  /** The belief is not stored, its deletion's entry names it, and a backup that holds it is older than that entry or
      was taken while the deletion was open. */
  predicate Gone(w: World, b: Fingerprint, at: nat) {
    && b !in w.now.memory.beliefs && 1 <= at <= |w.log| && b in w.log[at - 1]
    && forall k :: k in w.backups && b in k.main.memory.beliefs ==> k.main.watermark < at || at in k.open
  }

  lemma JustCommitted(w: World, t: Txn, b: Fingerprint)
    requires Inv(w) && t in w.open && b in t.rows
    ensures Gone(Next(w, Commit(t)), b, t.pos)
  {
    hide Witnessed, Closed;
    assert TxnOk(t, w);
  }

  /** What the next step makes of a forgotten belief: it comes back exactly by such a restore, or anew. */
  lemma StepKeepsGoneIff(w: World, m: Move, b: Fingerprint, at: nat)
    requires Inv(w) && Gone(w, b, at) && Enabled(w, m) && !(m.Create? && m.belief == b)
    ensures m.Restore? && BringsBack(w, m.backup, b, at) ==> b in Next(w, m).now.memory.beliefs
    ensures !(m.Restore? && BringsBack(w, m.backup, b, at)) ==> Gone(Next(w, m), b, at)
  {
    hide Recorded, WellTabled, Deleted, Replayed, FreshEvent, EventsAbout, Witnessed, Closed;
    match m
    case Restart =>
      ReplayRemovesIff(w.now.memory, w.log[w.now.watermark..], b);
    case Restore(k) =>
      ReplayRemovesIff(k.main.memory, w.log[k.main.watermark..], b);
      NamedInSuffix(w.log, k.main.watermark, b);
      if b in k.main.memory.beliefs && k.main.watermark < at {
        assert w.log[at - 1] == w.log[k.main.watermark..][at - 1 - k.main.watermark];
        assert NamedAbove(w.log, k.main.watermark, b);
      }
    case _ =>
  }

  lemma {:induction false} GoneUntil(run: seq<World>, moves: seq<Move>, j: nat, n: nat, b: Fingerprint)
    requires IsRun(run, moves) && j < n <= |moves| && moves[j].Commit? && b in moves[j].txn.rows
    requires forall i :: j < i < n ==> !(moves[i].Create? && moves[i].belief == b)
    requires forall i :: j < i < n ==> !(moves[i].Restore? && BringsBack(run[i], moves[i].backup, b, moves[j].txn.pos))
    ensures Gone(run[n], b, moves[j].txn.pos)
  {
    hide Recorded, Deleted, WellTabled, Gone, Inv, BringsBack, Next;
    assert Enabled(run[n - 1], moves[n - 1]) && run[n] == Next(run[n - 1], moves[n - 1]);
    RunHasInv(run, moves, n - 1);
    if n == j + 1 {
      JustCommitted(run[j], moves[j].txn, b);
    } else {
      GoneUntil(run, moves, j, n - 1, b);
      StepKeepsGoneIff(run[n - 1], moves[n - 1], b, moves[j].txn.pos);
    }
  }

  /** A belief whose deletion committed is stored at no later moment, whatever is deleted, replayed, backed up and
      restored, exactly when no restored backup holds it that was taken while the deletion was open at or below the
      backup's watermark, with no entry above that watermark naming the belief. */
  lemma ForgottenStaysGoneIff(run: seq<World>, moves: seq<Move>, j: nat, n: nat, b: Fingerprint)
    requires IsRun(run, moves) && j < n <= |moves| && moves[j].Commit? && b in moves[j].txn.rows
    requires forall i :: j < i < n ==> !(moves[i].Create? && moves[i].belief == b)
    ensures (forall m :: j < m <= n ==> b !in run[m].now.memory.beliefs)
       <==> !exists i :: j < i < n && moves[i].Restore? && BringsBack(run[i], moves[i].backup, b, moves[j].txn.pos)
  {
    hide Enabled, Next, Inv, BringsBack, Init;
    var at := moves[j].txn.pos;
    if i :| j < i < n && moves[i].Restore? && BringsBack(run[i], moves[i].backup, b, at) {
      RestoreBringsBack(run[i], moves[i].backup, b, at);
      assert b in run[i + 1].now.memory.beliefs;
    } else {
      forall m | j < m <= n ensures b !in run[m].now.memory.beliefs {
        GoneUntil(run, moves, j, m, b);
      }
    }
  }

  lemma RestoreBringsBack(w: World, k: Backup, b: Fingerprint, at: nat)
    requires Enabled(w, Restore(k)) && BringsBack(w, k, b, at)
    ensures b in Next(w, Restore(k)).now.memory.beliefs
  {
    ReplayRemovesIff(k.main.memory, w.log[k.main.watermark..], b);
    NamedInSuffix(w.log, k.main.watermark, b);
  }

  // ---------------------------------------------------------------------------------------------
  // Such a restore, in a run
  // ---------------------------------------------------------------------------------------------

  ghost predicate Reaches(moves: seq<Move>, w: World) {
    exists run: seq<World> :: IsRun(run, moves) && run[|moves|] == w
  }

  lemma ReachNext(moves: seq<Move>, w: World, m: Move)
    requires Reaches(moves, w) && Enabled(w, m)
    ensures Reaches(moves + [m], Next(w, m))
  {
    hide Init, Enabled, Next;
    var run: seq<World> :| IsRun(run, moves) && run[|moves|] == w;
    var run' := run + [Next(w, m)];
    var moves' := moves + [m];
    forall i | 0 <= i < |moves'| ensures Enabled(run'[i], moves'[i]) && run'[i + 1] == Next(run'[i], moves'[i]) {
      assert i < |moves| ==> run'[i] == run[i] && run'[i + 1] == run[i + 1] && moves'[i] == moves[i];
    }
    assert IsRun(run', moves');
  }

  /** The footprint of a belief with one event and nothing else. */
  function OnlyEvent(b: Fingerprint, e: Fingerprint): Footprint {
    Footprint(b, [e], [], [], [], None, [], [], [], [])
  }

  lemma OnlyEventFacts(m: Memory, b: Fingerprint, e: Fingerprint)
    requires b.table == "mm_beliefs" && e.table == "mm_belief_events" && b in m.beliefs
    requires EventsAbout(m, {b}) == {e}
    ensures FootprintOf(m, OnlyEvent(b, e)) && RowsOf(Recorded(OnlyEvent(b, e))) == {b, e}
  {
    var r := Recorded(OnlyEvent(b, e));
    assert r == [e, b];
    assert RowsOf(r) == {b, e} && RowsOf([e]) == {e};
  }

  /** Two beliefs, each with its event. */
  lemma BothCreated(b: Fingerprint, c: Fingerprint, e: Fingerprint, f: Fingerprint)
    requires b != c && e != f && b.table == c.table == "mm_beliefs" && e.table == f.table == "mm_belief_events"
    ensures var m := Memory({b, c}, map[e := b, f := c]);
            && Reaches([Create(b, e), Create(c, f)], World(Main(m, 0), [], {}, {}, m.about))
            && EventsAbout(m, {b}) == {e} && EventsAbout(m, {c}) == {f}
  {
    hide Reaches;
    var w0 := World(Main(Memory({}, map[]), 0), [], {}, {}, map[]);
    Start(w0);
    ReachNext([], w0, Create(b, e));
    var w1 := World(Main(Memory({b}, map[e := b]), 0), [], {}, {}, map[e := b]);
    assert Next(w0, Create(b, e)) == w1 && [] + [Create(b, e)] == [Create(b, e)];
    ReachNext([Create(b, e)], w1, Create(c, f));
    var w2 := World(Main(Memory({b, c}, map[e := b, f := c]), 0), [], {}, {}, map[e := b, f := c]);
    assert Next(w1, Create(c, f)) == w2 && [Create(b, e)] + [Create(c, f)] == [Create(b, e), Create(c, f)];
  }

  /** Both forgets logged. */
  lemma BothLogged(b: Fingerprint, c: Fingerprint, e: Fingerprint, f: Fingerprint)
    requires b != c && e != f && b.table == c.table == "mm_beliefs" && e.table == f.table == "mm_belief_events"
    ensures Reaches([Create(b, e), Create(c, f), LogForget(OnlyEvent(b, e)), LogForget(OnlyEvent(c, f))],
                    World(Main(Memory({b, c}, map[e := b, f := c]), 0), [{b, e}, {c, f}],
                          {Txn(1, {b, e}), Txn(2, {c, f})}, {}, map[e := b, f := c]))
  {
    hide Reaches, Recorded, WellTabled, EventsAbout, FootprintOf;
    BothCreated(b, c, e, f);
    var m := Memory({b, c}, map[e := b, f := c]);
    var w2 := World(Main(m, 0), [], {}, {}, map[e := b, f := c]);
    OnlyEventFacts(m, b, e);
    OnlyEventFacts(m, c, f);
    var moves := [Create(b, e), Create(c, f)];
    ReachNext(moves, w2, LogForget(OnlyEvent(b, e)));
    var w3 := w2.(log := [{b, e}], open := {Txn(1, {b, e})});
    assert {b} + {e} == {b, e} && {c} + {f} == {c, f};
    assert Next(w2, LogForget(OnlyEvent(b, e))) == w3;
    ReachNext(moves + [LogForget(OnlyEvent(b, e))], w3, LogForget(OnlyEvent(c, f)));
    assert [{b, e}] + [{c, f}] == [{b, e}, {c, f}];
    assert Next(w3, LogForget(OnlyEvent(c, f)))
        == w2.(log := [{b, e}, {c, f}], open := {Txn(1, {b, e}), Txn(2, {c, f})});
    assert moves + [LogForget(OnlyEvent(b, e))] + [LogForget(OnlyEvent(c, f))]
        == [Create(b, e), Create(c, f), LogForget(OnlyEvent(b, e)), LogForget(OnlyEvent(c, f))];
  }

  lemma Start(w: World)
    requires Init(w)
    ensures Reaches([], w)
  {
    assert IsRun([w], []);
  }

  /** The second forget committed. */
  lemma SecondGone(b: Fingerprint, c: Fingerprint, e: Fingerprint, f: Fingerprint)
    requires b != c && e != f && b.table == c.table == "mm_beliefs" && e.table == f.table == "mm_belief_events"
    ensures Reaches([Create(b, e), Create(c, f), LogForget(OnlyEvent(b, e)), LogForget(OnlyEvent(c, f)),
                     Commit(Txn(2, {c, f}))],
                    World(Main(Memory({b}, map[e := b]), 2), [{b, e}, {c, f}], {Txn(1, {b, e})}, {},
                          map[e := b, f := c]))
  {
    hide Reaches, Recorded, WellTabled;
    var first, second := Txn(1, {b, e}), Txn(2, {c, f});
    BothLogged(b, c, e, f);
    var born := map[e := b, f := c];
    var moves := [Create(b, e), Create(c, f), LogForget(OnlyEvent(b, e)), LogForget(OnlyEvent(c, f))];
    var w4 := World(Main(Memory({b, c}, born), 0), [{b, e}, {c, f}], {first, second}, {}, born);
    ReachNext(moves, w4, Commit(second));
    var held := Main(Memory({b}, map[e := b]), 2);
    var w5 := World(held, [{b, e}, {c, f}], {first}, {}, born);
    assert Without(w4.now.memory, {c, f}) == held.memory;
    assert Next(w4, Commit(second)) == w5;
    assert moves + [Commit(second)] == [Create(b, e), Create(c, f), LogForget(OnlyEvent(b, e)),
        LogForget(OnlyEvent(c, f)), Commit(second)];
  }

  /** Two forgets log, the second commits, a backup is taken, the first commits, and the restored backup holds the
      first one's belief. */
  lemma LateForgetRun(b: Fingerprint, c: Fingerprint, e: Fingerprint, f: Fingerprint)
    requires b != c && e != f && b.table == c.table == "mm_beliefs" && e.table == f.table == "mm_belief_events"
    ensures var first, second := Txn(1, {b, e}), Txn(2, {c, f});
            var k := Backup(Main(Memory({b}, map[e := b]), 2), {1});
            exists w ::
              && Reaches([Create(b, e), Create(c, f), LogForget(OnlyEvent(b, e)), LogForget(OnlyEvent(c, f)),
                          Commit(second), TakeBackup, Commit(first)], w)
              && w.now.memory.beliefs == {} && Enabled(w, Restore(k)) && BringsBack(w, k, b, 1)
              && Next(w, Restore(k)).now.memory.beliefs == {b}
  {
    hide Reaches, Recorded, WellTabled;
    var first, second := Txn(1, {b, e}), Txn(2, {c, f});
    SecondGone(b, c, e, f);
    var log := [{b, e}, {c, f}];
    var born := map[e := b, f := c];
    var moves := [Create(b, e), Create(c, f), LogForget(OnlyEvent(b, e)), LogForget(OnlyEvent(c, f)), Commit(second)];
    var held := Main(Memory({b}, map[e := b]), 2);
    var w5 := World(held, log, {first}, {}, born);
    ReachNext(moves, w5, TakeBackup);
    var k := Backup(held, {1});
    assert OpenBelow(w5.open, 2) == {1};
    var w6 := w5.(backups := {k});
    assert Next(w5, TakeBackup) == w6;
    ReachNext(moves + [TakeBackup], w6, Commit(first));
    var w7 := World(Main(Memory({}, map[]), 1), log, {}, {k}, born);
    assert Without(held.memory, {b, e}) == Memory({}, map[]);
    assert Next(w6, Commit(first)) == w7;
    assert moves + [TakeBackup] + [Commit(first)]
        == [Create(b, e), Create(c, f), LogForget(OnlyEvent(b, e)), LogForget(OnlyEvent(c, f)),
            Commit(second), TakeBackup, Commit(first)];
    assert log[2..] == [] && Replayed(held.memory, []) == held.memory;
  }
}
