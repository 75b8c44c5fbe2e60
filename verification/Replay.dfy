/**
 * Replay of the deletion log onto a restored or lagging main database.
 */
module Replay {
  import opened Basics
  import opened Chain
  import opened FileLog
  import opened Compaction

  /** A database row: its fingerprint and whom it belongs to. */
  datatype Row = Row(fp: Fingerprint, tenant: string, app: string, user: string)

  datatype Gen = Gen(tenant: string, app: string, user: string, generation: int)

  /** The main database as far as a deletion touches it.  `pending` are the job rows that are pending or
      running; `watermark` is the position of the last log entry applied. */
  datatype Db = Db(rows: set<Row>, pending: set<Row>, gens: set<Gen>, watermark: int)

  const LINKS := "mm_belief_evidence_links"

  const HANDLERS: set<string> := {
    "mm_beliefs", "mm_belief_events", "mm_evidence", "mm_evidence_digests",
    "mm_memory_transitions", "mm_belief_versions", "mm_belief_identities",
    "mm_proposal_log", "mm_snapshots", "mm_session_summaries",
    "mm_extraction_stats", "mm_intervention_events",
    "mm_belief_evidence_links", "mm_evolution_jobs" }

  /** The candidate rows of a table: the user's, or for links (which carry no user) the tenant's. */
  predicate Candidate(r: Row, what: Deletion) {
    r.tenant == what.tenant && r.app == what.app && (r.fp.table == LINKS || r.user == what.user)
  }

  /** The entry recorded this very row. */
  predicate Hit(r: Row, e: Entry) {
    Candidate(r, e.what) && r.fp in e.what.fingerprints
  }

  predicate OfUser(r: Row, what: Deletion) {
    r.tenant == what.tenant && r.app == what.app && r.user == what.user
  }

  /** The entry names a table replay has no handler for. */
  predicate Unhandled(e: Entry) {
    exists i :: 0 <= i < |e.what.fingerprints| && e.what.fingerprints[i].table !in HANDLERS
  }

  predicate IsMarker(e: Entry) {
    e.what.scope.Checkpoint? || e.what.scope.GenesisMark?
  }

  function GenOf(e: Entry): Gen {
    Gen(e.what.tenant, e.what.app, e.what.user, e.what.generation)
  }

  /** One entry applied: the recorded rows go, the user's waiting jobs are cancelled, the generation is on
      record. */
  function Applied(db: Db, e: Entry): Db {
    db.(rows := (set r | r in db.rows && !Hit(r, e)),
        pending := (set r | r in db.pending && !Hit(r, e) && !OfUser(r, e.what)),
        gens := db.gens + {GenOf(e)})
  }

  /** One entry of the replay loop: markers are skipped, the watermark moves with the entry. */
  function Step(db: Db, e: Entry): Db {
    if IsMarker(e) then db else Applied(db, e).(watermark := e.pos)
  }

  function ReplayAll(db: Db, es: seq<Entry>): Db {
    if |es| == 0 then db else Step(ReplayAll(db, es[..|es| - 1]), es[|es| - 1])
  }

  // ---------------------------------------------------------------------------------------------
  // What a replay comes to
  // ---------------------------------------------------------------------------------------------

  /** A deletion among the entries recorded the row. */
  predicate HitBy(r: Row, es: seq<Entry>) {
    exists i :: 0 <= i < |es| && !IsMarker(es[i]) && Hit(r, es[i])
  }

  predicate CancelledBy(r: Row, es: seq<Entry>) {
    exists i :: 0 <= i < |es| && !IsMarker(es[i]) && (Hit(r, es[i]) || OfUser(r, es[i].what))
  }

  function GensOf(es: seq<Entry>): set<Gen> {
    set i | 0 <= i < |es| && !IsMarker(es[i]) :: GenOf(es[i])
  }

  /** A replay as one set difference: what it leaves does not depend on the order of the entries, nor on
      how often each occurs. */
  lemma {:induction false} ReplayClosedForm(db: Db, es: seq<Entry>)
    ensures var d := ReplayAll(db, es);
            && d.rows == (set r | r in db.rows && !HitBy(r, es))
            && d.pending == (set r | r in db.pending && !CancelledBy(r, es))
            && d.gens == db.gens + GensOf(es)
  {
    if |es| > 0 {
      var rest := es[..|es| - 1];
      var last := es[|es| - 1];
      ReplayClosedForm(db, rest);
      forall r ensures HitBy(r, es) <==> HitBy(r, rest) || (!IsMarker(last) && Hit(r, last)) {
        HitByLast(r, es);
      }
      forall r
        ensures CancelledBy(r, es)
           <==> CancelledBy(r, rest) || (!IsMarker(last) && (Hit(r, last) || OfUser(r, last.what)))
      {
        CancelledByLast(r, es);
      }
      GensOfLast(es);
      hide HitBy, CancelledBy, Hit, OfUser, GensOf;
    }
  }

  lemma HitByLast(r: Row, es: seq<Entry>)
    requires |es| > 0
    ensures HitBy(r, es) <==> HitBy(r, es[..|es| - 1]) || (!IsMarker(es[|es| - 1]) && Hit(r, es[|es| - 1]))
  {
  }

  lemma CancelledByLast(r: Row, es: seq<Entry>)
    requires |es| > 0
    ensures CancelledBy(r, es) <==>
              CancelledBy(r, es[..|es| - 1])
              || (!IsMarker(es[|es| - 1]) && (Hit(r, es[|es| - 1]) || OfUser(r, es[|es| - 1].what)))
  {
  }

  lemma GensOfLast(es: seq<Entry>)
    requires |es| > 0
    ensures GensOf(es) == GensOf(es[..|es| - 1]) + (if IsMarker(es[|es| - 1]) then {} else {GenOf(es[|es| - 1])})
  {
  }

  /** A stored row survives a replay exactly when no deletion in it records the row for the row's tenant, and for its
      user unless it is an evidence link, which has none. */
  lemma RowSurvivesIff(db: Db, es: seq<Entry>, r: Row)
    ensures r in ReplayAll(db, es).rows <==>
              && r in db.rows
              && forall i :: 0 <= i < |es| ==>
                   || es[i].what.scope == GenesisMark || es[i].what.scope == Checkpoint
                   || r.fp !in es[i].what.fingerprints
                   || r.tenant != es[i].what.tenant || r.app != es[i].what.app
                   || (r.user != es[i].what.user && r.fp.table != "mm_belief_evidence_links")
  {
    ReplayClosedForm(db, es);
  }

  /** A waiting job survives a replay exactly when no deletion in it is of the job's user, or records the job. */
  lemma JobSurvivesIff(db: Db, es: seq<Entry>, r: Row)
    requires r.fp.table == "mm_evolution_jobs"
    ensures r in ReplayAll(db, es).pending <==>
              && r in db.pending
              && forall i :: 0 <= i < |es| ==>
                   || es[i].what.scope == GenesisMark || es[i].what.scope == Checkpoint
                   || r.tenant != es[i].what.tenant || r.app != es[i].what.app || r.user != es[i].what.user
  {
    ReplayClosedForm(db, es);
  }

  /** The order in which entries are replayed, and repeating some, makes no difference to the data. */
  lemma ReplayIsOrderFree(db: Db, es: seq<Entry>, fs: seq<Entry>)
    requires forall e :: e in es <==> e in fs
    ensures ReplayAll(db, es).(watermark := 0) == ReplayAll(db, fs).(watermark := 0)
  {
    ReplayClosedForm(db, es);
    ReplayClosedForm(db, fs);
    SameEntriesSameHits(es, fs);
  }

  lemma SameEntriesSameHits(es: seq<Entry>, fs: seq<Entry>)
    requires forall e :: e in es <==> e in fs
    ensures forall r :: HitBy(r, es) <==> HitBy(r, fs)
    ensures forall r :: CancelledBy(r, es) <==> CancelledBy(r, fs)
    ensures GensOf(es) == GensOf(fs)
  {
    hide Hit, IsMarker, OfUser, GenOf;
    SubEntriesSubHits(es, fs);
    SubEntriesSubHits(fs, es);
  }

  lemma SubEntriesSubHits(es: seq<Entry>, fs: seq<Entry>)
    requires forall e :: e in es ==> e in fs
    ensures forall r :: HitBy(r, es) ==> HitBy(r, fs)
    ensures forall r :: CancelledBy(r, es) ==> CancelledBy(r, fs)
    ensures GensOf(es) <= GensOf(fs)
  {
    hide Hit, IsMarker, OfUser, GenOf;
    forall i | 0 <= i < |es| ensures exists j :: 0 <= j < |fs| && fs[j] == es[i] {
      assert es[i] in fs;
    }
  }

  /** Replaying entries that were already replayed changes nothing. */
  lemma ReplayIsIdempotent(db: Db, es: seq<Entry>, again: seq<Entry>)
    requires forall e :: e in again ==> e in es
    ensures var d := ReplayAll(db, es);
            ReplayAll(d, again).(watermark := d.watermark) == d
  {
    var d := ReplayAll(db, es);
    ReplayClosedForm(db, es);
    ReplayClosedForm(d, again);
    SubEntriesSubHits(again, es);
    hide HitBy, CancelledBy, GensOf;
  }

  /** A user's highest recorded generation. */
  ghost predicate IsMaxGen(gens: set<Gen>, tenant: string, app: string, user: string, n: int) {
    && (n == 0 || Gen(tenant, app, user, n) in gens)
    && n >= 0 && forall g :: g in gens && g.tenant == tenant && g.app == app && g.user == user ==> g.generation <= n
  }

  /** A replay never lowers a user's generation and leaves it at or above every replayed entry's. */
  lemma GenerationsNeverRollBack(db: Db, es: seq<Entry>, tenant: string, app: string, user: string,
        before: int, after: int)
    requires IsMaxGen(db.gens, tenant, app, user, before)
    requires IsMaxGen(ReplayAll(db, es).gens, tenant, app, user, after)
    ensures before <= after
    ensures forall i :: 0 <= i < |es| && !IsMarker(es[i])
                        && es[i].what.tenant == tenant && es[i].what.app == app && es[i].what.user == user ==>
                          es[i].what.generation <= after
  {
    ReplayClosedForm(db, es);
    assert before > 0 ==> Gen(tenant, app, user, before) in ReplayAll(db, es).gens;
    forall i | 0 <= i < |es| && !IsMarker(es[i])
               && es[i].what.tenant == tenant && es[i].what.app == app && es[i].what.user == user
      ensures es[i].what.generation <= after
    {
      assert GenOf(es[i]) in GensOf(es);
    }
  }

  // ---------------------------------------------------------------------------------------------
  // Crashes
  // ---------------------------------------------------------------------------------------------

  lemma {:induction false} ReplayInTwo(db: Db, es: seq<Entry>, fs: seq<Entry>)
    ensures ReplayAll(ReplayAll(db, es), fs) == ReplayAll(db, es + fs)
  {
    if |fs| == 0 {
      assert es + fs == es;
    } else {
      ReplayInTwo(db, es, fs[..|fs| - 1]);
      assert (es + fs)[..|es + fs| - 1] == es + fs[..|fs| - 1];
    }
  }

  /** Consecutive deletions: what the log holds above a watermark that is not below its checkpoint. */
  predicate Consecutive(es: seq<Entry>, after: int) {
    forall i :: 0 <= i < |es| ==> es[i].pos == after + 1 + i && !IsMarker(es[i])
  }

  lemma {:induction false} WatermarkAfter(db: Db, es: seq<Entry>)
    requires Consecutive(es, db.watermark)
    ensures ReplayAll(db, es).watermark == db.watermark + |es|
  {
  }

  /** Above a watermark at or above the checkpoint, the file holds consecutive deletions up to the head. */
  lemma EntriesAbove(lines: seq<Entry>, w: int)
    requires LogShape(lines) && CheckpointOf(lines) <= w <= HeadPos(lines)
    ensures var es := Keep(lines, AbovePos(w));
            && Consecutive(es, w) && |es| == HeadPos(lines) - w
            && |es| <= |lines| && es == lines[|lines| - |es|..]
  {
    ShapeFacts(lines);
    ShapeIncreases(lines);
    KeepAbove(lines, LineOf(lines, w));
    hide Keep;
  }

  /** Reading above a later watermark gives the tail of what an earlier one gave. */
  lemma EntriesAboveLater(lines: seq<Entry>, w: int, n: nat)
    requires LogShape(lines) && CheckpointOf(lines) <= w && w + n <= HeadPos(lines)
    ensures n <= |Keep(lines, AbovePos(w))|
    ensures Keep(lines, AbovePos(w + n)) == Keep(lines, AbovePos(w))[n..]
  {
    hide LogShape, CheckpointOf, HeadPos, Keep, Consecutive;
    EntriesAbove(lines, w);
    EntriesAbove(lines, w + n);
  }

  /** One attempt: at most `n` entries from where the watermark stands. */
  function Attempt(db: Db, lines: seq<Entry>, n: nat): Db {
    var es := Keep(lines, AbovePos(db.watermark));
    ReplayAll(db, if n < |es| then es[..n] else es)
  }

  /** A replay that is cut off after some entries, over and over. */
  function WithCrashes(db: Db, lines: seq<Entry>, crashes: seq<nat>): Db {
    if |crashes| == 0 then db
    else Attempt(WithCrashes(db, lines, crashes[..|crashes| - 1]), lines, crashes[|crashes| - 1])
  }

  /** What an uninterrupted replay makes of a database. */
  function Finished(db: Db, lines: seq<Entry>): Db {
    ReplayAll(db, Keep(lines, AbovePos(db.watermark)))
  }

  lemma AttemptKeepsFinished(db: Db, lines: seq<Entry>, limit: nat)
    requires LogShape(lines) && CheckpointOf(lines) <= db.watermark <= HeadPos(lines)
    ensures db.watermark <= Attempt(db, lines, limit).watermark <= HeadPos(lines)
    ensures Finished(Attempt(db, lines, limit), lines) == Finished(db, lines)
  {
    hide LogShape, CheckpointOf, HeadPos, Keep, Consecutive, ReplayAll;
    var w := db.watermark;
    var es := Keep(lines, AbovePos(w));
    EntriesAbove(lines, w);
    var n := if limit < |es| then limit else |es|;
    assert es[..|es|] == es;
    PrefixIsConsecutive(es, w, n);
    WatermarkAfter(db, es[..n]);
    EntriesAboveLater(lines, w, n);
    ReplayInTwo(db, es[..n], es[n..]);
    assert es[..n] + es[n..] == es;
  }

  /** However often and wherever a replay is interrupted, finishing it gives the same database as one
      uninterrupted replay. */
  lemma {:induction false} CrashesDoNotMatter(db: Db, lines: seq<Entry>, crashes: seq<nat>)
    requires LogShape(lines) && CheckpointOf(lines) <= db.watermark <= HeadPos(lines)
    ensures db.watermark <= WithCrashes(db, lines, crashes).watermark <= HeadPos(lines)
    ensures Finished(WithCrashes(db, lines, crashes), lines) == Finished(db, lines)
  {
    hide LogShape, CheckpointOf, HeadPos, Attempt, Finished;
    if |crashes| > 0 {
      var before := crashes[..|crashes| - 1];
      CrashesDoNotMatter(db, lines, before);
      AttemptKeepsFinished(WithCrashes(db, lines, before), lines, crashes[|crashes| - 1]);
    }
  }

  // ---------------------------------------------------------------------------------------------
  // The database object
  // ---------------------------------------------------------------------------------------------

  datatype Verdict =
    | InSync | Replayed
    | LogUnavailable   // no log, or a log of another database
    | ChainBroken
    | Pruned           // the backup is older than the log's retention
    | Stale            // the log is older than the database
    | Pending          // another instance is replaying
    | UnhandledTable(pos: int)

  class MainDb {
    var rows: set<Row>
    var pending: set<Row>
    var gens: set<Gen>
    var watermark: int

    constructor (db: Db)
      ensures State() == db
    {
      rows, pending, gens, watermark := db.rows, db.pending, db.gens, db.watermark;
    }

    function State(): Db
      reads this
    {
      Db(rows, pending, gens, watermark)
    }

    /** `_delete_matching` on one table: go through the candidate rows and delete the recorded ones, one by
        one.  Every row outside the table, the scope or the record stays. */
    method DeleteMatching(table: string, what: Deletion, wanted: set<Fingerprint>)
      modifies this`rows, this`pending
      ensures rows == Unmatched(old(rows), table, what, wanted)
      ensures pending == Unmatched(old(pending), table, what, wanted)
    {
      var candidates := set r | r in rows + pending && r.fp.table == table && Candidate(r, what);
      ghost var all := candidates;
      hide Candidate;
      while candidates != {}
        invariant candidates <= all
        invariant rows == set r | r in old(rows) && !(r in all - candidates && r.fp in wanted)
        invariant pending == set r | r in old(pending) && !(r in all - candidates && r.fp in wanted)
        decreases |candidates|
      {
        assert (forall r :: r !in candidates) ==> candidates == {};
        var row: Row :| row in candidates;
        if row.fp in wanted {
          rows := rows - {row};
          pending := pending - {row};
        }
        candidates := candidates - {row};
      }
    }

    /** `apply_entry`: refuse an unknown table before anything is touched; then table by table, in any
        order, and the jobs and the generation. */
    method ApplyEntry(e: Entry) returns (ok: bool)
      modifies this`rows, this`pending, this`gens
      ensures ok <==> !Unhandled(e)
      ensures !ok ==> State() == old(State())
      ensures ok ==> State() == Applied(old(State()), e)
    {
      var tables := set i | 0 <= i < |e.what.fingerprints| :: e.what.fingerprints[i].table;
      TablesAreHandled(e, tables);
      hide Unhandled, Unhit, Unmatched, HANDLERS, Hit, OfUser, Candidate;
      if !(tables <= HANDLERS) {
        return false;
      }
      DeleteTables(e, tables);
      UnhitAllTables(old(rows), tables, e);
      UnhitAllTables(old(pending), tables, e);
      pending := set r | r in pending && !OfUser(r, e.what);
      gens := gens + {GenOf(e)};
      assert pending == Applied(old(State()), e).pending;
      return true;
    }

    method DeleteTables(e: Entry, tables: set<string>)
      modifies this`rows, this`pending
      ensures rows == Unhit(old(rows), tables, e) && pending == Unhit(old(pending), tables, e)
    {
      hide Unhit, Unmatched;
      ghost var done: set<string> := {};
      var left := tables;
      UnhitNoTable(rows, e);
      UnhitNoTable(pending, e);
      while left != {}
        invariant done + left == tables && done !! left
        invariant rows == Unhit(old(rows), done, e) && pending == Unhit(old(pending), done, e)
        decreases |left|
      {
        assert (forall t :: t !in left) ==> left == {};
        var table: string :| table in left;
        var fps := e.what.fingerprints;
        var wanted := set i | 0 <= i < |fps| && fps[i].table == table :: fps[i];
        UnhitOneTable(old(rows), done, table, wanted, e);
        UnhitOneTable(old(pending), done, table, wanted, e);
        DeleteMatching(table, e.what, wanted);
        left := left - {table};
        done := done + {table};
      }
      assert done == tables;
    }

    /** The replay loop, cut off after `limit` entries: one transaction per entry. */
    method ReplayLoop(es: seq<Entry>, limit: nat) returns (n: nat, ok: bool)
      modifies this
      ensures n <= |es| && State() == ReplayAll(old(State()), es[..n])
      ensures ok ==> n == if limit < |es| then limit else |es|
      ensures !ok ==> n < |es| && n < limit && !IsMarker(es[n]) && Unhandled(es[n])
      ensures forall i :: 0 <= i < n && !IsMarker(es[i]) ==> !Unhandled(es[i])
    {
      hide Unhandled, Applied;
      n := 0;
      while n < |es| && n < limit
        invariant n <= |es| && n <= limit
        invariant State() == ReplayAll(old(State()), es[..n])
        invariant forall i :: 0 <= i < n && !IsMarker(es[i]) ==> !Unhandled(es[i])
      {
        var e := es[n];
        assert es[..n + 1][..n] == es[..n];
        if e.what.scope.Checkpoint? || e.what.scope.GenesisMark? {
          n := n + 1;
          continue;
        }
        ok := ApplyEntry(e);
        if !ok {
          return n, false;
        }
        watermark := e.pos;
        n := n + 1;
      }
      ok := true;
    }

    /** `reconcile`.  `log` is the log's file if one is configured; `held` says whether this instance got
        the replay lock; before it did, another instance replayed `others` entries. */
    method Reconcile(log: Option<seq<Entry>>, held: bool, others: nat) returns (v: Verdict)
      modifies this
      ensures log.None? ==> v == if old(watermark) > 0 then LogUnavailable else InSync
      ensures log.Some? ==> (v.LogUnavailable? <==> First(log.value, IsGenesis()) == |log.value|)
      ensures !v.Replayed? && !v.InSync? && !v.UnhandledTable? ==> State() == old(State())
      ensures log.Some? && LogShape(log.value) ==>
                ReconcileResult(old(State()), State(), log.value, held, v)
    {
      hide ReplayDone, ReplayedTo, NamesUnknownTable, Keep, Unknown, FirstUnknown, LogShape, Verified, First, ScanHead,
           ScanCheckpoint, HeadPos, CheckpointOf;
      if log.None? {
        return if watermark > 0 then LogUnavailable else InSync;
      }
      var lines := log.value;
      ghost var db := State();
      if LogShape(lines) {
        StartFacts(lines, db);
      }
      if First(lines, IsGenesis()) == |lines| {
        return LogUnavailable;
      }
      var ok := VerifyChain(lines);
      if !ok {
        return ChainBroken;
      }
      var tail := ScanHead(lines).0;
      var checkpoint := ScanCheckpoint(lines);
      var applied := watermark;
      if applied < checkpoint {
        return Pruned;
      }
      if applied > tail {
        return Stale;
      }
      if applied == tail {
        return InSync;
      }
      if !held {
        return Pending;
      }
      v := ReplayHeld(lines, others);
      if LogShape(lines) {
        HeldFacts(db, State(), lines, v);
      }
    }

    /** The locked part of `reconcile`: it gets as far as the first entry that names an unknown table, and
        what it has committed by then stays. */
    method ReplayHeld(lines: seq<Entry>, others: nat) returns (v: Verdict)
      requires LogShape(lines) ==> CheckpointOf(lines) <= watermark < HeadPos(lines)
      modifies this
      ensures v.InSync? || v.Replayed? || v.UnhandledTable?
      ensures LogShape(lines) ==> ReplayedTo(old(State()), State(), lines, v)
    {
      hide LogShape, Unhandled, Keep, ScanHead, ReplayAll, ReplayedTo, CheckpointOf, HeadPos, IsMarker;
      ghost var d0 := State();
      // another instance holds the lock first
      var es := Keep(lines, AbovePos(watermark));
      var n, ok := ReplayLoop(es, others);
      ghost var d1 := State();
      if LogShape(lines) {
        FirstHolder(d0, d1, lines, n);
      }
      if watermark >= ScanHead(lines).0 {
        return InSync;
      }
      var fs := Keep(lines, AbovePos(watermark));
      var m, ok' := ReplayLoop(fs, |fs|);
      if LogShape(lines) {
        SecondHolder(d0, lines, n, d1, m, State(), ok');
      }
      return if ok' then Replayed else UnhandledTable(fs[m].pos);
    }
  }

  predicate Unknown(e: Entry) {
    !IsMarker(e) && Unhandled(e)
  }

  /** Index of the first entry that names an unknown table, or the length. */
  function FirstUnknown(es: seq<Entry>): (k: nat)
    ensures k <= |es| && (k < |es| ==> Unknown(es[k]))
    ensures forall i :: 0 <= i < k ==> !Unknown(es[i])
  {
    if |es| == 0 || Unknown(es[0]) then 0 else 1 + FirstUnknown(es[1..])
  }

  /** A locked replay has applied every entry up to the first unknown one, and says so. */
  predicate ReplayedTo(before: Db, after: Db, lines: seq<Entry>, v: Verdict)
    requires LogShape(lines)
  {
    var es := Keep(lines, AbovePos(before.watermark));
    var k := FirstUnknown(es);
    && after == ReplayAll(before, es[..k])
    && (v.UnhandledTable? <==> k < |es|)
    && (v.UnhandledTable? ==> v.pos == es[k].pos)
    && (k == |es| ==> ReplayDone(before, after, lines))
  }

  /** The first holder of the replay lock stopped after `n` entries. */
  lemma FirstHolder(d0: Db, d1: Db, lines: seq<Entry>, n: nat)
    requires LogShape(lines) && CheckpointOf(lines) <= d0.watermark < HeadPos(lines)
    requires n <= |Keep(lines, AbovePos(d0.watermark))|
    requires d1 == ReplayAll(d0, Keep(lines, AbovePos(d0.watermark))[..n])
    requires forall i :: 0 <= i < n ==> !Unknown(Keep(lines, AbovePos(d0.watermark))[i])
    ensures ScanHead(lines).0 == HeadPos(lines)
    ensures d1.watermark == d0.watermark + n <= HeadPos(lines)
    ensures Keep(lines, AbovePos(d1.watermark)) == Keep(lines, AbovePos(d0.watermark))[n..]
    ensures d1.watermark >= HeadPos(lines) ==> ReplayedTo(d0, d1, lines, InSync)
  {
    hide LogShape, CheckpointOf, HeadPos, Keep, ScanHead, ReplayAll, Unknown, Consecutive;
    ShapeScans(lines, 0);
    var es := Keep(lines, AbovePos(d0.watermark));
    EntriesAbove(lines, d0.watermark);
    PrefixIsConsecutive(es, d0.watermark, n);
    WatermarkAfter(d0, es[..n]);
    EntriesAboveLater(lines, d0.watermark, n);
    assert es[..|es|] == es;
  }

  /** The second one went on from there. */
  lemma SecondHolder(d0: Db, lines: seq<Entry>, n: nat, d1: Db, m: nat, d2: Db, ok: bool)
    requires LogShape(lines) && CheckpointOf(lines) <= d0.watermark <= HeadPos(lines)
    requires var es := Keep(lines, AbovePos(d0.watermark));
             var fs := Keep(lines, AbovePos(d1.watermark));
             && n + m <= |es| && fs == es[n..]
             && d1 == ReplayAll(d0, es[..n]) && d2 == ReplayAll(d1, fs[..m])
             && (forall i :: 0 <= i < n ==> !Unknown(es[i])) && (forall i :: 0 <= i < m ==> !Unknown(fs[i]))
             && (ok ==> m == |fs|) && (!ok ==> m < |fs| && Unknown(fs[m]))
    ensures var fs := Keep(lines, AbovePos(d1.watermark));
            (!ok ==> m < |fs|) && ReplayedTo(d0, d2, lines, if ok then Replayed else UnhandledTable(fs[m].pos))
  {
    hide LogShape, CheckpointOf, HeadPos, Keep, ReplayAll, Unknown, Consecutive;
    var es := Keep(lines, AbovePos(d0.watermark));
    var fs := Keep(lines, AbovePos(d1.watermark));
    ReplayInTwo(d0, es[..n], fs[..m]);
    assert es[..n] + fs[..m] == es[..n + m];
    forall i | 0 <= i < n + m ensures !Unknown(es[i]) {
      assert i >= n ==> es[i] == fs[i - n];
    }
    assert m < |fs| ==> es[n + m] == fs[m];
    HeldSoFar(d0, d2, lines, n + m, ok);
  }

  /** The replay went through the first `n` entries and met an unknown table there, or the end. */
  lemma HeldSoFar(before: Db, after: Db, lines: seq<Entry>, n: nat, ok: bool)
    requires LogShape(lines) && CheckpointOf(lines) <= before.watermark <= HeadPos(lines)
    requires var es := Keep(lines, AbovePos(before.watermark));
             && n <= |es| && after == ReplayAll(before, es[..n]) && (forall i :: 0 <= i < n ==> !Unknown(es[i]))
             && (ok ==> n == |es|) && (!ok ==> n < |es| && Unknown(es[n]))
    ensures var es := Keep(lines, AbovePos(before.watermark));
            ReplayedTo(before, after, lines, if ok then Replayed else UnhandledTable(es[n].pos))
  {
    hide LogShape, CheckpointOf, HeadPos, Keep, ReplayAll, Unknown, Consecutive;
    var es := Keep(lines, AbovePos(before.watermark));
    EntriesAbove(lines, before.watermark);
    WatermarkAfter(before, es);
    assert es[..|es|] == es;
  }

  lemma PrefixIsConsecutive(es: seq<Entry>, after: int, n: nat)
    requires Consecutive(es, after) && n <= |es|
    ensures Consecutive(es[..n], after)
  {
  }

  lemma StartFacts(lines: seq<Entry>, db: Db)
    requires LogShape(lines)
    ensures First(lines, IsGenesis()) < |lines|
    ensures ScanHead(lines).0 == HeadPos(lines) && ScanCheckpoint(lines) == CheckpointOf(lines)
    ensures db.watermark == HeadPos(lines) ==> ReplayDone(db, db, lines) && !NamesUnknownTable(lines, db.watermark)
  {
    ShapeScans(lines, 0);
    ShapeFacts(lines);
    assert IsGenesis()(lines[0]);
    NothingAboveHead(lines, db);
  }

  lemma NothingAboveHead(lines: seq<Entry>, db: Db)
    requires LogShape(lines)
    ensures db.watermark == HeadPos(lines) ==> ReplayDone(db, db, lines) && !NamesUnknownTable(lines, db.watermark)
  {
    if db.watermark == HeadPos(lines) {
      EntriesAbove(lines, db.watermark);
      UnknownIsMet(lines, db.watermark);
    }
  }

  /** What `read_from` keeps, as members. */
  lemma {:induction false} KeptMembers(lines: seq<Entry>, w: int)
    ensures forall e :: e in Keep(lines, AbovePos(w)) <==> e in lines && e.pos > w
  {
    if |lines| > 0 {
      KeptMembers(lines[..|lines| - 1], w);
      assert lines == lines[..|lines| - 1] + [lines[|lines| - 1]];
    }
  }

  /** An entry above the position is unknown exactly when the replay from there stops early. */
  lemma UnknownIsMet(lines: seq<Entry>, w: int)
    ensures NamesUnknownTable(lines, w) <==> FirstUnknown(Keep(lines, AbovePos(w))) < |Keep(lines, AbovePos(w))|
  {
    hide Keep, IsMarker, Unhandled;
    KeptMembers(lines, w);
    var es := Keep(lines, AbovePos(w));
    if FirstUnknown(es) < |es| {
      assert es[FirstUnknown(es)] in es;
    }
  }

  /** What the locked part leaves, as an answer. */
  lemma HeldFacts(before: Db, after: Db, lines: seq<Entry>, v: Verdict)
    requires LogShape(lines) && ReplayedTo(before, after, lines, v) && (v.InSync? || v.Replayed? || v.UnhandledTable?)
    ensures v.UnhandledTable? <==> NamesUnknownTable(lines, before.watermark)
    ensures v.InSync? || v.Replayed? <==> !v.UnhandledTable?
    ensures v.InSync? || v.Replayed? ==> ReplayDone(before, after, lines)
  {
    hide Keep, LogShape, ReplayAll, FirstUnknown, NamesUnknownTable;
    UnknownIsMet(lines, before.watermark);
  }

  lemma TablesAreHandled(e: Entry, tables: set<string>)
    requires tables == set i | 0 <= i < |e.what.fingerprints| :: e.what.fingerprints[i].table
    ensures tables <= HANDLERS <==> !Unhandled(e)
  {
  }

  /** What `_delete_matching` leaves. */
  function Unmatched(rows: set<Row>, table: string, what: Deletion, wanted: set<Fingerprint>): set<Row> {
    set r | r in rows && !(r.fp.table == table && Candidate(r, what) && r.fp in wanted)
  }

  /** The rows left once the tables in `done` have been gone through. */
  function Unhit(rows: set<Row>, done: set<string>, e: Entry): set<Row> {
    set r | r in rows && !(r.fp.table in done && Hit(r, e))
  }

  lemma UnhitNoTable(rows: set<Row>, e: Entry)
    ensures Unhit(rows, {}, e) == rows
  {
  }

  lemma UnhitOneTable(rows: set<Row>, done: set<string>, table: string, wanted: set<Fingerprint>, e: Entry)
    requires var fps := e.what.fingerprints;
             wanted == set i | 0 <= i < |fps| && fps[i].table == table :: fps[i]
    ensures Unmatched(Unhit(rows, done, e), table, e.what, wanted) == Unhit(rows, done + {table}, e)
  {
  }

  lemma UnhitAllTables(rows: set<Row>, tables: set<string>, e: Entry)
    requires tables == set i | 0 <= i < |e.what.fingerprints| :: e.what.fingerprints[i].table
    ensures Unhit(rows, tables, e) == set r | r in rows && !Hit(r, e)
  {
  }

  /** The database is the one it was, less the rows recorded above its watermark, and stands at the tail. */
  predicate ReplayDone(before: Db, after: Db, lines: seq<Entry>)
    requires LogShape(lines)
  {
    && after == Finished(before, lines)
    && after.watermark == HeadPos(lines)
  }

  /** An entry above the position names a table without a handler. */
  predicate NamesUnknownTable(lines: seq<Entry>, w: int) {
    exists e :: e in lines && e.pos > w && !IsMarker(e) && Unhandled(e)
  }

  /** Which answer `reconcile` gives when, and the database it leaves. */
  predicate ReconcileResult(before: Db, after: Db, lines: seq<Entry>, held: bool, v: Verdict)
    requires LogShape(lines)
  {
    var within := Verified(lines) && CheckpointOf(lines) <= before.watermark <= HeadPos(lines);
    var behind := within && before.watermark < HeadPos(lines);
    && !v.LogUnavailable?
    && (v.ChainBroken? <==> !Verified(lines))
    && (v.Pruned? <==> Verified(lines) && before.watermark < CheckpointOf(lines))
    && (v.Stale? <==> Verified(lines) && before.watermark > HeadPos(lines))
    && (v.Pending? <==> behind && !held)
    && (v.UnhandledTable? <==> behind && held && NamesUnknownTable(lines, before.watermark))
    && (v.InSync? || v.Replayed? <==>
          within && (held || !behind) && !NamesUnknownTable(lines, before.watermark))
    && (v.InSync? || v.Replayed? ==> ReplayDone(before, after, lines))
    && (v.UnhandledTable? ==> ReplayedTo(before, after, lines, v))
  }
}
