/**
 * The life of one main database and its log: rows come and go, deletions log before they commit, the log
 * is compacted, backups are taken, and the database is restarted or restored from any backup.
 */
module Lifecycle {
  import opened Basics
  import opened Chain
  import opened FileLog
  import opened Compaction
  import opened Replay

  /** A deletion whose entry is in the log and whose transaction is still open. */
  datatype Txn = Txn(pos: int, victims: set<Row>)

  /** A backup, and the positions at or below its watermark that were still open when it was taken. */
  datatype Backup = Backup(db: Db, open: set<int>)

  /** `history` is the log as if never compacted, `deleted` the rows of committed deletions, `dropped` the
      positions of deletions that logged and then deleted nothing, `born` every row there ever was. */
  datatype World = World(
    db: Db, file: seq<Entry>, history: seq<Entry>, open: set<Txn>,
    deleted: set<Row>, dropped: set<int>, born: set<Row>, backups: set<Backup>)

  datatype Move =
    | Insert(row: Row)
    | LogFails(victims: set<Row>)
    | Log(victims: set<Row>, e: Entry, now: int)
    | Commit(txn: Txn, pending: set<Row>, gens: set<Gen>)
    | CommitAfterRace(txn: Txn, gens: set<Gen>)  // lost the race for its generation on the way, see `Deployment`
    | Abort(txn: Txn)
    | Compact(before: int, now: int)
    | TakeBackup
    | Restart
    | Restore(backup: Backup)

  /** The entry fingerprints the victims, all of them and nothing else. */
  predicate Records(what: Deletion, victims: set<Row>) {
    && (forall r :: r in victims ==> Candidate(r, what) && r.fp in what.fingerprints)
    && (forall f :: f in what.fingerprints ==> exists r :: r in victims && r.fp == f)
  }

  /** `reconcile` goes through: the watermark is within the log and every table named above it is known. */
  predicate CanReconcile(db: Db, file: seq<Entry>)
    requires LogShape(file)
  {
    CheckpointOf(file) <= db.watermark <= HeadPos(file) && !NamesUnknownTable(file, db.watermark)
  }

  predicate Enabled(w: World, m: Move)
    requires LogShape(w.file)
  {
    match m
    case Insert(r) => forall q :: q in w.born ==> q.fp != r.fp
    case LogFails(v) => v <= w.db.rows
    case Log(v, e, _) => v <= w.db.rows && IsDeletion(e) && Records(e.what, v)
    case Commit(t, _, _) => t in w.open
    case CommitAfterRace(t, _) => t in w.open
    case Abort(t) => t in w.open
    case Compact(_, _) => true
    case TakeBackup => true
    case Restart => CanReconcile(w.db, w.file)
    case Restore(k) => k in w.backups && CanReconcile(k.db, w.file)
  }

  /** The restored backup was taken with no deletion open at or below its watermark. */
  predicate Careful(m: Move) {
    m.Restore? ==> m.backup.open == {}
  }

  function OpenBelow(open: set<Txn>, n: int): set<int> {
    set t | t in open && t.pos <= n :: t.pos
  }

  function Positions(open: set<Txn>): set<int> {
    set t | t in open :: t.pos
  }

  /** The process stops, its open transactions roll back, and it comes up again on database `db`. */
  function UpAgain(w: World, db: Db): World {
    w.(db := Finished(db, w.file), open := {}, dropped := w.dropped + Positions(w.open))
  }

  function Next(w: World, m: Move): World
    requires LogShape(w.file)
  {
    match m
    case Insert(r) => w.(db := w.db.(rows := w.db.rows + {r}), born := w.born + {r})
    case LogFails(_) => w
    case Log(v, e, now) =>
      w.(file := AppendLines(w.file, e, now), history := AppendLines(w.history, e, now),
         open := w.open + {Txn(HeadPos(w.file) + 1, v)})
    case Commit(t, pending, gens) =>
      w.(db := Db(w.db.rows - t.victims, pending, gens, t.pos),
         open := w.open - {t}, deleted := w.deleted + t.victims)
    case CommitAfterRace(t, gens) =>
      w.(db := w.db.(gens := gens, watermark := t.pos), open := w.open - {t}, dropped := w.dropped + {t.pos})
    case Abort(t) => w.(open := w.open - {t}, dropped := w.dropped + {t.pos})
    case Compact(before, now) => w.(file := PruneLines(w.file, w.file[0].dbId, before, now).0)
    case TakeBackup => w.(backups := w.backups + {Backup(w.db, OpenBelow(w.open, w.db.watermark))})
    case Restart => UpAgain(w, w.db)
    case Restore(k) => UpAgain(w, k.db)
  }

  // ---------------------------------------------------------------------------------------------
  // What every step keeps
  // ---------------------------------------------------------------------------------------------

  /** The deletion at position `p` recorded the row. */
  predicate HitAt(h: seq<Entry>, p: int, r: Row) {
    1 <= p < |h| && Hit(r, h[p])
  }

  predicate OneRowPerFingerprint(rows: set<Row>) {
    forall q, r :: q in rows && r in rows && q.fp == r.fp ==> q == r
  }

  predicate OpenOk(w: World) {
    && (forall p :: p in w.dropped ==> p < |w.history|)
    && (forall t :: t in w.open ==>
                      && 1 <= t.pos < |w.history| && t.pos !in w.dropped
                      && t.victims <= w.born && Records(w.history[t.pos].what, t.victims))
  }

  predicate OnePerPosition(open: set<Txn>) {
    forall s, t :: s in open && t in open && s.pos == t.pos ==> s == t
  }

  /** No entry records anything but rows that existed by then. */
  ghost predicate OnlyBornRecorded(w: World) {
    forall p, r :: HitAt(w.history, p, r) ==> exists q :: q in w.born && q.fp == r.fp
  }

  /** Every committed deletion of a row has its entry in the log. */
  ghost predicate EveryDeletionLogged(w: World) {
    forall r :: r in w.deleted ==>
                  exists p :: HitAt(w.history, p, r) && p !in w.dropped && p !in Positions(w.open)
  }

  /** Every entry stands for a committed deletion, an open one, or one that logged and deleted nothing. */
  ghost predicate EveryEntryAccounted(w: World) {
    forall p, r :: r in w.born && HitAt(w.history, p, r) ==>
                     r in w.deleted || p in w.dropped || p in Positions(w.open)
  }

  ghost predicate BackupsIn(w: World) {
    forall k :: k in w.backups ==> 0 <= k.db.watermark < |w.history| && k.db.rows <= w.born
  }

  predicate StoreOk(w: World) {
    && 0 <= w.db.watermark < |w.history|
    && w.db.rows <= w.born && w.deleted <= w.born
    && OneRowPerFingerprint(w.born)
  }

  /** What holds in every run. */
  ghost predicate Core(w: World) {
    && Refines(w.file, w.history)
    && StoreOk(w) && OpenOk(w) && OnePerPosition(w.open)
    && OnlyBornRecorded(w) && EveryDeletionLogged(w) && EveryEntryAccounted(w) && BackupsIn(w)
  }

  /** Whatever of a backup has been deleted since is recorded above its watermark, or belonged to a deletion
      that was open when it was taken; and what the log records of it at or below its watermark failed, or was
      open then. */
  ghost predicate BackupOk(w: World, k: Backup) {
    && (forall t :: t in w.open ==> t.pos > k.db.watermark || t.pos in k.open)
    && (forall r :: r in k.db.rows && r in w.deleted ==>
                      exists p :: HitAt(w.history, p, r) && (p > k.db.watermark || p in k.open))
    && (forall p, r :: r in k.db.rows && HitAt(w.history, p, r) && p <= k.db.watermark ==>
                         p in w.dropped || p in k.open)
  }

  ghost predicate BackupsOk(w: World) {
    forall k :: k in w.backups ==> BackupOk(w, k)
  }

  /** What holds as long as restores are careful: nothing deleted is stored. */
  ghost predicate Clean(w: World) {
    w.db.rows !! w.deleted && BackupsOk(w)
  }

  // ---------------------------------------------------------------------------------------------
  // Replay, seen from the full history
  // ---------------------------------------------------------------------------------------------

  lemma HitsAbove(f: seq<Entry>, h: seq<Entry>, w: int, r: Row)
    requires Refines(f, h) && CheckpointOf(f) <= w <= HeadPos(f)
    ensures HitBy(r, Keep(f, AbovePos(w))) <==> exists p :: HitAt(h, p, r) && p > w
  {
    ReadFromRefines(f, h, w);
    ShapeFacts(h);
    ShapeFacts(f);
    var es := Keep(f, AbovePos(w));
    hide Refines, LogShape, Keep, Hit, CheckpointOf;
    forall i | 0 <= i < |es| ensures es[i] == h[w + 1 + i] && !IsMarker(es[i]) {
    }
    if p :| HitAt(h, p, r) && p > w {
      assert es[p - w - 1] == h[p];
    }
    if i :| 0 <= i < |es| && Hit(r, es[i]) {
      assert HitAt(h, w + 1 + i, r);
    }
  }

  /** A finished replay: the rows less those recorded above the watermark, and the watermark at the tail. */
  lemma FinishedFacts(db: Db, f: seq<Entry>, h: seq<Entry>)
    requires Refines(f, h) && CheckpointOf(f) <= db.watermark <= HeadPos(f)
    ensures var d := Finished(db, f);
            && d.watermark == HeadPos(f) == |h| - 1
            && d.rows <= db.rows
            && forall r :: r in db.rows ==> (r in d.rows <==> !exists p :: HitAt(h, p, r) && p > db.watermark)
  {
    var es := Keep(f, AbovePos(db.watermark));
    EntriesAbove(f, db.watermark);
    WatermarkAfter(db, es);
    ReplayClosedForm(db, es);
    hide HitBy, HitAt, Refines, ReplayAll, Keep, LogShape, CheckpointOf, HeadPos;
    forall r | r in db.rows ensures r in Finished(db, f).rows <==> !exists p :: HitAt(h, p, r) && p > db.watermark {
      HitsAbove(f, h, db.watermark, r);
    }
  }

  /** `reconcile` ends well exactly when it can, and what it leaves is the finished replay. */
  lemma ReconcileIsFinished(before: Db, after: Db, file: seq<Entry>, v: Verdict)
    requires LogShape(file) && Verified(file) && ReconcileResult(before, after, file, true, v)
    ensures CanReconcile(before, file) <==> v.InSync? || v.Replayed?
    ensures v.InSync? || v.Replayed? ==> after == Finished(before, file) && after.watermark == HeadPos(file)
  {
  }

  // ---------------------------------------------------------------------------------------------
  // Steps
  // ---------------------------------------------------------------------------------------------

  /** A step that deletes nothing and opens only new positions leaves every backup as good as it was. */
  lemma BackupsFollow(w: World, w': World)
    requires BackupsIn(w) && w'.backups == w.backups && w'.deleted == w.deleted && w.born <= w'.born
    requires |w.history| <= |w'.history|
    requires forall p, r :: HitAt(w.history, p, r) ==> HitAt(w'.history, p, r)
    requires forall p, r :: HitAt(w'.history, p, r) && p < |w.history| ==> HitAt(w.history, p, r)
    requires w.dropped <= w'.dropped
    requires forall t :: t in w'.open ==> t in w.open || t.pos >= |w.history|
    ensures BackupsIn(w') && (BackupsOk(w) ==> BackupsOk(w'))
  {
  }

  lemma InsertKeeps(w: World, row: Row)
    requires Core(w) && Enabled(w, Insert(row))
    ensures Core(Next(w, Insert(row))) && (Clean(w) ==> Clean(Next(w, Insert(row))))
  {
    hide Refines, HitAt, Records, LogShape, BackupOk, OnePerPosition, Positions;
    CoreHasShape(w);
    var w' := Next(w, Insert(row));
    BackupsFollow(w, w');
  }

  /** What appending an entry does to the recorded hits. */
  lemma HitsAfterLog(w: World, e: Entry, now: int)
    requires Refines(w.file, w.history) && IsDeletion(e)
    ensures var h := AppendLines(w.history, e, now);
            && Refines(AppendLines(w.file, e, now), h) && HeadPos(w.file) + 1 == |w.history| && |h| == |w.history| + 1
            && h[|w.history|].what == e.what
            && (forall p :: 0 <= p < |w.history| ==> h[p] == w.history[p])
            && (forall p, r :: HitAt(h, p, r) <==> HitAt(w.history, p, r) || (p == |w.history| && Hit(r, e)))
            && (forall p, r :: HitAt(w.history, p, r) ==> p < |w.history|)
  {
    AppendRefines(w.file, w.history, e, now);
    ShapeFacts(w.history);
    hide Refines, LogShape;
  }

  lemma RecordedIsVictim(e: Entry, q: Row, victims: set<Row>)
    requires Records(e.what, victims) && Hit(q, e)
    ensures exists r :: r in victims && r.fp == q.fp
  {
  }

  /** The world after a logged deletion. */
  lemma LogStep(w: World, victims: set<Row>, e: Entry, now: int)
    requires Core(w) && Enabled(w, Log(victims, e, now))
    ensures var w' := Next(w, Log(victims, e, now));
            var n := |w.history|;
            && w' == w.(file := w'.file, history := w'.history, open := w.open + {Txn(n, victims)})
            && Positions(w'.open) == Positions(w.open) + {n}
            && Refines(w'.file, w'.history) && |w'.history| == n + 1 && w'.history[n].what == e.what
            && (forall p :: 0 <= p < n ==> w'.history[p] == w.history[p])
            && (forall p, r :: HitAt(w'.history, p, r) <==> HitAt(w.history, p, r) || (p == n && Hit(r, e)))
            && (forall p, r :: HitAt(w.history, p, r) ==> p < n)
            && victims <= w.db.rows && Records(e.what, victims)
  {
    hide HitAt, Hit, Records, EveryDeletionLogged, EveryEntryAccounted, OnlyBornRecorded, OpenOk, AppendLines;
    HitsAfterLog(w, e, now);
    var w' := Next(w, Log(victims, e, now));
    assert w'.open == w.open + {Txn(|w.history|, victims)};
  }

  lemma LogKeeps(w: World, victims: set<Row>, e: Entry, now: int)
    requires Core(w) && Enabled(w, Log(victims, e, now))
    ensures Core(Next(w, Log(victims, e, now))) && (Clean(w) ==> Clean(Next(w, Log(victims, e, now))))
  {
    hide Refines, HitAt, Hit, LogShape, Next, Enabled, BackupOk, Records, BackupsOk, BackupsIn;
    CoreHasShape(w);
    LogStep(w, victims, e, now);
    var w' := Next(w, Log(victims, e, now));
    forall q | HitAt(w'.history, |w.history|, q)
      ensures HitAt(w.history, |w.history|, q) || exists r :: r in w.born && r.fp == q.fp
    {
      if Hit(q, e) {
        RecordedIsVictim(e, q, victims);
      }
    }
    BackupsFollow(w, w');
  }

  lemma CommitKeeps(w: World, t: Txn, pending: set<Row>, gens: set<Gen>)
    requires Core(w) && Enabled(w, Commit(t, pending, gens))
    ensures Core(Next(w, Commit(t, pending, gens))) && (Clean(w) ==> Clean(Next(w, Commit(t, pending, gens))))
  {
    hide Refines, LogShape, Records, Hit, HitAt, OpenOk, OnePerPosition, OneRowPerFingerprint, Clean, Positions;
    CoreHasShape(w);
    var w' := Next(w, Commit(t, pending, gens));
    CommitFacts(w, t, w');
    if Clean(w) {
      CommitKeepsClean(w, t, w');
    }
  }

  /** What committing an open deletion does to the open ones, and that its entry records its victims alone. */
  lemma CommitFacts(w: World, t: Txn, w': World)
    requires Core(w) && t in w.open && w'.open == w.open - {t}
    requires w'.history == w.history && w'.dropped == w.dropped && w'.born == w.born
    ensures Positions(w'.open) == Positions(w.open) - {t.pos} && t.pos in Positions(w.open)
    ensures OnePerPosition(w'.open) && OpenOk(w')
    ensures t.victims <= w.born && t.pos !in w.dropped && 1 <= t.pos < |w.history|
    ensures forall r :: r in w.born ==> (HitAt(w.history, t.pos, r) <==> r in t.victims)
  {
    hide Refines, EveryDeletionLogged, EveryEntryAccounted, OnlyBornRecorded, BackupsIn;
    assert forall r :: r in t.victims ==> HitAt(w.history, t.pos, r);
  }

  lemma CommitKeepsClean(w: World, t: Txn, w': World)
    requires Core(w) && Clean(w) && t in w.open
    requires w'.db.rows == w.db.rows - t.victims && w'.open == w.open - {t} && w'.deleted == w.deleted + t.victims
    requires w'.history == w.history && w'.backups == w.backups && w'.dropped == w.dropped && w'.born == w.born
    ensures Clean(w')
  {
    hide Refines, Records, Hit, HitAt, OnePerPosition, Positions, OneRowPerFingerprint;
    CommitFacts(w, t, w');
    forall k | k in w'.backups ensures BackupOk(w', k) {
      assert BackupOk(w, k);
    }
  }

  lemma AbortKeeps(w: World, t: Txn)
    requires Core(w) && Enabled(w, Abort(t))
    ensures Core(Next(w, Abort(t))) && (Clean(w) ==> Clean(Next(w, Abort(t))))
  {
    hide Refines, LogShape, Records, Hit, HitAt, BackupOk;
    CoreHasShape(w);
    var w' := Next(w, Abort(t));
    assert Positions(w'.open) == Positions(w.open) - {t.pos};
    BackupsFollow(w, w');
  }

  lemma RaceKeeps(w: World, t: Txn, gens: set<Gen>)
    requires Core(w) && Enabled(w, CommitAfterRace(t, gens))
    ensures Core(Next(w, CommitAfterRace(t, gens))) && (Clean(w) ==> Clean(Next(w, CommitAfterRace(t, gens))))
  {
    hide Refines, LogShape, Records, Hit, HitAt, BackupOk;
    CoreHasShape(w);
    var w' := Next(w, CommitAfterRace(t, gens));
    assert Positions(w'.open) == Positions(w.open) - {t.pos};
    BackupsFollow(w, w');
  }

  lemma HasLine(w: World)
    requires Core(w)
    ensures LogShape(w.file) && |w.file| > 0
  {
  }

  lemma CompactKeeps(w: World, before: int, now: int)
    requires Core(w)
    ensures Core(Next(w, Compact(before, now))) && (Clean(w) ==> Clean(Next(w, Compact(before, now))))
  {
    hide Refines, LogShape, Records, Hit, HitAt, PruneLines, HeadPos, CheckpointOf;
    HasLine(w);
    PruneRefines(w.file, w.history, w.file[0].dbId, before, now);
    var w' := Next(w, Compact(before, now));
    BackupsFollow(w, w');
  }

  lemma BackupKeeps(w: World)
    requires Core(w)
    ensures Core(Next(w, TakeBackup)) && (Clean(w) ==> Clean(Next(w, TakeBackup)))
  {
    var w' := Next(w, TakeBackup);
    hide Refines, LogShape, Records, Hit, HitAt;
    if Clean(w) {
      forall k | k in w'.backups ensures BackupOk(w', k) {
        assert k in w.backups ==> BackupOk(w, k);
      }
    }
  }

  lemma UpAgainKeeps(w: World, db: Db)
    requires Core(w) && CanReconcile(db, w.file) && db.rows <= w.born
    ensures Core(UpAgain(w, db))
    ensures Clean(w) && Finished(db, w.file).rows !! w.deleted ==> Clean(UpAgain(w, db))
  {
    FinishedFacts(db, w.file, w.history);
    var w' := UpAgain(w, db);
    hide Refines, LogShape, Records, Hit, HitAt, Finished, CanReconcile;
    assert Positions(w'.open) == {};
    BackupsFollow(w, w');
  }

  /** A deleted row is in a backup, was recorded only at or below the backup's watermark, and one of those
      deletions was open when the backup was taken: it committed later. */
  ghost predicate Unrecorded(w: World, k: Backup, r: Row) {
    && r in k.db.rows && r in w.deleted
    && (exists p :: p in k.open && HitAt(w.history, p, r))
    && (forall p :: HitAt(w.history, p, r) ==> p <= k.db.watermark)
  }

  /** What a restored backup holds of what was deleted: exactly those rows. */
  lemma ComesBackIff(w: World, k: Backup, r: Row)
    requires Core(w) && Clean(w) && k in w.backups && CanReconcile(k.db, w.file)
    ensures r in Finished(k.db, w.file).rows && r in w.deleted <==> Unrecorded(w, k, r)
  {
    hide Refines, LogShape, Records, Hit, HitAt, Finished, CanReconcile, CheckpointOf, HeadPos;
    RestoreFacts(w, k.db);
    assert BackupOk(w, k);
  }

  lemma RestoreFacts(w: World, db: Db)
    requires Core(w) && CanReconcile(db, w.file)
    ensures var d := Finished(db, w.file);
            && d.watermark == |w.history| - 1 && d.rows <= db.rows
            && (forall r :: r in db.rows ==> (r in d.rows <==> !exists p :: HitAt(w.history, p, r) && p > db.watermark))
  {
    FinishedFacts(db, w.file, w.history);
  }

  lemma RestartKeeps(w: World)
    requires Core(w) && Enabled(w, Restart)
    ensures Core(Next(w, Restart)) && (Clean(w) ==> Clean(Next(w, Restart)))
  {
    RestoreFacts(w, w.db);
    UpAgainKeeps(w, w.db);
  }

  lemma RestoreKeeps(w: World, k: Backup)
    requires Core(w) && Enabled(w, Restore(k))
    ensures Core(Next(w, Restore(k))) && (Clean(w) && k.open == {} ==> Clean(Next(w, Restore(k))))
  {
    hide Clean, Core, Finished, UpAgain, CanReconcile, LogShape;
    BackupIsIn(w, k);
    UpAgainKeeps(w, k.db);
    if Clean(w) && k.open == {} {
      forall r ensures !(r in Finished(k.db, w.file).rows && r in w.deleted) {
        ComesBackIff(w, k, r);
      }
    }
  }

  lemma BackupIsIn(w: World, k: Backup)
    requires Core(w) && k in w.backups
    ensures k.db.rows <= w.born && LogShape(w.file)
  {
  }

  lemma FailedLogKeepsAll(w: World, victims: set<Row>)
    requires LogShape(w.file)
    ensures Next(w, LogFails(victims)) == w
  {
  }

  lemma CoreHasShape(w: World)
    requires Core(w)
    ensures LogShape(w.file)
  {
  }

  lemma StepKeepsCore(w: World, m: Move)
    requires Core(w) && Enabled(w, m)
    ensures Core(Next(w, m)) && (Clean(w) && Careful(m) ==> Clean(Next(w, m)))
  {
    hide Core, Clean, Next, LogShape, Enabled;
    CoreHasShape(w);
    match m
    case Insert(r) => InsertKeeps(w, r);
    case LogFails(_) => FailedLogKeepsAll(w, m.victims);
    case Log(v, e, now) => LogKeeps(w, v, e, now);
    case Commit(t, pending, gens) => CommitKeeps(w, t, pending, gens);
    case CommitAfterRace(t, gens) => RaceKeeps(w, t, gens);
    case Abort(t) => AbortKeeps(w, t);
    case Compact(before, now) => CompactKeeps(w, before, now);
    case TakeBackup => BackupKeeps(w);
    case Restart => RestartKeeps(w);
    case Restore(k) => RestoreKeeps(w, k);
  }

  // ---------------------------------------------------------------------------------------------
  // One deletion, in the order the code goes through it
  // ---------------------------------------------------------------------------------------------

  datatype Fate = AppendRaises | CommitRaises | Commits

  /** A deletion whose generation another deletion of the user took first rolls the session back, its cascade with it,
      and goes on with the next generation. */
  datatype Race = Won | Lost

  /** The database and its log file, between transactions. */
  class Deployment {
    var db: Db
    var file: seq<Entry>

    constructor (w: World)
      ensures db == w.db && file == w.file
    {
      db, file := w.db, w.file;
    }

    /** Cascade in a transaction, take a generation, append the log entry, move the watermark, commit.  Each way it can
        end is one or two moves of the world above.  Only `race` tells whether a commit deleted anything. */
    method Delete(victims: set<Row>, e: Entry, now: int, race: Race, fate: Fate, pending: set<Row>, gens: set<Gen>,
                  ghost w: World)
      returns (committed: bool)
      requires LogShape(file) && w.db == db && w.file == file
      modifies this
      ensures committed <==> fate.Commits?
      ensures fate.AppendRaises? ==> db == old(db) && file == old(file)
      ensures fate.CommitRaises? ==> db == old(db) && file == Next(w, Log(victims, e, now)).file
      ensures fate.Commits? ==>
                var t := Txn(HeadPos(old(file)) + 1, victims);
                var logged := Next(w, Log(victims, e, now));
                t in logged.open && file == logged.file
                && (LogShape(logged.file) ==>
                      db == Next(logged, if race.Won? then Commit(t, pending, gens) else CommitAfterRace(t, gens)).db)
    {
      var working := db.(rows := db.rows - victims, pending := pending);
      if race.Lost? {
        working := db;
      }
      working := working.(gens := gens);
      if fate.AppendRaises? {
        return false;
      }
      ShapeScans(file, 0);
      var sealed := Sealed(ScanTail(file), e, now);
      file := file + [sealed];
      working := working.(watermark := sealed.pos);
      if fate.CommitRaises? {
        return false;
      }
      db := working;
      return true;
    }
  }

  // ---------------------------------------------------------------------------------------------
  // Whole runs
  // ---------------------------------------------------------------------------------------------

  /** A new deployment: a log with its genesis, nothing deleted, no two rows with one fingerprint. */
  ghost predicate Init(w: World) {
    && (exists id, now :: w.file == [GenesisOf(id, now)]) && w.history == w.file
    && w.db.watermark == 0 && w.db.rows <= w.born && OneRowPerFingerprint(w.born)
    && w.open == {} && w.deleted == {} && w.dropped == {} && w.backups == {}
  }

  lemma InitIsClean(w: World)
    requires Init(w)
    ensures Core(w) && Clean(w)
  {
    assert LineOk(w.file, 0) && LinkOk(w.file, 0);
    assert forall p, r :: !HitAt(w.history, p, r);
  }

  ghost predicate IsRun(run: seq<World>, moves: seq<Move>) {
    && |run| == |moves| + 1 && Init(run[0])
    && forall i :: 0 <= i < |moves| ==>
                     LogShape(run[i].file) && Enabled(run[i], moves[i]) && run[i + 1] == Next(run[i], moves[i])
  }

  /** Every restore of the first `n` moves is careful. */
  predicate CarefulUpTo(moves: seq<Move>, n: nat) {
    forall i :: 0 <= i < n && i < |moves| ==> Careful(moves[i])
  }

  lemma {:induction false} RunKeepsCore(run: seq<World>, moves: seq<Move>, n: nat)
    requires IsRun(run, moves) && n <= |moves|
    ensures Core(run[n]) && (CarefulUpTo(moves, n) ==> Clean(run[n]))
  {
    hide Core, Clean, Next, Enabled, LogShape, Init, Careful;
    if n == 0 {
      InitIsClean(run[0]);
    } else {
      RunKeepsCore(run, moves, n - 1);
      StepKeepsCore(run[n - 1], moves[n - 1]);
    }
  }

  /** At every moment of every run, whatever failed and whatever was restored before: a committed deletion is in
      the log, and the watermark, the live one as well as any backup's, is not past the tail.  While restores
      were careful nothing deleted is stored. */
  lemma FailClosed(run: seq<World>, moves: seq<Move>, n: nat)
    requires IsRun(run, moves) && n <= |moves|
    ensures var w := run[n];
            && Refines(w.file, w.history) && 0 <= w.db.watermark <= HeadPos(w.file)
            && (forall k :: k in w.backups ==> 0 <= k.db.watermark <= HeadPos(w.file))
            && (forall r :: r in w.deleted ==> exists p :: HitAt(w.history, p, r) && p !in w.dropped)
            && (CarefulUpTo(moves, n) ==> w.db.rows !! w.deleted)
  {
    hide HitAt, LogShape, Verified, Records, Careful, Init, IsRun;
    RunKeepsCore(run, moves, n);
  }

  /** Any backup restored at any moment of any run comes back at the tail, as itself less exactly the rows
      recorded above its watermark; what is missing was deleted, or recorded by a deletion that failed after
      logging or is still open. */
  lemma RestoreIsExact(run: seq<World>, moves: seq<Move>, n: nat, k: Backup)
    requires IsRun(run, moves) && n <= |moves|
    requires k in run[n].backups && LogShape(run[n].file) && CanReconcile(k.db, run[n].file)
    ensures var w := run[n];
            var d := Finished(k.db, w.file);
            && d.watermark == |w.history| - 1 && d.rows <= k.db.rows
            && (forall r :: r in k.db.rows ==>
                              (r !in d.rows <==> exists p :: HitAt(w.history, p, r) && p > k.db.watermark))
            && (forall r :: r in k.db.rows && r !in d.rows && r !in w.deleted ==>
                              exists p :: HitAt(w.history, p, r) && (p in w.dropped || p in Positions(w.open)))
  {
    hide Refines, LogShape, Records, Hit, HitAt, Finished, CanReconcile, Clean, Init;
    RunKeepsCore(run, moves, n);
    RestoreFacts(run[n], k.db);
  }

  /** While restores were careful: a restored backup holds a deleted row exactly when some row of it was
      recorded only at or below its watermark, by a deletion that was open when the backup was taken and
      committed later.  Without such an open deletion it holds nothing deleted, and without failed and open
      ones it is the backup less everything deleted. */
  lemma RestoreHoldsDeletedIff(run: seq<World>, moves: seq<Move>, n: nat, k: Backup)
    requires IsRun(run, moves) && n <= |moves| && CarefulUpTo(moves, n)
    requires k in run[n].backups && LogShape(run[n].file) && CanReconcile(k.db, run[n].file)
    ensures var w := run[n];
            var d := Finished(k.db, w.file);
            && (d.rows !! w.deleted <==> !exists r :: Unrecorded(w, k, r))
            && (k.open == {} ==> d.rows !! w.deleted)
            && (k.open == {} && w.dropped == {} && w.open == {} ==> d.rows == k.db.rows - w.deleted)
  {
    hide Core, Clean, LogShape, HitAt, Finished, CanReconcile, Init, Careful;
    RunKeepsCore(run, moves, n);
    var w := run[n];
    RestoreIsExact(run, moves, n, k);
    forall r ensures r in Finished(k.db, w.file).rows && r in w.deleted <==> Unrecorded(w, k, r) {
      ComesBackIff(w, k, r);
    }
    assert w.open == {} ==> Positions(w.open) == {};
  }

  /** A deletion that logged and whose commit failed is no no-op at the next start: a stored row goes exactly
      when some entry above the watermark recorded it, whether or not its deletion ever committed; so the
      start leaves the rows alone exactly when no stored row is recorded above the watermark. */
  lemma AbortedDeletionIsReplayedIff(w: World, t: Txn)
    requires Core(w) && t in w.open && Enabled(Next(w, Abort(t)), Restart)
    ensures var after := Next(Next(w, Abort(t)), Restart);
            && after.deleted == w.deleted
            && (forall r :: r in w.db.rows ==>
                              (r !in after.db.rows <==> exists p :: HitAt(w.history, p, r) && p > w.db.watermark))
            && (after.db.rows == w.db.rows <==>
                  forall p, r :: r in w.db.rows && HitAt(w.history, p, r) ==> p <= w.db.watermark)
            && (t.pos > w.db.watermark ==> after.db.rows !! t.victims)
  {
    hide Refines, LogShape, Finished, CanReconcile;
    RestoreFacts(w, w.db);
    assert forall r :: r in t.victims ==> HitAt(w.history, t.pos, r);
    hide Records, Hit, HitAt;
  }

  /** A deletion that lost the race and committed is reported, logged and below the watermark, but its rows are stored
      as before; the next start takes exactly those that a later entry records. */
  lemma LostRaceKeepsRows(w: World, t: Txn, gens: set<Gen>)
    requires Core(w) && t in w.open && Enabled(Next(w, CommitAfterRace(t, gens)), Restart)
    ensures var after := Next(w, CommitAfterRace(t, gens));
            && after.db.rows == w.db.rows && after.db.watermark == t.pos
            && (forall r :: r in t.victims ==> HitAt(after.history, t.pos, r))
            && (forall r :: r in w.db.rows && r in t.victims ==>
                              (r in Next(after, Restart).db.rows <==>
                                 forall p :: HitAt(after.history, p, r) ==> p <= t.pos))
  {
    hide Refines, LogShape, Finished, CanReconcile;
    CoreHasShape(w);
    var after := Next(w, CommitAfterRace(t, gens));
    RaceKeeps(w, t, gens);
    RestoreFacts(after, after.db);
    assert forall r :: r in t.victims ==> HitAt(w.history, t.pos, r);
    hide Records, Hit, HitAt;
  }

  // ---------------------------------------------------------------------------------------------
  // A database beside a log that is not its own
  // ---------------------------------------------------------------------------------------------

  /** A start compares positions only, so it goes through beside any verified log of the database's id.  A stored row
      that this log deletes survives it exactly when every entry that records it is at or below the watermark. */
  lemma StartBesideIff(db: Db, f: seq<Entry>, h: seq<Entry>, r: Row)
    requires Refines(f, h) && CanReconcile(db, f) && r in db.rows
    ensures r in Finished(db, f).rows <==> forall p :: HitAt(h, p, r) ==> p <= db.watermark
  {
    hide HitAt, Finished, LogShape;
    FinishedFacts(db, f, h);
  }

  /** Two full logs with the same chain hash at a position are the same up to it. */
  lemma SharedPrefix(h: seq<Entry>, g: seq<Entry>, n: int)
    requires LogShape(h) && LogShape(g) && Verified(h) && Verified(g) && CheckpointOf(h) == 0 && CheckpointOf(g) == 0
    requires 0 <= n < |h| && n < |g| && h[n].hash == g[n].hash
    ensures forall p :: 0 <= p <= n ==> h[p] == g[p]
  {
    FullLog(h);
    FullLog(g);
    hide LogShape, Verified, CheckpointOf, HeadPos, At;
    ChainPins(h, g, n);
  }

  /** On a log that was never compacted positions are indexes. */
  lemma FullLog(h: seq<Entry>)
    requires LogShape(h) && CheckpointOf(h) == 0
    ensures HeadPos(h) == |h| - 1 && forall p :: 0 <= p < |h| ==> Holds(h, p) && At(h, p) == h[p]
  {
    HistoryHead(h);
    forall p | 0 <= p < |h| ensures Holds(h, p) && At(h, p) == h[p] {
      assert LineOf(h, p) == p;
    }
  }

  lemma SameHits(h: seq<Entry>, g: seq<Entry>, p: int, r: Row)
    requires 0 <= p < |h| && p < |g| && h[p] == g[p]
    ensures HitAt(h, p, r) <==> HitAt(g, p, r)
  {
  }

  /** A backup taken in one run and started beside the log of another, when the two logs have the same chain hash at
      its watermark: a row of it that this log deletes is gone, unless the deletion logged at or below the
      watermark and then failed.  So without failed deletions the database holds nothing that its log deletes. */
  lemma StartBesideSharedLog(run: seq<World>, moves: seq<Move>, n: nat, k: Backup,
                             run': seq<World>, moves': seq<Move>, n': nat)
    requires IsRun(run, moves) && n <= |moves| && CarefulUpTo(moves, n) && k in run[n].backups && k.open == {}
    requires IsRun(run', moves') && n' <= |moves'| && LogShape(run'[n'].file) && CanReconcile(k.db, run'[n'].file)
    requires 0 <= k.db.watermark < |run[n].history| && k.db.watermark < |run'[n'].history|
    requires run[n].history[k.db.watermark].hash == run'[n'].history[k.db.watermark].hash
    ensures forall p, r :: r in Finished(k.db, run'[n'].file).rows && HitAt(run'[n'].history, p, r) ==>
                             p <= k.db.watermark && p in run[n].dropped
    ensures run[n].dropped == {} ==>
              forall p, r :: HitAt(run'[n'].history, p, r) ==> r !in Finished(k.db, run'[n'].file).rows
  {
    hide Core, Clean, HitAt, Finished, LogShape, CanReconcile, Init, Enabled, Next, CarefulUpTo;
    RunKeepsCore(run, moves, n);
    RunKeepsCore(run', moves', n');
    var w, w' := run[n], run'[n'];
    SharedLog(w, w', k.db.watermark);
    forall p, r | r in Finished(k.db, w'.file).rows && HitAt(w'.history, p, r)
      ensures p <= k.db.watermark && p in w.dropped
    {
      RestoreFacts(w', k.db);
      HitIsInside(w'.history, p, r);
      SameHits(w.history, w'.history, p, r);
      RecordedBelow(w, k, p, r);
    }
  }

  lemma HitIsInside(h: seq<Entry>, p: int, r: Row)
    requires HitAt(h, p, r)
    ensures 1 <= p < |h|
  {
  }

  lemma SharedLog(w: World, w': World, n: int)
    requires Core(w) && Core(w') && 0 <= n < |w.history| && n < |w'.history| && w.history[n].hash == w'.history[n].hash
    ensures forall p :: 0 <= p <= n ==> w.history[p] == w'.history[p]
  {
    hide LogShape, Verified, CheckpointOf, HeadPos, HitAt;
    SharedPrefix(w.history, w'.history, n);
  }

  lemma RecordedBelow(w: World, k: Backup, p: int, r: Row)
    requires Clean(w) && k in w.backups && k.open == {} && r in k.db.rows
    requires HitAt(w.history, p, r) && p <= k.db.watermark
    ensures p in w.dropped
  {
    hide HitAt;
    assert BackupOk(w, k);
  }

  // ---------------------------------------------------------------------------------------------
  // Runs
  // ---------------------------------------------------------------------------------------------

  function Fresh(id: string, now: int): World {
    World(Db({}, {}, {}, 0), [GenesisOf(id, now)], [GenesisOf(id, now)], {}, {}, {}, {}, {})
  }

  /** A whole-user deletion of one row. */
  function EntryFor(id: string, r: Row): Entry {
    Entry(id, Deletion(r.tenant, r.app, r.user, User, "", [r.fp], 1, "", ""), None, "", 0, NoHash, 0, Genesis, NoHash)
  }

  lemma EntryForRecords(id: string, r: Row)
    ensures IsDeletion(EntryFor(id, r)) && Records(EntryFor(id, r).what, {r})
    ensures r.fp.table == "mm_beliefs" ==> !Unknown(EntryFor(id, r))
    ensures Hit(r, EntryFor(id, r)) && forall q: Row :: q.fp != r.fp ==> !Hit(q, EntryFor(id, r))
  {
  }

  /** Some run makes these moves and ends in this world. */
  ghost predicate Reaches(moves: seq<Move>, w: World) {
    exists run: seq<World> :: IsRun(run, moves) && run[|moves|] == w
  }

  /** One more move. */
  lemma ReachNext(moves: seq<Move>, w: World, m: Move)
    requires Reaches(moves, w) && LogShape(w.file) && Enabled(w, m)
    ensures Reaches(moves + [m], Next(w, m)) && Core(Next(w, m)) && LogShape(Next(w, m).file)
  {
    hide Core, Init, LogShape, Enabled, Next;
    var run: seq<World> :| IsRun(run, moves) && run[|moves|] == w;
    var run' := run + [Next(w, m)];
    var moves' := moves + [m];
    forall i | 0 <= i < |moves'|
      ensures LogShape(run'[i].file) && Enabled(run'[i], moves'[i]) && run'[i + 1] == Next(run'[i], moves'[i])
    {
      assert i < |moves| ==> run'[i] == run[i] && run'[i + 1] == run[i + 1] && moves'[i] == moves[i];
    }
    assert IsRun(run', moves');
    RunKeepsCore(run', moves', |moves'|);
    CoreHasShape(Next(w, m));
  }

  lemma ReachFresh(id: string, now: int)
    ensures Reaches([], Fresh(id, now)) && Verified(Fresh(id, now).file)
    ensures LogShape(Fresh(id, now).file) && HeadPos(Fresh(id, now).file) == 0 && CheckpointOf(Fresh(id, now).file) == 0
  {
    var w := Fresh(id, now);
    assert w.file == [GenesisOf(id, now)];
    assert LineOk(w.file, 0) && LinkOk(w.file, 0);
    assert IsRun([w], []);
  }

  /** After logging on an uncompacted log: the entry is its last, and above the tail before it. */
  lemma Logged(f: seq<Entry>, e: Entry, now: int)
    requires LogShape(f) && Verified(f) && CheckpointOf(f) == 0 && IsDeletion(e)
    ensures var g := AppendLines(f, e, now);
            && LogShape(g) && Verified(g) && CheckpointOf(g) == 0 && HeadPos(g) == HeadPos(f) + 1
            && |g| == |f| + 1 && g[..|f|] == f && g[|f|].what == e.what && g[|f|].pos == HeadPos(f) + 1
  {
    ShapeScans(f, 0);
    AppendKeepsShape(f, e, now);
  }

  /** Two rows stored, then the deletion of the first logged. */
  lemma FirstLogged(id: string, now: int, r: Row, q: Row)
    requires r.fp != q.fp
    ensures var f := AppendLines([GenesisOf(id, now)], EntryFor(id, r), now);
            var w := World(Db({r, q}, {}, {}, 0), f, f, {Txn(1, {r})}, {}, {}, {r, q}, {});
            Reaches([Insert(r), Insert(q), Log({r}, EntryFor(id, r), now)], w) && Core(w) && LogShape(f)
  {
    hide Core, Records, EntryFor, Reaches, AppendLines, LogShape, HeadPos;
    ReachFresh(id, now);
    EntryForRecords(id, r);
    var w0 := Fresh(id, now);
    ReachNext([], w0, Insert(r));
    var w1 := Next(w0, Insert(r));
    assert [] + [Insert(r)] == [Insert(r)];
    ReachNext([Insert(r)], w1, Insert(q));
    var w2 := Next(w1, Insert(q));
    assert [Insert(r)] + [Insert(q)] == [Insert(r), Insert(q)];
    assert w2.db.rows == {r, q} && w2.born == {r, q};
    var m := Log({r}, EntryFor(id, r), now);
    ReachNext([Insert(r), Insert(q)], w2, m);
    assert [Insert(r), Insert(q)] + [m] == [Insert(r), Insert(q), m];
    var f := AppendLines([GenesisOf(id, now)], EntryFor(id, r), now);
    assert Next(w2, m) == World(Db({r, q}, {}, {}, 0), f, f, {Txn(1, {r})}, {}, {}, {r, q}, {});
  }

  /** Restart goes through on an uncompacted log that names no unknown table. */
  lemma CanStart(db: Db, f: seq<Entry>)
    requires LogShape(f) && CheckpointOf(f) == 0 && 0 <= db.watermark <= HeadPos(f)
    requires forall i :: 0 < i < |f| ==> !Unknown(f[i])
    ensures CanReconcile(db, f)
  {
    assert LineOk(f, 0);
  }

  /** A run in which a deletion logs, its commit fails, and the next start takes its row away, although it was
      never deleted; the other row stays. */
  lemma AbortedDeletionRun(id: string, now: int, r: Row, q: Row)
    requires r.fp.table == "mm_beliefs" && q.fp != r.fp
    ensures exists w ::
              && Reaches([Insert(r), Insert(q), Log({r}, EntryFor(id, r), now), Abort(Txn(1, {r}))], w)
              && LogShape(w.file) && Enabled(w, Restart)
              && w.db.rows == {r, q} && Next(w, Restart).db.rows == {q} && Next(w, Restart).deleted == {}
  {
    hide Core, Reaches, AppendLines, LogShape, HeadPos, CheckpointOf, Unknown, Finished, Verified, HitAt, EntryFor;
    var e := EntryFor(id, r);
    FirstLogged(id, now, r, q);
    EntryForRecords(id, r);
    ReachFresh(id, now);
    var g := [GenesisOf(id, now)];
    Logged(g, e, now);
    var f := AppendLines(g, e, now);
    var w := World(Db({r, q}, {}, {}, 0), f, f, {Txn(1, {r})}, {}, {}, {r, q}, {});
    var moves := [Insert(r), Insert(q), Log({r}, e, now)];
    ReachNext(moves, w, Abort(Txn(1, {r})));
    assert moves + [Abort(Txn(1, {r}))] == [Insert(r), Insert(q), Log({r}, e, now), Abort(Txn(1, {r}))];
    var w' := Next(w, Abort(Txn(1, {r})));
    SameWhat(f[1], e);
    CanStart(w'.db, f);
    RestoreFacts(w', w'.db);
    LoggedHits(f, e, r, q);
  }

  /** A run in which a deletion logs, loses the race for its generation and commits: its row is stored, and the next
      start, at the tail already, leaves it. */
  lemma LostRaceRun(id: string, now: int, r: Row, q: Row)
    requires r.fp.table == "mm_beliefs" && q.fp != r.fp
    ensures exists w ::
              && Reaches([Insert(r), Insert(q), Log({r}, EntryFor(id, r), now), CommitAfterRace(Txn(1, {r}), {})], w)
              && LogShape(w.file) && Enabled(w, Restart) && HitAt(w.history, 1, r)
              && r in w.db.rows && Next(w, Restart).db.rows == w.db.rows
  {
    hide Core, Reaches, AppendLines, LogShape, HeadPos, CheckpointOf, Unknown, Finished, Verified, HitAt, EntryFor;
    var e := EntryFor(id, r);
    FirstLogged(id, now, r, q);
    EntryForRecords(id, r);
    ReachFresh(id, now);
    var g := [GenesisOf(id, now)];
    Logged(g, e, now);
    var f := AppendLines(g, e, now);
    var w := World(Db({r, q}, {}, {}, 0), f, f, {Txn(1, {r})}, {}, {}, {r, q}, {});
    var moves := [Insert(r), Insert(q), Log({r}, e, now)];
    var c := CommitAfterRace(Txn(1, {r}), {});
    ReachNext(moves, w, c);
    assert moves + [c] == [Insert(r), Insert(q), Log({r}, e, now), c];
    var w' := Next(w, c);
    SameWhat(f[1], e);
    CanStart(w'.db, f);
    RestoreFacts(w', w'.db);
    LoggedHits(f, e, r, q);
    NoneAbove(f, r, 1);
  }

  lemma SameWhat(a: Entry, b: Entry)
    requires a.what == b.what
    ensures Unknown(a) <==> Unknown(b)
    ensures forall r :: Hit(r, a) <==> Hit(r, b)
  {
  }

  /** The log [genesis, entry] records the row of the entry and no other. */
  lemma LoggedHits(f: seq<Entry>, e: Entry, r: Row, q: Row)
    requires |f| == 2 && f[1].what == e.what && Hit(r, e) && !Hit(q, e)
    ensures HitAt(f, 1, r) && forall p :: !HitAt(f, p, q)
  {
    SameWhat(f[1], e);
  }

  /** Two deletions logged, the second one committed. */
  lemma SecondCommitted(id: string, now: int, r: Row, q: Row)
    requires r.fp != q.fp
    ensures var f := AppendLines(AppendLines([GenesisOf(id, now)], EntryFor(id, r), now), EntryFor(id, q), now);
            var w := World(Db({r}, {}, {}, 2), f, f, {Txn(1, {r})}, {q}, {}, {r, q}, {});
            && Reaches([Insert(r), Insert(q), Log({r}, EntryFor(id, r), now), Log({q}, EntryFor(id, q), now),
                        Commit(Txn(2, {q}), {}, {})], w)
            && LogShape(f) && CheckpointOf(f) == 0 && HeadPos(f) == 2
            && |f| == 3 && f[1].what == EntryFor(id, r).what && f[2].what == EntryFor(id, q).what
  {
    hide Core, Reaches, AppendLines, LogShape, HeadPos, CheckpointOf, Verified, EntryFor, Records;
    FirstLogged(id, now, r, q);
    EntryForRecords(id, r);
    EntryForRecords(id, q);
    ReachFresh(id, now);
    var g := [GenesisOf(id, now)];
    Logged(g, EntryFor(id, r), now);
    var f1 := AppendLines(g, EntryFor(id, r), now);
    Logged(f1, EntryFor(id, q), now);
    var f := AppendLines(f1, EntryFor(id, q), now);
    var w1 := World(Db({r, q}, {}, {}, 0), f1, f1, {Txn(1, {r})}, {}, {}, {r, q}, {});
    var moves := [Insert(r), Insert(q), Log({r}, EntryFor(id, r), now)];
    var m := Log({q}, EntryFor(id, q), now);
    ReachNext(moves, w1, m);
    var w2 := World(Db({r, q}, {}, {}, 0), f, f, {Txn(1, {r}), Txn(2, {q})}, {}, {}, {r, q}, {});
    assert Next(w1, m) == w2;
    var c := Commit(Txn(2, {q}), {}, {});
    ReachNext(moves + [m], w2, c);
    assert {r, q} - {q} == {r} && {Txn(1, {r}), Txn(2, {q})} - {Txn(2, {q})} == {Txn(1, {r})};
    assert {} + {q} == {q};
    assert Next(w2, c) == World(Db({r}, {}, {}, 2), f, f, {Txn(1, {r})}, {q}, {}, {r, q}, {});
    assert moves + [m] + [c] == [Insert(r), Insert(q), Log({r}, EntryFor(id, r), now), m, c];
    assert f[1] == f1[1];
  }

  /** A run in which a backup is taken while a deletion is open below its watermark, the deletion commits, and
      the restored backup holds the deleted row again. */
  lemma LateCommitRun(id: string, now: int, r: Row, q: Row)
    requires r.fp != q.fp && r.fp.table == "mm_beliefs" && q.fp.table == "mm_beliefs"
    ensures var k := Backup(Db({r}, {}, {}, 2), {1});
            exists w ::
              && Reaches([Insert(r), Insert(q), Log({r}, EntryFor(id, r), now), Log({q}, EntryFor(id, q), now),
                          Commit(Txn(2, {q}), {}, {}), TakeBackup, Commit(Txn(1, {r}), {}, {})], w)
              && LogShape(w.file) && Enabled(w, Restore(k))
              && r in w.deleted && w.db.rows == {} && w.db.watermark == 1 && Next(w, Restore(k)).db.rows == {r}
  {
    hide Core, Reaches, AppendLines, LogShape, HeadPos, CheckpointOf, Verified, EntryFor, Records, Unknown, Finished,
         HitAt;
    SecondCommitted(id, now, r, q);
    EntryForRecords(id, r);
    EntryForRecords(id, q);
    var f := AppendLines(AppendLines([GenesisOf(id, now)], EntryFor(id, r), now), EntryFor(id, q), now);
    var w := World(Db({r}, {}, {}, 2), f, f, {Txn(1, {r})}, {q}, {}, {r, q}, {});
    var moves := [Insert(r), Insert(q), Log({r}, EntryFor(id, r), now), Log({q}, EntryFor(id, q), now),
                  Commit(Txn(2, {q}), {}, {})];
    var k := Backup(w.db, {1});
    ReachNext(moves, w, TakeBackup);
    assert OpenBelow(w.open, 2) == {1};
    var w1 := w.(backups := {k});
    assert Next(w, TakeBackup) == w1;
    var c := Commit(Txn(1, {r}), {}, {});
    ReachNext(moves + [TakeBackup], w1, c);
    var w2 := Next(w1, c);
    assert moves + [TakeBackup] + [c] == [Insert(r), Insert(q), Log({r}, EntryFor(id, r), now),
        Log({q}, EntryFor(id, q), now), Commit(Txn(2, {q}), {}, {}), TakeBackup, c];
    SameWhat(f[1], EntryFor(id, r));
    SameWhat(f[2], EntryFor(id, q));
    CanStart(k.db, f);
    RestoreFacts(w2, k.db);
    NoneAbove(f, r, 2);
  }

  lemma NoneAbove(h: seq<Entry>, r: Row, n: int)
    requires |h| == n + 1
    ensures forall p :: HitAt(h, p, r) ==> p <= n
  {
  }

  /** One row left, the other one's deletion committed. */
  lemma FirstCommitted(id: string, now: int, r: Row, q: Row)
    requires r.fp != q.fp
    ensures var f := AppendLines([GenesisOf(id, now)], EntryFor(id, r), now);
            && Reaches([Insert(r), Insert(q), Log({r}, EntryFor(id, r), now), Commit(Txn(1, {r}), {}, {})],
                       World(Db({q}, {}, {}, 1), f, f, {}, {r}, {}, {r, q}, {}))
            && LogShape(f) && CheckpointOf(f) == 0 && HeadPos(f) == 1 && |f| == 2 && f[1].what == EntryFor(id, r).what
  {
    hide Core, Reaches, AppendLines, LogShape, HeadPos, CheckpointOf, Verified, EntryFor, Records;
    FirstLogged(id, now, r, q);
    EntryForRecords(id, r);
    ReachFresh(id, now);
    var g := [GenesisOf(id, now)];
    Logged(g, EntryFor(id, r), now);
    var f := AppendLines(g, EntryFor(id, r), now);
    var moves := [Insert(r), Insert(q), Log({r}, EntryFor(id, r), now)];
    var w := World(Db({r, q}, {}, {}, 0), f, f, {Txn(1, {r})}, {}, {}, {r, q}, {});
    var c := Commit(Txn(1, {r}), {}, {});
    ReachNext(moves, w, c);
    assert moves + [c] == [Insert(r), Insert(q), Log({r}, EntryFor(id, r), now), c];
    assert {r, q} - {r} == {q} && {Txn(1, {r})} - {Txn(1, {r})} == {} && {} + {r} == {r};
    assert Next(w, c) == World(Db({q}, {}, {}, 1), f, f, {}, {r}, {}, {r, q}, {});
  }

  /** Two runs from one new deployment: one deletes `q`, the other `r`.  A backup of the first, started beside the log
      of the second, is in step with it by position, and holds the row that this log deletes. */
  lemma ForkedStartRuns(id: string, now: int, r: Row, q: Row)
    requires r.fp != q.fp && r.fp.table == "mm_beliefs" && q.fp.table == "mm_beliefs"
    ensures var k := Backup(Db({r}, {}, {}, 1), {});
            exists w, w' ::
              && Reaches([Insert(q), Insert(r), Log({q}, EntryFor(id, q), now), Commit(Txn(1, {q}), {}, {}),
                          TakeBackup], w)
              && Reaches([Insert(r), Insert(q), Log({r}, EntryFor(id, r), now), Commit(Txn(1, {r}), {}, {})], w')
              && k in w.backups && LogShape(w'.file) && CanReconcile(k.db, w'.file)
              && r in w'.deleted && HitAt(w'.history, 1, r) && r in Finished(k.db, w'.file).rows
  {
    hide Core, Reaches, AppendLines, LogShape, HeadPos, CheckpointOf, Verified, EntryFor, Records, Unknown, Finished,
         HitAt;
    FirstCommitted(id, now, q, r);
    FirstCommitted(id, now, r, q);
    EntryForRecords(id, r);
    var f := AppendLines([GenesisOf(id, now)], EntryFor(id, q), now);
    var w0 := World(Db({r}, {}, {}, 1), f, f, {}, {q}, {}, {q, r}, {});
    var moves := [Insert(q), Insert(r), Log({q}, EntryFor(id, q), now), Commit(Txn(1, {q}), {}, {})];
    ReachNext(moves, w0, TakeBackup);
    assert moves + [TakeBackup] == [Insert(q), Insert(r), Log({q}, EntryFor(id, q), now), Commit(Txn(1, {q}), {}, {}),
        TakeBackup];
    var k := Backup(Db({r}, {}, {}, 1), {});
    assert OpenBelow(w0.open, 1) == {};
    var w := w0.(backups := {k});
    assert Next(w0, TakeBackup) == w;
    var f' := AppendLines([GenesisOf(id, now)], EntryFor(id, r), now);
    var w' := World(Db({q}, {}, {}, 1), f', f', {}, {r}, {}, {r, q}, {});
    SameWhat(f'[1], EntryFor(id, r));
    CanStart(k.db, f');
    ReachedIsCore([Insert(r), Insert(q), Log({r}, EntryFor(id, r), now), Commit(Txn(1, {r}), {}, {})], w');
    RestoreFacts(w', k.db);
    NoneAbove(f', r, 1);
    OnlyHit(f', r);
  }

  lemma OnlyHit(f: seq<Entry>, r: Row)
    requires |f| == 2 && Hit(r, f[1])
    ensures HitAt(f, 1, r)
  {
  }

  lemma ReachedIsCore(moves: seq<Move>, w: World)
    requires Reaches(moves, w)
    ensures Core(w)
  {
    hide Core, Init, LogShape, Enabled, Next;
    var run: seq<World> :| IsRun(run, moves) && run[|moves|] == w;
    RunKeepsCore(run, moves, |moves|);
  }
}
