/**
 * The embedded deletion log: a file of lines, appended to and compacted in place, with a position
 * index cached in memory.
 *
 * The lookups are specified by a linear pass over the file (`Scan...`), for any content the file may
 * have after an external rewrite.  The class below keeps the index and answers from it.
 */
module FileLog {
  import opened Basics
  import opened Chain

  // ---------------------------------------------------------------------------------------------
  // What a linear pass over the file says
  // ---------------------------------------------------------------------------------------------

  /** The last line at position `n`, if any. */
  function ScanAt(lines: seq<Entry>, n: int): Option<Entry> {
    if |lines| == 0 then None
    else if lines[|lines| - 1].pos == n then Some(lines[|lines| - 1])
    else ScanAt(lines[..|lines| - 1], n)
  }

  /** The highest position and the hash recorded there. */
  function ScanTail(lines: seq<Entry>): (r: Option<(int, Hash)>) {
    if |lines| == 0 then None
    else
      var e := lines[|lines| - 1];
      match ScanTail(lines[..|lines| - 1])
      case None => Some((e.pos, e.hash))
      case Some(t) => if e.pos >= t.0 then Some((e.pos, e.hash)) else Some(t)
  }

  function ScanHead(lines: seq<Entry>): (int, Hash) {
    match ScanTail(lines)
    case None => (0, Genesis)
    case Some(t) => t
  }

  function ScanCheckpoint(lines: seq<Entry>): int {
    if |lines| == 0 then 0
    else
      var e := lines[|lines| - 1];
      var c := ScanCheckpoint(lines[..|lines| - 1]);
      if e.what.scope.Checkpoint? && e.pos > c then e.pos else c
  }

  function ScanChainHash(lines: seq<Entry>, n: int): Hash {
    if n <= 0 then Genesis
    else match ScanAt(lines, n)
         case None => Genesis
         case Some(e) => e.hash
  }

  predicate ScanHasTombstone(lines: seq<Entry>, n: int, h: Hash) {
    match ScanAt(lines, n)
    case None => false
    case Some(e) => h == e.hash || h == e.originHash
  }

  // ---------------------------------------------------------------------------------------------
  // The two ways the file is written
  // ---------------------------------------------------------------------------------------------

  /** Only a deletion is ever appended. */
  predicate IsDeletion(e: Entry) {
    (e.what.scope.Belief? || e.what.scope.Session? || e.what.scope.User?) && NormalForm(e)
  }

  /** An entry as `append` seals it behind a head. */
  function Sealed(head: Option<(int, Hash)>, e: Entry, now: int): Entry {
    var s := e.(createdAt := if e.createdAt.None? then Some(now) else e.createdAt,
                pos := (if head.None? then 0 else head.value.0) + 1,
                prevHash := if head.None? then Genesis else head.value.1);
    s.(hash := ComputeHash(s))
  }

  function AppendLines(lines: seq<Entry>, e: Entry, now: int): seq<Entry> {
    lines + [Sealed(ScanTail(lines), e, now)]
  }

  function EmptyDeletion(scope: Scope, purpose: string): Deletion {
    Deletion("", "", "", scope, "", [], 0, purpose, "")
  }

  /** The birth certificate of one database life. */
  function GenesisOf(dbId: string, now: int): Entry {
    var g := Entry(dbId, EmptyDeletion(GenesisMark, ""), Some(now), "", 0, NoHash, 0, Genesis, NoHash);
    g.(hash := ComputeHash(g))
  }

  function CheckpointEntry(dbId: string, before: int, genesisHash: Hash, chainAt: Hash, now: int): Entry {
    Entry(dbId, EmptyDeletion(Checkpoint, "pruned through seq"), Some(now), "", 0, NoHash,
          before, genesisHash, chainAt)
  }

  /** Index of the first line that satisfies `p`, or the length. */
  function First(lines: seq<Entry>, p: Entry -> bool): (k: nat)
    ensures k <= |lines|
    ensures k < |lines| ==> p(lines[k])
    ensures forall i :: 0 <= i < k ==> !p(lines[i])
  {
    if |lines| == 0 then 0 else if p(lines[0]) then 0 else 1 + First(lines[1..], p)
  }

  function Keep(lines: seq<Entry>, p: Entry -> bool): (r: seq<Entry>)
    ensures |r| <= |lines|
  {
    if |lines| == 0 then []
    else Keep(lines[..|lines| - 1], p) + (if p(lines[|lines| - 1]) then [lines[|lines| - 1]] else [])
  }

  function NotGenesis(): Entry -> bool { (e: Entry) => !e.what.scope.GenesisMark? }
  function IsGenesis(): Entry -> bool { (e: Entry) => e.what.scope.GenesisMark? }
  function IsCheckpoint(): Entry -> bool { (e: Entry) => e.what.scope.Checkpoint? }
  function CheckpointFrom(n: int): Entry -> bool { (e: Entry) => e.what.scope.Checkpoint? && e.pos >= n }
  function AtPos(n: int): Entry -> bool { (e: Entry) => e.pos == n }
  function AbovePos(n: int): Entry -> bool { (e: Entry) => e.pos > n }
  function DeletionUpTo(n: int): Entry -> bool { (e: Entry) => e.pos <= n && !e.what.scope.Checkpoint? }

  /** The file after `prune(before)`, and the count it reports. */
  function PruneLines(lines: seq<Entry>, dbId: string, before: int, now: int): (seq<Entry>, nat) {
    var entries := Keep(lines, NotGenesis());
    var g := First(lines, IsGenesis());
    var k := First(entries, AtPos(before));
    var removed := |Keep(entries, DeletionUpTo(before))|;
    if g == |lines| then (lines, 0)
    else if First(entries, CheckpointFrom(before)) < |entries| then (lines, 0)
    else if k == |entries| then (lines, 0)
    else if removed == 0 && First(entries, IsCheckpoint()) == |entries| then (lines, 0)
    else
      ([lines[g], CheckpointEntry(dbId, before, lines[g].hash, entries[k].hash, now)]
       + Keep(entries, AbovePos(before)), removed)
  }

  // ---------------------------------------------------------------------------------------------
  // The log object and its index
  // ---------------------------------------------------------------------------------------------

  /** The freshness key of a file. */
  datatype Stat = Stat(inode: int, size: int, mtime: int)

  /** A file of one database life, shared by every process that opens it. */
  class LogFile {
    var exists_: bool
    var lines: seq<Entry>
    var stat: Stat

    constructor ()
      ensures !exists_
    {
      exists_, lines, stat := false, [], Stat(0, 0, 0);
    }

    ghost function Contents(): Option<seq<Entry>>
      reads this
    {
      if exists_ then Some(lines) else None
    }

    /** A write behind the log object's back: a restored file, another process's append or prune. */
    method Rewrite(exists': bool, lines': seq<Entry>, stat': Stat)
      modifies this
      ensures exists_ == exists' && lines == lines' && stat == stat'
    {
      exists_, lines, stat := exists', lines', stat';
    }
  }

  datatype Slot = Slot(hash: Hash, originHash: Hash, scope: Scope)

  function SlotOf(e: Entry): Slot {
    Slot(e.hash, e.originHash, e.what.scope)
  }

  /** The index a full scan builds: the last line at a position wins. */
  function ScanIndex(lines: seq<Entry>): (m: map<int, Slot>)
    ensures forall n :: n in m <==> ScanAt(lines, n).Some?
    ensures forall n :: n in m ==> m[n] == SlotOf(ScanAt(lines, n).value)
  {
    if |lines| == 0 then map[]
    else ScanIndex(lines[..|lines| - 1])[lines[|lines| - 1].pos := SlotOf(lines[|lines| - 1])]
  }

  /** `ScanTail` names the highest position of the index and what the index holds there. */
  lemma {:induction false} TailIsMaximum(lines: seq<Entry>)
    ensures ScanTail(lines).None? <==> ScanIndex(lines) == map[]
    ensures ScanTail(lines).Some? ==>
              && ScanTail(lines).value.0 in ScanIndex(lines)
              && ScanIndex(lines)[ScanTail(lines).value.0].hash == ScanTail(lines).value.1
              && forall n :: n in ScanIndex(lines) ==> n <= ScanTail(lines).value.0
  {
    if |lines| > 0 {
      TailIsMaximum(lines[..|lines| - 1]);
      assert lines[|lines| - 1].pos in ScanIndex(lines);
    }
  }

  /** The greatest key of a non-empty map. */
  method MaxKey(m: map<int, Slot>) returns (k: int)
    requires m != map[]
    ensures k in m && forall n :: n in m ==> n <= k
  {
    var rest := m.Keys;
    assert (forall n :: n !in rest) ==> m == map[];
    k :| k in rest;
    while rest != {}
      invariant rest <= m.Keys
      invariant k in m
      invariant forall n :: n in m && n !in rest ==> n <= k
      decreases |rest|
    {
      assert (forall n :: n !in rest) ==> rest == {};
      var n :| n in rest;
      rest := rest - {n};
      if n > k { k := n; }
    }
  }

  /** What one more deletion behind the tail does to the index of a full scan. */
  lemma FoldedIn(lines: seq<Entry>, e: Entry)
    requires IsDeletion(e) && e.pos == (if ScanTail(lines).Some? then ScanTail(lines).value.0 else 0) + 1
    ensures ScanIndex(lines + [e]) == ScanIndex(lines)[e.pos := SlotOf(e)]
    ensures ScanTail(lines + [e]) == Some((e.pos, e.hash)) && ScanCheckpoint(lines + [e]) == ScanCheckpoint(lines)
  {
    assert (lines + [e])[..|lines + [e]| - 1] == lines;
  }

  class FileDeletionLog {
    const file: LogFile
    const dbId: string
    var index: Option<map<int, Slot>>
    var indexStat: Option<Stat>
    var indexTail: Option<(int, Hash)>
    var indexCheckpoint: Option<int>

    constructor (file: LogFile, dbId: string)
      ensures this.file == file && this.dbId == dbId
      ensures Coherent()
    {
      this.file, this.dbId := file, dbId;
      index, indexStat, indexTail, indexCheckpoint := None, None, None, None;
    }

    /** The cached index is served as it stands. */
    ghost predicate Served()
      reads this, file
    {
      file.exists_ && index.Some? && indexStat == Some(file.stat)
    }

    /** Whenever the stat key matches, the cache is what a full scan would build. */
    ghost predicate Coherent()
      reads this, file
    {
      Served() ==> index == Some(ScanIndex(file.lines)) && indexTail == ScanTail(file.lines)
                   && GetCheckpoint() == ScanCheckpoint(file.lines)
    }

    function GetCheckpoint(): int
      reads this
    {
      if indexCheckpoint.None? then 0 else indexCheckpoint.value
    }

    method Invalidate()
      modifies this
      ensures index.None? && indexStat.None? && indexTail.None? && indexCheckpoint.None?
      ensures Coherent()
    {
      index, indexStat, indexTail, indexCheckpoint := None, None, None, None;
    }

    /** `_index_for`: serve the cache while the stat key matches, otherwise rebuild it. */
    method IndexFor() returns (m: map<int, Slot>)
      modifies this
      ensures !file.exists_ ==> indexStat.None?
      ensures m == if !file.exists_ then map[] else if old(Served()) then old(index.value) else ScanIndex(file.lines)
      ensures old(Coherent()) ==> Coherent() && m == if file.exists_ then ScanIndex(file.lines) else map[]
      ensures file.exists_ ==> Served() && index == Some(m)
      ensures !file.exists_ ==> indexTail.None? && indexCheckpoint.None?
    {
      if !file.exists_ {
        Invalidate();
        return map[];
      }
      if index.Some? && indexStat == Some(file.stat) {
        return index.value;
      }
      var idx: map<int, Slot> := map[];
      var checkpoint := 0;
      var lines := file.lines;
      for i := 0 to |lines|
        invariant idx == ScanIndex(lines[..i])
        invariant checkpoint == ScanCheckpoint(lines[..i])
      {
        var e := lines[i];
        assert lines[..i + 1][..i] == lines[..i];
        idx := idx[e.pos := SlotOf(e)];
        if e.what.scope.Checkpoint? && e.pos > checkpoint {
          checkpoint := e.pos;
        }
      }
      assert lines[..|lines|] == lines;
      index := Some(idx);
      indexStat := Some(file.stat);
      indexCheckpoint := Some(checkpoint);
      TailIsMaximum(lines);
      if idx != map[] {
        var last := MaxKey(idx);
        indexTail := Some((last, idx[last].hash));
      } else {
        indexTail := None;
        indexCheckpoint := None;
      }
      return idx;
    }

    /** `head`. */
    method Head() returns (h: (int, Hash))
      requires Coherent()
      modifies this
      ensures Coherent()
      ensures h == if file.exists_ then ScanHead(file.lines) else (0, Genesis)
    {
      var _ := IndexFor();
      h := if indexTail.Some? then indexTail.value else (0, Genesis);
    }

    /** `checkpoint_seq`. */
    method CheckpointSeq() returns (c: int)
      requires Coherent()
      modifies this
      ensures Coherent()
      ensures c == if file.exists_ then ScanCheckpoint(file.lines) else 0
    {
      var _ := IndexFor();
      c := GetCheckpoint();
    }

    /** `chain_hash_at`. */
    method ChainHashAt(n: int) returns (h: Hash)
      requires Coherent()
      modifies this
      ensures Coherent()
      ensures indexStat == old(indexStat) || indexStat == None || indexStat == Some(file.stat)
      ensures h == if file.exists_ then ScanChainHash(file.lines, n) else Genesis
    {
      if n <= 0 {
        return Genesis;
      }
      var m := IndexFor();
      h := if n in m then m[n].hash else Genesis;
    }

    /** `has_tombstone`. */
    method HasTombstone(n: int, x: Hash) returns (found: bool)
      requires Coherent()
      modifies this
      ensures Coherent()
      ensures found == (file.exists_ && ScanHasTombstone(file.lines, n, x))
    {
      var m := IndexFor();
      found := n in m && (x == m[n].hash || x == m[n].originHash);
    }

    /** `_ensure_file`: an absent file gets its genesis entry.  An existing file, even an empty one, is
        left alone. */
    method EnsureFile(now: int, stat': Stat)
      requires Coherent()
      requires !file.exists_ ==> indexStat != Some(stat')
      modifies file
      ensures file.exists_ && Coherent()
      ensures old(file.exists_) ==> file.lines == old(file.lines) && file.stat == old(file.stat)
      ensures !old(file.exists_) ==> file.lines == [GenesisOf(dbId, now)] && file.stat == stat'
    {
      if !file.exists_ {
        file.exists_, file.lines, file.stat := true, [GenesisOf(dbId, now)], stat';
      }
    }

    /** The locked part of `append`: seal the entry behind the cached tail, write it, fold it into the
        index.  `stat'` is the key the file has after the write. */
    method AppendLocked(e: Entry, now: int, stat': Stat) returns (sealed: Entry)
      requires Coherent() && file.exists_ && IsDeletion(e)
      modifies this, file
      ensures Coherent() && file.exists_ && file.stat == stat' && indexStat == Some(stat')
      ensures sealed == Sealed(ScanTail(old(file.lines)), e, now)
      ensures file.lines == AppendLines(old(file.lines), e, now)
    {
      hide ScanIndex, ScanTail, ScanCheckpoint, ScanAt;
      var _ := IndexFor();
      var tail := indexTail;
      var lastSeq := if tail.Some? then tail.value.0 else 0;
      sealed := e.(createdAt := if e.createdAt.None? then Some(now) else e.createdAt,
                   pos := lastSeq + 1,
                   prevHash := if tail.Some? then tail.value.1 else Genesis);
      sealed := sealed.(hash := ComputeHash(sealed));
      ghost var before := file.lines;
      file.lines := file.lines + [sealed];
      file.stat := stat';
      // _index_record_write
      index := Some(index.value[sealed.pos := SlotOf(sealed)]);
      indexTail := Some((sealed.pos, sealed.hash));
      indexStat := Some(stat');
      FoldedIn(before, sealed);
    }

    /** `append`: a file that does not exist yet gets its genesis first, under the key `born`. */
    method Append(e: Entry, now: int, born: Stat, stat': Stat) returns (sealed: Entry)
      requires Coherent() && IsDeletion(e)
      requires !file.exists_ ==> indexStat != Some(born)
      modifies this, file
      ensures Coherent() && file.exists_ && file.stat == stat' && indexStat == Some(stat')
      ensures old(file.exists_) ==>
                && sealed == Sealed(ScanTail(old(file.lines)), e, now)
                && file.lines == AppendLines(old(file.lines), e, now)
      ensures !old(file.exists_) ==> file.lines == AppendLines([GenesisOf(dbId, now)], e, now)
    {
      EnsureFile(now, born);
      sealed := AppendLocked(e, now, stat');
    }

    /** `prune`: the index goes first, then the file is rewritten in place. */
    method Prune(before: int, now: int, stat': Stat) returns (removed: nat)
      modifies this, file
      ensures index.None? && indexStat.None? && indexTail.None? && indexCheckpoint.None?
      ensures Coherent()
      ensures file.exists_ == old(file.exists_) && (file.stat == old(file.stat) || file.stat == stat')
      ensures !file.exists_ ==> removed == 0 && file.lines == old(file.lines)
      ensures file.exists_ ==> (file.lines, removed) == PruneLines(old(file.lines), dbId, before, now)
    {
      Invalidate();
      if !file.exists_ {
        return 0;
      }
      var lines := file.lines;
      var entries := Keep(lines, NotGenesis());
      var g := First(lines, IsGenesis());
      if g == |lines| {
        return 0;
      }
      if First(entries, CheckpointFrom(before)) < |entries| {
        return 0;
      }
      var keep := Keep(entries, AbovePos(before));
      var k := First(entries, AtPos(before));
      if k == |entries| {
        return 0;
      }
      removed := |Keep(entries, DeletionUpTo(before))|;
      if removed <= 0 && First(entries, IsCheckpoint()) == |entries| {
        return 0;
      }
      var checkpoint := CheckpointEntry(dbId, before, lines[g].hash, entries[k].hash, now);
      file.lines := [lines[g], checkpoint] + keep;
      file.stat := stat';
    }

  }

  // ---------------------------------------------------------------------------------------------
  // The index over whole runs
  // ---------------------------------------------------------------------------------------------

  /** An external rewrite is noticed by the next lookup exactly when it changes the stat key the cache
      was built under, or leaves a file that indexes the same. */
  method IndexAfterRewrite(log: FileDeletionLog, lines': seq<Entry>, stat': Stat) returns (m: map<int, Slot>)
    requires log.Coherent() && log.Served()
    modifies log, log.file
    ensures log.file.lines == lines'
    ensures m == ScanIndex(lines')
       <==> stat' != old(log.file.stat) || ScanIndex(old(log.file.lines)) == ScanIndex(lines')
  {
    log.file.Rewrite(true, lines', stat');
    m := log.IndexFor();
  }

  /** What can happen to a log object and its file.  `born` is the key of the file that an append creates if there is
      none; from outside the file can be rewritten or removed. */
  datatype Event =
    | OwnAppend(e: Entry, now: int, born: Stat, stat: Stat)
    | OwnPrune(before: int, now: int, stat: Stat)
    | External(lines: seq<Entry>, stat: Stat)
    | Removed
    | Lookup(n: int)

  /** The file after the events, or none. */
  function FileAfter(file: Option<seq<Entry>>, dbId: string, events: seq<Event>): Option<seq<Entry>> {
    if |events| == 0 then file
    else
      var before := FileAfter(file, dbId, events[..|events| - 1]);
      match events[|events| - 1]
      case OwnAppend(e, now, _, _) =>
        Some(AppendLines(if before.Some? then before.value else [GenesisOf(dbId, now)], e, now))
      case OwnPrune(b, now, _) => if before.Some? then Some(PruneLines(before.value, dbId, b, now).0) else None
      case External(lines', _) => Some(lines')
      case Removed => None
      case Lookup(_) => before
  }

  /** The key of a file that the event may put in the place of another. */
  function NewKey(e: Event): Option<Stat> {
    match e
    case OwnAppend(_, _, born, _) => Some(born)
    case External(_, stat) => Some(stat)
    case _ => None
  }

  /** The key of the file after the event. */
  function KeyAfter(e: Event): Option<Stat> {
    match e
    case OwnAppend(_, _, _, stat) => Some(stat)
    case OwnPrune(_, _, stat) => Some(stat)
    case External(_, stat) => Some(stat)
    case _ => None
  }

  /** The stat keys of external rewrites and of new files are new: none equals a key a file had before. */
  predicate FreshKeys(start: Stat, events: seq<Event>) {
    && (forall j :: 0 <= j < |events| ==> NewKey(events[j]) != Some(start))
    && (forall i, j :: 0 <= i < j < |events| && KeyAfter(events[i]).Some? ==> KeyAfter(events[i]) != NewKey(events[j]))
    && (forall j :: 0 <= j < |events| && events[j].OwnAppend? ==> IsDeletion(events[j].e))
  }

  predicate KeyIsOld(key: Option<Stat>, start: Stat, events: seq<Event>, i: nat)
    requires i <= |events|
  {
    key.None? || key == Some(start) || exists k :: 0 <= k < i && KeyAfter(events[k]) == key
  }

  lemma NewIsNotOld(key: Option<Stat>, start: Stat, events: seq<Event>, i: nat)
    requires FreshKeys(start, events) && i < |events| && KeyIsOld(key, start, events, i) && NewKey(events[i]).Some?
    ensures key != NewKey(events[i])
  {
  }

  /** Whatever mix of own appends, own compactions, lookups, external rewrites with new stat keys and removals has
      happened, the file is what the events say and all four lookups answer from it. */
  method Drive(log: FileDeletionLog, events: seq<Event>, n: int, x: Hash)
    returns (head: (int, Hash), checkpoint: int, chain: Hash, found: bool)
    requires log.index.None? && FreshKeys(log.file.stat, events)
    modifies log, log.file
    ensures log.file.Contents() == FileAfter(old(log.file.Contents()), log.dbId, events)
    ensures head == if log.file.exists_ then ScanHead(log.file.lines) else (0, Genesis)
    ensures checkpoint == if log.file.exists_ then ScanCheckpoint(log.file.lines) else 0
    ensures chain == if log.file.exists_ then ScanChainHash(log.file.lines, n) else Genesis
    ensures found <==> log.file.exists_ && ScanHasTombstone(log.file.lines, n, x)
  {
    hide PruneLines, AppendLines, FreshKeys, KeyIsOld;
    log.Invalidate();
    ghost var start := log.file.stat;
    StartIsOld(start, events);
    for i := 0 to |events|
      invariant log.Coherent()
      invariant log.file.Contents() == FileAfter(old(log.file.Contents()), log.dbId, events[..i])
      invariant KeyIsOld(Some(log.file.stat), start, events, i) && KeyIsOld(log.indexStat, start, events, i)
    {
      assert events[..i + 1][..i] == events[..i];
      if NewKey(events[i]).Some? {
        NewIsNotOld(log.indexStat, start, events, i);
      }
      AppendsDelete(start, events, i);
      ghost var file0, index0 := log.file.stat, log.indexStat;
      match events[i] {
        case OwnAppend(e, now, born, stat) => var _ := log.Append(e, now, born, stat);
        case OwnPrune(before, now, stat) => var _ := log.Prune(before, now, stat);
        case External(lines, stat) => log.file.Rewrite(true, lines, stat);
        case Removed => log.file.Rewrite(false, log.file.lines, log.file.stat);
        case Lookup(m) => var _ := log.ChainHashAt(m);
      }
      KeysGrowOld(start, events, i, Some(file0), index0, Some(log.file.stat), log.indexStat);
    }
    assert events[..|events|] == events;
    head := log.Head();
    checkpoint := log.CheckpointSeq();
    chain := log.ChainHashAt(n);
    found := log.HasTombstone(n, x);
  }

  lemma StartIsOld(start: Stat, events: seq<Event>)
    ensures KeyIsOld(None, start, events, 0) && KeyIsOld(Some(start), start, events, 0)
  {
  }

  lemma AppendsDelete(start: Stat, events: seq<Event>, i: nat)
    requires FreshKeys(start, events) && i < |events|
    ensures events[i].OwnAppend? ==> IsDeletion(events[i].e)
  {
  }

  lemma KeysGrowOld(start: Stat, events: seq<Event>, i: nat, file0: Option<Stat>, index0: Option<Stat>,
                    file: Option<Stat>, index: Option<Stat>)
    requires i < |events| && KeyIsOld(file0, start, events, i) && KeyIsOld(index0, start, events, i)
    requires file == file0 || file == KeyAfter(events[i])
    requires index == index0 || index.None? || index == file
    ensures KeyIsOld(file, start, events, i + 1) && KeyIsOld(index, start, events, i + 1)
  {
  }
}
