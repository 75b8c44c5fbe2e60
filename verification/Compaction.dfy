/**
 * Compaction refines the full log: whatever mix of appends and prunes a file has been through, it
 * answers like the history that was never pruned, down to its checkpoint.
 */
module Compaction {
  import opened Basics
  import opened Chain
  import opened FileLog

  // ---------------------------------------------------------------------------------------------
  // Scans of a well-shaped log
  // ---------------------------------------------------------------------------------------------

  predicate Increasing(lines: seq<Entry>) {
    forall i, j :: 0 <= i < j < |lines| ==> lines[i].pos < lines[j].pos
  }

  lemma ShapeIncreases(lines: seq<Entry>)
    requires LogShape(lines)
    ensures Increasing(lines)
  {
    forall i, j | 0 <= i < j < |lines| ensures lines[i].pos < lines[j].pos {
      assert LineOk(lines, i) && LineOk(lines, j) && LineOk(lines, 1);
    }
  }

  lemma {:induction false} IncreasingScanAt(lines: seq<Entry>, n: int)
    requires Increasing(lines)
    ensures forall i :: 0 <= i < |lines| && lines[i].pos == n ==> ScanAt(lines, n) == Some(lines[i])
    ensures ScanAt(lines, n).Some? ==> exists i :: 0 <= i < |lines| && lines[i].pos == n
  {
    if |lines| > 0 {
      var last := |lines| - 1;
      var rest := lines[..last];
      if lines[last].pos != n {
        IncreasingScanAt(rest, n);
        assert forall i :: 0 <= i < last ==> rest[i] == lines[i];
      }
    }
  }

  lemma {:induction false} IncreasingScanTail(lines: seq<Entry>)
    requires Increasing(lines) && |lines| > 0
    ensures ScanTail(lines) == Some((lines[|lines| - 1].pos, lines[|lines| - 1].hash))
  {
    if |lines| > 1 {
      var rest := lines[..|lines| - 1];
      IncreasingScanTail(rest);
      assert rest[|rest| - 1] == lines[|lines| - 2];
    }
  }

  lemma {:induction false} CheckpointScans(lines: seq<Entry>)
    requires |lines| > 0 ==> !lines[0].what.scope.Checkpoint?
    requires forall i :: 2 <= i < |lines| ==> !lines[i].what.scope.Checkpoint?
    requires CheckpointOf(lines) >= 0
    ensures ScanCheckpoint(lines) == CheckpointOf(lines)
  {
    if |lines| > 0 {
      var rest := lines[..|lines| - 1];
      if |lines| == 2 {
        assert ScanCheckpoint(rest) == 0 by { assert rest[..0] == []; }
      } else {
        CheckpointScans(rest);
      }
    }
  }

  /** On a well-shaped log the scans read off the shape. */
  lemma ShapeScans(lines: seq<Entry>, n: int)
    requires LogShape(lines)
    ensures ScanAt(lines, n) == if Holds(lines, n) then Some(At(lines, n)) else None
    ensures ScanHead(lines) == (HeadPos(lines), lines[|lines| - 1].hash)
    ensures ScanTail(lines) == Some(ScanHead(lines))
    ensures ScanCheckpoint(lines) == CheckpointOf(lines)
  {
    ShapeIncreases(lines);
    IncreasingScanAt(lines, n);
    IncreasingScanTail(lines);
    ShapeFacts(lines);
    CheckpointScans(lines);
    if Holds(lines, n) {
      assert lines[LineOf(lines, n)].pos == n;
    }
  }

  // ---------------------------------------------------------------------------------------------
  // One append, one prune
  // ---------------------------------------------------------------------------------------------

  lemma AppendKeepsShape(lines: seq<Entry>, e: Entry, now: int)
    requires LogShape(lines) && Verified(lines) && IsDeletion(e)
    ensures var r := AppendLines(lines, e, now);
            LogShape(r) && Verified(r) && HeadPos(r) == HeadPos(lines) + 1 && CheckpointOf(r) == CheckpointOf(lines)
  {
    ShapeScans(lines, 0);
    var r := AppendLines(lines, e, now);
    assert r[..|lines|] == lines;
    forall i | 0 <= i < |r| ensures LineOk(r, i) && LinkOk(r, i) {
      assert LineOk(lines, |lines| - 1);
      if i < |lines| {
        assert LineOk(lines, i) && LinkOk(lines, i);
        assert r[i] == lines[i];
      }
    }
  }

  /** `Keep` of a predicate that holds exactly on one span is that span. */
  lemma {:induction false} KeepSpan(s: seq<Entry>, p: Entry -> bool, a: nat, b: nat)
    requires a <= b <= |s|
    requires forall i :: 0 <= i < |s| ==> (p(s[i]) <==> a <= i < b)
    ensures Keep(s, p) == s[a..b]
  {
    if |s| > 0 {
      var t := s[..|s| - 1];
      if a == b {
        KeepSpan(t, p, 0, 0);
        assert |s[a..b]| == 0;
      } else if b == |s| {
        KeepSpan(t, p, a, b - 1);
        assert s[a..b] == t[a..b - 1] + [s[|s| - 1]];
      } else {
        KeepSpan(t, p, a, b);
        assert s[a..b] == t[a..b];
      }
    }
  }

  /** What `prune` reads of a well-shaped log: the genesis line and the contiguous rest. */
  lemma EntriesOfShape(lines: seq<Entry>)
    requires LogShape(lines)
    ensures Keep(lines, NotGenesis()) == lines[1..] && First(lines, IsGenesis()) == 0
    ensures forall i :: 0 <= i < |lines| - 1 ==>
                          && lines[1..][i].pos == (if CheckpointOf(lines) == 0 then i + 1 else CheckpointOf(lines) + i)
                          && (lines[1..][i].what.scope.Checkpoint? <==> i == 0 && CheckpointOf(lines) > 0)
  {
    ShapeFacts(lines);
    KeepSpan(lines, NotGenesis(), 1, |lines|);
    assert IsGenesis()(lines[0]);
    assert forall i :: 0 <= i < |lines| - 1 ==> lines[1..][i] == lines[i + 1];
  }

  /** A prune that is not at a held position above the checkpoint changes nothing. */
  lemma PruneOutsideIsNoop(lines: seq<Entry>, dbId: string, before: int, now: int)
    requires LogShape(lines) && !(CheckpointOf(lines) < before <= HeadPos(lines))
    ensures PruneLines(lines, dbId, before, now) == (lines, 0)
  {
    ShapeFacts(lines);
    EntriesOfShape(lines);
    var tail := lines[1..];
    if before <= CheckpointOf(lines) && CheckpointOf(lines) > 0 {
      assert CheckpointFrom(before)(tail[0]);
    } else {
      assert forall i :: 0 <= i < |tail| ==> !AtPos(before)(tail[i]);
    }
  }

  /** The passes of `prune` over contiguous entries, `before` being at index `k`. */
  lemma PruneFinds(tail: seq<Entry>, cp: nat, before: int, k: nat)
    requires k < |tail| && tail[k].pos == before && cp < before
    requires forall i :: 0 <= i < |tail| ==> tail[i].pos == before - k + i
    requires forall i :: 0 <= i < |tail| ==> (tail[i].what.scope.Checkpoint? <==> i == 0 && cp > 0)
    requires cp > 0 ==> tail[0].pos == cp
    ensures First(tail, AtPos(before)) == k
    ensures First(tail, CheckpointFrom(before)) == |tail|
    ensures cp > 0 ==> First(tail, IsCheckpoint()) == 0
  {
  }

  lemma PruneKeeps(tail: seq<Entry>, cp: nat, before: int, k: nat)
    requires k < |tail| && tail[k].pos == before
    requires forall i :: 0 <= i < |tail| ==> tail[i].pos == before - k + i
    requires forall i :: 0 <= i < |tail| ==> (tail[i].what.scope.Checkpoint? <==> i == 0 && cp > 0)
    ensures Keep(tail, AbovePos(before)) == tail[k + 1..]
  {
    KeepSpan(tail, AbovePos(before), k + 1, |tail|);
  }

  lemma PruneDrops(tail: seq<Entry>, cp: nat, before: int, k: nat)
    requires k < |tail| && tail[k].pos == before && (cp > 0 ==> k > 0)
    requires forall i :: 0 <= i < |tail| ==> tail[i].pos == before - k + i
    requires forall i :: 0 <= i < |tail| ==> (tail[i].what.scope.Checkpoint? <==> i == 0 && cp > 0)
    ensures |Keep(tail, DeletionUpTo(before))| == if cp == 0 then k + 1 else k
  {
    KeepSpan(tail, DeletionUpTo(before), if cp == 0 then 0 else 1, k + 1);
  }

  /** The passes of `prune`, on a well-shaped log. */
  lemma PrunePasses(lines: seq<Entry>, before: int)
    requires LogShape(lines) && CheckpointOf(lines) < before <= HeadPos(lines)
    ensures Holds(lines, before) && 1 <= LineOf(lines, before)
    ensures var tail := Keep(lines, NotGenesis());
            var k := LineOf(lines, before) - 1;
            && tail == lines[1..] && First(lines, IsGenesis()) == 0
            && First(tail, AtPos(before)) == k < |tail| && tail[k] == At(lines, before)
            && First(tail, CheckpointFrom(before)) == |tail|
            && (CheckpointOf(lines) > 0 ==> First(tail, IsCheckpoint()) == 0)
            && |Keep(tail, DeletionUpTo(before))| == before - CheckpointOf(lines)
            && Keep(tail, AbovePos(before)) == lines[k + 2..]
  {
    hide First, Keep;
    ShapeFacts(lines);
    EntriesOfShape(lines);
    var tail := lines[1..];
    var k := LineOf(lines, before) - 1;
    hide LogShape, PosAt;
    PruneFinds(tail, CheckpointOf(lines), before, k);
    PruneKeeps(tail, CheckpointOf(lines), before, k);
    PruneDrops(tail, CheckpointOf(lines), before, k);
    assert tail[k + 1..] == lines[k + 2..];
  }

  /** What `prune` does at a held position above the checkpoint: it keeps the genesis, the new
      checkpoint and the suffix, and reports the deletions it dropped. */
  lemma PruneOfShape(lines: seq<Entry>, dbId: string, before: int, now: int)
    requires LogShape(lines) && CheckpointOf(lines) < before <= HeadPos(lines)
    ensures CheckpointOf(lines) >= 0 && Holds(lines, before)
    ensures PruneLines(lines, dbId, before, now)
            == ([lines[0], CheckpointEntry(dbId, before, lines[0].hash, At(lines, before).hash, now)]
                + lines[LineOf(lines, before) + 1..], before - CheckpointOf(lines))
  {
    hide First, Keep, PosAt, LineOf, HeadPos;
    ShapeFacts(lines);
    PrunePasses(lines, before);
  }

  // ---------------------------------------------------------------------------------------------
  // Refinement of the never-pruned history
  // ---------------------------------------------------------------------------------------------

  /** File `f` holds history `h` from its checkpoint up. */
  ghost predicate Refines(f: seq<Entry>, h: seq<Entry>) {
    && LogShape(f) && LogShape(h) && Verified(f) && Verified(h)
    && CheckpointOf(h) == 0 && f[0] == h[0]
    && HeadPos(f) == HeadPos(h) == |h| - 1
    && (CheckpointOf(f) == 0 ==> f == h)
    && (CheckpointOf(f) > 0 ==> CheckpointOf(f) < |h| && f[1].hash == h[CheckpointOf(f)].hash
                                && f[1].originHash == NoHash
                                && f[2..] == h[CheckpointOf(f) + 1..])
  }

  lemma HistoryHead(h: seq<Entry>)
    requires LogShape(h) && CheckpointOf(h) == 0
    ensures HeadPos(h) == |h| - 1
  {
    assert LineOk(h, |h| - 1);
  }

  lemma TailsAgree(f: seq<Entry>, h: seq<Entry>)
    requires Refines(f, h)
    ensures ScanTail(f) == ScanTail(h)
    ensures f[|f| - 1].hash == h[|h| - 1].hash
  {
    ShapeScans(f, 0);
    ShapeScans(h, 0);
    ShapeFacts(f);
    if CheckpointOf(f) < HeadPos(f) {
      SuffixAgrees(f, h, HeadPos(f));
    }
    hide LogShape, ScanTail, ScanAt, ScanHead;
  }

  lemma AppendRefines(f: seq<Entry>, h: seq<Entry>, e: Entry, now: int)
    requires Refines(f, h) && IsDeletion(e)
    ensures Sealed(ScanTail(f), e, now) == Sealed(ScanTail(h), e, now)
    ensures Refines(AppendLines(f, e, now), AppendLines(h, e, now))
  {
    TailsAgree(f, h);
    ShapeFacts(f);
    AppendKeepsShape(f, e, now);
    AppendKeepsShape(h, e, now);
    var s := Sealed(ScanTail(f), e, now);
    hide Verified, ScanTail, Sealed, LogShape;
    var cp := CheckpointOf(f);
    if cp > 0 {
      assert (f + [s])[2..] == f[2..] + [s];
      assert (h + [s])[cp + 1..] == h[cp + 1..] + [s];
    }
  }

  /** Replacing everything up to `b` by a checkpoint refines. */
  lemma CutRefines(h: seq<Entry>, mark: Entry, b: int)
    requires LogShape(h) && Verified(h) && CheckpointOf(h) == 0 && HeadPos(h) == |h| - 1
    requires 1 <= b < |h|
    requires mark.what.scope.Checkpoint? && mark.pos == b && NormalForm(mark) && mark.originHash == NoHash
    requires mark.prevHash == h[0].hash && mark.hash == h[b].hash
    ensures Refines([h[0], mark] + h[b + 1..], h) && CheckpointOf([h[0], mark] + h[b + 1..]) == b
  {
    var f := [h[0], mark] + h[b + 1..];
    ShapeFacts(h);
    assert LinkOk(h, 0);
    forall i | 0 <= i < |f| ensures LineOk(f, i) && LinkOk(f, i) {
      if i >= 2 {
        assert f[i] == h[b + i - 1] && LinkOk(h, b + i - 1);
      }
    }
    ShapeFacts(f);
    assert f[2..] == h[b + 1..];
  }

  /** Above the checkpoint the file's suffix is the history's. */
  lemma SuffixAgrees(f: seq<Entry>, h: seq<Entry>, n: int)
    requires Refines(f, h) && CheckpointOf(f) < n <= HeadPos(f)
    ensures Holds(f, n) && At(f, n) == h[n] && f[LineOf(f, n) + 1..] == h[n + 1..]
  {
    ShapeFacts(f);
    var cp := CheckpointOf(f);
    if cp > 0 {
      var i := LineOf(f, n);
      assert f[i] == f[2..][i - 2] == h[cp + 1..][i - 2];
      assert f[i + 1..] == f[2..][i - 1..];
      assert h[n + 1..] == h[cp + 1..][i - 1..];
    }
  }

  lemma PruneRefines(f: seq<Entry>, h: seq<Entry>, dbId: string, before: int, now: int)
    requires Refines(f, h)
    ensures var (f', removed) := PruneLines(f, dbId, before, now);
            Refines(f', h) && CheckpointOf(f') == CheckpointOf(f) + removed
  {
    ShapeFacts(f);
    if !(CheckpointOf(f) < before <= HeadPos(f)) {
      PruneOutsideIsNoop(f, dbId, before, now);
    } else {
      PruneOfShape(f, dbId, before, now);
      SuffixAgrees(f, h, before);
      CutRefines(h, CheckpointEntry(dbId, before, f[0].hash, At(f, before).hash, now), before);
    }
  }

  /** What a refining file finds at a position, compared with the full history. */
  lemma ScansRefine(f: seq<Entry>, h: seq<Entry>, n: int)
    requires Refines(f, h)
    ensures n > CheckpointOf(f) || n <= 0 ==> ScanAt(f, n) == ScanAt(h, n)
    ensures n == CheckpointOf(f) > 0 ==>
              && |f| > 1 && n < |h| && ScanAt(f, n) == Some(f[1]) && ScanAt(h, n) == Some(h[n])
              && f[1].hash == h[n].hash && f[1].originHash == NoHash
    ensures 0 < n < CheckpointOf(f) ==>
              && ScanAt(f, n).None? && n < |h| && ScanAt(h, n) == Some(h[n]) && h[n].hash != Genesis
  {
    ShapeScans(f, n);
    ShapeScans(h, n);
    ShapeFacts(f);
    ShapeFacts(h);
    var cp := CheckpointOf(f);
    if cp < n <= HeadPos(f) {
      SuffixAgrees(f, h, n);
    }
    if 0 < n < cp {
      assert LinkOk(h, n);
    }
  }

  /** What a refining file answers, compared with the full history: everything from the checkpoint up,
      except the relay identity of the pruned entry at the checkpoint itself. */
  lemma LookupsRefine(f: seq<Entry>, h: seq<Entry>, n: int, x: Hash)
    requires Refines(f, h)
    ensures ScanHead(f) == ScanHead(h) && ScanCheckpoint(f) == CheckpointOf(f)
    ensures n >= CheckpointOf(f) ==> ScanChainHash(f, n) == ScanChainHash(h, n)
    ensures 0 < n < CheckpointOf(f) ==> ScanChainHash(f, n) == Genesis && ScanChainHash(h, n) != Genesis
    ensures n > CheckpointOf(f) || n <= 0 ==> (ScanHasTombstone(f, n, x) <==> ScanHasTombstone(h, n, x))
    ensures n == CheckpointOf(f) > 0 ==> n < |h| && (ScanHasTombstone(f, n, x) <==> x == h[n].hash || x == NoHash)
    ensures 0 < n < CheckpointOf(f) ==> !ScanHasTombstone(f, n, x)
  {
    hide Refines, LogShape, ScanAt, ScanTail, CheckpointOf;
    ScansRefine(f, h, n);
    TailsAgree(f, h);
    RefinesBasics(f, h);
  }

  // ---------------------------------------------------------------------------------------------
  // Reading above a position
  // ---------------------------------------------------------------------------------------------

  /** The scans of a refining file, and the positions of its history. */
  lemma RefinesBasics(f: seq<Entry>, h: seq<Entry>)
    requires Refines(f, h)
    ensures 0 <= CheckpointOf(f) < |h| && HeadPos(f) == |h| - 1
    ensures ScanHead(f).0 == |h| - 1 && ScanCheckpoint(f) == CheckpointOf(f)
    ensures forall i :: 0 <= i < |h| ==> h[i].pos == i
  {
    ShapeScans(f, 0);
    ShapeFacts(f);
    ShapeFacts(h);
  }

  lemma PosOrder(lines: seq<Entry>, i: nat, j: nat)
    requires Increasing(lines) && i < |lines| && j < |lines|
    ensures lines[j].pos > lines[i].pos <==> i < j
  {
  }

  lemma KeepAbove(lines: seq<Entry>, i: nat)
    requires Increasing(lines) && i < |lines|
    ensures Keep(lines, AbovePos(lines[i].pos)) == lines[i + 1..]
  {
    hide Increasing, Keep;
    var p := AbovePos(lines[i].pos);
    forall j | 0 <= j < |lines| ensures p(lines[j]) <==> i + 1 <= j < |lines| {
      PosOrder(lines, i, j);
    }
    KeepSpan(lines, p, i + 1, |lines|);
  }

  /** Above its checkpoint a compacted file reads like the full history. */
  lemma ReadFromRefines(f: seq<Entry>, h: seq<Entry>, from: int)
    requires Refines(f, h) && CheckpointOf(f) <= from <= HeadPos(f)
    ensures 0 <= from < |h| && Keep(f, AbovePos(from)) == h[from + 1..]
  {
    RefinesBasics(f, h);
    ShapeIncreases(f);
    KeepAbove(f, LineOf(f, from));
    if CheckpointOf(f) < from {
      SuffixAgrees(f, h, from);
    }
  }

  // ---------------------------------------------------------------------------------------------
  // Whole runs
  // ---------------------------------------------------------------------------------------------

  datatype Op = AppendOp(e: Entry, now: int) | PruneOp(before: int, now: int)

  predicate OpsOk(ops: seq<Op>) {
    forall i :: 0 <= i < |ops| && ops[i].AppendOp? ==> IsDeletion(ops[i].e)
  }

  /** The file after a run, and the sum of the counts its prunes returned. */
  function RunFile(dbId: string, born: int, ops: seq<Op>): (seq<Entry>, nat) {
    if |ops| == 0 then ([GenesisOf(dbId, born)], 0)
    else
      var (f, total) := RunFile(dbId, born, ops[..|ops| - 1]);
      match ops[|ops| - 1]
      case AppendOp(e, now) => (AppendLines(f, e, now), total)
      case PruneOp(b, now) =>
        var (f', removed) := PruneLines(f, dbId, b, now);
        (f', total + removed)
  }

  /** The same run with every prune skipped. */
  function RunFull(dbId: string, born: int, ops: seq<Op>): seq<Entry> {
    if |ops| == 0 then [GenesisOf(dbId, born)]
    else
      var h := RunFull(dbId, born, ops[..|ops| - 1]);
      match ops[|ops| - 1]
      case AppendOp(e, now) => AppendLines(h, e, now)
      case PruneOp(_, _) => h
  }

  /** Over any interleaving of appends and prunes the chain verifies, the file refines the never-pruned
      history, and the reported counts add up to the checkpoint. */
  lemma {:induction false} CompactionRefinesFullLog(dbId: string, born: int, ops: seq<Op>)
    requires OpsOk(ops)
    ensures var (f, total) := RunFile(dbId, born, ops);
            var h := RunFull(dbId, born, ops);
            Verified(f) && Verified(h) && Refines(f, h) && total == CheckpointOf(f)
  {
    if |ops| == 0 {
      var g := GenesisOf(dbId, born);
      assert LineOk([g], 0) && LinkOk([g], 0);
    } else {
      var before := ops[..|ops| - 1];
      CompactionRefinesFullLog(dbId, born, before);
      var f := RunFile(dbId, born, before).0;
      var h := RunFull(dbId, born, before);
      match ops[|ops| - 1]
      case AppendOp(e, now) =>
        AppendRefines(f, h, e, now);
        AppendKeepsShape(f, e, now);
      case PruneOp(b, now) => PruneRefines(f, h, dbId, b, now);
    }
  }

  /** The next append gets the position, link and hash it would have got had nothing been pruned. */
  lemma NextAppendIsTheSame(dbId: string, born: int, ops: seq<Op>, e: Entry, now: int)
    requires OpsOk(ops) && IsDeletion(e)
    ensures var f := RunFile(dbId, born, ops).0;
            var h := RunFull(dbId, born, ops);
            Sealed(ScanTail(f), e, now) == Sealed(ScanTail(h), e, now)
    ensures ScanHead(RunFile(dbId, born, ops).0) == ScanHead(RunFull(dbId, born, ops))
  {
    CompactionRefinesFullLog(dbId, born, ops);
    var f := RunFile(dbId, born, ops).0;
    var h := RunFull(dbId, born, ops);
    AppendRefines(f, h, e, now);
    LookupsRefine(f, h, 0, NoHash);
  }

  // ---------------------------------------------------------------------------------------------
  // The server backend's prune is not the file backend's
  // ---------------------------------------------------------------------------------------------

  function SurvivesBelow(n: int): Entry -> bool {
    (e: Entry) => e.pos < n && (e.pos < 1 || e.what.scope.Checkpoint?)
  }

  /** `PgDeletionLog.prune`: the rows from 1 to `before` go, except checkpoints, and the new checkpoint
      links to the genesis. */
  function PgPruneRows(rows: seq<Entry>, dbId: string, before: int, now: int): seq<Entry> {
    if ScanCheckpoint(rows) >= before || ScanAt(rows, before).None? || |rows| == 0 then rows
    else
      Keep(rows, SurvivesBelow(before))
      + [CheckpointEntry(dbId, before, rows[0].hash, ScanAt(rows, before).value.hash, now)]
      + Keep(rows, AbovePos(before))
  }

  lemma PgParts(h: seq<Entry>, k: int)
    requires LogShape(h) && CheckpointOf(h) == 0 && 1 <= k < |h|
    ensures Keep(h, SurvivesBelow(k)) == [h[0]] && Keep(h, AbovePos(k)) == h[k + 1..]
    ensures Holds(h, k) && At(h, k) == h[k]
  {
    ShapeFacts(h);
    HistoryHead(h);
    ShapeIncreases(h);
    assert LineOf(h, k) == k;
    hide LogShape, Keep;
    KeepAbove(h, k);
    hide Increasing, AbovePos;
    var p := SurvivesBelow(k);
    forall i | 0 <= i < |h| ensures p(h[i]) <==> i < 1 {
      assert h[i].pos == PosAt(h, i);
    }
    KeepSpan(h, p, 0, 1);
    assert h[0..1] == [h[0]];
  }

  lemma PgFirstPrune(h: seq<Entry>, dbId: string, k: int, now: int)
    requires LogShape(h) && CheckpointOf(h) == 0 && 1 <= k <= HeadPos(h) && HeadPos(h) == |h| - 1
    ensures PgPruneRows(h, dbId, k, now)
            == [h[0], CheckpointEntry(dbId, k, h[0].hash, h[k].hash, now)] + h[k + 1..]
  {
    ShapeScans(h, k);
    PgParts(h, k);
    assert [h[0]] + [CheckpointEntry(dbId, k, h[0].hash, h[k].hash, now)] + h[k + 1..]
        == [h[0], CheckpointEntry(dbId, k, h[0].hash, h[k].hash, now)] + h[k + 1..];
  }

  lemma PgKeepsOldCheckpoint(f: seq<Entry>, dbId: string, k: int, u: int)
    requires LogShape(f) && 0 < CheckpointOf(f) < k <= HeadPos(f) && f[1].hash != f[0].hash
    ensures Broken(PgPruneRows(f, dbId, k, u))
  {
    ShapeFacts(f);
    ShapeScans(f, k);
    KeepSpan(f, SurvivesBelow(k), 0, 2);
  }

  /** A verified file of the shape appends and prunes leave, and its never-pruned history: the server backend's prune
      leaves a log that verifies exactly when the file was never compacted, or the prune is not at a held position
      above its checkpoint and does nothing. */
  lemma PgPruneVerifiesIff(f: seq<Entry>, h: seq<Entry>, dbId: string, before: int, now: int)
    requires Refines(f, h)
    ensures Verified(PgPruneRows(f, dbId, before, now))
       <==> CheckpointOf(f) == 0 || !(CheckpointOf(f) < before <= HeadPos(f))
    ensures !(CheckpointOf(f) < before <= HeadPos(f)) ==> PgPruneRows(f, dbId, before, now) == f
    ensures CheckpointOf(f) == 0 < before <= HeadPos(f) ==>
              var r := PgPruneRows(f, dbId, before, now);
              Refines(r, h) && CheckpointOf(r) == before
    ensures 0 < CheckpointOf(f) < before <= HeadPos(f) ==> Broken(PgPruneRows(f, dbId, before, now))
  {
    hide Keep, PgPruneRows, Verified, Broken;
    RefinesBasics(f, h);
    if !(CheckpointOf(f) < before <= HeadPos(f)) {
      PgNoop(f, dbId, before, now);
    } else {
      if CheckpointOf(f) == 0 {
        PgFirstPrune(h, dbId, before, now);
        CutRefines(h, CheckpointEntry(dbId, before, h[0].hash, h[before].hash, now), before);
      } else {
        MarkIsNoGenesis(f, h);
        PgKeepsOldCheckpoint(f, dbId, before, now);
        BrokenIsUnverified(PgPruneRows(f, dbId, before, now));
      }
    }
  }

  lemma PgNoop(f: seq<Entry>, dbId: string, before: int, now: int)
    requires LogShape(f) && !(CheckpointOf(f) < before <= HeadPos(f))
    ensures PgPruneRows(f, dbId, before, now) == f
  {
    ShapeFacts(f);
    ShapeScans(f, before);
  }

  /** The hash at a checkpoint is that of the pruned entry, never the genesis line's. */
  lemma MarkIsNoGenesis(f: seq<Entry>, h: seq<Entry>)
    requires Refines(f, h) && CheckpointOf(f) > 0
    ensures f[1].hash != f[0].hash
  {
    HistoryHead(h);
    assert LineOf(h, CheckpointOf(f)) == CheckpointOf(f);
    HashesGrow(h, 0, CheckpointOf(f));
  }

  /** Two checkpoints in front, the second linked past the first to the genesis line. */
  predicate Broken(rows: seq<Entry>) {
    && |rows| >= 3 && rows[0].pos < 1 && rows[1].what.scope.Checkpoint? && rows[2].what.scope.Checkpoint?
    && rows[2].prevHash == rows[0].hash != rows[1].hash
  }

  lemma BrokenIsUnverified(rows: seq<Entry>)
    requires Broken(rows)
    ensures !Verified(rows)
  {
    assert !LinkOk(rows, 2);
  }

  // ---------------------------------------------------------------------------------------------
  // Whole runs of the server backend
  // ---------------------------------------------------------------------------------------------

  /** Does the prune do anything? */
  predicate PgPrunes(rows: seq<Entry>, before: int) {
    ScanCheckpoint(rows) < before && ScanAt(rows, before).Some? && |rows| > 0
  }

  /** The rows after a run, and how many of its prunes did anything. */
  function RunPg(dbId: string, born: int, ops: seq<Op>): (seq<Entry>, nat) {
    if |ops| == 0 then ([GenesisOf(dbId, born)], 0)
    else
      var (rows, prunes) := RunPg(dbId, born, ops[..|ops| - 1]);
      match ops[|ops| - 1]
      case AppendOp(e, now) => (AppendLines(rows, e, now), prunes)
      case PruneOp(b, now) => (PgPruneRows(rows, dbId, b, now), if PgPrunes(rows, b) then prunes + 1 else prunes)
  }

  lemma {:induction false} KeepStarts(s: seq<Entry>, p: Entry -> bool, n: nat)
    requires n <= |s| && forall i :: 0 <= i < n ==> p(s[i])
    ensures |Keep(s, p)| >= n && Keep(s, p)[..n] == s[..n]
  {
    if |s| > n {
      KeepStarts(s[..|s| - 1], p, n);
    } else if n > 0 {
      KeepStarts(s[..n - 1], p, n - 1);
    }
  }

  lemma {:induction false} CheckpointIsHighest(rows: seq<Entry>, i: nat)
    requires i < |rows| && rows[i].what.scope.Checkpoint?
    ensures rows[i].pos <= ScanCheckpoint(rows)
  {
    if i < |rows| - 1 {
      CheckpointIsHighest(rows[..|rows| - 1], i);
    }
  }

  lemma BrokenStaysBroken(rows: seq<Entry>, dbId: string, before: int, now: int)
    requires Broken(rows)
    ensures Broken(PgPruneRows(rows, dbId, before, now))
  {
    if PgPrunes(rows, before) {
      CheckpointIsHighest(rows, 1);
      CheckpointIsHighest(rows, 2);
      ScanCheckpointIsNat(rows);
      KeepStarts(rows, SurvivesBelow(before), 3);
      var kept := Keep(rows, SurvivesBelow(before));
      assert kept[0] == kept[..3][0] && kept[1] == kept[..3][1] && kept[2] == kept[..3][2];
    }
  }

  lemma {:induction false} ScanCheckpointIsNat(rows: seq<Entry>)
    ensures ScanCheckpoint(rows) >= 0
  {
    if |rows| > 0 {
      ScanCheckpointIsNat(rows[..|rows| - 1]);
    }
  }

  lemma {:induction false} PgRunShape(dbId: string, born: int, ops: seq<Op>)
    requires OpsOk(ops)
    ensures var (rows, prunes) := RunPg(dbId, born, ops);
            if prunes <= 1 then Refines(rows, RunFull(dbId, born, ops)) && (CheckpointOf(rows) == 0 <==> prunes == 0)
            else Broken(rows)
  {
    if |ops| == 0 {
      var g := GenesisOf(dbId, born);
      assert LineOk([g], 0) && LinkOk([g], 0);
    } else {
      var before := ops[..|ops| - 1];
      PgRunShape(dbId, born, before);
      var (rows, prunes) := RunPg(dbId, born, before);
      PgStep(rows, prunes, RunFull(dbId, born, before), dbId, ops[|ops| - 1]);
    }
  }

  lemma PgStep(rows: seq<Entry>, prunes: nat, h: seq<Entry>, dbId: string, op: Op)
    requires op.AppendOp? ==> IsDeletion(op.e)
    requires if prunes <= 1 then Refines(rows, h) && (CheckpointOf(rows) == 0 <==> prunes == 0) else Broken(rows)
    ensures op.AppendOp? ==>
              var r := AppendLines(rows, op.e, op.now);
              if prunes <= 1 then Refines(r, AppendLines(h, op.e, op.now)) && (CheckpointOf(r) == 0 <==> prunes == 0)
              else Broken(r)
    ensures op.PruneOp? ==>
              var r := PgPruneRows(rows, dbId, op.before, op.now);
              var n := if PgPrunes(rows, op.before) then prunes + 1 else prunes;
              if n <= 1 then Refines(r, h) && (CheckpointOf(r) == 0 <==> n == 0) else Broken(r)
  {
    hide Refines, LogShape, Keep, ScanTail, Sealed;
    match op
    case AppendOp(e, now) =>
      if prunes <= 1 {
        AppendRefines(rows, h, e, now);
        AppendKeepsCheckpoint(rows, h, e, now);
      }
    case PruneOp(b, now) =>
      if prunes <= 1 {
        RefinesBasics(rows, h);
        PrunesIff(rows, h, b);
        PgPruneVerifiesIff(rows, h, dbId, b, now);
      } else {
        BrokenStaysBroken(rows, dbId, b, now);
      }
  }

  lemma AppendKeepsCheckpoint(f: seq<Entry>, h: seq<Entry>, e: Entry, now: int)
    requires Refines(f, h) && IsDeletion(e)
    ensures CheckpointOf(AppendLines(f, e, now)) == CheckpointOf(f)
  {
    AppendKeepsShape(f, e, now);
  }

  lemma PrunesIff(f: seq<Entry>, h: seq<Entry>, before: int)
    requires Refines(f, h)
    ensures LogShape(f) && (PgPrunes(f, before) <==> CheckpointOf(f) < before <= HeadPos(f))
  {
    ShapeScans(f, before);
    ShapeFacts(f);
  }

  /** Over any interleaving of appends and prunes on the server backend, the log verifies exactly when at most one of
      the prunes did anything. */
  lemma PgRunVerifiesIff(dbId: string, born: int, ops: seq<Op>)
    requires OpsOk(ops)
    ensures Verified(RunPg(dbId, born, ops).0) <==> RunPg(dbId, born, ops).1 <= 1
  {
    hide RunPg, RunFull, Verified, Broken;
    PgRunShape(dbId, born, ops);
    var (rows, prunes) := RunPg(dbId, born, ops);
    if prunes <= 1 {
      RefinesVerifies(rows, RunFull(dbId, born, ops));
    } else {
      BrokenIsUnverified(rows);
    }
  }

  lemma RefinesVerifies(f: seq<Entry>, h: seq<Entry>)
    requires Refines(f, h)
    ensures Verified(f)
  {
  }
}
