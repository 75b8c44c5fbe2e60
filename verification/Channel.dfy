/**
 * Channel safety: a receiver whose stored position still lies on the sender's chain has missed nothing
 * below it.
 *
 * The stored chain hash determines the sender's history down to the genesis, so what a receiver owes
 * can be read off the hash itself: `Covered` walks it.
 */
module Channel {
  import opened Basics
  import opened Chain
  import opened FileLog
  import opened Compaction
  import opened Tombstones
  import opened Device

  // ---------------------------------------------------------------------------------------------
  // What a receiver has and what a hash says it owes
  // ---------------------------------------------------------------------------------------------

  /** A log, compacted or not, once recorded the identity at its own position. */
  predicate Held(history: seq<Entry>, k: Key) {
    0 <= k.seq_ < |history| && (k.hash == history[k.seq_].hash || k.hash == history[k.seq_].originHash)
  }

  /** The deletion was applied here, or it happened here. */
  predicate Has(d: Device, k: Key) {
    k in d.applied || (k.origin == d.id && Held(d.history, k))
  }

  /** The identity of the entry with payload `p` and hash `h` at position `n`. */
  function PayloadKey(p: Payload, n: int, h: Hash): Key {
    Key(if p.relay.None? then p.dbId else p.relay.value.0,
        if p.relay.None? then n else p.relay.value.1,
        if p.originHash == NoHash then h else p.originHash)
  }

  /** Every travelling entry of the history that ends in hash `h` at position `n` is had by `d`. */
  predicate Covered(d: Device, h: Hash, n: nat) {
    n == 0
    || (h.Digest?
        && (CanTravel(h.payload.what) ==> Has(d, PayloadKey(h.payload, n, h)))
        && Covered(d, h.payload.prev, n - 1))
  }

  /** Walking down from `h` at `n` meets `fromHash` at `from`, and every travelling entry on the way has
      its identity in `keys`. */
  predicate Segment(h: Hash, n: int, fromHash: Hash, from: nat, keys: set<Key>)
    decreases n - from
  {
    if n <= from then from == 0 || h == fromHash
    else
      && h.Digest?
      && (CanTravel(h.payload.what) ==> PayloadKey(h.payload, n, h) in keys)
      && Segment(h.payload.prev, n - 1, fromHash, from, keys)
  }

  function KeysOf(ts: seq<Tombstone>): set<Key> {
    set t | t in ts :: KeyOf(t.body)
  }

  /** A batch that was read off some history between its two cursors. */
  predicate Honest(b: Batch) {
    && 0 <= b.from <= b.to
    && Segment(b.toChain, b.to, b.fromChain, b.from, KeysOf(b.entries))
    && forall k :: k in KeysOf(b.entries) ==> k.hash != NoHash
  }

  /** Every stored anchor is covered. */
  ghost predicate Safe(d: Device) {
    && DeviceOk(d)
    && forall s :: s in d.peers ==> d.peers[s].cursor >= 0 && Covered(d, d.peers[s].chain, d.peers[s].cursor)
  }

  // ---------------------------------------------------------------------------------------------
  // Having is kept
  // ---------------------------------------------------------------------------------------------

  /** `d'` has at least what `d` has. */
  predicate HasMore(d: Device, d': Device) {
    d'.id == d.id && d.history <= d'.history && d.applied.Keys <= d'.applied.Keys
  }

  lemma {:induction false} CoveredGrows(d: Device, d': Device, h: Hash, n: nat)
    requires HasMore(d, d') && Covered(d, h, n)
    ensures Covered(d', h, n)
  {
    if n > 0 {
      CoveredGrows(d, d', h.payload.prev, n - 1);
    }
  }

  /** A segment on top of a covered anchor is covered once its identities are had. */
  lemma {:induction false} SegmentCovers(d: Device, h: Hash, n: int, fromHash: Hash, from: nat, keys: set<Key>)
    requires Segment(h, n, fromHash, from, keys) && n >= from
    requires Covered(d, fromHash, from)
    requires forall k :: k in keys ==> Has(d, k)
    ensures Covered(d, h, n)
    decreases n - from
  {
    if n > from {
      SegmentCovers(d, h.payload.prev, n - 1, fromHash, from, keys);
    }
  }

  /** A tombstone a device knows, it has. */
  lemma KnownIsHad(d: Device, t: TombBody)
    requires DeviceOk(d) && Known(d, t) && t.originHash != NoHash
    ensures Has(d, KeyOf(t))
  {
    if KeyOf(t) !in d.applied {
      LookupsRefine(d.file, d.history, t.originSeq, t.originHash);
      ShapeScans(d.history, t.originSeq);
      ShapeFacts(d.history);
    }
  }

  /** Applying an honest batch keeps every anchor covered, whether the batch continues the channel, is a
      duplicate, comes late, or starts a rescan; and so does any batch that starts a rescan. */
  lemma ApplyKeepsSafe(d: Device, b: Batch, tape: nat -> Local)
    requires Safe(d) && NamesOrigins(b.entries) && (Honest(b) || Rescans(d, b))
    ensures Safe(Apply(d, b, tape))
  {
    var c := ApplyUpTo(d, b.entries, tape, |b.entries|);
    ApplyKeeps(d, b.entries, tape, |b.entries|);
    var d' := Apply(d, b, tape);
    assert HasMore(d, d') && DeviceOk(d');
    if !Rescans(d, b) {
      forall k | k in KeysOf(b.entries) ensures Has(d', k) {
        var t :| t in b.entries && KeyOf(t.body) == k;
        var i :| 0 <= i < |b.entries| && b.entries[i] == t;
        assert Known(c, b.entries[i].body);
        KnownIsHad(c, t.body);
      }
    }
    hide DeviceOk, ApplyUpTo, Known;
    forall s | s in d'.peers ensures d'.peers[s].cursor >= 0 && Covered(d', d'.peers[s].chain, d'.peers[s].cursor) {
      if s != b.sender {
        CoveredGrows(d, d', d.peers[s].chain, d.peers[s].cursor);
      } else if !Rescans(d, b) {
        assert Covered(d', b.fromChain, b.from) by {
          if b.from > 0 {
            CoveredGrows(d, d', d.peers[s].chain, d.peers[s].cursor);
          }
        }
        SegmentCovers(d', b.toChain, b.to, b.fromChain, b.from, KeysOf(b.entries));
      }
    }
  }

  /** A device whose anchors are those of `d` and that has at least what `d` has is as safe. */
  lemma SafeGrows(d: Device, d': Device)
    requires Safe(d) && DeviceOk(d') && HasMore(d, d') && d'.peers == d.peers
    ensures Safe(d')
  {
    hide DeviceOk;
    forall s | s in d'.peers ensures d'.peers[s].cursor >= 0 && Covered(d', d'.peers[s].chain, d'.peers[s].cursor) {
      CoveredGrows(d, d', d.peers[s].chain, d.peers[s].cursor);
    }
  }

  /** An application that fails half way rolls the database back but not the log; the device stays safe. */
  lemma FailedApplyKeepsSafe(d: Device, b: Batch, tape: nat -> Local, n: nat)
    requires Safe(d) && NamesOrigins(b.entries) && n <= |b.entries|
    ensures var c := ApplyUpTo(d, b.entries, tape, n);
            Safe(d.(file := c.file, history := c.history))
  {
    ApplyKeeps(d, b.entries, tape, n);
    var c := ApplyUpTo(d, b.entries, tape, n);
    var d' := d.(file := c.file, history := c.history);
    assert DeviceOk(d');
    hide ApplyUpTo, DeviceOk, TombstonesKept;
    SafeGrows(d, d');
  }

  // ---------------------------------------------------------------------------------------------
  // A database beside another log
  // ---------------------------------------------------------------------------------------------

  /** The walk down from `h` at `n` runs through digests only. */
  predicate Digested(h: Hash, n: int) {
    n <= 0 || (h.Digest? && Digested(h.payload.prev, n - 1))
  }

  /** The identities of the travelling entries on that walk. */
  function Met(h: Hash, n: int): set<Key> {
    if n <= 0 || !h.Digest? then {}
    else Met(h.payload.prev, n - 1) + (if CanTravel(h.payload.what) then {PayloadKey(h.payload, n, h)} else {})
  }

  lemma {:induction false} CoveredIff(d: Device, h: Hash, n: nat)
    ensures Covered(d, h, n) <==> Digested(h, n) && forall k :: k in Met(h, n) ==> Has(d, k)
  {
    if n > 0 && h.Digest? {
      CoveredIff(d, h.payload.prev, n - 1);
    }
  }

  /** Every deletion of its own that the database met on another's chain, and did not record as applied because its
      log held it, is held by the log `h` as well. */
  predicate EchoesHeld(d: Device, h: seq<Entry>) {
    forall s, k :: s in d.peers && k in Met(d.peers[s].chain, d.peers[s].cursor) ==>
                     k.origin == d.id && k !in d.applied ==> Held(h, k)
  }

  /** A safe database put beside some log of its device is safe exactly when that log still holds the echoes it
      skipped. */
  lemma OtherLogKeepsSafeIff(d: Device, d': Device)
    requires Safe(d) && DeviceOk(d')
    requires d'.id == d.id && d'.applied == d.applied && d'.peers == d.peers
    ensures Safe(d') <==> EchoesHeld(d, d'.history)
  {
    hide DeviceOk, Covered, Held, Met;
    forall s | s in d.peers
      ensures Covered(d', d.peers[s].chain, d.peers[s].cursor)
         <==> forall k :: k in Met(d.peers[s].chain, d.peers[s].cursor) && k.origin == d.id && k !in d.applied ==>
                            Held(d'.history, k)
    {
      CoveredIff(d, d.peers[s].chain, d.peers[s].cursor);
      CoveredIff(d', d.peers[s].chain, d.peers[s].cursor);
    }
  }

  /** A log that continues the database's own holds them all. */
  lemma LongerLogHoldsEchoes(d: Device, h: seq<Entry>)
    requires Safe(d) && d.history <= h
    ensures EchoesHeld(d, h)
  {
    hide DeviceOk, Covered, Met;
    forall s, k | s in d.peers && k in Met(d.peers[s].chain, d.peers[s].cursor) && k.origin == d.id && k !in d.applied
      ensures Held(h, k)
    {
      CoveredIff(d, d.peers[s].chain, d.peers[s].cursor);
      assert Has(d, k) && Held(d.history, k);
      assert h[k.seq_] == d.history[k.seq_];
    }
  }

  // ---------------------------------------------------------------------------------------------
  // Exports are honest
  // ---------------------------------------------------------------------------------------------

  /** The hash and the identity of an entry of a verified history. */
  lemma EntryFacts(h: seq<Entry>, id: string, n: int)
    requires LogShape(h) && Verified(h) && CheckpointOf(h) == 0 && OwnsAll(h, id) && 1 <= n < |h|
    ensures h[n].hash == Digest(PayloadOf(h[n])) && PayloadOf(h[n]).prev == h[n - 1].hash && h[n].pos == n
    ensures PayloadKey(PayloadOf(h[n]), n, h[n].hash) == EntryKey(h[n]) && EntryKey(h[n]).hash != NoHash
  {
    ShapeFacts(h);
    assert LinkOk(h, n);
  }

  lemma {:induction false} HistorySegment(h: seq<Entry>, id: string, from: nat, n: nat, keys: set<Key>)
    requires LogShape(h) && Verified(h) && CheckpointOf(h) == 0 && OwnsAll(h, id)
    requires from <= n < |h|
    requires forall i :: from < i <= n && Travels(h[i]) ==> EntryKey(h[i]) in keys
    ensures Segment(h[n].hash, n, h[from].hash, from, keys)
    decreases n
  {
    if from < n {
      EntryFacts(h, id, n);
      HistorySegment(h, id, from, n - 1, keys);
    }
  }

  /** Only the bottom hash of a segment that starts at 0 is free. */
  lemma {:induction false} SegmentFromZero(h: Hash, n: nat, a: Hash, b: Hash, keys: set<Key>)
    requires Segment(h, n, a, 0, keys)
    ensures Segment(h, n, b, 0, keys)
  {
    if n > 0 {
      SegmentFromZero(h.payload.prev, n - 1, a, b, keys);
    }
  }

  /** The cursor rewinds to 0 on a log that no longer reaches back to 1. */
  predicate Overshoots(f: seq<Entry>, since: int) {
    since > ScanHead(f).0 && ScanCheckpoint(f) > 0
  }

  function ChainAt(h: seq<Entry>, n: int): Hash
    requires 0 <= n < |h|
  {
    if n == 0 then Genesis else h[n].hash
  }

  /** A run of history between two positions is a segment of its tombstones' identities. */
  lemma RunIsSegment(h: seq<Entry>, id: string, from: nat, to: nat)
    requires LogShape(h) && Verified(h) && CheckpointOf(h) == 0 && OwnsAll(h, id)
    requires from <= to < |h|
    ensures Segment(ChainAt(h, to), to, ChainAt(h, from), from, KeysOf(Travelling(h[from + 1..to + 1])))
  {
    var run := h[from + 1..to + 1];
    var ts := Travelling(run);
    TravellingMembers(run);
    forall i | from < i <= to && Travels(h[i]) ensures EntryKey(h[i]) in KeysOf(ts) {
      assert run[i - from - 1] == h[i];
      assert TombstoneOf(h[i]) in ts;
    }
    HistorySegment(h, id, from, to, KeysOf(ts));
    if to > 0 && from == 0 {
      SegmentFromZero(h[to].hash, to, h[0].hash, Genesis, KeysOf(ts));
    }
  }

  lemma KeysHaveHashes(run: seq<Entry>)
    requires forall i :: 0 <= i < |run| ==> EntryKey(run[i]).hash != NoHash
    ensures forall k :: k in KeysOf(Travelling(run)) ==> k.hash != NoHash
  {
  }

  lemma RunKeysHaveHashes(h: seq<Entry>, id: string, from: nat, to: nat)
    requires LogShape(h) && Verified(h) && CheckpointOf(h) == 0 && OwnsAll(h, id)
    requires from <= to < |h|
    ensures forall k :: k in KeysOf(Travelling(h[from + 1..to + 1])) ==> k.hash != NoHash
  {
    var run := h[from + 1..to + 1];
    forall i | 0 <= i < |run| ensures EntryKey(run[i]).hash != NoHash {
      EntryFacts(h, id, from + 1 + i);
      assert run[i] == h[from + 1 + i];
    }
    KeysHaveHashes(run);
  }

  /** The export is served.  An overshoot of a compacted log takes at least the checkpoint line. */
  predicate Served(f: seq<Entry>, since: int, n: nat) {
    && since >= 0
    && !(ScanCheckpoint(f) != 0 && since < ScanCheckpoint(f))
    && n <= |ReadFrom(f, ServedFrom(f, since))|
    && (Overshoots(f, since) ==> n >= 1)
  }

  /** The export is served, and not as an overshoot of a compacted log. */
  predicate Servable(f: seq<Entry>, since: int, n: nat) {
    Served(f, since, n) && !Overshoots(f, since)
  }

  /** The batch is a run of the history. */
  predicate IsRun(h: seq<Entry>, b: Batch) {
    && 0 <= b.from <= b.to < |h|
    && b.entries == Travelling(h[b.from + 1..b.to + 1])
    && b.fromChain == ChainAt(h, b.from) && b.toChain == ChainAt(h, b.to)
  }

  lemma ServedFromIsHeld(f: seq<Entry>, h: seq<Entry>, since: int, n: nat)
    requires Refines(f, h) && Servable(f, since, n)
    ensures var from := ServedFrom(f, since);
            CheckpointOf(f) <= from <= HeadPos(f) && from == (if since >= |h| then 0 else since)
  {
    RefinesBasics(f, h);
  }

  /** A served export is a run of the full history, compacted or not. */
  lemma ExportReads(f: seq<Entry>, h: seq<Entry>, id: string, since: int, n: nat)
    requires Refines(f, h) && Servable(f, since, n)
    ensures IsRun(h, BatchOf(f, id, ServedFrom(f, since), n))
    ensures BatchOf(f, id, ServedFrom(f, since), n).from == ServedFrom(f, since)
    ensures BatchOf(f, id, ServedFrom(f, since), n).to == ServedFrom(f, since) + n
    ensures |ReadFrom(f, ServedFrom(f, since))| == |h| - 1 - ServedFrom(f, since)
  {
    ServedFromIsHeld(f, h, since, n);
    var from := ServedFrom(f, since);
    ReadFromRefines(f, h, from);
    RefinesBasics(f, h);
    ChainHashOf(f, h, from);
    ChainHashOf(f, h, from + n);
    RunOfReads(f, h, id, from, n);
  }

  lemma RunOfReads(f: seq<Entry>, h: seq<Entry>, id: string, from: nat, n: nat)
    requires from < |h| && ReadFrom(f, from) == h[from + 1..] && n < |h| - from
    requires forall i :: 0 <= i < |h| ==> h[i].pos == i
    requires ScanChainHash(f, from) == ChainAt(h, from) && ScanChainHash(f, from + n) == ChainAt(h, from + n)
    ensures n <= |ReadFrom(f, from)|
    ensures IsRun(h, BatchOf(f, id, from, n)) && BatchOf(f, id, from, n).to == from + n
  {
    var raws := h[from + 1..];
    assert raws[..n] == h[from + 1..from + n + 1];
    assert n > 0 ==> raws[n - 1] == h[from + n];
  }

  lemma ExportIsHonest(f: seq<Entry>, h: seq<Entry>, id: string, since: int, n: nat)
    requires Refines(f, h) && OwnsAll(h, id) && Servable(f, since, n)
    ensures Honest(BatchOf(f, id, ServedFrom(f, since), n))
  {
    hide Refines, LogShape, Verified, OwnsAll, Travelling, BatchOf, ReadFrom, Segment, ScanHead, ScanCheckpoint;
    FullHistory(f, h);
    ExportReads(f, h, id, since, n);
    var from := ServedFrom(f, since);
    var b := BatchOf(f, id, from, n);
    RunIsSegment(h, id, b.from, b.to);
    RunKeysHaveHashes(h, id, b.from, b.to);
  }

  /** The chain hash a file reports at or above its checkpoint. */
  lemma ChainHashOf(f: seq<Entry>, h: seq<Entry>, n: int)
    requires Refines(f, h) && CheckpointOf(f) <= n < |h|
    ensures n >= 0 && ScanChainHash(f, n) == if n == 0 then Genesis else h[n].hash
  {
    ShapeFacts(f);
    ShapeFacts(h);
    LookupsRefine(f, h, n, NoHash);
    ShapeScans(h, n);
  }

  // ---------------------------------------------------------------------------------------------
  // The theorem at one pair of devices
  // ---------------------------------------------------------------------------------------------

  lemma {:induction false} CoveredReads(d: Device, h: seq<Entry>, id: string, c: nat)
    requires LogShape(h) && Verified(h) && CheckpointOf(h) == 0 && OwnsAll(h, id)
    requires c < |h| && Covered(d, h[c].hash, c)
    ensures forall n :: 1 <= n <= c && Travels(h[n]) ==> Has(d, EntryKey(h[n]))
    decreases c
  {
    if c > 0 {
      EntryFacts(h, id, c);
      CoveredReads(d, h, id, c - 1);
    }
  }

  /** If the sender's log, compacted or not, still has the stored hash at the stored cursor, then every
      entry of its history up to that cursor that can travel was applied here or happened here. */
  lemma SafeMissesNothing(r: Device, s: Device)
    requires Safe(r) && DeviceOk(s) && s.id in r.peers
    requires ScanChainHash(s.file, r.peers[s.id].cursor) == r.peers[s.id].chain
    ensures forall n :: 1 <= n <= r.peers[s.id].cursor ==>
                          n < |s.history| && (Travels(s.history[n]) ==> Has(r, EntryKey(s.history[n])))
  {
    var a := r.peers[s.id];
    if a.cursor > 0 {
      ShapeFacts(s.file);
      LookupsRefine(s.file, s.history, a.cursor, NoHash);
      ShapeScans(s.history, a.cursor);
      ShapeFacts(s.history);
      assert a.chain.Digest?;
      assert CheckpointOf(s.file) <= a.cursor < |s.history|;
      CoveredReads(r, s.history, s.id, a.cursor);
    }
  }

  // ---------------------------------------------------------------------------------------------
  // The one export that need not be honest
  // ---------------------------------------------------------------------------------------------

  /** No travelling entry of the history shares its identity with another. */
  predicate DistinctKeys(h: seq<Entry>) {
    forall m, n :: 1 <= m < n < |h| && Travels(h[m]) && Travels(h[n]) ==> EntryKey(h[m]) != EntryKey(h[n])
  }

  /** None of the entries compacted away can travel. */
  predicate PrunedStayHome(f: seq<Entry>, h: seq<Entry>) {
    forall p :: 1 <= p <= CheckpointOf(f) && p < |h| ==> !Travels(h[p])
  }

  lemma {:induction false} TravellingConcat(a: seq<Entry>, b: seq<Entry>)
    ensures Travelling(a + b) == Travelling(a) + Travelling(b)
  {
    if |b| == 0 {
      assert a + b == a;
    } else {
      TravellingConcat(a, b[..|b| - 1]);
      assert (a + b)[..|a + b| - 1] == a + b[..|b| - 1];
    }
  }

  lemma SplitFirst(s: seq<Entry>, e: Entry, rest: seq<Entry>, n: nat)
    requires s == [e] + rest && 1 <= n <= |s|
    ensures s[..n] == [e] + rest[..n - 1] && (n > 1 ==> s[n - 1] == rest[n - 2]) && s[0] == e
  {
  }

  /** What an overshoot of a compacted log reads: the checkpoint line, then the history above it. */
  lemma OvershootRaws(f: seq<Entry>, h: seq<Entry>, n: nat)
    requires Refines(f, h) && CheckpointOf(f) > 0 && 1 <= n <= |ReadFrom(f, 0)|
    ensures var c := CheckpointOf(f);
            var raws := ReadFrom(f, 0);
            && c + n <= |h| && raws[n - 1].pos == c + n - 1
            && Travelling(raws[..n]) == Travelling(h[c + 1..c + n])
  {
    hide LogShape, Verified, Travelling, ScanChainHash, Keep, CanTravel, PosAt;
    RefinesBasics(f, h);
    var c := CheckpointOf(f);
    FileReads(f);
    SuffixOfFile(f, h);
    var raws := ReadFrom(f, 0);
    var above := h[c + 1..c + n];
    SplitFirst(raws, f[1], h[c + 1..], n);
    assert h[c + 1..][..n - 1] == above;
    TravellingConcat([f[1]], above);
    OneMark(f[1]);
    assert n > 1 ==> raws[n - 1] == h[c + n - 1];
  }

  lemma OvershootReads(f: seq<Entry>, h: seq<Entry>, id: string, n: nat)
    requires Refines(f, h) && CheckpointOf(f) > 0 && 1 <= n <= |ReadFrom(f, 0)|
    ensures var c := CheckpointOf(f);
            var b := BatchOf(f, id, 0, n);
            && c + n <= |h| && b.sender == id && b.from == 0 && b.to == c + n - 1
            && b.fromChain == Genesis && b.toChain == ChainAt(h, b.to) && b.toChain == ScanChainHash(f, b.to)
            && b.entries == Travelling(h[c + 1..c + n])
  {
    hide Refines, Travelling, ScanChainHash, ReadFrom, CheckpointOf;
    RefinesBasics(f, h);
    OvershootRaws(f, h, n);
    ChainHashOf(f, h, CheckpointOf(f) + n - 1);
    GenesisChainHash(f);
  }

  lemma GenesisChainHash(f: seq<Entry>)
    ensures ScanChainHash(f, 0) == Genesis
  {
  }

  lemma OneMark(e: Entry)
    requires !Travels(e)
    ensures Travelling([e]) == []
  {
    assert [e][..0] == [];
  }

  lemma FileReads(f: seq<Entry>)
    requires LogShape(f)
    ensures ReadFrom(f, 0) == f[1..]
  {
    ShapeFacts(f);
    ShapeIncreases(f);
    KeepAbove(f, 0);
  }

  lemma SuffixOfFile(f: seq<Entry>, h: seq<Entry>)
    requires Refines(f, h) && CheckpointOf(f) > 0
    ensures var c := CheckpointOf(f);
            c < |h| && |f| >= 2 && f[1..] == [f[1]] + h[c + 1..] && f[1].pos == c && !Travels(f[1])
  {
    ShapeFacts(f);
    assert f[1..] == [f[1]] + f[2..];
  }

  /** Walking an honest range meets every travelling entry's identity among the keys. */
  lemma {:induction false} SegmentHasKeys(h: seq<Entry>, id: string, n: nat, from: Hash, keys: set<Key>)
    requires LogShape(h) && Verified(h) && CheckpointOf(h) == 0 && OwnsAll(h, id) && n < |h|
    requires Segment(h[n].hash, n, from, 0, keys)
    ensures forall p :: 1 <= p <= n && Travels(h[p]) ==> EntryKey(h[p]) in keys
  {
    if n > 0 {
      EntryFacts(h, id, n);
      SegmentHasKeys(h, id, n - 1, from, keys);
    }
  }

  lemma EntryOfRun(h: seq<Entry>, a: nat, b: nat, t: Tombstone)
    requires a <= b <= |h| && t in Travelling(h[a..b])
    ensures exists i :: a <= i < b && Travels(h[i]) && TombstoneOf(h[i]) == t
  {
    hide Travelling, CanTravel;
    TravellingMembers(h[a..b]);
    var e :| e in h[a..b] && Travels(e) && t == TombstoneOf(e);
    var j :| 0 <= j < b - a && h[a..b][j] == e;
    assert h[a + j] == e;
  }

  lemma KeyOfRun(h: seq<Entry>, a: nat, b: nat, k: Key)
    requires a <= b <= |h| && k in KeysOf(Travelling(h[a..b]))
    ensures exists i :: a <= i < b && Travels(h[i]) && EntryKey(h[i]) == k
  {
    hide Travelling, CanTravel;
    var t :| t in Travelling(h[a..b]) && KeyOf(t.body) == k;
    EntryOfRun(h, a, b, t);
  }

  lemma OvershootIsHonest(f: seq<Entry>, h: seq<Entry>, id: string, n: nat)
    requires Refines(f, h) && OwnsAll(h, id) && CheckpointOf(f) > 0 && 1 <= n <= |ReadFrom(f, 0)|
    requires PrunedStayHome(f, h)
    ensures Honest(BatchOf(f, id, 0, n))
  {
    hide Refines, LogShape, Verified, OwnsAll, Travelling, EntryKey, CanTravel, BatchOf, ReadFrom, Segment;
    OvershootReads(f, h, id, n);
    RefinesBasics(f, h);
    FullHistory(f, h);
    var c := CheckpointOf(f);
    var b := BatchOf(f, id, 0, n);
    var keys := KeysOf(b.entries);
    RunKeysHaveHashes(h, id, c, b.to);
    forall i | 0 < i <= b.to && Travels(h[i]) ensures EntryKey(h[i]) in keys {
      KeyIsInRun(h, c + 1, c + n, i);
    }
    HistorySegment(h, id, 0, b.to, keys);
    SegmentFromZero(h[b.to].hash, b.to, h[0].hash, Genesis, keys);
  }

  lemma FullHistory(f: seq<Entry>, h: seq<Entry>)
    requires Refines(f, h)
    ensures LogShape(h) && Verified(h) && CheckpointOf(h) == 0
  {
  }

  lemma KeyIsInRun(h: seq<Entry>, a: nat, z: nat, i: int)
    requires a <= i < z <= |h| && Travels(h[i])
    ensures EntryKey(h[i]) in KeysOf(Travelling(h[a..z]))
  {
    hide Travelling, CanTravel;
    TravellingMembers(h[a..z]);
    assert h[a..z][i - a] == h[i];
    assert TombstoneOf(h[i]) in Travelling(h[a..z]);
  }

  /** An overshoot of a compacted log is served "from 0" without the compacted entries: its batch is honest
      exactly when none of those can travel. */
  lemma OvershootIsHonestIff(f: seq<Entry>, h: seq<Entry>, id: string, n: nat)
    requires Refines(f, h) && OwnsAll(h, id) && CheckpointOf(f) > 0 && DistinctKeys(h) && 1 <= n <= |ReadFrom(f, 0)|
    ensures Honest(BatchOf(f, id, 0, n)) <==> PrunedStayHome(f, h)
  {
    hide Refines, LogShape, Verified, OwnsAll, Travelling, EntryKey, CanTravel, BatchOf, ReadFrom, Segment;
    OvershootReads(f, h, id, n);
    RefinesBasics(f, h);
    FullHistory(f, h);
    var c := CheckpointOf(f);
    var b := BatchOf(f, id, 0, n);
    if PrunedStayHome(f, h) {
      OvershootIsHonest(f, h, id, n);
    } else if Honest(b) {
      SegmentHasKeys(h, id, b.to, Genesis, KeysOf(b.entries));
      var p :| 1 <= p <= c && p < |h| && Travels(h[p]);
      KeyOfRun(h, c + 1, c + n, EntryKey(h[p]));
      assert false;
    }
  }

  /** A sender whose exports pass the receiver's checks: a well-named log whose travelling entries are well formed,
      of the tenant, and told apart by origin and origin hash. */
  predicate Acceptable(h: seq<Entry>, id: string, tenant: string, app: string) {
    && IsHex32(id)
    && (forall n :: 1 <= n < |h| && Travels(h[n]) ==> EntryOk(TombstoneOf(h[n]), tenant, app))
    && (forall m, n :: 1 <= m < n < |h| && Travels(h[m]) && Travels(h[n]) ==>
                         PairOf(TombstoneOf(h[m])) != PairOf(TombstoneOf(h[n])))
  }

  /** The tombstones of a run pass the per-entry checks. */
  lemma {:induction false} RunIsAcceptable(h: seq<Entry>, id: string, tenant: string, app: string, a: nat, b: nat)
    requires Acceptable(h, id, tenant, app) && 1 <= a <= b <= |h|
    ensures RunOk(Travelling(h[a..b]), tenant, app)
    decreases b
  {
    hide EntryOk, PairOf, CanTravel, TombstoneOf, Acceptable, RunOk, Travelling;
    if a == b {
      assert h[a..b] == [];
      NothingIsOk(tenant, app);
    } else {
      RunIsAcceptable(h, id, tenant, app, a, b - 1);
      TravellingEnds(h, a, b);
      var ts := Travelling(h[a..b - 1]);
      if Travels(h[b - 1]) {
        AcceptableEntry(h, id, tenant, app, b - 1);
        forall t | t in ts ensures PairOf(t) != PairOf(TombstoneOf(h[b - 1])) {
          EntryOfRun(h, a, b - 1, t);
          var j :| a <= j < b - 1 && Travels(h[j]) && TombstoneOf(h[j]) == t;
          AcceptablePair(h, id, tenant, app, j, b - 1);
        }
        OneMoreIsOk(ts, TombstoneOf(h[b - 1]), tenant, app);
      } else {
        assert ts + [] == ts;
      }
    }
  }

  lemma NothingIsOk(tenant: string, app: string)
    ensures RunOk(Travelling([]), tenant, app)
  {
  }

  lemma TravellingEnds(h: seq<Entry>, a: nat, b: nat)
    requires a < b <= |h|
    ensures Travelling(h[a..b])
         == Travelling(h[a..b - 1]) + (if Travels(h[b - 1]) then [TombstoneOf(h[b - 1])] else [])
  {
    assert h[a..b][..b - a - 1] == h[a..b - 1] && h[a..b][b - a - 1] == h[b - 1];
  }

  lemma OneMoreIsOk(ts: seq<Tombstone>, t: Tombstone, tenant: string, app: string)
    requires RunOk(ts, tenant, app) && EntryOk(t, tenant, app) && forall u :: u in ts ==> PairOf(u) != PairOf(t)
    ensures RunOk(ts + [t], tenant, app)
  {
    hide EntryOk, PairOf;
  }

  lemma AcceptableEntry(h: seq<Entry>, id: string, tenant: string, app: string, n: int)
    requires Acceptable(h, id, tenant, app) && 1 <= n < |h| && Travels(h[n])
    ensures EntryOk(TombstoneOf(h[n]), tenant, app)
  {
  }

  lemma AcceptablePair(h: seq<Entry>, id: string, tenant: string, app: string, m: int, n: int)
    requires Acceptable(h, id, tenant, app) && 1 <= m < n < |h| && Travels(h[m]) && Travels(h[n])
    ensures PairOf(TombstoneOf(h[m])) != PairOf(TombstoneOf(h[n])) && EntryKey(h[m]) != EntryKey(h[n])
  {
  }

  /** The checks on the entries of a batch. */
  predicate RunOk(ts: seq<Tombstone>, tenant: string, app: string) {
    && (forall i :: 0 <= i < |ts| ==> EntryOk(ts[i], tenant, app))
    && (forall i, j :: 0 <= i < j < |ts| ==> PairOf(ts[i]) != PairOf(ts[j]))
  }

  /** Every batch such a sender serves, an overshoot included, is accepted. */
  lemma ExportIsAccepted(f: seq<Entry>, h: seq<Entry>, id: string, tenant: string, app: string, since: int, n: nat)
    requires Refines(f, h) && Acceptable(h, id, tenant, app) && Served(f, since, n)
    ensures Accepted(BatchOf(f, id, ServedFrom(f, since), n), tenant, app)
  {
    hide Refines, Travelling, Acceptable, EntryOk, PairOf, ReadFrom, ScanChainHash, ScanHead, ScanCheckpoint;
    RefinesBasics(f, h);
    AcceptableId(h, id, tenant, app);
    var from := ServedFrom(f, since);
    var b := BatchOf(f, id, from, n);
    if Overshoots(f, since) {
      OvershootReads(f, h, id, n);
      RunIsAcceptable(h, id, tenant, app, CheckpointOf(f) + 1, CheckpointOf(f) + n);
      HistoryHashes(f, h, CheckpointOf(f) + n - 1);
    } else {
      ExportReads(f, h, id, since, n);
      RunIsAcceptable(h, id, tenant, app, from + 1, from + n + 1);
      HistoryHashes(f, h, from);
      HistoryHashes(f, h, from + n);
    }
    assert EnvelopeOk(b);
  }

  lemma AcceptableId(h: seq<Entry>, id: string, tenant: string, app: string)
    requires Acceptable(h, id, tenant, app)
    ensures IsHex32(id)
  {
  }

  lemma HistoryHashes(f: seq<Entry>, h: seq<Entry>, n: int)
    requires Refines(f, h) && 0 <= n < |h|
    ensures h[n].hash.Digest?
  {
    ShapeFacts(h);
    assert LinkOk(h, n);
  }

  /** The anchor lies on the sender's chain, at or above position `p`, although entry `p` travels and is not had. */
  predicate Misses(r: Device, s: Device, p: int) {
    && s.id in r.peers && 1 <= p <= r.peers[s.id].cursor && p < |s.history|
    && ScanChainHash(s.file, r.peers[s.id].cursor) == r.peers[s.id].chain
    && Travels(s.history[p]) && !Has(r, EntryKey(s.history[p]))
  }

  /** What an overshoot that is not honest can do: its first delivery only re-anchors the channel, a second delivery
      of the same batch is accepted as the start of the log, and the receiver then stands on the sender's chain
      above a compacted deletion it does not have. */
  lemma OvershootOfCompactedLogLosesDeletions(r: Device, s: Device, since: int, limit: int, n: nat,
                                              tape: nat -> Local, tape': nat -> Local, p: int)
    requires DeviceOk(r) && DeviceOk(s) && Overshoots(s.file, since) && IsCut(ReadFrom(s.file, 0), limit, n)
    requires Acceptable(s.history, s.id, r.tenant, r.app)
    requires StoredAnchor(r, s.id).cursor == since
    requires 1 <= p <= CheckpointOf(s.file) && p < |s.history| && Travels(s.history[p])
    requires !Has(r, EntryKey(s.history[p])) && EntryKey(s.history[p]).origin != r.id
    ensures ServedFrom(s.file, since) == 0 && n <= |ReadFrom(s.file, 0)|
    ensures var b := BatchOf(s.file, s.id, 0, n);
            var once := Apply(r, b, tape);
            var twice := Apply(once, b, tape');
            && Accepted(b, r.tenant, r.app) && Rescans(r, b) && !Rescans(once, b)
            && once.tenant == r.tenant && once.app == r.app
            && StoredAnchor(once, s.id) == Anchor(0, Genesis)
            && Misses(twice, s, p)
  {
    hide DeviceOk, Refines, LogShape, Travelling, Known, Acceptable, Accepted, EntryKey, CanTravel, Keep;
    OvershootFacts(r, s, since, limit, n, p);
    var b := BatchOf(s.file, s.id, 0, n);
    AcceptedNamesOrigins(b, r.tenant, r.app);
    ApplyKeeps(r, b.entries, tape, |b.entries|);
    OnlyBatchKeysAreAdded(r, b.entries, tape, |b.entries|);
    var once := Apply(r, b, tape);
    OnlyBatchKeysAreAdded(once, b.entries, tape', |b.entries|);
  }

  lemma OvershootFacts(r: Device, s: Device, since: int, limit: int, n: nat, p: int)
    requires DeviceOk(s) && Overshoots(s.file, since) && IsCut(ReadFrom(s.file, 0), limit, n)
    requires Acceptable(s.history, s.id, r.tenant, r.app)
    requires 1 <= p <= CheckpointOf(s.file) && p < |s.history| && Travels(s.history[p])
    ensures ServedFrom(s.file, since) == 0 && 1 <= n <= |ReadFrom(s.file, 0)| && since > 0
    ensures var b := BatchOf(s.file, s.id, 0, n);
            && b.sender == s.id && b.from == 0 && b.fromChain == Genesis && b.to >= p
            && b.toChain == ScanChainHash(s.file, b.to) && b.toChain.Digest?
            && Accepted(b, r.tenant, r.app) && EntryKey(s.history[p]) !in KeysOf(b.entries)
  {
    hide LogShape, Verified, Travelling, Acceptable, Accepted, EntryKey, CanTravel, Keep, ScanChainHash, OwnsAll;
    var f, h := s.file, s.history;
    RefinesBasics(f, h);
    CutTakesSome(f, limit, n);
    OvershootReads(f, h, s.id, n);
    ExportIsAccepted(f, h, s.id, r.tenant, r.app, since, n);
    HistoryHashes(f, h, CheckpointOf(f) + n - 1);
    var b := BatchOf(f, s.id, 0, n);
    if EntryKey(h[p]) in KeysOf(b.entries) {
      KeyOfRun(h, CheckpointOf(f) + 1, CheckpointOf(f) + n, EntryKey(h[p]));
      var i :| CheckpointOf(f) + 1 <= i < CheckpointOf(f) + n && Travels(h[i]) && EntryKey(h[i]) == EntryKey(h[p]);
      AcceptablePair(h, s.id, r.tenant, r.app, p, i);
    }
  }

  /** Every export the code serves, overshoots included, is one of these. */
  lemma CutIsServed(f: seq<Entry>, h: seq<Entry>, since: int, limit: int, n: nat)
    requires Refines(f, h) && since >= 0 && !(ScanCheckpoint(f) != 0 && since < ScanCheckpoint(f))
    requires IsCut(ReadFrom(f, ServedFrom(f, since)), limit, n)
    ensures Served(f, since, n)
  {
    hide Travelling, ReadFrom, LogShape, ScanCheckpoint, ScanHead;
    RefinesBasics(f, h);
    if Overshoots(f, since) {
      CutTakesSome(f, limit, n);
    }
  }

  /** The read loop never stops before its first line. */
  lemma CutTakesSome(f: seq<Entry>, limit: int, n: nat)
    requires LogShape(f) && |f| >= 2 && IsCut(ReadFrom(f, 0), limit, n)
    ensures 1 <= n <= |ReadFrom(f, 0)|
  {
    FileReads(f);
    EmptyPrefix(ReadFrom(f, 0));
    hide ReadFrom, Travelling;
  }

  lemma EmptyPrefix(raws: seq<Entry>)
    ensures Travelling(raws[..0]) == []
  {
  }

  lemma {:induction false} OnlyBatchKeysAreAdded(d: Device, ts: seq<Tombstone>, tape: nat -> Local, n: nat)
    requires n <= |ts|
    ensures ApplyUpTo(d, ts, tape, n).applied.Keys <= d.applied.Keys + KeysOf(ts)
    ensures ApplyUpTo(d, ts, tape, n).id == d.id
  {
    if n > 0 {
      OnlyBatchKeysAreAdded(d, ts, tape, n - 1);
      assert ts[n - 1] in ts;
    }
  }
}
