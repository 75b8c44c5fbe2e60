/**
 * The edge's catch-up loop and the gate in front of every entry point.
 *
 * The peer is its log file; the clock, the link and the local database errors are inputs.
 */
module CatchUp {
  import opened Basics
  import opened Chain
  import opened FileLog
  import opened Compaction
  import opened Tombstones
  import opened Device
  import opened Channel

  const BATCH_LIMIT := 500
  const SECONDS_PER_DAY := 86400

  datatype SyncState = Normal | CatchingUp | OfflineGrace | Expired

  datatype Outcome =
    | Completed                 // the peer's tail was confirmed
    | PeerPruned                // TombstoneCursorPruned: the peer must be rebuilt from
    | Refused(reason: Reason)   // TombstoneBatchRejected
    | LinkDown                  // ConnectionError or TimeoutError, absorbed
    | NoIdentity                // the transport does not declare its peer

  datatype Gate = Pass | RefuseCatchingUp | RefuseRead | Raised(outcome: Outcome)

  /** The peer as the transport presents it, and what goes wrong during one catch-up: the export call at
      which the link drops, and per call the entry at which the local database fails. */
  datatype Link = Link(
    peerId: string, file: seq<Entry>, dropsAt: Option<nat>,
    tape: (nat, nat) -> Local, failsAt: nat -> Option<nat>)

  /** How far the stored anchor is from the peer's chain: aligned anchors never rescan. */
  predicate Aligned(a: Anchor, f: seq<Entry>) {
    && 0 <= a.cursor <= ScanHead(f).0
    && (if a.chain == NoHash then Genesis else a.chain) == ScanChainHash(f, a.cursor)
  }

  /** Everything the peer's log has deleted up to its tail is had. */
  predicate HasAll(d: Device, h: seq<Entry>) {
    forall n :: 1 <= n < |h| && Travels(h[n]) ==> Has(d, EntryKey(h[n]))
  }

  /** An empty batch that continues the stored anchor starts at the peer's head. */
  lemma EmptyMeansTail(f: seq<Entry>, h: seq<Entry>, id: string, c: int)
    requires Refines(f, h) && Servable(f, c, 0) && c <= ScanHead(f).0
    requires IsCut(ReadFrom(f, c), BATCH_LIMIT, 0)
    ensures c == |h| - 1
  {
    ExportReads(f, h, id, c, 0);
    assert Travelling(ReadFrom(f, c)[..0]) == [];
  }

  lemma TailHasAll(d: Device, f: seq<Entry>, h: seq<Entry>, id: string)
    requires Safe(d) && Refines(f, h) && OwnsAll(h, id) && id in d.peers
    requires Aligned(d.peers[id], f) && d.peers[id].cursor == |h| - 1
    ensures HasAll(d, h)
  {
    var a := d.peers[id];
    RefinesBasics(f, h);
    if a.cursor > 0 {
      ChainHashOf(f, h, a.cursor);
      assert a.chain.Digest?;
      CoveredReads(d, h, id, a.cursor);
    }
  }

  /** One round of the loop from an aligned anchor: no rescan, and the anchor stays aligned. */
  lemma AlignedRound(d: Device, f: seq<Entry>, h: seq<Entry>, id: string, n: nat)
    requires Refines(f, h) && Aligned(StoredAnchor(d, id), f)
    requires Servable(f, StoredAnchor(d, id).cursor, n)
    ensures var c := StoredAnchor(d, id).cursor;
            var b := BatchOf(f, id, ServedFrom(f, c), n);
            && b.sender == id && !Rescans(d, b) && b.from == c && b.to == c + n && c + n < |h|
            && Aligned(Anchor(b.to, b.toChain), f)
  {
    hide Refines, LogShape, Verified, Travelling, Keep, ScanHead, ScanChainHash;
    var c := StoredAnchor(d, id).cursor;
    RefinesBasics(f, h);
    ExportReads(f, h, id, c, n);
    ChainHashOf(f, h, c);
    ChainHashOf(f, h, c + n);
    HistoryHashes(f, h, c + n);
  }

  /** From an anchor that is not aligned the first batch served rescans. */
  lemma MisalignedRound(d: Device, f: seq<Entry>, id: string, n: nat)
    requires !Aligned(StoredAnchor(d, id), f) && StoredAnchor(d, id).cursor >= 0
    requires ScanHead(f).0 >= 0 && n <= |ReadFrom(f, ServedFrom(f, StoredAnchor(d, id).cursor))|
    ensures Rescans(d, BatchOf(f, id, ServedFrom(f, StoredAnchor(d, id).cursor), n))
  {
  }

  lemma StartIsAligned(f: seq<Entry>, h: seq<Entry>)
    requires Refines(f, h)
    ensures Aligned(Anchor(0, Genesis), f)
  {
  }

  /** What one application does to the channel and to safety. */
  lemma RoundKeepsSafe(d: Device, b: Batch, tape: nat -> Local)
    requires Safe(d) && Accepted(b, d.tenant, d.app) && (Honest(b) || Rescans(d, b))
    ensures Safe(Apply(d, b, tape)) && Apply(d, b, tape).id == d.id && b.sender in Apply(d, b, tape).peers
    ensures Apply(d, b, tape).tenant == d.tenant && Apply(d, b, tape).app == d.app
    ensures Apply(d, b, tape).peers[b.sender] == if Rescans(d, b) then Anchor(0, Genesis) else Anchor(b.to, b.toChain)
  {
    AcceptedNamesOrigins(b, d.tenant, d.app);
    ApplyKeepsSafe(d, b, tape);
    ApplyKeeps(d, b.entries, tape, |b.entries|);
  }

  /** What one iteration of the pull loop did. */
  datatype Progress = Advanced | Rescanned | AtTail | Stop(outcome: Outcome)

  /** The channel before and after one iteration. */
  ghost predicate RoundDone(d: Device, d': Device, link: Link, history: seq<Entry>, res: Progress) {
    var a := StoredAnchor(d, link.peerId);
    var a' := StoredAnchor(d', link.peerId);
    match res
    case Advanced => Aligned(a, link.file) && Aligned(a', link.file) && a.cursor < a'.cursor < |history|
    case Rescanned => !Aligned(a, link.file) && Aligned(a', link.file) && a' == Anchor(0, Genesis)
    case AtTail =>
      && Aligned(a, link.file) && HasAll(d', history)
      && link.peerId in d'.peers && Aligned(d'.peers[link.peerId], link.file)
      && d'.peers[link.peerId].cursor == |history| - 1
    case Stop(o) => !o.Completed? && !o.NoIdentity?
  }

  /** An accepted round, from whatever anchor was stored. */
  lemma ServedRound(d: Device, link: Link, history: seq<Entry>, b: Batch, n: nat, tape: nat -> Local)
    requires Safe(d) && Refines(link.file, history) && OwnsAll(history, link.peerId)
    requires var c := StoredAnchor(d, link.peerId).cursor;
             && c >= 0 && !(ScanCheckpoint(link.file) != 0 && c < ScanCheckpoint(link.file))
             && IsCut(ReadFrom(link.file, ServedFrom(link.file, c)), BATCH_LIMIT, n)
             && b == BatchOf(link.file, link.peerId, ServedFrom(link.file, c), n)
    requires Accepted(b, d.tenant, d.app)
    ensures var d' := Apply(d, b, tape);
            && Safe(d') && d'.id == d.id
            && RoundDone(d, d', link, history,
                         if Rescans(d, b) then Rescanned else if b.to == b.from then AtTail else Advanced)
  {
    hide Safe, Aligned, Servable, HasAll, Accepted, Refines, OwnsAll, Honest, IsCut, Apply, Rescans, ReadFrom, BatchOf,
         ScanHead, ScanCheckpoint, ScanChainHash;
    var f := link.file;
    var id := link.peerId;
    var a := StoredAnchor(d, id);
    var d' := Apply(d, b, tape);
    RefinesBasics(f, history);
    CutFits(f, a.cursor, n);
    SenderIs(f, id, ServedFrom(f, a.cursor), n);
    if Aligned(a, f) {
      AlignedIsServable(a, f, n);
      AlignedRound(d, f, history, id, n);
      ExportIsHonest(f, history, id, a.cursor, n);
      RoundKeepsSafe(d, b, tape);
      AnchorAfter(d', id, b);
      if b.to == b.from {
        AlignedBounds(a, f, history);
        EmptyMeansTail(f, history, id, a.cursor);
        TailHasAll(d', f, history, id);
      }
    } else {
      MisalignedRound(d, f, id, n);
      RoundKeepsSafe(d, b, tape);
      StartIsAligned(f, history);
    }
  }

  lemma StopIsDone(d: Device, link: Link, history: seq<Entry>)
    ensures forall d', o: Outcome :: !o.Completed? && !o.NoIdentity? ==> RoundDone(d, d', link, history, Stop(o))
  {
  }

  lemma SenderIs(f: seq<Entry>, id: string, from: int, n: nat)
    requires n <= |ReadFrom(f, from)|
    ensures BatchOf(f, id, from, n).sender == id
  {
  }

  lemma AlignedIsServable(a: Anchor, f: seq<Entry>, n: nat)
    requires Aligned(a, f) && !(ScanCheckpoint(f) != 0 && a.cursor < ScanCheckpoint(f))
    requires IsCut(ReadFrom(f, ServedFrom(f, a.cursor)), BATCH_LIMIT, n)
    ensures Servable(f, a.cursor, n)
  {
    hide ReadFrom, ScanHead, ScanCheckpoint, ScanChainHash;
  }

  lemma AlignedBounds(a: Anchor, f: seq<Entry>, h: seq<Entry>)
    requires Refines(f, h) && Aligned(a, f)
    ensures 0 <= a.cursor < |h| && a.cursor <= ScanHead(f).0 && ServedFrom(f, a.cursor) == a.cursor
  {
    RefinesBasics(f, h);
  }

  /** An accepted batch carries real chain hashes, so what is stored is what is read back. */
  lemma AnchorAfter(d: Device, id: string, b: Batch)
    requires id in d.peers && d.peers[id] == Anchor(b.to, b.toChain) && Accepted(b, d.tenant, d.app)
    ensures StoredAnchor(d, id) == d.peers[id]
  {
  }

  /** The peer no longer serves the position. */
  predicate CutOff(f: seq<Entry>, cursor: int) {
    ScanCheckpoint(f) != 0 && cursor < ScanCheckpoint(f)
  }

  /** The read loop of an export stops at one place only. */
  lemma CutIsUnique(raws: seq<Entry>, limit: int, m: nat, n: nat)
    requires IsCut(raws, limit, m) && IsCut(raws, limit, n)
    ensures m == n
  {
    hide Travelling;
  }

  /** A peer whose log passes every check, over a link that never drops, into a database that never fails. */
  ghost predicate Smooth(e: Engine, link: Link, history: seq<Entry>)
    reads e`known
  {
    link.dropsAt.None? && SmoothPeer(e, link, history)
  }

  /** The same, but for the link. */
  ghost predicate SmoothPeer(e: Engine, link: Link, history: seq<Entry>)
    reads e`known
  {
    && (forall c :: link.failsAt(c).None?)
    && Acceptable(history, link.peerId, e.tenant, e.app)
    && (e.singleTenant
        || forall n :: 1 <= n < |history| && Travels(history[n]) ==> history[n].what.user in e.known)
  }

  /** Whatever such a peer serves is taken. */
  lemma SmoothIsTaken(e: Engine, link: Link, history: seq<Entry>, cursor: int, n: nat)
    requires SmoothPeer(e, link, history) && Refines(link.file, history)
    requires cursor >= 0 && !CutOff(link.file, cursor)
    requires IsCut(ReadFrom(link.file, ServedFrom(link.file, cursor)), BATCH_LIMIT, n)
    ensures e.Takes(BatchOf(link.file, link.peerId, ServedFrom(link.file, cursor), n))
  {
    hide Refines, Acceptable, Accepted, IsCut, ReadFrom, Travelling, CanTravel, ScanHead, ScanCheckpoint;
    var f := link.file;
    CutFits(f, cursor, n);
    var b := BatchOf(f, link.peerId, ServedFrom(f, cursor), n);
    CutIsServed(f, history, cursor, BATCH_LIMIT, n);
    ExportIsAccepted(f, history, link.peerId, e.tenant, e.app, cursor, n);
    forall i | 0 <= i < |b.entries| ensures e.singleTenant || b.entries[i].body.user in e.known {
      BatchIsOfHistory(f, history, link.peerId, cursor, n, b.entries[i]);
    }
  }

  lemma SmoothIsNotRefused(e: Engine, link: Link, history: seq<Entry>, cursor: int, call: nat)
    requires SmoothPeer(e, link, history) && Refines(link.file, history) && cursor >= 0
    ensures var from := ServedFrom(link.file, cursor);
            !CutOff(link.file, cursor) ==>
              forall n :: IsCut(ReadFrom(link.file, from), BATCH_LIMIT, n) ==>
                            var b := BatchOf(link.file, link.peerId, from, n);
                            e.Takes(b) && !FailsWithin(link.failsAt(call), b)
  {
    hide Refines, Acceptable, Accepted, ReadFrom, Travelling, CanTravel, ScanHead, ScanCheckpoint;
    var from := ServedFrom(link.file, cursor);
    if !CutOff(link.file, cursor) {
      forall n | IsCut(ReadFrom(link.file, from), BATCH_LIMIT, n)
        ensures var b := BatchOf(link.file, link.peerId, from, n);
                e.Takes(b) && !FailsWithin(link.failsAt(call), b)
      {
        SmoothIsTaken(e, link, history, cursor, n);
      }
    }
  }

  lemma CheckpointIsNat(f: seq<Entry>, h: seq<Entry>)
    requires Refines(f, h)
    ensures ScanCheckpoint(f) >= 0
  {
    RefinesBasics(f, h);
  }

  /** A catch-up from here ends with the peer's refusal: the position was compacted away, or it is not on the
      chain of a log that no longer reaches back to the start. */
  predicate MustRebuild(a: Anchor, f: seq<Entry>) {
    CutOff(f, a.cursor) || (ScanCheckpoint(f) > 0 && !Aligned(a, f))
  }

  /** How far the loop came from `a0`. */
  predicate Pulled(a0: Anchor, a: Anchor, f: seq<Entry>, rescans: nat) {
    if rescans == 0 then
      a == a0 || (Aligned(a0, f) && Aligned(a, f) && a0.cursor <= a.cursor && !CutOff(f, a0.cursor))
    else
      && !Aligned(a0, f) && Aligned(a, f) && !CutOff(f, a0.cursor)
      && (a.cursor == 0 || ScanCheckpoint(f) == 0)
  }

  lemma CutFits(f: seq<Entry>, cursor: int, n: nat)
    requires IsCut(ReadFrom(f, ServedFrom(f, cursor)), BATCH_LIMIT, n)
    ensures n <= |ReadFrom(f, ServedFrom(f, cursor))|
  {
  }

  /** Every tombstone of a served batch is that of a travelling entry of the history. */
  lemma BatchIsOfHistory(f: seq<Entry>, h: seq<Entry>, id: string, cursor: int, n: nat, t: Tombstone)
    requires Refines(f, h) && Served(f, cursor, n)
    requires t in BatchOf(f, id, ServedFrom(f, cursor), n).entries
    ensures exists i :: 1 <= i < |h| && Travels(h[i]) && TombstoneOf(h[i]) == t
  {
    hide Refines, ReadFrom, Travelling, CanTravel, TombstoneOf, ScanHead, ScanCheckpoint, ScanChainHash;
    RefinesBasics(f, h);
    if Overshoots(f, cursor) {
      OvershootReads(f, h, id, n);
      EntryOfRun(h, CheckpointOf(f) + 1, CheckpointOf(f) + n, t);
    } else {
      ExportReads(f, h, id, cursor, n);
      EntryOfRun(h, ServedFrom(f, cursor) + 1, ServedFrom(f, cursor) + n + 1, t);
    }
  }

  class Edge {
    const engine: Engine
    const graceDays: int
    var syncState: SyncState
    var attemptFailed: bool
    /** When the last complete catch-up with each peer ended. */
    var lastCatchup: map<string, int>

    constructor (engine: Engine, graceDays: int, lastCatchup: map<string, int>)
      ensures this.engine == engine && this.graceDays == graceDays && this.lastCatchup == lastCatchup
      ensures syncState == Normal && !attemptFailed && GateInv()
    {
      this.engine, this.graceDays, this.lastCatchup := engine, graceDays, lastCatchup;
      syncState, attemptFailed := Normal, false;
    }

    /** A degraded state is always the result of a failed attempt. */
    predicate GateInv()
      reads this
    {
      (syncState.OfflineGrace? || syncState.Expired?) ==> attemptFailed
    }

    /** The last complete catch-up with `peer` is younger than the grace period at `now`. */
    predicate Fresh(peer: string, now: int)
      reads this
    {
      peer in lastCatchup && now - lastCatchup[peer] < graceDays * SECONDS_PER_DAY
    }

    /** The gate attempts a catch-up: the last complete one is too old, or the state is degraded. */
    predicate Attempts(peer: string, now: int)
      reads this
    {
      (syncState.Normal? && !Fresh(peer, now)) || syncState.OfflineGrace? || syncState.Expired?
    }

    /** `_grace_status` reports "expired": no catch-up was ever completed, or the grace is used up. */
    method GraceExpired(peer: string, now: int) returns (expired: bool)
      ensures expired <==> !Fresh(peer, now)
      ensures expired <==> !(peer in lastCatchup && now - lastCatchup[peer] < graceDays * 24 * 60 * 60)
    {
      if peer !in lastCatchup {
        return true;
      }
      var remaining := graceDays * SECONDS_PER_DAY - (now - lastCatchup[peer]);
      expired := remaining <= 0;
    }

    /** `_grace_state`. */
    method GraceState(peer: string, now: int) returns (s: SyncState)
      ensures s == if !Fresh(peer, now) || syncState == Expired then Expired else OfflineGrace
    {
      var expired := GraceExpired(peer, now);
      s := if expired || syncState == Expired then Expired else OfflineGrace;
    }

    /** One iteration of the pull loop: read the stored cursor, export from there, apply.  It stops at a lost link,
        at a position the peer no longer serves, or at a batch the engine does not take, and nowhere else. */
    method Round(link: Link, call: nat, ghost history: seq<Entry>) returns (res: Progress)
      requires Safe(engine.State())
      requires Refines(link.file, history) && OwnsAll(history, link.peerId)
      modifies engine`file, engine`history, engine`beliefs, engine`sessions, engine`applied, engine`peers
      ensures Safe(engine.State()) && engine.State().id == old(engine.State()).id
      ensures RoundDone(old(engine.State()), engine.State(), link, history, res)
      ensures res == Stop(LinkDown) <==> link.dropsAt == Some(call)
      ensures res == Stop(LinkDown) ==> engine.State() == old(engine.State())
      ensures var cursor := StoredAnchor(old(engine.State()), link.peerId).cursor;
              res == Stop(PeerPruned) <==> link.dropsAt != Some(call) && CutOff(link.file, cursor)
      ensures var cursor := StoredAnchor(old(engine.State()), link.peerId).cursor;
              var from := ServedFrom(link.file, cursor);
              res.Stop? && res.outcome.Refused? <==>
                && link.dropsAt != Some(call) && !CutOff(link.file, cursor)
                && exists n :: IsCut(ReadFrom(link.file, from), 500, n)
                               && var b := BatchOf(link.file, link.peerId, from, n);
                                  !old(engine.Takes(b)) || FailsWithin(link.failsAt(call), b)
    {
      hide Safe, Aligned, HasAll, Accepted, Servable, Refines, OwnsAll, Honest, ServedFrom, IsCut, DeviceOk, Apply,
           Rescans, ScanCheckpoint, ReadFrom, FailsWithin, RoundDone;
      ghost var d := engine.State();
      var cursor := if link.peerId in engine.peers then engine.peers[link.peerId].cursor else 0;
      CursorIsStored(d, link.peerId);
      StopIsDone(d, link, history);
      if link.dropsAt == Some(call) {
        return Stop(LinkDown);
      }
      var served, n := ExportFromLog(link.file, link.peerId, cursor, BATCH_LIMIT);
      if served.CursorPruned? {
        return Stop(PeerPruned);
      }
      forall k | IsCut(ReadFrom(link.file, ServedFrom(link.file, cursor)), BATCH_LIMIT, k) ensures k == n {
        CutIsUnique(ReadFrom(link.file, ServedFrom(link.file, cursor)), BATCH_LIMIT, k, n);
      }
      var batch := served.batch;
      if batch.sender != link.peerId {
        return Stop(Refused(Sender));
      }
      var tape := (j: nat) => link.tape(call, j);
      SafeIsOk(d);
      var r := engine.ApplyTombstones(batch, None, tape, link.failsAt(call));
      if r.Err? {
        RefusalKeepsSafe(d, engine.State(), batch, tape, link.failsAt(call), r.error);
        return Stop(Refused(r.error));
      }
      ServedRound(d, link, history, batch, n, tape);
      res := if r.value.rescan then Rescanned
             else if batch.to == batch.from then AtTail
             else Advanced;
    }

    /** The pull loop of `_catch_up`: repeat until an empty batch that did not rescan.  `history` is the
        peer's log had it never been compacted.  With a smooth peer the loop reaches the tail, unless the stored
        position was compacted away or, on a compacted log, is not on the peer's chain. */
    method PullLoop(link: Link, ghost history: seq<Entry>) returns (outcome: Outcome, ghost rescans: nat)
      requires Safe(engine.State())
      requires Refines(link.file, history) && OwnsAll(history, link.peerId)
      modifies engine`file, engine`history, engine`beliefs, engine`sessions, engine`applied, engine`peers
      ensures Safe(engine.State())
      ensures rescans <= 1
      ensures outcome.Completed? ==>
                && link.peerId in engine.peers && engine.peers[link.peerId].cursor == |history| - 1
                && Aligned(engine.peers[link.peerId], link.file)
                && HasAll(engine.State(), history)
      ensures outcome.PeerPruned? ==> MustRebuild(StoredAnchor(old(engine.State()), link.peerId), link.file)
      ensures Smooth(engine, link, history) ==>
                outcome == if MustRebuild(StoredAnchor(old(engine.State()), link.peerId), link.file) then PeerPruned
                           else Completed
      ensures SmoothPeer(engine, link, history) && !outcome.LinkDown? ==>
                outcome == if MustRebuild(StoredAnchor(old(engine.State()), link.peerId), link.file) then PeerPruned
                           else Completed
      ensures outcome.LinkDown? ==> link.dropsAt.Some?
      ensures link.dropsAt == Some(0) ==> outcome.LinkDown? && engine.State() == old(engine.State())
      ensures !outcome.NoIdentity?
    {
      hide Safe, Aligned, HasAll, Refines, OwnsAll, ScanCheckpoint, SmoothPeer, IsCut, ReadFrom, ServedFrom;
      rescans := 0;
      var call := 0;
      ghost var a0 := StoredAnchor(engine.State(), link.peerId);
      ghost var smooth := SmoothPeer(engine, link, history);
      CheckpointIsNat(link.file, history);
      while true
        invariant Safe(engine.State()) && smooth == SmoothPeer(engine, link, history)
        invariant call == 0 ==> engine.State() == old(engine.State())
        invariant call > 0 ==> link.dropsAt != Some(0)
        invariant rescans <= 1
        invariant Pulled(a0, StoredAnchor(engine.State(), link.peerId), link.file, rescans)
        decreases !Aligned(StoredAnchor(engine.State(), link.peerId), link.file),
                  |history| - StoredAnchor(engine.State(), link.peerId).cursor
      {
        CursorIsStored(engine.State(), link.peerId);
        if smooth {
          SmoothIsNotRefused(engine, link, history, StoredAnchor(engine.State(), link.peerId).cursor, call);
        }
        var res := Round(link, call, history);
        call := call + 1;
        match res
        case Stop(o) => return o, rescans;
        case AtTail => return Completed, rescans;
        case Rescanned => rescans := rescans + 1;
        case Advanced =>
      }
    }

    /** `_catch_up`.  Only a confirmed tail stamps the completion; a lost link degrades the state; any
        other failure propagates and leaves the state at catching-up. */
    method CatchUp(link: Link, ghost history: seq<Entry>, now: int) returns (outcome: Outcome)
      requires Safe(engine.State()) && GateInv()
      requires Refines(link.file, history) && OwnsAll(history, link.peerId)
      modifies this, engine
      ensures Safe(engine.State()) && GateInv()
      ensures outcome.Completed? ==>
                && syncState == Normal && !attemptFailed
                && lastCatchup == old(lastCatchup)[link.peerId := now]
                && HasAll(engine.State(), history)
      ensures !outcome.Completed? ==> lastCatchup == old(lastCatchup)
      ensures outcome.LinkDown? ==>
                && attemptFailed && link.dropsAt.Some?
                && syncState == (if Fresh(link.peerId, now) then OfflineGrace else Expired)
      ensures !outcome.Completed? && !outcome.LinkDown? ==> syncState == CatchingUp
      ensures outcome.NoIdentity? <==> link.peerId == ""
      ensures old(Smooth(engine, link, history)) && link.peerId != "" ==>
                outcome == if old(MustRebuild(StoredAnchor(engine.State(), link.peerId), link.file)) then PeerPruned
                           else Completed
      ensures link.dropsAt == Some(0) && link.peerId != "" ==> outcome.LinkDown?
    {
      hide Safe, HasAll, Refines, OwnsAll, Aligned, SmoothPeer, MustRebuild;
      syncState := CatchingUp;
      if link.peerId == "" {
        return NoIdentity;
      }
      ghost var rescans;
      outcome, rescans := PullLoop(link, history);
      match outcome
      case Completed =>
        lastCatchup := lastCatchup[link.peerId := now];
        syncState := Normal;
        attemptFailed := false;
      case LinkDown =>
        attemptFailed := true;
        syncState := GraceState(link.peerId, now);
      case _ =>
    }

    /** `_sync_gate` with sync enabled and a transport injected; the clock is read at `now` and, if a
        catch-up is attempted, again at `later`.  A read passes exactly when a catch-up completed in this
        call, or the last complete one is younger than the grace period at the moment it is judged. */
    method SyncGate(read: bool, link: Link, ghost history: seq<Entry>, now: int, later: int)
      returns (gate: Gate, ghost completed: bool)
      requires Safe(engine.State()) && GateInv() && now <= later
      requires Refines(link.file, history) && OwnsAll(history, link.peerId)
      modifies this, engine
      ensures Safe(engine.State()) && GateInv()
      ensures completed ==>
                && syncState == Normal && lastCatchup == old(lastCatchup)[link.peerId := later]
                && HasAll(engine.State(), history)
      ensures !completed ==> lastCatchup == old(lastCatchup)
      ensures old(syncState).CatchingUp? <==> gate.RefuseCatchingUp?
      ensures gate.RefuseCatchingUp? ==> !completed && syncState == CatchingUp
      ensures gate.Raised? ==> !completed && syncState == CatchingUp
      ensures gate.RefuseRead? ==> read && link.dropsAt.Some? && !Fresh(link.peerId, later)
      ensures read && !gate.RefuseCatchingUp? && !gate.Raised? ==>
                (gate.Pass? <==> completed
                                 || (old(syncState).Normal? && old(Fresh(link.peerId, now)))
                                 || (!old(syncState).Normal? && old(Fresh(link.peerId, later))))
      ensures !old(Attempts(link.peerId, now)) && !old(syncState).CatchingUp? ==>
                gate.Pass? && !completed && syncState == old(syncState) && engine.State() == old(engine.State())
      ensures gate.Raised? ==> old(Attempts(link.peerId, now))
      ensures old(Attempts(link.peerId, now)) && link.peerId == "" ==> gate == Raised(NoIdentity)
      ensures old(Attempts(link.peerId, now)) && link.peerId != "" && old(Smooth(engine, link, history)) ==>
                if old(MustRebuild(StoredAnchor(engine.State(), link.peerId), link.file))
                then gate == Raised(PeerPruned) else gate.Pass? && completed
      ensures old(Attempts(link.peerId, now)) && link.peerId != "" && link.dropsAt == Some(0) ==>
                && gate == (if read && !old(Fresh(link.peerId, later)) then RefuseRead else Pass)
                && syncState == (if old(Fresh(link.peerId, later)) then OfflineGrace else Expired)
    {
      hide Safe, HasAll, Refines, OwnsAll, Smooth, MustRebuild;
      completed := false;
      if syncState == CatchingUp {
        return RefuseCatchingUp, false;
      }
      if syncState == Normal {
        var expired := GraceExpired(link.peerId, now);
        if expired {
          var outcome := CatchUp(link, history, later);
          completed := outcome.Completed?;
          if !outcome.Completed? && !outcome.LinkDown? {
            return Raised(outcome), false;
          }
          if syncState != Normal {
            return if read then RefuseRead else Pass, false;
          }
        }
      } else if attemptFailed {
        var outcome := CatchUp(link, history, later);
        completed := outcome.Completed?;
        if !outcome.Completed? && !outcome.LinkDown? {
          return Raised(outcome), false;
        }
      }
      if syncState == Expired && read {
        return RefuseRead, completed;
      }
      gate := Pass;
    }

    /** `_gate_without_transport`: sync enabled, no transport.  Writes pass; a read passes exactly when this
        database completed catch-ups with one peer only and the last one is within the grace period. */
    method GateWithoutTransport(read: bool, now: int) returns (gate: Gate)
      ensures gate.Pass? || gate.RefuseRead?
      ensures gate.Pass? <==> !read || (|lastCatchup| == 1 && exists p :: p in lastCatchup && Fresh(p, now))
    {
      if !read {
        return Pass;
      }
      if |lastCatchup| == 0 {
        return RefuseRead;
      }
      if |lastCatchup| > 1 {
        return RefuseRead;
      }
      var peers := lastCatchup.Keys;
      assert |peers| == 1;
      assert (forall p :: p !in peers) ==> peers == {};
      var p :| p in peers;
      forall q | q in lastCatchup ensures q == p {
        if q != p {
          assert {p, q} <= peers && |{p, q}| == 2;
          SubsetSize({p, q}, peers);
        }
      }
      var expired := GraceExpired(p, now);
      gate := if expired then RefuseRead else Pass;
    }

    /** Any sequence of gate calls with a non-decreasing clock: every read that passed was fresh at a
        moment within its call, or its call completed a catch-up; after the first failure that is not a
        lost link nothing passes again; and once a read was refused, no read from that peer passes before the
        call that completes the next catch-up. */
    method Serve(calls: seq<Call>, ghost histories: seq<seq<Entry>>)
      returns (gates: seq<Gate>, ghost lasts: seq<map<string, int>>)
      requires Safe(engine.State()) && GateInv()
      requires |histories| == |calls|
      requires forall i :: 0 <= i < |calls| ==>
                 Refines(calls[i].link.file, histories[i]) && OwnsAll(histories[i], calls[i].link.peerId)
      requires forall i :: 0 <= i < |calls| ==> calls[i].now <= calls[i].later
      modifies this, engine
      ensures |gates| == |calls| && |lasts| == |calls| + 1 && lasts[0] == old(lastCatchup)
      ensures forall i :: 0 <= i < |calls| && calls[i].read && gates[i].Pass? ==>
                WasFresh(graceDays, lasts[i], lasts[i + 1], calls[i])
      ensures forall i, j :: 0 <= i < j < |calls| && gates[i].Raised? ==> gates[j].RefuseCatchingUp?
      ensures forall i, j :: 0 <= i < j < |calls| && gates[i].RefuseRead? && calls[i].later <= calls[j].now
                             && calls[j].read && gates[j].Pass?
                             && SameStamp(lasts[i + 1], lasts[j], calls[i], calls[j]) ==>
                               lasts[j + 1] == lasts[j][calls[j].link.peerId := calls[j].later]
    {
      hide Safe, HasAll, Refines, OwnsAll, SameStamp, Smooth, MustRebuild;
      gates, lasts := [], [lastCatchup];
      for i := 0 to |calls|
        invariant Safe(engine.State()) && GateInv()
        invariant |gates| == i && |lasts| == i + 1 && lasts[0] == old(lastCatchup) && lasts[i] == lastCatchup
        invariant forall k :: 0 <= k < i && calls[k].read && gates[k].Pass? ==>
                    WasFresh(graceDays, lasts[k], lasts[k + 1], calls[k])
        invariant forall k :: 0 <= k < i && gates[k].RefuseRead? ==> IsStale(graceDays, lasts[k + 1], calls[k])
        invariant forall k :: 0 <= k < i && gates[k].Raised? ==> syncState == CatchingUp
        invariant forall k, j :: 0 <= k < j < i && gates[k].Raised? ==> gates[j].RefuseCatchingUp?
      {
        ghost var before := lastCatchup;
        var gate;
        ghost var completed;
        gate, completed := SyncGate(calls[i].read, calls[i].link, histories[i], calls[i].now, calls[i].later);
        gates := gates + [gate];
        lasts := lasts + [lastCatchup];
      }
      forall i, j | 0 <= i < j < |calls| && gates[i].RefuseRead? && calls[i].later <= calls[j].now
                    && calls[j].read && gates[j].Pass? && SameStamp(lasts[i + 1], lasts[j], calls[i], calls[j])
        ensures lasts[j + 1] == lasts[j][calls[j].link.peerId := calls[j].later]
      {
        StaleNeedsCompletion(graceDays, lasts[i + 1], lasts[j], lasts[j + 1], calls[i], calls[j]);
      }
    }
  }

  datatype Call = Call(read: bool, link: Link, now: int, later: int)

  /** The completion record before and after a call shows either a completion in the call or one younger
      than the grace period when the call looked at the clock. */
  predicate WasFresh(graceDays: int, before: map<string, int>, after: map<string, int>, c: Call) {
    var peer := c.link.peerId;
    && peer in after
    && (after == before[peer := c.later]
        || (after == before && (c.now - after[peer] < graceDays * SECONDS_PER_DAY
                                || c.later - after[peer] < graceDays * SECONDS_PER_DAY)))
  }

  /** No completion with the peer younger than the grace period at the end of the call. */
  predicate IsStale(graceDays: int, after: map<string, int>, c: Call) {
    c.link.peerId in after ==> c.later - after[c.link.peerId] >= graceDays * SECONDS_PER_DAY
  }

  /** Two calls to one peer, and no completion with it in between. */
  predicate SameStamp(m: map<string, int>, m': map<string, int>, c: Call, c': Call) {
    var p := c.link.peerId;
    p == c'.link.peerId && (p in m <==> p in m') && (p in m ==> m[p] == m'[p])
  }

  lemma StaleNeedsCompletion(graceDays: int, seen: map<string, int>, before: map<string, int>, after: map<string, int>,
                             c: Call, c': Call)
    requires IsStale(graceDays, seen, c) && c.later <= c'.now <= c'.later && SameStamp(seen, before, c, c')
    requires WasFresh(graceDays, before, after, c')
    ensures after == before[c'.link.peerId := c'.later]
  {
  }

  lemma SubsetSize(a: set<string>, b: set<string>)
    requires a <= b
    ensures |a| <= |b|
  {
    var rest := b - a;
    assert b == a + rest;
  }

  lemma SafeIsOk(d: Device)
    requires Safe(d)
    ensures DeviceOk(d)
  {
  }

  lemma CursorIsStored(d: Device, peer: string)
    requires Safe(d)
    ensures StoredAnchor(d, peer).cursor == (if peer in d.peers then d.peers[peer].cursor else 0)
    ensures StoredAnchor(d, peer).cursor >= 0
  {
  }

  lemma RefusalKeepsSafe(d: Device, d': Device, b: Batch, tape: nat -> Local, failAt: Option<nat>, reason: Reason)
    requires Safe(d)
    requires reason != ApplyFailed ==> d' == d
    requires reason == ApplyFailed ==>
               && Accepted(b, d.tenant, d.app) && failAt.Some? && failAt.value < |b.entries|
               && var c := ApplyUpTo(d, b.entries, tape, failAt.value);
                  d' == d.(file := c.file, history := c.history)
    ensures Safe(d') && d'.id == d.id
  {
    if reason == ApplyFailed {
      AcceptedNamesOrigins(b, d.tenant, d.app);
      FailedApplyKeepsSafe(d, b, tape, failAt.value);
    }
  }
}
