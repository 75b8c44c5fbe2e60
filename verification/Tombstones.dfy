/**
 * Tombstones: the form in which a deletion travels between devices, how a batch of them is read off a
 * deletion log, and what a receiver checks before it touches its database.
 *
 * Entry and envelope hashes are abstracted like the log's: a `Seal` is the value it was computed from.
 */
module Tombstones {
  import opened Basics
  import opened Chain
  import opened FileLog

  datatype TombBody = TombBody(
    origin: string, originSeq: int, tenant: string, app: string, user: string,
    scope: Scope, scopeKey: string, generation: int,
    createdAt: Option<int>,  // None: a text that is not ISO 8601, such as ""
    originHash: Hash)

  /** A hash field of a tombstone or an envelope. */
  datatype Seal = NotHex | OtherHex(n: int) | OfBody(body: TombBody) | OfEnvelope(envelope: Envelope)

  datatype Envelope = Envelope(
    sender: string, from: int, to: int, fromChain: Hash, toChain: Hash, entrySeals: seq<Seal>)

  datatype Tombstone = Tombstone(body: TombBody, seal: Seal)

  datatype Batch = Batch(
    sender: string, from: int, to: int, fromChain: Hash, toChain: Hash,
    entries: seq<Tombstone>, seal: Seal)

  /** The identity of a deletion across devices: where it happened, its position there, its hash there. */
  datatype Key = Key(origin: string, seq_: int, hash: Hash)

  function KeyOf(t: TombBody): Key {
    Key(t.origin, t.originSeq, t.originHash)
  }

  /** The identity an entry of `dbId`'s log has. */
  function EntryKey(e: Entry): Key {
    Key(if e.origin == "" then e.dbId else e.origin,
        if e.origin == "" then e.pos else e.originSeq,
        if e.originHash == NoHash then e.hash else e.originHash)
  }

  function IsHexDigit(c: char): bool {
    '0' <= c <= '9' || 'a' <= c <= 'f'
  }

  /** A lower-case hex text of 32 digits; as in the pattern used, one trailing newline passes. */
  predicate IsHex32(s: string) {
    && (|s| == 32 || (|s| == 33 && s[32] == '\n'))
    && forall i :: 0 <= i < 32 ==> IsHexDigit(s[i])
  }

  predicate IsHex64(h: Hash) {
    !h.NoHash?
  }

  // ---------------------------------------------------------------------------------------------
  // From a log entry to a tombstone
  // ---------------------------------------------------------------------------------------------

  /** Can the deletion travel?  A belief deletion needs the belief's global id. */
  predicate CanTravel(what: Deletion) {
    match what.scope
    case GenesisMark => false
    case Checkpoint => false
    case Belief => IsHex32(what.globalKey)
    case _ => true
  }

  predicate Travels(e: Entry) {
    CanTravel(e.what)
  }

  function BodyOf(e: Entry): TombBody {
    var key := EntryKey(e);
    TombBody(key.origin, key.seq_, e.what.tenant, e.what.app, e.what.user, e.what.scope,
             match e.what.scope
             case Belief => e.what.globalKey
             case Session => e.what.scopeKey
             case _ => "",
             e.what.generation, e.createdAt, key.hash)
  }

  function TombstoneOf(e: Entry): Tombstone {
    Tombstone(BodyOf(e), OfBody(BodyOf(e)))
  }

  /** `from_deletion_entry`. */
  function FromDeletionEntry(e: Entry): Option<Tombstone> {
    if Travels(e) then Some(TombstoneOf(e)) else None
  }

  // ---------------------------------------------------------------------------------------------
  // Export
  // ---------------------------------------------------------------------------------------------

  /** `read_from`: the lines above a position. */
  function ReadFrom(lines: seq<Entry>, after: int): seq<Entry> {
    Keep(lines, AbovePos(after))
  }

  /** The tombstones of a run of log entries. */
  function Travelling(raws: seq<Entry>): (r: seq<Tombstone>)
    ensures |r| <= |raws|
  {
    if |raws| == 0 then []
    else Travelling(raws[..|raws| - 1])
         + (if Travels(raws[|raws| - 1]) then [TombstoneOf(raws[|raws| - 1])] else [])
  }

  predicate Unkeyed(e: Entry) {
    e.what.scope.Belief? && !Travels(e)
  }

  function SkippedIn(raws: seq<Entry>): nat {
    if |raws| == 0 then 0
    else SkippedIn(raws[..|raws| - 1]) + (if Unkeyed(raws[|raws| - 1]) then 1 else 0)
  }

  /** How many entries a batch of at most `limit` tombstones consumes (a limit below one acts as one):
      the shortest prefix holding `limit` of them, or all. */
  predicate IsCut(raws: seq<Entry>, limit: int, n: nat) {
    && n <= |raws|
    && (forall k :: 0 <= k < n ==> |Travelling(raws[..k])| < Max(limit, 1))
    && (n < |raws| ==> |Travelling(raws[..n])| >= Max(limit, 1))
  }

  datatype Export = CursorPruned | Exported(batch: Batch, next: int, skipped: nat)

  function SealBatch(sender: string, from: int, to: int, fromChain: Hash, toChain: Hash,
        entries: seq<Tombstone>): Batch {
    Batch(sender, from, to, fromChain, toChain, entries,
          OfEnvelope(Envelope(sender, from, to, fromChain, toChain, Seals(entries))))
  }

  function Seals(entries: seq<Tombstone>): (r: seq<Seal>)
    ensures |r| == |entries| && forall i :: 0 <= i < |r| ==> r[i] == entries[i].seal
  {
    if |entries| == 0 then [] else Seals(entries[..|entries| - 1]) + [entries[|entries| - 1].seal]
  }

  /** Where an export starts: a cursor above the head rewinds to 0. */
  function ServedFrom(lines: seq<Entry>, since: int): int {
    if since > ScanHead(lines).0 then 0 else since
  }

  /** The batch of a served export that consumed `n` entries. */
  function BatchOf(lines: seq<Entry>, dbId: string, from: int, n: nat): Batch
    requires n <= |ReadFrom(lines, from)|
  {
    var raws := ReadFrom(lines, from);
    var to := if n == 0 then from else raws[n - 1].pos;
    SealBatch(dbId, from, to, ScanChainHash(lines, from), ScanChainHash(lines, to), Travelling(raws[..n]))
  }

  lemma NothingRead()
    ensures Travelling([]) == [] && SkippedIn([]) == 0
  {
  }

  /** What one more line adds to the tombstones and to the count of those that cannot travel. */
  lemma OneMoreRead(raws: seq<Entry>, n: nat)
    requires n < |raws|
    ensures var e, t := raws[n], FromDeletionEntry(raws[n]);
            var mark := e.what.scope.GenesisMark? || e.what.scope.Checkpoint?;
            && Travelling(raws[..n + 1])
            == Travelling(raws[..n]) + (if mark || t.None? then [] else [t.value])
            && SkippedIn(raws[..n + 1]) == SkippedIn(raws[..n]) + (if !mark && t.None? then 1 else 0)
  {
    assert raws[..n + 1][..n] == raws[..n];
  }

  /** The read loop of an export. */
  method TakeCut(raws: seq<Entry>, from: int, limit: int)
    returns (entries: seq<Tombstone>, cursor: int, skipped: nat, n: nat)
    ensures IsCut(raws, limit, n)
    ensures entries == Travelling(raws[..n]) && skipped == SkippedIn(raws[..n])
    ensures cursor == if n == 0 then from else raws[n - 1].pos
    ensures |entries| <= (if limit < 1 then 1 else limit)
    ensures n < |raws| ==> n > 0 && Travels(raws[n - 1]) && |entries| == if limit < 1 then 1 else limit
  {
    hide FromDeletionEntry, Travelling, SkippedIn;
    assert raws[..0] == [];
    NothingRead();
    entries, cursor, skipped, n := [], from, 0, 0;
    while n < |raws|
      invariant 0 <= n <= |raws|
      invariant entries == Travelling(raws[..n]) && skipped == SkippedIn(raws[..n])
      invariant cursor == if n == 0 then from else raws[n - 1].pos
      invariant forall k :: 0 <= k <= n ==> |Travelling(raws[..k])| < Max(limit, 1)
    {
      var raw := raws[n];
      OneMoreRead(raws, n);
      cursor := raw.pos;
      n := n + 1;
      if raw.what.scope.GenesisMark? || raw.what.scope.Checkpoint? {
        continue;
      }
      var tombstone := FromDeletionEntry(raw);
      if tombstone.None? {
        skipped := skipped + 1;
        continue;
      }
      entries := entries + [tombstone.value];
      TravelsIff(raw);
      if |entries| >= limit {
        break;
      }
    }
  }

  /** `export_from_log`: refuse a cursor below the checkpoint, otherwise serve the next entries. */
  method ExportFromLog(lines: seq<Entry>, dbId: string, since: int, limit: int) returns (r: Export, n: nat)
    ensures r.CursorPruned? <==> ScanCheckpoint(lines) != 0 && since < ScanCheckpoint(lines)
    ensures r.Exported? ==>
              var from := ServedFrom(lines, since);
              && IsCut(ReadFrom(lines, from), limit, n)
              && r.batch == BatchOf(lines, dbId, from, n)
              && r.next == r.batch.to && r.skipped == SkippedIn(ReadFrom(lines, from)[..n])
              && |r.batch.entries| <= (if limit < 1 then 1 else limit)
              && (n < |ReadFrom(lines, from)| ==> |r.batch.entries| == if limit < 1 then 1 else limit)
  {
    var checkpoint := ScanCheckpoint(lines);
    if checkpoint != 0 && since < checkpoint {
      return CursorPruned, 0;
    }
    var head := ScanHead(lines).0;
    var from := since;
    if from > head {
      from := 0;
    }
    var entries, cursor, skipped;
    entries, cursor, skipped, n := TakeCut(ReadFrom(lines, from), from, limit);
    r := Exported(SealBatch(dbId, from, cursor, ScanChainHash(lines, from), ScanChainHash(lines, cursor), entries),
                  cursor, skipped);
  }

  /** The tombstones of a run are those of its entries that can travel. */
  lemma {:induction false} TravellingMembers(raws: seq<Entry>)
    ensures forall e :: e in raws && Travels(e) ==> TombstoneOf(e) in Travelling(raws)
    ensures forall t :: t in Travelling(raws) ==> exists e :: e in raws && Travels(e) && t == TombstoneOf(e)
  {
    if |raws| > 0 {
      var rest := raws[..|raws| - 1];
      TravellingMembers(rest);
      assert raws == rest + [raws[|raws| - 1]];
    }
  }

  // ---------------------------------------------------------------------------------------------
  // Validation
  // ---------------------------------------------------------------------------------------------

  datatype Reason = Format | HashMismatch | Tenant | UnknownUser | Sequence | Sender | ApplyFailed

  /** What `str.strip` strips. */
  predicate IsSpace(c: char) {
    || c == ' ' || '\t' <= c <= '\r' || (28 as char) <= c <= (31 as char)
    || c in {'\U{85}', '\U{A0}', '\U{1680}', '\U{2028}', '\U{2029}', '\U{202F}', '\U{205F}', '\U{3000}'}
    || '\U{2000}' <= c <= '\U{200A}'
  }

  predicate NotBlank(s: string) {
    exists i :: 0 <= i < |s| && !IsSpace(s[i])
  }

  /** `validate_entry_format`. */
  predicate FormatOk(t: Tombstone) {
    && IsHex32(t.body.origin)
    && t.body.originSeq >= 1
    && t.body.tenant != "" && t.body.app != ""
    && t.body.user != "" && NotBlank(t.body.user)
    && (t.body.scope.Belief? || t.body.scope.Session? || t.body.scope.User?)
    && (t.body.scope.Belief? ==> IsHex32(t.body.scopeKey))
    && (t.body.scope.Session? ==> t.body.scopeKey != "")
    && (t.body.scope.User? ==> t.body.scopeKey == "")
    && t.body.generation >= 0
    && t.body.createdAt.Some?
    && !t.seal.NotHex?
  }

  /** The first failing per-entry check. */
  function EntryProblem(t: Tombstone, tenant: string, app: string): Option<Reason> {
    if !FormatOk(t) then Some(Format)
    else if OfBody(t.body) != t.seal then Some(HashMismatch)
    else if t.body.tenant != tenant || t.body.app != app then Some(Tenant)
    else None
  }

  /** The reason given for an entry holds, and is the first that does. */
  lemma ProblemIsTrue(t: Tombstone, tenant: string, app: string)
    ensures match EntryProblem(t, tenant, app) {
              case None => EntryOk(t, tenant, app)
              case Some(Format) => !FormatOk(t)
              case Some(HashMismatch) => FormatOk(t) && t.seal != OfBody(t.body)
              case Some(Tenant) =>
                FormatOk(t) && t.seal == OfBody(t.body) && (t.body.tenant, t.body.app) != (tenant, app)
              case _ => false
            }
    ensures t.seal.NotHex? ==> EntryProblem(t, tenant, app) == Some(Format)
  {
  }

  lemma NoProblemIff(t: Tombstone, tenant: string, app: string)
    ensures EntryOk(t, tenant, app) <==> EntryProblem(t, tenant, app).None?
    ensures EntryProblem(t, tenant, app) in {None, Some(Format), Some(HashMismatch), Some(Tenant)}
  {
    hide FormatOk;
  }

  predicate EntryOk(t: Tombstone, tenant: string, app: string) {
    FormatOk(t) && t.seal == OfBody(t.body) && t.body.tenant == tenant && t.body.app == app
  }

  predicate EnvelopeOk(b: Batch) {
    && IsHex32(b.sender)
    && 0 <= b.from <= b.to
    && IsHex64(b.fromChain) && IsHex64(b.toChain)
    && b.seal == SealBatch(b.sender, b.from, b.to, b.fromChain, b.toChain, b.entries).seal
  }

  /** The deduplication key inside one batch. */
  function PairOf(t: Tombstone): (string, Hash) {
    (t.body.origin, t.body.originHash)
  }

  predicate Accepted(b: Batch, tenant: string, app: string) {
    && EnvelopeOk(b)
    && (forall i :: 0 <= i < |b.entries| ==> EntryOk(b.entries[i], tenant, app))
    && (forall i, j :: 0 <= i < j < |b.entries| ==> PairOf(b.entries[i]) != PairOf(b.entries[j]))
  }

  /** The per-entry part of `validate_batch`, in order; `at` is where it stopped. */
  method ValidateEntries(ts: seq<Tombstone>, tenant: string, app: string) returns (problem: Option<Reason>, at: nat)
    ensures problem.None? <==>
              && (forall i :: 0 <= i < |ts| ==> EntryProblem(ts[i], tenant, app).None?)
              && (forall i, j :: 0 <= i < j < |ts| ==> PairOf(ts[i]) != PairOf(ts[j]))
    ensures problem.Some? ==>
              && at < |ts|
              && (problem == EntryProblem(ts[at], tenant, app)
                  || (problem == Some(Sequence) && exists i :: 0 <= i < at && PairOf(ts[i]) == PairOf(ts[at])))
  {
    hide EntryProblem, PairOf;
    var seen: set<(string, Hash)> := {};
    at := 0;
    while at < |ts|
      invariant at <= |ts|
      invariant forall k :: 0 <= k < at ==> EntryProblem(ts[k], tenant, app).None?
      invariant forall k :: 0 <= k < at ==> PairOf(ts[k]) in seen
      invariant forall p :: p in seen ==> exists k :: 0 <= k < at && PairOf(ts[k]) == p
      invariant forall j, k :: 0 <= j < k < at ==> PairOf(ts[j]) != PairOf(ts[k])
    {
      problem := EntryProblem(ts[at], tenant, app);
      if problem.Some? {
        return problem, at;
      }
      var pair := PairOf(ts[at]);
      if pair in seen {
        return Some(Sequence), at;
      }
      seen := seen + {pair};
      at := at + 1;
    }
    return None, at;
  }

  /** `validate_batch`: accepts exactly the well-formed, sealed batches of the tenant without
      duplicates. */
  method ValidateBatch(b: Batch, tenant: string, app: string) returns (problem: Option<Reason>)
    ensures problem.None? <==> Accepted(b, tenant, app)
    ensures problem.None? <==>
              && EnvelopeOk(b)
              && (forall i :: 0 <= i < |b.entries| ==> EntryOk(b.entries[i], tenant, app))
              && (forall i, j :: 0 <= i < j < |b.entries| && b.entries[i].body.origin == b.entries[j].body.origin ==>
                                   b.entries[i].body.originHash != b.entries[j].body.originHash)
    ensures problem != Some(ApplyFailed) && problem != Some(UnknownUser)
    ensures !IsHex32(b.sender) ==> problem == Some(Format)
    ensures IsHex32(b.sender) && !(0 <= b.from <= b.to) ==> problem == Some(Sequence)
    ensures IsHex32(b.sender) && 0 <= b.from <= b.to && IsHex64(b.fromChain) && IsHex64(b.toChain) && !EnvelopeOk(b) ==>
              problem == Some(HashMismatch)
  {
    hide FormatOk, IsHex32, EntryOk, EntryProblem, Seals;
    if !IsHex32(b.sender) { return Some(Format); }
    if b.from < 0 || b.to < b.from { return Some(Sequence); }
    if !IsHex64(b.fromChain) || !IsHex64(b.toChain) { return Some(Format); }
    if SealBatch(b.sender, b.from, b.to, b.fromChain, b.toChain, b.entries).seal != b.seal {
      return Some(HashMismatch);
    }
    var at;
    problem, at := ValidateEntries(b.entries, tenant, app);
    forall i | 0 <= i < |b.entries|
      ensures EntryOk(b.entries[i], tenant, app) <==> EntryProblem(b.entries[i], tenant, app).None?
      ensures EntryProblem(b.entries[i], tenant, app) in {None, Some(Format), Some(HashMismatch), Some(Tenant)}
    {
      NoProblemIff(b.entries[i], tenant, app);
    }
  }

  /** Tamper evidence: two accepted batches under one envelope hash are the same batch. */
  lemma EnvelopePinsBatch(a: Batch, b: Batch, tenant: string, app: string)
    requires Accepted(a, tenant, app) && Accepted(b, tenant, app)
    requires a.seal == b.seal
    ensures a == b
  {
  }

  /** The hex digits are the ten figures and the six lower-case letters. */
  lemma HexTexts(s: string)
    ensures |s| == 32 ==>
              (IsHex32(s) && IsHex32(s + "\n") <==>
                 forall i :: 0 <= i < 32 ==>
                   s[i] in {'0', '1', '2', '3', '4', '5', '6', '7', '8', '9', 'a', 'b', 'c', 'd', 'e', 'f'})
    ensures IsHex32(s) ==> (|s| == 32 || s == s[..32] + "\n") && IsHex32(s[..32])
  {
  }

  /** A name with a visible character is not blank; spaces, tabs and line ends alone are. */
  lemma BlankTexts(s: string)
    ensures (exists i :: 0 <= i < |s| && '!' <= s[i] <= '~') ==> NotBlank(s)
    ensures (forall i :: 0 <= i < |s| ==> s[i] in {' ', '\t', '\n', '\r', '\U{85}', '\U{A0}', '\U{3000}'}) ==>
              !NotBlank(s)
  {
  }

  /** Every deletion of a user or a session travels, a belief's exactly with a global id, and no marker does. */
  lemma TravelsIff(e: Entry)
    ensures Travels(e) <==> || e.what.scope == User
                            || e.what.scope == Session
                            || (e.what.scope == Belief && IsHex32(e.what.globalKey))
    ensures FromDeletionEntry(e).Some? <==> Travels(e)
    ensures SkippedIn([e]) == if e.what.scope == Belief && !IsHex32(e.what.globalKey) then 1 else 0
  {
    assert [e][..0] == [];
  }

  /** Two entries travel as one tombstone exactly when they agree on all that a tombstone carries. */
  lemma SameTombstoneIff(a: Entry, b: Entry)
    requires Travels(a) && Travels(b)
    ensures TombstoneOf(a) == TombstoneOf(b) <==>
              && EntryKey(a) == EntryKey(b)
              && a.what.tenant == b.what.tenant && a.what.app == b.what.app && a.what.user == b.what.user
              && a.what.scope == b.what.scope && a.what.generation == b.what.generation && a.createdAt == b.createdAt
              && (a.what.scope.Belief? ==> a.what.globalKey == b.what.globalKey)
              && (a.what.scope.Session? ==> a.what.scopeKey == b.what.scopeKey)
  {
  }

  /** The per-entry checks let through exactly the tombstones that some log entry travels as: of a user with a name,
      a session with an id or a belief with a global id, from a well-named log. */
  lemma AcceptedIffExportable(t: Tombstone, tenant: string, app: string)
    ensures EntryOk(t, tenant, app) <==> exists e: Entry :: GoodToSend(e, tenant, app) && TombstoneOf(e) == t
  {
    if EntryOk(t, tenant, app) {
      var b := t.body;
      var what := Deletion(b.tenant, b.app, b.user, b.scope, b.scopeKey, [], b.generation, "", b.scopeKey);
      var e := Entry("", what, b.createdAt, b.origin, b.originSeq, b.originHash, 0, NoHash, NoHash);
      assert TombstoneOf(e) == t;
      ExportedEntryIsOk(e, tenant, app);
      assert GoodToSend(e, tenant, app);
    }
    if e: Entry :| GoodToSend(e, tenant, app) && TombstoneOf(e) == t {
      ExportedEntryIsOk(e, tenant, app);
    }
  }

  predicate GoodToSend(e: Entry, tenant: string, app: string) {
    && Travels(e) && IsHex32(EntryKey(e).origin) && EntryKey(e).seq_ >= 1
    && e.what.tenant == tenant != "" && e.what.app == app != ""
    && NotBlank(e.what.user) && e.what.generation >= 0 && e.createdAt.Some?
    && (e.what.scope.Session? ==> e.what.scopeKey != "")
  }

  /** An exported tombstone passes the per-entry checks exactly when its entry names a user and an
      application, a session if it deletes one, and came out of a well-named log. */
  lemma ExportedEntryIsOk(e: Entry, tenant: string, app: string)
    requires Travels(e)
    ensures EntryOk(TombstoneOf(e), tenant, app) <==>
              && IsHex32(EntryKey(e).origin) && EntryKey(e).seq_ >= 1
              && e.what.tenant == tenant != "" && e.what.app == app != ""
              && NotBlank(e.what.user) && e.what.generation >= 0 && e.createdAt.Some?
              && (e.what.scope.Session? ==> e.what.scopeKey != "")
  {
  }
}
