/**
 * The hash chain of a deletion log: what an entry is, what its hash covers, and what
 * `verify_chain` establishes.
 *
 * SHA-256 is abstracted as a free constructor: `Digest(p)` is the hash of payload `p`, so equal
 * digests have equal payloads and no digest is the all-zero `Genesis` hash or the empty string.
 */
module Chain {
  import opened Basics

  /** The values a hash field takes: "" (`NoHash`), 64 zeros (`Genesis`) or a digest. */
  datatype Hash = NoHash | Genesis | Digest(payload: Payload)

  datatype Scope = Belief | Session | User | GenesisMark | Checkpoint

  /** The content-free identity of a deleted row; `createdAt` tells a row from a later one reusing its id. */
  datatype Fingerprint = Fingerprint(table: string, id: string, createdAt: Option<int>)

  /** What was deleted. */
  datatype Deletion = Deletion(
    tenant: string, app: string, user: string, scope: Scope, scopeKey: string,
    fingerprints: seq<Fingerprint>, generation: int, purpose: string, globalKey: string)

  /** The hashed part of an entry.  The position is not in it, and `relay` is present only for a
      non-empty origin. */
  datatype Payload = Payload(
    dbId: string, what: Deletion, createdAt: Option<int>, prev: Hash,
    relay: Option<(string, int)>, originHash: Hash)

  /** One line of the log. */
  datatype Entry = Entry(
    dbId: string, what: Deletion, createdAt: Option<int>,
    origin: string, originSeq: int, originHash: Hash,
    pos: int, prevHash: Hash, hash: Hash)

  function PayloadOf(e: Entry): Payload {
    Payload(e.dbId, e.what, e.createdAt, e.prevHash,
            if e.origin == "" then None else Some((e.origin, e.originSeq)), e.originHash)
  }

  function ComputeHash(e: Entry): Hash {
    Digest(PayloadOf(e))
  }

  /** An entry with no origin carries no origin position. */
  predicate NormalForm(e: Entry) {
    e.origin == "" ==> e.originSeq == 0
  }

  /** The hash the chain has just before line `i`. */
  function PrevOf(lines: seq<Entry>, i: nat): Hash
    requires i <= |lines|
  {
    if i == 0 then Genesis else lines[i - 1].hash
  }

  predicate LinkOk(lines: seq<Entry>, i: nat)
    requires i < |lines|
  {
    && lines[i].prevHash == PrevOf(lines, i)
    && (lines[i].what.scope.Checkpoint? || lines[i].hash == ComputeHash(lines[i]))
  }

  /** The chain verifies: every line links to the one before it and, except for a checkpoint, hashes
      to its recorded hash. */
  predicate Verified(lines: seq<Entry>) {
    forall i :: 0 <= i < |lines| ==> LinkOk(lines, i)
  }

  /** `verify_chain`: walk the whole log carrying the running hash. */
  method VerifyChain(lines: seq<Entry>) returns (ok: bool)
    ensures ok <==> Verified(lines)
  {
    var prev := Genesis;
    for i := 0 to |lines|
      invariant prev == PrevOf(lines, i)
      invariant forall k :: 0 <= k < i ==> LinkOk(lines, k)
    {
      var e := lines[i];
      if e.what.scope.Checkpoint? {
        if e.prevHash != prev {
          assert !LinkOk(lines, i);
          return false;
        }
        prev := e.hash;
        continue;
      }
      if e.prevHash != prev {
        assert !LinkOk(lines, i);
        return false;
      }
      if e.hash != ComputeHash(e) {
        assert !LinkOk(lines, i);
        return false;
      }
      prev := e.hash;
    }
    return true;
  }

  // ---------------------------------------------------------------------------------------------
  // The shape a log has on disk
  // ---------------------------------------------------------------------------------------------

  /** The checkpoint position of a log, 0 when it was never compacted. */
  function CheckpointOf(lines: seq<Entry>): int {
    if |lines| >= 2 && lines[1].what.scope.Checkpoint? then lines[1].pos else 0
  }

  /** Position of line `i`: the genesis at 0, then one contiguous run that starts at 1 or at the
      checkpoint. */
  function PosAt(lines: seq<Entry>, i: nat): int {
    if i == 0 then 0 else if CheckpointOf(lines) == 0 then i else CheckpointOf(lines) + i - 1
  }

  predicate LineOk(lines: seq<Entry>, i: nat)
    requires i < |lines|
  {
    && lines[i].pos == PosAt(lines, i)
    && NormalForm(lines[i])
    && (lines[i].what.scope.GenesisMark? <==> i == 0)
    && (lines[i].what.scope.Checkpoint? ==> i == 1 && lines[i].pos >= 1)
  }

  predicate LogShape(lines: seq<Entry>) {
    && |lines| >= 1
    && forall i :: 0 <= i < |lines| ==> LineOk(lines, i)
  }

  /** The shape, line by line. */
  lemma ShapeFacts(lines: seq<Entry>)
    requires LogShape(lines)
    ensures CheckpointOf(lines) >= 0
    ensures forall i :: 0 <= i < |lines| ==>
                          && lines[i].pos == PosAt(lines, i) && NormalForm(lines[i])
                          && (lines[i].what.scope.GenesisMark? <==> i == 0)
                          && (lines[i].what.scope.Checkpoint? <==> i == 1 && CheckpointOf(lines) > 0)
  {
    forall i | 0 <= i < |lines|
      ensures CheckpointOf(lines) >= 0 && LineOk(lines, i)
      ensures lines[i].what.scope.Checkpoint? <==> i == 1 && CheckpointOf(lines) > 0
    {
      assert LineOk(lines, i) && (|lines| >= 2 ==> LineOk(lines, 1));
    }
  }

  function HeadPos(lines: seq<Entry>): (n: int)
    requires LogShape(lines)
    ensures n >= CheckpointOf(lines) && n >= 0
  {
    assert LineOk(lines, |lines| - 1);
    assert |lines| >= 2 ==> LineOk(lines, 1);
    lines[|lines| - 1].pos
  }

  /** Is there a line at position `n`? */
  predicate Holds(lines: seq<Entry>, n: int)
    requires LogShape(lines)
  {
    n == 0 || (1 <= n && CheckpointOf(lines) <= n <= HeadPos(lines))
  }

  function LineOf(lines: seq<Entry>, n: int): (i: nat)
    requires LogShape(lines) && Holds(lines, n)
    ensures i < |lines| && lines[i].pos == n
  {
    var i := if n == 0 then 0 else if CheckpointOf(lines) == 0 then n else n - CheckpointOf(lines) + 1;
    assert LineOk(lines, |lines| - 1) && (|lines| >= 2 ==> LineOk(lines, 1));
    assert LineOk(lines, i);
    i
  }

  /** The entry at position `n`. */
  function At(lines: seq<Entry>, n: int): Entry
    requires LogShape(lines) && Holds(lines, n)
  {
    lines[LineOf(lines, n)]
  }

  // ---------------------------------------------------------------------------------------------
  // The chain pins history
  // ---------------------------------------------------------------------------------------------

  /** Injectivity of the entry hash, up to what the payload leaves out. */
  lemma HashDeterminesEntry(a: Entry, b: Entry)
    requires a.hash == ComputeHash(a) && b.hash == ComputeHash(b) && a.hash == b.hash
    requires a.pos == b.pos && NormalForm(a) && NormalForm(b)
    ensures a == b
  {
  }

  /** What the payload leaves out: two different entries with one and the same hash. */
  lemma HashForgetsPosition(e: Entry)
    requires e.hash == ComputeHash(e)
    ensures exists f: Entry :: f != e && f.hash == ComputeHash(f) && f.hash == e.hash
  {
    var f := e.(pos := e.pos + 1);
    assert f != e && f.hash == ComputeHash(f) && f.hash == e.hash;
  }

  /** The line before position `n` carries `At(n).prevHash`. */
  lemma LinkDown(lines: seq<Entry>, n: int)
    requires LogShape(lines) && Verified(lines)
    requires CheckpointOf(lines) < n <= HeadPos(lines)
    ensures Holds(lines, n) && Holds(lines, n - 1)
    ensures !At(lines, n).what.scope.Checkpoint? && At(lines, n).hash == ComputeHash(At(lines, n))
    ensures At(lines, n).prevHash == At(lines, n - 1).hash
  {
    assert |lines| >= 2 ==> LineOk(lines, 1);
    var i := LineOf(lines, n);
    assert LineOk(lines, i) && LinkOk(lines, i);
    assert LineOf(lines, n - 1) == i - 1;
  }

  /** Two verified logs that agree on the chain hash at position `n` hold identical entries from
      there down to the higher of their checkpoints, and down to the genesis when neither was
      compacted. */
  lemma {:induction false} ChainPins(a: seq<Entry>, b: seq<Entry>, n: int)
    requires LogShape(a) && LogShape(b) && Verified(a) && Verified(b)
    requires Max(CheckpointOf(a), CheckpointOf(b)) <= n <= HeadPos(a) && n <= HeadPos(b)
    requires Holds(a, n) && Holds(b, n) && At(a, n).hash == At(b, n).hash
    ensures forall k :: Max(CheckpointOf(a), CheckpointOf(b)) < k <= n ==>
                          Holds(a, k) && Holds(b, k) && At(a, k) == At(b, k)
    ensures var c := Max(CheckpointOf(a), CheckpointOf(b));
            Holds(a, c) && Holds(b, c) && At(a, c).hash == At(b, c).hash
    ensures CheckpointOf(a) == 0 && CheckpointOf(b) == 0 ==> a[0] == b[0]
    decreases n
  {
    var c := Max(CheckpointOf(a), CheckpointOf(b));
    assert LineOk(a, 0) && LineOk(b, 0) && LinkOk(a, 0) && LinkOk(b, 0);
    if n == c {
      if c == 0 {
        HashDeterminesEntry(a[0], b[0]);
      }
    } else {
      LinkDown(a, n);
      LinkDown(b, n);
      assert LineOk(a, LineOf(a, n)) && LineOk(b, LineOf(b, n));
      HashDeterminesEntry(At(a, n), At(b, n));
      ChainPins(a, b, n - 1);
    }
  }

  /** Hashes grow along the chain, so no two positions of one log share a hash. */
  lemma {:induction false} HashesGrow(lines: seq<Entry>, m: int, n: int)
    requires LogShape(lines) && Verified(lines)
    requires Holds(lines, m) && CheckpointOf(lines) <= m < n <= HeadPos(lines)
    ensures Holds(lines, n) && At(lines, m).hash < At(lines, n).hash
    decreases n
  {
    LinkDown(lines, n);
    var e := At(lines, n);
    assert e.hash == Digest(PayloadOf(e)) && PayloadOf(e).prev == e.prevHash;
    if m < n - 1 {
      HashesGrow(lines, m, n - 1);
    }
  }
}
