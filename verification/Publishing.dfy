/**
 * The Publisher: every state change is checked against gates and then committed by compare-and-swap.  The
 * two halves are separate steps, so other publishers come in between.
 */
module Publishing {
  import opened Basics

  datatype Transition =
    | Create | Support | Update | Contradict | Verify | Correct | Forget | Reject
    | Synthesize | TierTransition | EvidenceCompact | ConfirmRate

  /** Transitions that assert something about what is true. */
  predicate OnTruth(t: Transition) {
    t.Create? || t.Support? || t.Update? || t.Contradict? || t.Verify? || t.Correct? || t.Forget? || t.Reject?
  }

  datatype Status = Current | Rejected | Superseded

  datatype Belief = Belief(user: string, status: Status)

  /** `expected` is 0 when the proposal names no revision, `session` empty when it names none. */
  datatype Proposal = Proposal(
    id: string, key: string, transition: Transition, user: string, session: string,
    expected: int, evidence: seq<int>, target: Option<int>, revival: bool)

  datatype Preference = Preference(enabled: bool, revision: int)

  datatype LogRow = LogRow(id: string, key: string, user: string, expected: int, revisionAfter: int)

  /** The tables the Publisher reads and writes; `evidence` maps a row to its user and session. */
  datatype Store = Store(
    preferences: map<string, Preference>, beliefs: map<int, Belief>,
    evidence: map<int, (string, string)>, log: set<LogRow>)

  /** A missing preference row means enabled, at revision 1. */
  function PreferenceOf(db: Store, user: string): Preference {
    if user in db.preferences then db.preferences[user] else Preference(true, 1)
  }

  function RevisionOf(db: Store, user: string): int {
    PreferenceOf(db, user).revision
  }

  /** What a user's revision vouches for: the consent switch and the status of each of their beliefs. */
  datatype Truth = Truth(enabled: bool, beliefs: map<int, Status>)

  function TruthOf(db: Store, user: string): Truth {
    Truth(PreferenceOf(db, user).enabled,
          map b | b in db.beliefs && db.beliefs[b].user == user :: db.beliefs[b].status)
  }

  // ---------------------------------------------------------------------------------------------
  // Gates
  // ---------------------------------------------------------------------------------------------

  datatype Refusal =
    | MemoryDisabled | ExpectedRevisionRequired | StaleRevision
    | EvidenceMissing | EvidenceAuthorityMismatch | EvidenceSessionMismatch
    | TargetMissing | TargetScopeMismatch | ResurrectionGuard | TargetSuperseded
    | PlanRefused

  function RevisionGate(db: Store, p: Proposal): Option<Refusal> {
    var current := RevisionOf(db, p.user);
    if OnTruth(p.transition) then
      if p.expected == 0 then Some(ExpectedRevisionRequired)
      else if current != p.expected then Some(StaleRevision) else None
    else if p.expected != 0 && current != p.expected then Some(StaleRevision) else None
  }

  function EvidenceGate(db: Store, p: Proposal): Option<Refusal> {
    if exists i :: 0 <= i < |p.evidence| && p.evidence[i] !in db.evidence then Some(EvidenceMissing)
    else if exists i :: 0 <= i < |p.evidence| && db.evidence[p.evidence[i]].0 != p.user then
      Some(EvidenceAuthorityMismatch)
    else if p.session != "" && exists i :: 0 <= i < |p.evidence|
                                 && db.evidence[p.evidence[i]].1 != "" && db.evidence[p.evidence[i]].1 != p.session then
      Some(EvidenceSessionMismatch)
    else None
  }

  /** `planOk` stands for the checks of a tier move or a compaction that are recomputed from live rows. */
  function InvariantGate(db: Store, p: Proposal, planOk: bool): Option<Refusal> {
    if p.transition.Create? || p.transition.Synthesize? then None
    else if p.target.None? || p.target.value !in db.beliefs then Some(TargetMissing)
    else
      var target := db.beliefs[p.target.value];
      if target.user != p.user then Some(TargetScopeMismatch)
      else if p.transition.Forget? then None
      else if target.status.Rejected? then Some(ResurrectionGuard)
      else if p.transition.TierTransition? || p.transition.EvidenceCompact? then
        if planOk then None else Some(PlanRefused)
      else if target.status.Superseded? && !(p.transition.Update? && p.revival) then Some(TargetSuperseded)
      else None
  }

  /** `_check_gates`: the first gate that refuses. */
  function CheckGates(db: Store, p: Proposal, planOk: bool): Option<Refusal> {
    if !p.transition.Forget? && !PreferenceOf(db, p.user).enabled then Some(MemoryDisabled)
    else if RevisionGate(db, p).Some? then RevisionGate(db, p)
    else if EvidenceGate(db, p).Some? then EvidenceGate(db, p)
    else InvariantGate(db, p, planOk)
  }

  /** A user's truth admits a change to it: they consent, unless it is a forget, and the change's target, if
      it has one, is theirs and open, or about to be forgotten, or closed history being revived. */
  predicate Admissible(truth: Truth, p: Proposal) {
    && (p.transition.Forget? || truth.enabled)
    && (p.transition.Create? ||
        (p.target.Some? && p.target.value in truth.beliefs &&
         var status := truth.beliefs[p.target.value];
         p.transition.Forget? || status.Current? || (status.Superseded? && p.transition.Update? && p.revival)))
  }

  /** What passing the gates means for a change to the truth: it names the live revision, the user's truth
      admits it, and its evidence is the user's and from no other session. */
  lemma GatesPassIff(db: Store, p: Proposal, planOk: bool)
    requires OnTruth(p.transition)
    ensures CheckGates(db, p, planOk).None? <==>
              && p.expected != 0 && RevisionOf(db, p.user) == p.expected
              && Admissible(TruthOf(db, p.user), p)
              && (forall i :: 0 <= i < |p.evidence| ==>
                    && p.evidence[i] in db.evidence
                    && db.evidence[p.evidence[i]].0 == p.user
                    && (p.session == "" || db.evidence[p.evidence[i]].1 == ""
                        || db.evidence[p.evidence[i]].1 == p.session))
  {
  }

  // ---------------------------------------------------------------------------------------------
  // Commit
  // ---------------------------------------------------------------------------------------------

  /** What a handler does: it raises, or it rewrites beliefs and (a forget) takes log rows out. */
  datatype Effect = Raises | Writes(beliefs: map<int, Belief>, purged: set<string>)

  /** What is assumed of handlers: they touch only their user's beliefs, a storage-only transition changes no
      status, and only a forget removes log rows. */
  predicate HandlerOk(db: Store, p: Proposal, e: Effect) {
    e.Writes? ==>
      && (forall b :: b in db.beliefs && db.beliefs[b].user != p.user ==>
                        b in e.beliefs && e.beliefs[b] == db.beliefs[b])
      && (forall b :: b in e.beliefs && e.beliefs[b].user != p.user ==>
                        b in db.beliefs && db.beliefs[b] == e.beliefs[b])
      && (!OnTruth(p.transition) ==> e.beliefs == db.beliefs)
      && (!p.transition.Forget? ==> e.purged == {})
  }

  datatype Failure = CasLost | HandlerRaised | DuplicateId

  function Kept(log: set<LogRow>, purged: set<string>): set<LogRow> {
    set r | r in log && r.id !in purged
  }

  function RowOf(p: Proposal, revisionAfter: int): LogRow {
    LogRow(p.id, p.key, p.user, p.expected, revisionAfter)
  }

  /** `_commit` and `_record_commit` under their savepoint: all of it, or a failure and nothing. */
  function Commit(db: Store, p: Proposal, e: Effect): Result<Store, Failure> {
    var pref := PreferenceOf(db, p.user);
    if OnTruth(p.transition) && pref.revision != p.expected then Err(CasLost)
    else if e.Raises? then Err(HandlerRaised)
    else
      var log := Kept(db.log, e.purged);
      if exists r :: r in log && r.id == p.id then Err(DuplicateId)
      else
        var after := if OnTruth(p.transition) then pref.revision + 1 else pref.revision;
        Ok(db.(preferences := if OnTruth(p.transition) then db.preferences[p.user := pref.(revision := after)]
                              else db.preferences,
               beliefs := e.beliefs,
               log := log + {RowOf(p, after)}))
  }

  predicate Matches(r: LogRow, p: Proposal) {
    r.id == p.id || r.key == p.key
  }

  datatype Decision =
    | AlreadyCommitted(id: string, revisionAfter: int)
    | Refused(reason: Refusal)
    | Failed(failure: Failure)
    | Committed(revisionAfter: int)

  /** One `publish` with nobody in between. */
  predicate Publishes(db: Store, p: Proposal, planOk: bool, e: Effect, db': Store, d: Decision) {
    if exists r :: r in db.log && Matches(r, p) then
      db' == db && exists r :: r in db.log && Matches(r, p) && d == AlreadyCommitted(r.id, r.revisionAfter)
    else if CheckGates(db, p, planOk).Some? then
      db' == db && d == Refused(CheckGates(db, p, planOk).value)
    else if Commit(db, p, e).Err? then
      db' == db && d == Failed(Commit(db, p, e).error)
    else
      db' == Commit(db, p, e).value && d == Committed(RevisionOf(db', p.user))
  }

  /** The session of one publisher. */
  class Publisher {
    var db: Store

    constructor (start: Store)
      ensures db == start
    {
      db := start;
    }

    /** `publish`.  The writes go into the session one after the other; a failure restores the savepoint. */
    method Publish(p: Proposal, planOk: bool, e: Effect) returns (d: Decision)
      modifies this
      ensures Publishes(old(db), p, planOk, e, db, d)
    {
      if r :| r in db.log && Matches(r, p) {
        return AlreadyCommitted(r.id, r.revisionAfter);
      }
      var refusal := CheckGates(db, p, planOk);
      if refusal.Some? {
        return Refused(refusal.value);
      }
      hide CheckGates, Matches;
      var savepoint := db;
      var after := RevisionOf(db, p.user);
      if OnTruth(p.transition) {
        if after != p.expected {
          return Failed(CasLost);
        }
        after := after + 1;
        db := db.(preferences := db.preferences[p.user := PreferenceOf(db, p.user).(revision := after)]);
      }
      if e.Raises? {
        db := savepoint;
        return Failed(HandlerRaised);
      }
      db := db.(beliefs := e.beliefs, log := Kept(db.log, e.purged));
      if r :| r in db.log && r.id == p.id {
        db := savepoint;
        return Failed(DuplicateId);
      }
      db := db.(log := db.log + {RowOf(p, after)});
      return Committed(after);
    }
  }

  // ---------------------------------------------------------------------------------------------
  // Which changes are on the truth, and what the gates say
  // ---------------------------------------------------------------------------------------------

  /** Creating, supporting, updating, contradicting, verifying, correcting, forgetting and rejecting a belief must name
      a revision; the storage-only changes need not. */
  lemma TruthChangesNameARevision(db: Store, p: Proposal, planOk: bool)
    requires p.expected == 0 && (PreferenceOf(db, p.user).enabled || p.transition == Forget)
    ensures CheckGates(db, p, planOk) == Some(ExpectedRevisionRequired) <==>
              p.transition in {Create, Support, Update, Contradict, Verify, Correct, Forget, Reject}
  {
  }

  /** A publish that commits moves its user's revision by one for those eight, and not at all for the others; it moves
      nobody else's; and it puts one row on the log that says so. */
  lemma CommitMovesTheRevision(db: Store, p: Proposal, planOk: bool, e: Effect, db': Store, d: Decision)
    requires Publishes(db, p, planOk, e, db', d)
    ensures d.Committed? ==>
              var moves := p.transition in {Create, Support, Update, Contradict, Verify, Correct, Forget, Reject};
              && RevisionOf(db', p.user) == RevisionOf(db, p.user) + (if moves then 1 else 0)
              && d.revisionAfter == RevisionOf(db', p.user)
              && e.Writes? && db'.beliefs == e.beliefs && db'.evidence == db.evidence
              && LogRow(p.id, p.key, p.user, p.expected, d.revisionAfter) in db'.log
              && PreferenceOf(db', p.user).enabled == PreferenceOf(db, p.user).enabled
    ensures forall u :: u != p.user ==> PreferenceOf(db', u) == PreferenceOf(db, u)
    ensures !d.Committed? ==> db' == db
  {
    hide CheckGates, Matches;
  }

  predicate EvidenceFits(db: Store, p: Proposal) {
    forall i :: 0 <= i < |p.evidence| ==>
      && p.evidence[i] in db.evidence && db.evidence[p.evidence[i]].0 == p.user
      && (p.session == "" || db.evidence[p.evidence[i]].1 == "" || db.evidence[p.evidence[i]].1 == p.session)
  }

  /** A storage-only change passes the gates exactly when memory is on, the revision it names, if any, is live, its
      evidence fits, and its target, which only a synthesis does without, is the user's own, not rejected, and
      planned for or current. */
  lemma StorageGatesPassIff(db: Store, p: Proposal, planOk: bool)
    requires p.transition in {Synthesize, TierTransition, EvidenceCompact, ConfirmRate}
    ensures CheckGates(db, p, planOk).None? <==>
              && PreferenceOf(db, p.user).enabled
              && (p.expected == 0 || p.expected == RevisionOf(db, p.user))
              && EvidenceFits(db, p)
              && (p.transition != Synthesize ==>
                    && p.target.Some? && p.target.value in db.beliefs && db.beliefs[p.target.value].user == p.user
                    && db.beliefs[p.target.value].status != Rejected
                    && (if p.transition == ConfirmRate then db.beliefs[p.target.value].status == Current else planOk))
  {
  }

  /** A refusal gives a reason that holds. */
  lemma RefusalIsTrue(db: Store, p: Proposal, planOk: bool)
    requires CheckGates(db, p, planOk).Some?
    ensures match CheckGates(db, p, planOk).value {
              case MemoryDisabled => p.transition != Forget && !PreferenceOf(db, p.user).enabled
              case ExpectedRevisionRequired => p.expected == 0
              case StaleRevision => p.expected != 0 && p.expected != RevisionOf(db, p.user)
              case EvidenceMissing => exists i :: 0 <= i < |p.evidence| && p.evidence[i] !in db.evidence
              case EvidenceAuthorityMismatch =>
                exists i :: 0 <= i < |p.evidence| && p.evidence[i] in db.evidence
                            && db.evidence[p.evidence[i]].0 != p.user
              case EvidenceSessionMismatch =>
                p.session != "" && exists i :: 0 <= i < |p.evidence| && p.evidence[i] in db.evidence
                                               && db.evidence[p.evidence[i]].1 !in {"", p.session}
              case TargetMissing => p.target.None? || p.target.value !in db.beliefs
              case TargetScopeMismatch =>
                p.target.Some? && p.target.value in db.beliefs && db.beliefs[p.target.value].user != p.user
              case ResurrectionGuard =>
                p.target.Some? && p.target.value in db.beliefs && db.beliefs[p.target.value].status == Rejected
              case TargetSuperseded =>
                p.target.Some? && p.target.value in db.beliefs && db.beliefs[p.target.value].status == Superseded
              case PlanRefused => p.transition in {TierTransition, EvidenceCompact} && !planOk
            }
  {
  }

  // ---------------------------------------------------------------------------------------------
  // Concurrent publishers
  // ---------------------------------------------------------------------------------------------

  /** Where a publisher is; `truth` is what its user's truth was when its gates passed. */
  datatype Pc =
    | Idle
    | LogRead(p: Proposal)                  // no row matched
    | Gated(p: Proposal, truth: Truth)
    | Done(d: Decision)

  /** A truth transition that committed, and the truth it was applied to. */
  datatype Landed = Landed(p: Proposal, on: Truth)

  datatype World = World(db: Store, pubs: map<nat, Pc>, landed: seq<Landed>, vouched: map<(string, int), Truth>)

  datatype Act =
    | ReadLog(p: Proposal)
    | Gate(planOk: bool)
    | Land(e: Effect)
    | Leave
    | Outside(user: string, beliefs: map<int, Belief>, enabled: bool, log: set<LogRow>)  // any other writer
    | Collect(evidence: map<int, (string, string)>)                                      // rows without a revision

  predicate Enabled(w: World, t: nat, a: Act) {
    t in w.pubs &&
    var pc := w.pubs[t];
    match a
    case ReadLog(_) => pc.Idle?
    case Gate(_) => pc.LogRead?
    case Land(e) => pc.Gated? && HandlerOk(w.db, pc.p, e)
    case Leave => pc.Done?
    case Outside(u, beliefs, _, log) =>
      && (forall b :: b in w.db.beliefs && w.db.beliefs[b].user != u ==> b in beliefs && beliefs[b] == w.db.beliefs[b])
      && (forall b :: b in beliefs && beliefs[b].user != u ==> b in w.db.beliefs && w.db.beliefs[b] == beliefs[b])
      && log <= w.db.log
    case Collect(_) => true
  }

  function Goto(w: World, t: nat, pc: Pc): World {
    w.(pubs := w.pubs[t := pc])
  }

  predicate Enters(w: World, t: nat, p: Proposal, w': World) {
    if exists r :: r in w.db.log && Matches(r, p) then
      exists r :: r in w.db.log && Matches(r, p) && w' == Goto(w, t, Done(AlreadyCommitted(r.id, r.revisionAfter)))
    else w' == Goto(w, t, LogRead(p))
  }

  function AfterGate(w: World, t: nat, p: Proposal, planOk: bool): World {
    match CheckGates(w.db, p, planOk)
    case Some(r) => Goto(w, t, Done(Refused(r)))
    case None =>
      var truth := TruthOf(w.db, p.user);
      Goto(w, t, Gated(p, truth)).(vouched := w.vouched[(p.user, RevisionOf(w.db, p.user)) := truth])
  }

  function AfterLand(w: World, t: nat, p: Proposal, e: Effect): World {
    match Commit(w.db, p, e)
    case Err(f) => Goto(w, t, Done(Failed(f)))
    case Ok(db) =>
      Goto(w, t, Done(Committed(RevisionOf(db, p.user))))
      .(db := db, landed := if OnTruth(p.transition) then w.landed + [Landed(p, TruthOf(w.db, p.user))] else w.landed)
  }

  /** Any other writer of a user's beliefs or consent bumps the user's revision along with it. */
  function AfterOutside(db: Store, u: string, beliefs: map<int, Belief>, enabled: bool, log: set<LogRow>): Store {
    db.(preferences := db.preferences[u := Preference(enabled, RevisionOf(db, u) + 1)], beliefs := beliefs, log := log)
  }

  predicate Next(w: World, t: nat, a: Act, w': World)
    requires Enabled(w, t, a)
  {
    match a
    case ReadLog(p) => Enters(w, t, p, w')
    case Gate(planOk) => w' == AfterGate(w, t, w.pubs[t].p, planOk)
    case Land(e) => w' == AfterLand(w, t, w.pubs[t].p, e)
    case Leave => w' == Goto(w, t, Idle)
    case Outside(u, beliefs, enabled, log) => w' == w.(db := AfterOutside(w.db, u, beliefs, enabled, log))
    case Collect(evidence) => w' == w.(db := w.db.(evidence := evidence))
  }

  // ---------------------------------------------------------------------------------------------
  // The invariant
  // ---------------------------------------------------------------------------------------------

  predicate IdsDistinct(log: set<LogRow>) {
    forall q, r :: q in log && r in log && q.id == r.id ==> q == r
  }

  predicate KeysDistinct(log: set<LogRow>) {
    forall q, r :: q in log && r in log && q.key == r.key ==> q == r
  }

  /** A revision vouches for one truth: the current one, if it is the current revision. */
  ghost predicate RevisionVouches(w: World) {
    forall u, n :: (u, n) in w.vouched ==>
      && n <= RevisionOf(w.db, u)
      && (n == RevisionOf(w.db, u) ==> w.vouched[(u, n)] == TruthOf(w.db, u))
  }

  /** What a gated publisher holds in its hands. */
  predicate GatedOk(w: World, pc: Pc) {
    pc.Gated? && OnTruth(pc.p.transition) ==>
      && (pc.p.user, pc.p.expected) in w.vouched && w.vouched[(pc.p.user, pc.p.expected)] == pc.truth
      && Admissible(pc.truth, pc.p)
  }

  predicate GatesHeld(w: World) {
    forall t :: t in w.pubs ==> GatedOk(w, w.pubs[t])
  }

  /** No two commits to a user's truth name the same revision, and the live one is past them all. */
  predicate OnePerRevision(w: World) {
    && (forall i :: 0 <= i < |w.landed| ==> w.landed[i].p.expected < RevisionOf(w.db, w.landed[i].p.user))
    && (forall i, j :: 0 <= i < j < |w.landed| && w.landed[i].p.user == w.landed[j].p.user ==>
                         w.landed[i].p.expected < w.landed[j].p.expected)
  }

  ghost predicate Inv(w: World) {
    RevisionVouches(w) && GatesHeld(w) && OnePerRevision(w) && IdsDistinct(w.db.log)
  }

  predicate Init(w: World) {
    && (forall t :: t in w.pubs ==> w.pubs[t].Idle?) && w.landed == [] && w.vouched == map[]
    && IdsDistinct(w.db.log)
  }

  /** What a store change does to every user's revision and truth: a revision never falls, and the truth
      stays as long as it does not rise. */
  ghost predicate Advances(db: Store, db': Store) {
    forall u: string ::
      && RevisionOf(db, u) <= RevisionOf(db', u)
      && (RevisionOf(db, u) == RevisionOf(db', u) ==> TruthOf(db, u) == TruthOf(db', u))
  }

  lemma SameTruth(db: Store, db': Store, u: string)
    requires PreferenceOf(db, u).enabled == PreferenceOf(db', u).enabled
    requires forall b :: b in db.beliefs && db.beliefs[b].user == u ==>
                           b in db'.beliefs && db'.beliefs[b] == db.beliefs[b]
    requires forall b :: b in db'.beliefs && db'.beliefs[b].user == u ==>
                           b in db.beliefs && db.beliefs[b] == db'.beliefs[b]
    ensures TruthOf(db, u) == TruthOf(db', u)
  {
    var m, m' := TruthOf(db, u).beliefs, TruthOf(db', u).beliefs;
    assert forall b :: b in m <==> b in m';
    forall b | b in m ensures m[b] == m'[b] {
      assert b in db.beliefs && db.beliefs[b].user == u;
    }
    assert m == m';
  }

  lemma CommitAdvances(db: Store, p: Proposal, e: Effect)
    requires HandlerOk(db, p, e) && Commit(db, p, e).Ok?
    ensures Advances(db, Commit(db, p, e).value)
  {
    var db' := Commit(db, p, e).value;
    forall u: string
      ensures RevisionOf(db, u) <= RevisionOf(db', u)
      ensures RevisionOf(db, u) == RevisionOf(db', u) ==> TruthOf(db, u) == TruthOf(db', u)
    {
      if u != p.user || !OnTruth(p.transition) {
        hide TruthOf, Kept, RowOf;
        SameTruth(db, db', u);
      }
    }
  }

  lemma OutsideAdvances(db: Store, u: string, beliefs: map<int, Belief>, enabled: bool, log: set<LogRow>)
    requires forall b :: b in db.beliefs && db.beliefs[b].user != u ==> b in beliefs && beliefs[b] == db.beliefs[b]
    requires forall b :: b in beliefs && beliefs[b].user != u ==> b in db.beliefs && db.beliefs[b] == beliefs[b]
    ensures Advances(db, AfterOutside(db, u, beliefs, enabled, log))
  {
    var db' := AfterOutside(db, u, beliefs, enabled, log);
    forall v: string
      ensures RevisionOf(db, v) <= RevisionOf(db', v)
      ensures RevisionOf(db, v) == RevisionOf(db', v) ==> TruthOf(db, v) == TruthOf(db', v)
    {
      if u != v {
        hide TruthOf;
        SameTruth(db, db', v);
      }
    }
  }

  lemma CollectAdvances(db: Store, evidence: map<int, (string, string)>)
    ensures Advances(db, db.(evidence := evidence))
  {
  }

  /** A store that only advances keeps the invariant, whatever else stays as it was. */
  lemma AdvanceKeepsInv(w: World, db': Store)
    requires Inv(w) && Advances(w.db, db') && IdsDistinct(db'.log)
    ensures Inv(w.(db := db'))
  {
  }

  lemma MoveKeepsInv(w: World, t: nat, pc: Pc)
    requires Inv(w) && t in w.pubs && GatedOk(w, pc)
    ensures Inv(Goto(w, t, pc))
  {
  }

  lemma GateKeepsInv(w: World, t: nat, p: Proposal, planOk: bool)
    requires Inv(w) && t in w.pubs
    ensures Inv(AfterGate(w, t, p, planOk))
  {
    hide TruthOf, IdsDistinct, CheckGates, RevisionOf, Admissible;
    if CheckGates(w.db, p, planOk).Some? {
      MoveKeepsInv(w, t, Done(Refused(CheckGates(w.db, p, planOk).value)));
    } else {
      if OnTruth(p.transition) {
        GatesPassIff(w.db, p, planOk);
      }
      VouchKeepsInv(w, p.user);
      var truth := TruthOf(w.db, p.user);
      var w1 := w.(vouched := w.vouched[(p.user, RevisionOf(w.db, p.user)) := truth]);
      MoveKeepsInv(w1, t, Gated(p, truth));
    }
  }

  lemma VouchKeepsInv(w: World, u: string)
    requires Inv(w)
    ensures Inv(w.(vouched := w.vouched[(u, RevisionOf(w.db, u)) := TruthOf(w.db, u)]))
  {
  }

  /** A commit to the truth finds the revision it names and advances it by one. */
  lemma CommitAtRevision(db: Store, p: Proposal, e: Effect)
    requires Commit(db, p, e).Ok? && IdsDistinct(db.log)
    ensures var db' := Commit(db, p, e).value;
            && IdsDistinct(db'.log) && (OnTruth(p.transition) ==> RevisionOf(db, p.user) == p.expected)
            && RevisionOf(db', p.user) == RevisionOf(db, p.user) + (if OnTruth(p.transition) then 1 else 0)
            && (forall u :: u != p.user ==> RevisionOf(db', u) == RevisionOf(db, u))
  {
  }

  lemma LandKeepsInv(w: World, t: nat, p: Proposal, e: Effect)
    requires Inv(w) && t in w.pubs && HandlerOk(w.db, p, e)
    ensures Inv(AfterLand(w, t, p, e))
  {
    hide RevisionOf, TruthOf, IdsDistinct, Commit, HandlerOk;
    match Commit(w.db, p, e)
    case Err(f) => MoveKeepsInv(w, t, Done(Failed(f)));
    case Ok(db) =>
      CommitAdvances(w.db, p, e);
      CommitAtRevision(w.db, p, e);
      AdvanceKeepsInv(w, db);
      var d := Done(Committed(RevisionOf(db, p.user)));
      MoveKeepsInv(w.(db := db), t, d);
      if OnTruth(p.transition) {
        LandedKeepsOrder(w, db, p, TruthOf(w.db, p.user));
      }
  }

  lemma LandedKeepsOrder(w: World, db: Store, p: Proposal, on: Truth)
    requires OnePerRevision(w) && Advances(w.db, db)
    requires p.expected == RevisionOf(w.db, p.user) < RevisionOf(db, p.user)
    ensures OnePerRevision(w.(db := db, landed := w.landed + [Landed(p, on)]))
  {
  }

  lemma StepKeepsInv(w: World, t: nat, a: Act, w': World)
    requires Inv(w) && Enabled(w, t, a) && Next(w, t, a, w')
    ensures Inv(w')
  {
    hide Inv, AfterGate, AfterLand, Goto, AfterOutside, Advances, HandlerOk;
    match a
    case ReadLog(p) =>
      EnterKeepsInv(w, t, p, w');
    case Gate(planOk) => GateKeepsInv(w, t, w.pubs[t].p, planOk);
    case Land(e) => LandKeepsInv(w, t, w.pubs[t].p, e);
    case Leave => MoveKeepsInv(w, t, Idle);
    case Outside(u, beliefs, enabled, log) =>
      OutsideAdvances(w.db, u, beliefs, enabled, log);
      FewerRows(w, u, beliefs, enabled, log);
      AdvanceKeepsInv(w, AfterOutside(w.db, u, beliefs, enabled, log));
    case Collect(evidence) =>
      CollectAdvances(w.db, evidence);
      FewerRows(w, "", w.db.beliefs, true, w.db.log);
      AdvanceKeepsInv(w, w.db.(evidence := evidence));
  }

  lemma FewerRows(w: World, u: string, beliefs: map<int, Belief>, enabled: bool, log: set<LogRow>)
    requires Inv(w) && log <= w.db.log
    ensures IdsDistinct(log) && IdsDistinct(AfterOutside(w.db, u, beliefs, enabled, log).log)
  {
  }

  lemma EnterKeepsInv(w: World, t: nat, p: Proposal, w': World)
    requires Inv(w) && t in w.pubs && Enters(w, t, p, w')
    ensures Inv(w')
  {
  }

  /** The three steps with nobody in between are one publish. */
  lemma StepsAreOnePublish(w: World, t: nat, p: Proposal, planOk: bool, e: Effect, w1: World)
    requires t in w.pubs && w.pubs[t].Idle? && HandlerOk(w.db, p, e) && Next(w, t, ReadLog(p), w1)
    ensures t in w1.pubs && w1.db == w.db
    ensures w1.pubs[t].Done? ==> Publishes(w.db, p, planOk, e, w1.db, w1.pubs[t].d)
    ensures !w1.pubs[t].Done? ==>
              && Enabled(w1, t, Gate(planOk)) && w1.pubs[t] == LogRead(p)
              && var w2 := AfterGate(w1, t, p, planOk);
                 && Next(w1, t, Gate(planOk), w2) && t in w2.pubs && w2.db == w.db
                 && (w2.pubs[t].Done? ==> Publishes(w.db, p, planOk, e, w2.db, w2.pubs[t].d))
                 && (!w2.pubs[t].Done? ==>
                       && Enabled(w2, t, Land(e)) && w2.pubs[t].Gated? && w2.pubs[t].p == p
                       && var w3 := AfterLand(w2, t, p, e);
                          && Next(w2, t, Land(e), w3) && t in w3.pubs && w3.pubs[t].Done?
                          && Publishes(w.db, p, planOk, e, w3.db, w3.pubs[t].d))
  {
    hide CheckGates, Commit, Matches, TruthOf, HandlerOk, RevisionOf;
  }

  // ---------------------------------------------------------------------------------------------
  // Over all interleavings
  // ---------------------------------------------------------------------------------------------

  predicate IsRun(run: seq<World>, who: seq<nat>, acts: seq<Act>) {
    && |run| == |acts| + 1 && |who| == |acts| && Init(run[0])
    && forall i :: 0 <= i < |acts| ==> Enabled(run[i], who[i], acts[i]) && Next(run[i], who[i], acts[i], run[i + 1])
  }

  lemma {:induction false} RunHasInv(run: seq<World>, who: seq<nat>, acts: seq<Act>, n: nat)
    requires IsRun(run, who, acts) && n <= |acts|
    ensures Inv(run[n])
  {
    if n == 0 {
      assert forall t :: t in run[0].pubs ==> GatedOk(run[0], run[0].pubs[t]);
    } else {
      RunHasInv(run, who, acts, n - 1);
      StepKeepsInv(run[n - 1], who[n - 1], acts[n - 1], run[n]);
    }
  }

  /** In every interleaving no two commits to one user's truth name the same revision, they land in revision
      order, and the log never holds two rows of one proposal. */
  lemma NoTwoCommitsShareARevision(run: seq<World>, who: seq<nat>, acts: seq<Act>, n: nat)
    requires IsRun(run, who, acts) && n <= |acts|
    ensures var w := run[n];
            && (forall i, j :: 0 <= i < j < |w.landed| && w.landed[i].p.user == w.landed[j].p.user ==>
                                 w.landed[i].p.expected < w.landed[j].p.expected)
            && (forall i :: 0 <= i < |w.landed| ==> w.landed[i].p.expected < RevisionOf(w.db, w.landed[i].p.user))
            && IdsDistinct(w.db.log)
  {
    hide RevisionOf, IdsDistinct, IsRun;
    RunHasInv(run, who, acts, n);
  }

  /** What a commit attempt comes to: nothing, or the whole change with its log row, on the truth the gates saw. */
  predicate CommitOutcome(before: Store, after: Store, p: Proposal, e: Effect, seen: Truth, d: Decision) {
    match Commit(before, p, e)
    case Err(f) => after == before && d == Failed(f)
    case Ok(db) =>
      && after == db && d == Committed(RevisionOf(db, p.user)) && e.Writes? && after.beliefs == e.beliefs
      && (OnTruth(p.transition) ==>
            && seen == TruthOf(before, p.user) && Admissible(TruthOf(before, p.user), p)
            && RevisionOf(before, p.user) == p.expected && RevisionOf(after, p.user) == p.expected + 1)
      && (!OnTruth(p.transition) ==> RevisionOf(after, p.user) == RevisionOf(before, p.user))
      && (forall r :: r in before.log && r.id == p.id ==> r.id in e.purged)
      && after.log == Kept(before.log, e.purged) + {RowOf(p, RevisionOf(after, p.user))}
  }

  /** A proposal to the truth that commits, whoever came in between, commits on the very truth its gates saw, so
      that truth still admits it; it moves its user's revision by exactly one.  An attempt that does not
      commit leaves the whole store as it was. */
  lemma CommitsOnWhatTheGatesSaw(run: seq<World>, who: seq<nat>, acts: seq<Act>, n: nat, p: Proposal,
        seen: Truth, d: Decision)
    requires IsRun(run, who, acts) && n < |acts| && acts[n].Land?
    requires who[n] in run[n].pubs && run[n].pubs[who[n]] == Gated(p, seen)
    requires who[n] in run[n + 1].pubs && run[n + 1].pubs[who[n]] == Done(d)
    ensures CommitOutcome(run[n].db, run[n + 1].db, p, acts[n].e, seen, d)
  {
    hide CommitOutcome, Inv, HandlerOk, AfterLand;
    RunHasInv(run, who, acts, n);
    assert Enabled(run[n], who[n], acts[n]) && Next(run[n], who[n], acts[n], run[n + 1]);
    LandOutcome(run[n], who[n], p, acts[n].e, seen, d);
  }

  lemma LandOutcome(w: World, t: nat, p: Proposal, e: Effect, seen: Truth, d: Decision)
    requires Inv(w) && t in w.pubs && w.pubs[t] == Gated(p, seen) && HandlerOk(w.db, p, e)
    requires AfterLand(w, t, p, e).pubs[t] == Done(d)
    ensures CommitOutcome(w.db, AfterLand(w, t, p, e).db, p, e, seen, d)
  {
  }

  // ---------------------------------------------------------------------------------------------
  // Idempotency keys
  // ---------------------------------------------------------------------------------------------

  /** One publish call and its answer. */
  datatype Call = Call(p: Proposal, planOk: bool, e: Effect, d: Decision)

  /** Publishers that come one after the other; `dbs[i]` is what the call `i` finds. */
  predicate InTurn(dbs: seq<Store>, calls: seq<Call>) {
    && |dbs| == |calls| + 1
    && forall i :: 0 <= i < |calls| ==>
                     Publishes(dbs[i], calls[i].p, calls[i].planOk, calls[i].e, dbs[i + 1], calls[i].d)
  }

  lemma PublishKeepsKeys(db: Store, p: Proposal, planOk: bool, e: Effect, db': Store, d: Decision)
    requires Publishes(db, p, planOk, e, db', d) && IdsDistinct(db.log) && KeysDistinct(db.log)
    ensures IdsDistinct(db'.log) && KeysDistinct(db'.log)
    ensures !d.Committed? ==> db' == db
    ensures d.Committed? ==> (forall r :: r in db.log ==> !Matches(r, p)) && e.Writes?
                             && db'.log == Kept(db.log, e.purged) + {RowOf(p, d.revisionAfter)}
  {
  }

  /** Publishers that come one after the other never leave two rows of one id, nor two of one key. */
  lemma {:induction false} SequentialKeysAreUnique(dbs: seq<Store>, calls: seq<Call>, n: nat)
    requires InTurn(dbs, calls) && n <= |calls| && IdsDistinct(dbs[0].log) && KeysDistinct(dbs[0].log)
    ensures IdsDistinct(dbs[n].log) && KeysDistinct(dbs[n].log)
  {
    hide Publishes, IdsDistinct, KeysDistinct;
    if n > 0 {
      SequentialKeysAreUnique(dbs, calls, n - 1);
      var c := calls[n - 1];
      PublishKeepsKeys(dbs[n - 1], c.p, c.planOk, c.e, dbs[n], c.d);
    }
  }

  /** The row of a commit stays until a later commit takes it out. */
  lemma {:induction false} RowStays(dbs: seq<Store>, calls: seq<Call>, i: nat, n: nat)
    requires InTurn(dbs, calls) && IdsDistinct(dbs[0].log) && KeysDistinct(dbs[0].log)
    requires i < n <= |calls| && calls[i].d.Committed?
    requires forall m :: i < m < n && calls[m].d.Committed? && calls[m].e.Writes? ==>
                           calls[i].p.id !in calls[m].e.purged
    ensures RowOf(calls[i].p, calls[i].d.revisionAfter) in dbs[n].log
  {
    hide Publishes, IdsDistinct, KeysDistinct, Matches;
    SequentialKeysAreUnique(dbs, calls, n - 1);
    var c := calls[n - 1];
    PublishKeepsKeys(dbs[n - 1], c.p, c.planOk, c.e, dbs[n], c.d);
    if i < n - 1 {
      RowStays(dbs, calls, i, n - 1);
    }
  }

  /** One after the other, a retry of a committed key, or of a committed proposal, commits again only if a forget in
      between took the first row out of the log; otherwise it is answered with a row of its key or id. */
  lemma RetryCommitsNothing(dbs: seq<Store>, calls: seq<Call>, i: nat, j: nat)
    requires InTurn(dbs, calls) && IdsDistinct(dbs[0].log) && KeysDistinct(dbs[0].log)
    requires i < j < |calls| && calls[i].d.Committed?
    requires calls[i].p.key == calls[j].p.key || calls[i].p.id == calls[j].p.id
    requires forall m :: i < m < j && calls[m].d.Committed? && calls[m].e.Writes? ==>
                           calls[i].p.id !in calls[m].e.purged
    ensures calls[j].d.AlreadyCommitted? && dbs[j + 1] == dbs[j]
    ensures exists r :: r in dbs[j].log && (r.id == calls[j].p.id || r.key == calls[j].p.key)
                        && calls[j].d.id == r.id && calls[j].d.revisionAfter == r.revisionAfter
  {
    hide CheckGates, Commit, IdsDistinct, KeysDistinct;
    RowStays(dbs, calls, i, j);
    assert Matches(RowOf(calls[i].p, calls[i].d.revisionAfter), calls[j].p);
    assert Publishes(dbs[j], calls[j].p, calls[j].planOk, calls[j].e, dbs[j + 1], calls[j].d);
  }

  /** Two publishers of one key whose gates passed on the same store: the second commit goes through and leaves
      two rows of the key exactly unless both change the truth of one user, where the compare-and-swap stops
      it, or the second takes the first one's row out of the log. */
  lemma ConcurrentKeysCollideIff(db: Store, p: Proposal, q: Proposal, okP: bool, okQ: bool, e: Effect, f: Effect)
    requires p.key == q.key && p.id != q.id && KeysDistinct(db.log)
    requires forall r :: r in db.log ==> !Matches(r, p) && !Matches(r, q)
    requires CheckGates(db, p, okP).None? && CheckGates(db, q, okQ).None?
    requires Commit(db, p, e).Ok? && f.Writes?
    ensures var second := Commit(Commit(db, p, e).value, q, f);
            && (second.Ok? <==> !(OnTruth(p.transition) && OnTruth(q.transition) && p.user == q.user))
            && (second.Ok? ==> (KeysDistinct(second.value.log) <==> p.id in f.purged))
  {
    hide CheckGates, Matches;
    GatedAtRevision(db, q, okQ);
    var db1 := Commit(db, p, e).value;
    var second := Commit(db1, q, f);
    NoMatch(db.log, p, q);
    if second.Ok? {
      var a := RowOf(p, RevisionOf(db1, p.user));
      var b := RowOf(q, RevisionOf(second.value, q.user));
      assert a in db1.log && b in second.value.log;
      assert p.id !in f.purged ==> a in second.value.log;
    }
  }

  lemma NoMatch(log: set<LogRow>, p: Proposal, q: Proposal)
    requires forall r :: r in log ==> !Matches(r, p) && !Matches(r, q)
    ensures forall r :: r in log ==> r.id != p.id && r.key != p.key && r.id != q.id && r.key != q.key
  {
  }

  lemma GatedAtRevision(db: Store, p: Proposal, planOk: bool)
    requires CheckGates(db, p, planOk).None?
    ensures OnTruth(p.transition) ==> RevisionOf(db, p.user) == p.expected
  {
    hide EvidenceGate, InvariantGate;
  }

  /** In every run a publisher on its way read the log at some step and found no row of its id or key. */
  lemma {:induction false} ReadSomewhere(run: seq<World>, who: seq<nat>, acts: seq<Act>, n: nat, t: nat, p: Proposal)
    requires IsRun(run, who, acts) && n <= |acts| && t in run[n].pubs
    requires run[n].pubs[t] == LogRead(p) || (run[n].pubs[t].Gated? && run[n].pubs[t].p == p)
    ensures exists j: nat :: ReadsAt(run, who, acts, j, t, p) && j < n
  {
    assert n > 0;
    var m := n - 1;
    assert Enabled(run[m], who[m], acts[m]) && Next(run[m], who[m], acts[m], run[n]);
    if who[m] == t && acts[m] == ReadLog(p) {
      assert ReadsAt(run, who, acts, m, t, p);
    } else {
      StaysRead(run[m], who[m], acts[m], run[n], t, p);
      ReadSomewhere(run, who, acts, m, t, p);
    }
  }

  /** Step `j` is publisher `t` reading the log for `p` and finding nothing. */
  predicate ReadsAt(run: seq<World>, who: seq<nat>, acts: seq<Act>, j: nat, t: nat, p: Proposal) {
    && j < |acts| && j < |who| && j < |run| && who[j] == t && acts[j] == ReadLog(p)
    && forall r :: r in run[j].db.log ==> !Matches(r, p)
  }

  lemma StaysRead(w: World, t: nat, a: Act, w': World, u: nat, p: Proposal)
    requires Enabled(w, t, a) && Next(w, t, a, w') && u in w'.pubs
    requires w'.pubs[u] == LogRead(p) || (w'.pubs[u].Gated? && w'.pubs[u].p == p)
    requires !(t == u && a == ReadLog(p))
    ensures u in w.pubs && (w.pubs[u] == LogRead(p) || (w.pubs[u].Gated? && w.pubs[u].p == p))
  {
    hide CheckGates, Commit, Matches, TruthOf, HandlerOk;
  }

  /** In every run, if a commit leaves two rows of its key, the other row was not in the log yet when this
      publisher read it: only publishers that overlap collide. */
  lemma CollidesOnlyWhenConcurrent(run: seq<World>, who: seq<nat>, acts: seq<Act>, n: nat,
                                   p: Proposal, seen: Truth, r: LogRow)
    requires IsRun(run, who, acts) && n < |acts| && acts[n].Land?
    requires who[n] in run[n].pubs && run[n].pubs[who[n]] == Gated(p, seen)
    requires r in run[n].db.log && r.key == p.key
    ensures exists j: nat :: j < n && ReadsAt(run, who, acts, j, who[n], p) && r !in run[j].db.log
  {
    ReadSomewhere(run, who, acts, n, who[n], p);
    var j: nat :| ReadsAt(run, who, acts, j, who[n], p) && j < n;
    assert Matches(r, p);
  }

  /** Step `i` is a commit of `p`. */
  predicate CommitsAt(run: seq<World>, who: seq<nat>, acts: seq<Act>, i: nat, p: Proposal) {
    && i < |acts| && i < |who| && i < |run| && acts[i].Land? && who[i] in run[i].pubs
    && run[i].pubs[who[i]].Gated? && run[i].pubs[who[i]].p == p && Commit(run[i].db, p, acts[i].e).Ok?
  }

  /** A row new to the log is that of a commit. */
  lemma NewRowIsACommit(w: World, t: nat, a: Act, w': World, r: LogRow)
    requires Enabled(w, t, a) && Next(w, t, a, w') && r !in w.db.log && r in w'.db.log
    ensures a.Land? && w.pubs[t].Gated? && Commit(w.db, w.pubs[t].p, a.e).Ok?
    ensures r.key == w.pubs[t].p.key && r.id == w.pubs[t].p.id
    ensures r == RowOf(w.pubs[t].p, RevisionOf(w'.db, w.pubs[t].p.user))
  {
    hide CheckGates, TruthOf, HandlerOk, Matches;
  }

  lemma {:induction false} CommittedBetween(run: seq<World>, who: seq<nat>, acts: seq<Act>, j: nat, n: nat, r: LogRow)
    requires IsRun(run, who, acts) && j <= n <= |acts| && r !in run[j].db.log && r in run[n].db.log
    ensures exists i, q :: j <= i < n && CommitsAt(run, who, acts, i, q) && q.key == r.key && q.id == r.id
  {
    hide Enabled, Next, Commit, Init;
    var m := n - 1;
    if r in run[m].db.log {
      CommittedBetween(run, who, acts, j, m, r);
    } else {
      NewRowIsACommit(run[m], who[m], acts[m], run[n], r);
      PubIsThere(run[m], who[m], acts[m]);
      assert CommitsAt(run, who, acts, m, run[m].pubs[who[m]].p);
    }
  }

  lemma PubIsThere(w: World, t: nat, a: Act)
    requires Enabled(w, t, a)
    ensures t in w.pubs
  {
  }

  /** In every run, of a commit whose publisher found no row of its key when it read the log at `j`: it finds one when
      it commits at `n` exactly when another proposal of the key committed in between and its row is still there. */
  lemma FindsAnotherIff(run: seq<World>, who: seq<nat>, acts: seq<Act>, j: nat, n: nat, p: Proposal)
    requires IsRun(run, who, acts) && CommitsAt(run, who, acts, n, p) && j < n && ReadsAt(run, who, acts, j, who[n], p)
    ensures (exists r :: r in run[n].db.log && r.key == p.key)
       <==> exists i, q :: j < i < n && CommitsAt(run, who, acts, i, q) && q.key == p.key
                           && exists r :: r in run[n].db.log && r.key == q.key && r.id == q.id
  {
    hide Enabled, Next, Commit, Init;
    if r :| r in run[n].db.log && r.key == p.key {
      assert r !in run[j].db.log by { assert r in run[j].db.log ==> !Matches(r, p); }
      CommittedBetween(run, who, acts, j, n, r);
      var i, q :| j <= i < n && CommitsAt(run, who, acts, i, q) && q.key == r.key && q.id == r.id;
      assert i != j;
    }
  }

  lemma {:induction false} RevisionRises(run: seq<World>, who: seq<nat>, acts: seq<Act>, i: nat, j: nat, u: string)
    requires IsRun(run, who, acts) && i <= j <= |acts|
    ensures RevisionOf(run[i].db, u) <= RevisionOf(run[j].db, u)
  {
    hide Enabled, Next, RevisionOf, Init;
    if i < j {
      RevisionRises(run, who, acts, i, j - 1, u);
      StepRaises(run[j - 1], who[j - 1], acts[j - 1], run[j], u);
    }
  }

  lemma StepRaises(w: World, t: nat, a: Act, w': World, u: string)
    requires Enabled(w, t, a) && Next(w, t, a, w')
    ensures RevisionOf(w.db, u) <= RevisionOf(w'.db, u)
  {
    hide CheckGates, TruthOf, HandlerOk, Matches, Kept;
  }

  lemma CommitNamesLive(run: seq<World>, who: seq<nat>, acts: seq<Act>, i: nat, p: Proposal)
    requires IsRun(run, who, acts) && CommitsAt(run, who, acts, i, p) && OnTruth(p.transition)
    ensures p.expected == RevisionOf(run[i].db, p.user) && RevisionOf(run[i + 1].db, p.user) == p.expected + 1
  {
    hide HandlerOk, TruthOf, Kept, CheckGates;
    assert Enabled(run[i], who[i], acts[i]) && Next(run[i], who[i], acts[i], run[i + 1]);
  }

  /** In every run, of two changes to one user's truth the later commit names the later revision, and each at least
      the one that was live at any moment before it. */
  lemma LaterCommitNamesLater(run: seq<World>, who: seq<nat>, acts: seq<Act>, j: nat, i: nat, n: nat,
                              p: Proposal, q: Proposal)
    requires IsRun(run, who, acts) && CommitsAt(run, who, acts, i, p) && CommitsAt(run, who, acts, n, q) && j <= i < n
    requires OnTruth(p.transition) && OnTruth(q.transition) && p.user == q.user
    ensures RevisionOf(run[j].db, p.user) <= p.expected < q.expected
  {
    hide CommitsAt, RevisionOf;
    CommitNamesLive(run, who, acts, i, p);
    CommitNamesLive(run, who, acts, n, q);
    CommitInside(run, who, acts, n, q);
    RevisionRises(run, who, acts, j, i, p.user);
    RevisionRises(run, who, acts, i + 1, n, p.user);
  }

  lemma CommitInside(run: seq<World>, who: seq<nat>, acts: seq<Act>, n: nat, q: Proposal)
    requires CommitsAt(run, who, acts, n, q)
    ensures n < |acts|
  {
  }

  /** A change to the truth that names no revision above the one that was live when its publisher read the log
      never commits beside another change of its user and key. */
  lemma NamedLiveIsAlone(run: seq<World>, who: seq<nat>, acts: seq<Act>, j: nat, i: nat, n: nat,
                         p: Proposal, q: Proposal)
    requires IsRun(run, who, acts) && CommitsAt(run, who, acts, n, q) && ReadsAt(run, who, acts, j, who[n], q)
    requires j <= i < n
    requires OnTruth(q.transition) && q.expected <= RevisionOf(run[j].db, q.user)
    requires CommitsAt(run, who, acts, i, p)
    ensures !(OnTruth(p.transition) && p.user == q.user)
  {
    hide IsRun, CommitsAt, RevisionOf;
    if OnTruth(p.transition) && p.user == q.user {
      LaterCommitNamesLater(run, who, acts, j, i, n, p, q);
    }
  }

  /** Some run from the store makes these steps and ends in this world. */
  ghost predicate Reaches(db: Store, acts: seq<Act>, w: World) {
    exists run: seq<World>, who: seq<nat> :: IsRun(run, who, acts) && run[0].db == db && run[|acts|] == w
  }

  lemma ReachNext(db: Store, acts: seq<Act>, w: World, t: nat, a: Act, w': World)
    requires Reaches(db, acts, w) && Enabled(w, t, a) && Next(w, t, a, w')
    ensures Reaches(db, acts + [a], w')
  {
    hide Enabled, Next, Init;
    var run: seq<World>, who: seq<nat> :| IsRun(run, who, acts) && run[0].db == db && run[|acts|] == w;
    var run' := run + [w'];
    var who' := who + [t];
    var acts' := acts + [a];
    forall i | 0 <= i < |acts'|
      ensures Enabled(run'[i], who'[i], acts'[i]) && Next(run'[i], who'[i], acts'[i], run'[i + 1])
    {
      assert i < |acts| ==> run'[i] == run[i] && run'[i + 1] == run[i + 1] && who'[i] == who[i] && acts'[i] == acts[i];
    }
    assert IsRun(run', who', acts');
  }

  lemma StartOfTwo(db: Store)
    requires IdsDistinct(db.log)
    ensures Reaches(db, [], World(db, map[0 := Idle, 1 := Idle], [], map[]))
  {
    hide IdsDistinct;
    assert IsRun([World(db, map[0 := Idle, 1 := Idle], [], map[])], [], []);
  }

  lemma BothRead(db: Store, p: Proposal, q: Proposal)
    requires IdsDistinct(db.log)
    requires forall r :: r in db.log ==> !Matches(r, p) && !Matches(r, q)
    ensures Reaches(db, [ReadLog(p), ReadLog(q)], World(db, map[0 := LogRead(p), 1 := LogRead(q)], [], map[]))
  {
    hide Matches, IdsDistinct, Reaches;
    StartOfTwo(db);
    var w0 := World(db, map[0 := Idle, 1 := Idle], [], map[]);
    var w1 := Goto(w0, 0, LogRead(p));
    var w2 := Goto(w1, 1, LogRead(q));
    ReachNext(db, [], w0, 0, ReadLog(p), w1);
    assert [] + [ReadLog(p)] == [ReadLog(p)];
    ReachNext(db, [ReadLog(p)], w1, 1, ReadLog(q), w2);
    assert [ReadLog(p)] + [ReadLog(q)] == [ReadLog(p), ReadLog(q)];
    assert w2.pubs == map[0 := LogRead(p), 1 := LogRead(q)];
  }

  lemma BothGated(db: Store, p: Proposal, q: Proposal, okP: bool, okQ: bool) returns (w: World)
    requires IdsDistinct(db.log)
    requires forall r :: r in db.log ==> !Matches(r, p) && !Matches(r, q)
    requires CheckGates(db, p, okP).None? && CheckGates(db, q, okQ).None?
    ensures Reaches(db, [ReadLog(p), ReadLog(q), Gate(okP), Gate(okQ)], w) && w.db == db
    ensures w.pubs == map[0 := Gated(p, TruthOf(db, p.user)), 1 := Gated(q, TruthOf(db, q.user))]
  {
    hide Reaches, Matches, IdsDistinct, CheckGates, TruthOf, RevisionOf;
    BothRead(db, p, q);
    var w2 := World(db, map[0 := LogRead(p), 1 := LogRead(q)], [], map[]);
    var acts := [ReadLog(p), ReadLog(q)];
    var w3 := AfterGate(w2, 0, p, okP);
    ReachNext(db, acts, w2, 0, Gate(okP), w3);
    w := AfterGate(w3, 1, q, okQ);
    ReachNext(db, acts + [Gate(okP)], w3, 1, Gate(okQ), w);
    assert acts + [Gate(okP)] + [Gate(okQ)] == [ReadLog(p), ReadLog(q), Gate(okP), Gate(okQ)];
  }

  /** Such a run, for every pair of proposals that can collide: both read the log, both pass the gates, both
      commit. */
  lemma CollidingRun(db: Store, p: Proposal, q: Proposal, okP: bool, okQ: bool, e: Effect, f: Effect)
    requires p.key == q.key && p.id != q.id && IdsDistinct(db.log) && KeysDistinct(db.log)
    requires forall r :: r in db.log ==> !Matches(r, p) && !Matches(r, q)
    requires CheckGates(db, p, okP).None? && CheckGates(db, q, okQ).None?
    requires HandlerOk(db, p, e) && Commit(db, p, e).Ok? && HandlerOk(Commit(db, p, e).value, q, f) && f.Writes?
    requires !(OnTruth(p.transition) && OnTruth(q.transition) && p.user == q.user) && p.id !in f.purged
    ensures exists w :: Reaches(db, [ReadLog(p), ReadLog(q), Gate(okP), Gate(okQ), Land(e), Land(f)], w)
                        && !KeysDistinct(w.db.log)
  {
    hide Reaches, CheckGates, Commit, TruthOf, Matches, RevisionOf, HandlerOk, KeysDistinct, IdsDistinct, OnTruth;
    ConcurrentKeysCollideIff(db, p, q, okP, okQ, e, f);
    var w4 := BothGated(db, p, q, okP, okQ);
    var acts := [ReadLog(p), ReadLog(q), Gate(okP), Gate(okQ)];
    var w5 := AfterLand(w4, 0, p, e);
    ReachNext(db, acts, w4, 0, Land(e), w5);
    var w6 := AfterLand(w5, 1, q, f);
    ReachNext(db, acts + [Land(e)], w5, 1, Land(f), w6);
    assert acts + [Land(e)] + [Land(f)] == [ReadLog(p), ReadLog(q), Gate(okP), Gate(okQ), Land(e), Land(f)];
  }

  function Synthesis(id: string, key: string, user: string): Proposal {
    Proposal(id, key, Synthesize, user, "", 0, [], None, false)
  }

  /** There is such a pair. */
  lemma SynthesesCollide(key: string, a: string, b: string, user: string)
    requires a != b
    ensures exists acts, w :: Reaches(Store(map[], map[], map[], {}), acts, w) && !KeysDistinct(w.db.log)
  {
    var db := Store(map[], map[], map[], {});
    var e := Writes(map[], {});
    CollidingRun(db, Synthesis(a, key, user), Synthesis(b, key, user), true, true, e, e);
  }

  // ---------------------------------------------------------------------------------------------
  // Two changes to one user's truth
  // ---------------------------------------------------------------------------------------------

  /** Another writer touches the user `k` times and changes nothing but the revision. */
  function Bumped(db: Store, u: string, k: nat): Store {
    if k == 0 then db
    else
      var b := Bumped(db, u, k - 1);
      AfterOutside(b, u, b.beliefs, PreferenceOf(b, u).enabled, b.log)
  }

  lemma {:induction false} BumpedFacts(db: Store, u: string, k: nat)
    ensures RevisionOf(Bumped(db, u, k), u) == RevisionOf(db, u) + k
    ensures Bumped(db, u, k).log == db.log && Bumped(db, u, k).beliefs == db.beliefs
  {
    if k > 0 {
      BumpedFacts(db, u, k - 1);
    }
  }

  /** As soon as the revision that `p` names is live, the gates let it through and its commit succeeds. */
  predicate Admits(db: Store, p: Proposal, planOk: bool, e: Effect) {
    p.expected >= RevisionOf(db, p.user) ==>
      var there := Bumped(db, p.user, p.expected - RevisionOf(db, p.user));
      CheckGates(there, p, planOk).None? && HandlerOk(there, p, e) && Commit(there, p, e).Ok?
  }

  /** The store after that commit. */
  function Landing(db: Store, p: Proposal, planOk: bool, e: Effect): Store
    requires p.expected >= RevisionOf(db, p.user) && Admits(db, p, planOk, e)
  {
    Commit(Bumped(db, p.user, p.expected - RevisionOf(db, p.user)), p, e).value
  }

  /** In some run from the store both publishers read the log first, then `p` commits, then `q`, and both rows of the
      key are in the log. */
  ghost predicate BothCommit(db: Store, p: Proposal, q: Proposal) {
    exists acts: seq<Act>, w: World, i: nat, j: nat ::
      && Reaches(db, [ReadLog(p), ReadLog(q)] + acts, w)
      && i < j < |w.landed| && w.landed[i].p == p && w.landed[j].p == q
      && (exists r :: r in w.db.log && r.id == p.id && r.key == p.key)
      && (exists r :: r in w.db.log && r.id == q.id && r.key == q.key)
  }

  /** Every change to the truth lands at or above the revision its user had at the start. */
  lemma {:induction false} LandedAboveStart(run: seq<World>, who: seq<nat>, acts: seq<Act>, n: nat)
    requires IsRun(run, who, acts) && n <= |acts|
    ensures forall i :: 0 <= i < |run[n].landed| ==>
                          RevisionOf(run[0].db, run[n].landed[i].p.user) <= run[n].landed[i].p.expected
  {
    hide RevisionOf, Enabled, Next;
    if n > 0 {
      LandedAboveStart(run, who, acts, n - 1);
      LandsLive(run[n - 1], who[n - 1], acts[n - 1], run[n]);
      forall i | 0 <= i < |run[n].landed|
        ensures RevisionOf(run[0].db, run[n].landed[i].p.user) <= run[n].landed[i].p.expected
      {
        RevisionRises(run, who, acts, 0, n - 1, run[n].landed[i].p.user);
      }
    }
  }

  /** A step lands at most one more change, at the live revision. */
  lemma LandsLive(w: World, t: nat, a: Act, w': World)
    requires Enabled(w, t, a) && Next(w, t, a, w')
    ensures w'.landed == w.landed
            || (|w'.landed| == |w.landed| + 1 && w'.landed[..|w.landed|] == w.landed
                && w'.landed[|w.landed|].p.expected == RevisionOf(w.db, w'.landed[|w.landed|].p.user))
  {
    hide CheckGates, TruthOf, HandlerOk, Matches, Kept;
  }

  lemma GoOn(db: Store, acts: seq<Act>, more: seq<Act>, w: World, t: nat, a: Act, w': World)
    requires Reaches(db, acts + more, w) && Enabled(w, t, a) && Next(w, t, a, w')
    ensures Reaches(db, acts + (more + [a]), w')
  {
    hide Reaches, Enabled, Next;
    ReachNext(db, acts + more, w, t, a, w');
    assert acts + (more + [a]) == (acts + more) + [a];
  }

  lemma {:induction false} GoBump(db: Store, acts: seq<Act>, more: seq<Act>, w: World, u: string, k: nat)
    returns (more': seq<Act>)
    requires Reaches(db, acts + more, w) && 0 in w.pubs
    ensures Reaches(db, acts + more', w.(db := Bumped(w.db, u, k)))
  {
    hide Reaches, PreferenceOf, RevisionOf;
    more' := more;
    if k > 0 {
      more' := GoBump(db, acts, more, w, u, k - 1);
      var b := Bumped(w.db, u, k - 1);
      var a := Outside(u, b.beliefs, PreferenceOf(b, u).enabled, b.log);
      GoOn(db, acts, more', w.(db := b), 0, a, w.(db := Bumped(w.db, u, k)));
      more' := more' + [a];
    }
  }

  /** Publisher `t`, having read the log, waits until the revision that `p` names is live, and commits. */
  lemma GoCommit(db: Store, acts: seq<Act>, more: seq<Act>, w: World, t: nat, p: Proposal, planOk: bool, e: Effect)
    returns (more': seq<Act>, w': World)
    requires Reaches(db, acts + more, w) && 0 in w.pubs && t in w.pubs && w.pubs[t] == LogRead(p)
    requires OnTruth(p.transition) && p.expected >= RevisionOf(w.db, p.user) && Admits(w.db, p, planOk, e)
    ensures Reaches(db, acts + more', w') && w'.db == Landing(w.db, p, planOk, e)
    ensures w'.pubs.Keys == w.pubs.Keys && forall u :: u in w.pubs && u != t ==> w'.pubs[u] == w.pubs[u]
    ensures |w'.landed| == |w.landed| + 1 && w'.landed[..|w.landed|] == w.landed && w'.landed[|w.landed|].p == p
  {
    hide Reaches, CheckGates, Commit, TruthOf, RevisionOf, HandlerOk, Bumped;
    var k := p.expected - RevisionOf(w.db, p.user);
    more' := GoBump(db, acts, more, w, p.user, k);
    var w1 := w.(db := Bumped(w.db, p.user, k));
    var w2 := AfterGate(w1, t, p, planOk);
    GoOn(db, acts, more', w1, t, Gate(planOk), w2);
    more' := more' + [Gate(planOk)];
    w' := AfterLand(w2, t, p, e);
    GoOn(db, acts, more', w2, t, Land(e), w');
    more' := more' + [Land(e)];
  }

  lemma CommitLogsRow(db: Store, p: Proposal, e: Effect)
    requires Commit(db, p, e).Ok?
    ensures var db' := Commit(db, p, e).value;
            && e.Writes? && (exists r :: r in db'.log && r.id == p.id && r.key == p.key)
            && (forall r :: r in db.log && r.id !in e.purged ==> r in db'.log)
            && (OnTruth(p.transition) ==> RevisionOf(db', p.user) == p.expected + 1)
  {
    assert RowOf(p, RevisionOf(Commit(db, p, e).value, p.user)) in Commit(db, p, e).value.log;
  }

  lemma LandingFacts(db: Store, p: Proposal, planOk: bool, e: Effect)
    requires p.expected >= RevisionOf(db, p.user) && Admits(db, p, planOk, e) && OnTruth(p.transition)
    ensures var db' := Landing(db, p, planOk, e);
            && e.Writes? && (exists r :: r in db'.log && r.id == p.id && r.key == p.key)
            && (forall r :: r in db.log && r.id !in e.purged ==> r in db'.log)
            && RevisionOf(db', p.user) == p.expected + 1
  {
    hide CheckGates, HandlerOk, Commit, RevisionOf;
    var k := p.expected - RevisionOf(db, p.user);
    BumpedFacts(db, p.user, k);
    CommitLogsRow(Bumped(db, p.user, k), p, e);
  }

  /** Two changes to one user's truth under one key, both publishers having read the log before either commits: they
      can both commit, `p` first, exactly when `p` names the live revision or a later one and `q` one later still. */
  lemma TruthsCollideIff(db: Store, p: Proposal, q: Proposal, okP: bool, okQ: bool, e: Effect, f: Effect)
    requires OnTruth(p.transition) && OnTruth(q.transition) && p.user == q.user && p.key == q.key && p.id != q.id
    requires IdsDistinct(db.log) && forall r :: r in db.log ==> !Matches(r, p) && !Matches(r, q)
    requires Admits(db, p, okP, e)
    requires p.expected >= RevisionOf(db, p.user) ==>
               Admits(Landing(db, p, okP, e), q, okQ, f) && (f.Writes? ==> p.id !in f.purged)
    ensures BothCommit(db, p, q) <==> RevisionOf(db, p.user) <= p.expected < q.expected
  {
    hide Reaches, Admits, Landing, Matches, IdsDistinct, RevisionOf;
    if RevisionOf(db, p.user) <= p.expected < q.expected {
      BothRead(db, p, q);
      var both := [ReadLog(p), ReadLog(q)];
      var w2 := World(db, map[0 := LogRead(p), 1 := LogRead(q)], [], map[]);
      assert both + [] == both;
      var more, w3 := GoCommit(db, both, [], w2, 0, p, okP, e);
      LandingFacts(db, p, okP, e);
      var w4;
      more, w4 := GoCommit(db, both, more, w3, 1, q, okQ, f);
      LandingFacts(w3.db, q, okQ, f);
      assert w4.landed[0] == w4.landed[..1][0];
      assert w4.landed[0].p == p && w4.landed[1].p == q;
    } else if BothCommit(db, p, q) {
      var acts: seq<Act>, w: World, i: nat, j: nat :|
        && Reaches(db, [ReadLog(p), ReadLog(q)] + acts, w)
        && i < j < |w.landed| && w.landed[i].p == p && w.landed[j].p == q;
      LandedInOrder(db, [ReadLog(p), ReadLog(q)] + acts, w, i, j);
      assert false;
    }
  }

  lemma LandedInOrder(db: Store, acts: seq<Act>, w: World, i: nat, j: nat)
    requires Reaches(db, acts, w) && i < j < |w.landed| && w.landed[i].p.user == w.landed[j].p.user
    ensures RevisionOf(db, w.landed[i].p.user) <= w.landed[i].p.expected < w.landed[j].p.expected
  {
    hide Inv, Enabled, Next, Init, RevisionOf;
    var run: seq<World>, who: seq<nat> :| IsRun(run, who, acts) && run[0].db == db && run[|acts|] == w;
    LandedAboveStart(run, who, acts, |acts|);
    NoTwoCommitsShareARevision(run, who, acts, |acts|);
  }

  function Creation(id: string, key: string, user: string, expected: int): Proposal {
    Proposal(id, key, Create, user, "", expected, [], None, false)
  }

  /** There is such a pair: two creations of one key from the empty store, naming the live revision and the next. */
  lemma CreationsCollide(key: string, a: string, b: string, user: string)
    requires a != b
    ensures BothCommit(Store(map[], map[], map[], {}), Creation(a, key, user, 1), Creation(b, key, user, 2))
  {
    var db := Store(map[], map[], map[], {});
    var e := Writes(map[], {});
    var p, q := Creation(a, key, user, 1), Creation(b, key, user, 2);
    hide BothCommit;
    TruthsCollideIff(db, p, q, true, true, e, e);
  }
}
