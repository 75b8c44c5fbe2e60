/**
 * `_ensure_db`: any number of threads race to initialise one engine.  Steps are as fine as the code's: the
 * lock's critical section is one step, every other read or write of shared state is its own.
 */
module InitRounds {

  /** Where a thread is.  `ok` tells whether its `_initialize_db` returned or raised. */
  datatype Pc =
    | Out
    | Entering                 // called, before the first test of the flag
    | AtLock
    | Waiting                  // in the event's wait()
    | Working                  // inside _initialize_db
    | Nested                   // called again from inside its own _initialize_db
    | Cleanup(ok: bool)        // before `in_init = False`
    | Cleared(ok: bool)        // before `_initializing = False`
    | Announcing(ok: bool)     // before `_init_done.set()`
    | Served                   // returned normally
    | Bypassed                 // returned normally through the re-entrance branch, from outside its own round
    | Raised

  /** `notified` are the waiters that a `set` has woken and that have not run since: they leave the wait even if a new
      round clears the event first. */
  datatype State = State(
    threads: map<nat, Pc>, inInit: set<nat>, notified: set<nat>,
    initialized: bool, initializing: bool, done: bool, successes: nat)

  datatype Act =
    | Call | Test | TakeLock | Wake | Reenter | NestedTest
    | Finish(ok: bool) | ClearOwn | ClearInitializing | Announce | Leave

  predicate Enabled(s: State, t: nat, a: Act) {
    t in s.threads &&
    var pc := s.threads[t];
    match a
    case Call => pc.Out?
    case Test => pc.Entering?
    case TakeLock => pc.AtLock?
    case Wake => pc.Waiting? && (s.done || t in s.notified)
    case Reenter => pc.Working?
    case NestedTest => pc.Nested?
    case Finish(_) => pc.Working?
    case ClearOwn => pc.Cleanup?
    case ClearInitializing => pc.Cleared?
    case Announce => pc.Announcing?
    case Leave => pc.Served? || pc.Bypassed? || pc.Raised?
  }

  function Goto(s: State, t: nat, pc: Pc): State {
    s.(threads := s.threads[t := pc])
  }

  function Next(s: State, t: nat, a: Act): State
    requires Enabled(s, t, a)
  {
    match a
    case Call => Goto(s, t, Entering)
    case Test =>
      if s.initialized then Goto(s, t, Served)
      else if t in s.inInit then Goto(s, t, Bypassed)
      else Goto(s, t, AtLock)
    case TakeLock =>
      if s.initialized then Goto(s, t, Served)
      else if s.initializing then Goto(s, t, Waiting)
      else Goto(s, t, Working).(initializing := true, inInit := s.inInit + {t}, done := false)
    case Wake => Goto(s, t, AtLock).(notified := s.notified - {t})
    case Reenter => Goto(s, t, Nested)
    case NestedTest =>
      if s.initialized || t in s.inInit then Goto(s, t, Working) else Goto(s, t, AtLock)
    case Finish(ok) =>
      if ok then Goto(s, t, Cleanup(true)).(initialized := true, successes := s.successes + 1)
      else Goto(s, t, Cleanup(false))
    case ClearOwn => Goto(s, t, Cleared(s.threads[t].ok)).(inInit := s.inInit - {t})
    case ClearInitializing => Goto(s, t, Announcing(s.threads[t].ok)).(initializing := false)
    case Announce =>
      Goto(s, t, if s.threads[t].ok then Served else Raised)
      .(done := true, notified := set u | u in s.threads && s.threads[u].Waiting?)
    case Leave => Goto(s, t, Out)
  }

  /** The engine as constructed. */
  predicate Init(s: State) {
    && (forall t :: t in s.threads ==> s.threads[t] == Out)
    && s.inInit == {} && s.notified == {} && !s.initialized && !s.initializing && !s.done && s.successes == 0
  }

  // ---------------------------------------------------------------------------------------------
  // The invariant
  // ---------------------------------------------------------------------------------------------

  predicate InsideInit(pc: Pc) { pc.Working? || pc.Nested? }

  predicate InRound(pc: Pc) { InsideInit(pc) || pc.Cleanup? || pc.Cleared? }

  /** The thread still has the event's `set` to run. */
  predicate WillSet(pc: Pc) { InRound(pc) || pc.Announcing? }

  predicate OneRound(s: State) {
    && (forall t, u :: t in s.threads && u in s.threads && InRound(s.threads[t]) && InRound(s.threads[u]) ==> t == u)
    && (s.initializing <==> exists t :: t in s.threads && InRound(s.threads[t]))
  }

  predicate OwnFlags(s: State) {
    && s.inInit <= s.threads.Keys
    && forall t :: t in s.threads ==> (t in s.inInit <==> InsideInit(s.threads[t]) || s.threads[t].Cleanup?)
  }

  predicate Outcome(initialized: bool, pc: Pc) {
    match pc
    case Working => !initialized
    case Nested => !initialized
    case Cleanup(ok) => ok == initialized
    case Cleared(ok) => ok == initialized
    case Announcing(ok) => ok ==> initialized
    case Served => initialized
    case Bypassed => false
    case _ => true
  }

  predicate Outcomes(s: State) {
    && (forall t :: t in s.threads ==> Outcome(s.initialized, s.threads[t]))
    && s.successes == if s.initialized then 1 else 0
  }

  predicate NoLostWaiter(s: State) {
    (exists t :: t in s.threads && s.threads[t].Waiting?) && !s.done ==>
      exists u :: u in s.threads && WillSet(s.threads[u])
  }

  predicate Inv(s: State) {
    OneRound(s) && OwnFlags(s) && Outcomes(s) && NoLostWaiter(s)
  }

  /** A step moves one thread. */
  predicate MovesOne(s: State, s': State, t: nat) {
    && t in s.threads && s'.threads.Keys == s.threads.Keys
    && forall u :: u in s.threads && u != t ==> s'.threads[u] == s.threads[u]
  }

  lemma StepMovesOne(s: State, t: nat, a: Act)
    requires Enabled(s, t, a)
    ensures MovesOne(s, Next(s, t, a), t)
  {
  }

  /** How the round flag goes with the one thread that moves. */
  lemma StepAndRound(s: State, t: nat, a: Act)
    requires Inv(s) && Enabled(s, t, a)
    ensures var s' := Next(s, t, a);
            t in s'.threads &&
            var before, after := InRound(s.threads[t]), InRound(s'.threads[t]);
            && (before == after ==> s'.initializing == s.initializing)
            && (!before && after ==> !s.initializing && s'.initializing)
            && (before && !after ==> !s'.initializing)
  {
  }

  lemma OneRoundKept(s: State, t: nat, a: Act)
    requires Inv(s) && Enabled(s, t, a)
    ensures OneRound(Next(s, t, a))
  {
    hide Next, InRound, Enabled, OwnFlags, Outcomes, NoLostWaiter;
    StepMovesOne(s, t, a);
    StepAndRound(s, t, a);
    RoundFollows(s, Next(s, t, a), t);
  }

  lemma RoundFollows(s: State, s': State, t: nat)
    requires OneRound(s) && MovesOne(s, s', t)
    requires var before, after := InRound(s.threads[t]), InRound(s'.threads[t]);
             && (before == after ==> s'.initializing == s.initializing)
             && (!before && after ==> !s.initializing && s'.initializing)
             && (before && !after ==> !s'.initializing)
    ensures OneRound(s')
  {
    hide InRound;
    if s'.initializing && !InRound(s'.threads[t]) {
      var u :| u in s.threads && InRound(s.threads[u]);
      assert InRound(s'.threads[u]);
    }
  }

  /** The moved thread's own flag and outcome. */
  lemma StepAndFlags(s: State, t: nat, a: Act)
    requires Inv(s) && Enabled(s, t, a)
    ensures var s' := Next(s, t, a);
            && t in s'.threads
            && (t in s'.inInit <==> InsideInit(s'.threads[t]) || s'.threads[t].Cleanup?)
            && s'.inInit - {t} == s.inInit - {t}
            && Outcome(s'.initialized, s'.threads[t])
            && (s'.initialized != s.initialized ==> InRound(s.threads[t]) && !s.initialized)
            && s'.successes == if s'.initialized then 1 else 0
  {
  }

  lemma OutcomeRises(pc: Pc)
    requires Outcome(false, pc) && !InRound(pc)
    ensures Outcome(true, pc)
  {
  }

  lemma FlagsAndOutcomesKept(s: State, t: nat, a: Act)
    requires Inv(s) && Enabled(s, t, a)
    ensures OwnFlags(Next(s, t, a)) && Outcomes(Next(s, t, a))
  {
    StepMovesOne(s, t, a);
    StepAndFlags(s, t, a);
    var s' := Next(s, t, a);
    hide Next, Enabled, NoLostWaiter, Outcome, InRound, InsideInit;
    forall u | u in s'.threads ensures Outcome(s'.initialized, s'.threads[u]) {
      if u != t && s'.initialized != s.initialized {
        assert !InRound(s.threads[u]);
        OutcomeRises(s.threads[u]);
      }
    }
    forall u | u in s'.threads ensures u in s'.inInit <==> InsideInit(s'.threads[u]) || s'.threads[u].Cleanup? {
      assert u != t ==> (u in s'.inInit <==> u in s'.inInit - {t});
      assert u != t ==> (u in s.inInit <==> u in s.inInit - {t});
    }
  }

  /** The event and the one thread that moves. */
  lemma StepAndEvent(s: State, t: nat, a: Act)
    requires Inv(s) && Enabled(s, t, a)
    ensures var s' := Next(s, t, a);
            t in s'.threads &&
            var pc, pc' := s.threads[t], s'.threads[t];
            && (!s'.done && s.done ==> WillSet(pc'))
            && (WillSet(pc) && !WillSet(pc') ==> s'.done)
            && (pc'.Waiting? && !pc.Waiting? ==> s.initializing)
  {
  }

  lemma WaitersKept(s: State, t: nat, a: Act)
    requires Inv(s) && Enabled(s, t, a)
    ensures NoLostWaiter(Next(s, t, a))
  {
    StepMovesOne(s, t, a);
    StepAndEvent(s, t, a);
    var s' := Next(s, t, a);
    hide Next, Enabled, Outcomes, OwnFlags, InRound;
    if !s'.done && exists w :: w in s'.threads && s'.threads[w].Waiting? {
      var w :| w in s'.threads && s'.threads[w].Waiting?;
      if WillSet(s'.threads[t]) {
      } else {
        var u :| u in s.threads && WillSet(s.threads[u]);
        assert WillSet(s'.threads[u]);
      }
    }
  }

  lemma StepKeepsInv(s: State, t: nat, a: Act)
    requires Inv(s) && Enabled(s, t, a)
    ensures Inv(Next(s, t, a))
  {
    OneRoundKept(s, t, a);
    FlagsAndOutcomesKept(s, t, a);
    WaitersKept(s, t, a);
  }

  // ---------------------------------------------------------------------------------------------
  // Over all interleavings
  // ---------------------------------------------------------------------------------------------

  predicate IsRun(run: seq<State>, who: seq<nat>, acts: seq<Act>) {
    && |run| == |acts| + 1 && |who| == |acts| && Init(run[0])
    && forall i :: 0 <= i < |acts| ==> Enabled(run[i], who[i], acts[i]) && run[i + 1] == Next(run[i], who[i], acts[i])
  }

  lemma {:induction false} RunHasInv(run: seq<State>, who: seq<nat>, acts: seq<Act>, n: nat)
    requires IsRun(run, who, acts) && n <= |acts|
    ensures Inv(run[n])
  {
    if n > 0 {
      RunHasInv(run, who, acts, n - 1);
      hide Inv, Enabled, Next;
      StepKeepsInv(run[n - 1], who[n - 1], acts[n - 1]);
    }
  }

  predicate Inside(s: State, t: nat) {
    t in s.threads && InsideInit(s.threads[t])
  }

  /** In every state of every interleaving at most one thread is inside `_initialize_db`; a call made from
      outside that returned normally finds the engine initialised; the initialisation succeeds at most
      once; a call made from inside it returns without waiting; and if a thread waits on a cleared event,
      some thread still has the `set` to run. */
  lemma InitIsSafe(run: seq<State>, who: seq<nat>, acts: seq<Act>, n: nat)
    requires IsRun(run, who, acts) && n <= |acts|
    ensures var s := run[n];
            && (forall t, u :: Inside(s, t) && Inside(s, u) ==> t == u)
            && (forall t :: t in s.threads ==> (s.threads[t].Served? ==> s.initialized) && !s.threads[t].Bypassed?)
            && s.successes <= 1
            && (forall t :: t in s.threads && s.threads[t].Nested? ==> Next(s, t, NestedTest).threads[t] == Working)
            && NoLostWaiter(s)
  {
    RunHasInv(run, who, acts, n);
  }

  // ---------------------------------------------------------------------------------------------
  // What a call answers
  // ---------------------------------------------------------------------------------------------

  /** Step by step: a call raises only as the last step of a round of its own that failed, and returns from a round of
      its own that succeeded; once the engine is initialised both tests return at once; nothing else ends a call. */
  lemma StepAnswers(s: State, t: nat, a: Act)
    requires Inv(s) && Enabled(s, t, a)
    ensures var pc, pc' := s.threads[t], Next(s, t, a).threads[t];
            && (pc'.Raised? <==> pc == Announcing(false))
            && (pc == Announcing(true) ==> pc'.Served?)
            && (s.initialized && (a.Test? || a.TakeLock?) ==> pc'.Served?)
            && (pc'.Served? ==> s.initialized)
            && (pc'.Out? <==> a.Leave?) && (a.Leave? ==> pc.Served? || pc.Raised?)
  {
  }

  /** The thread left `_initialize_db` at step `j`, returning or raising, and has since only cleaned up. */
  predicate LeftAt(who: seq<nat>, acts: seq<Act>, j: nat, n: nat, t: nat, ok: bool) {
    && j < n <= |acts| && n <= |who| && who[j] == t && acts[j] == Finish(ok)
    && forall i :: j < i < n && who[i] == t ==> acts[i].ClearOwn? || acts[i].ClearInitializing?
  }

  predicate CleaningUp(pc: Pc, ok: bool) {
    pc == Cleanup(ok) || pc == Cleared(ok) || pc == Announcing(ok)
  }

  lemma StepCleansUp(s: State, t: nat, a: Act, u: nat, ok: bool)
    requires Enabled(s, t, a) && u in s.threads && CleaningUp(Next(s, t, a).threads[u], ok)
    ensures CleaningUp(s.threads[u], ok) || (t == u && a == Finish(ok))
    ensures t == u ==> a == Finish(ok) || a.ClearOwn? || a.ClearInitializing?
  {
    hide Enabled, Next, CleaningUp;
    StepMovesOne(s, t, a);
    if t == u {
      OwnStepCleansUp(s, t, a, ok);
    }
  }

  lemma OwnStepCleansUp(s: State, t: nat, a: Act, ok: bool)
    requires Enabled(s, t, a) && CleaningUp(Next(s, t, a).threads[t], ok)
    ensures a == Finish(ok) || (CleaningUp(s.threads[t], ok) && (a.ClearOwn? || a.ClearInitializing?))
  {
  }

  lemma {:induction false} WhoCleansUpLeft(run: seq<State>, who: seq<nat>, acts: seq<Act>, n: nat, t: nat, ok: bool)
    requires IsRun(run, who, acts) && n <= |acts| && t in run[n].threads && CleaningUp(run[n].threads[t], ok)
    ensures exists j :: LeftAt(who, acts, j, n, t, ok)
  {
    hide Enabled, Next, CleaningUp;
    if n == 0 {
      NobodyStartsIn(run[0], t, ok);
    } else {
      var m := n - 1;
      SameThreads(run[m], who[m], acts[m]);
      StepCleansUp(run[m], who[m], acts[m], t, ok);
      if who[m] == t && acts[m] == Finish(ok) {
        assert LeftAt(who, acts, m, n, t, ok);
      } else {
        WhoCleansUpLeft(run, who, acts, m, t, ok);
        var j :| LeftAt(who, acts, j, m, t, ok);
        assert LeftAt(who, acts, j, n, t, ok);
      }
    }
  }

  lemma NobodyStartsIn(s: State, t: nat, ok: bool)
    requires Init(s) && t in s.threads
    ensures !CleaningUp(s.threads[t], ok)
  {
  }

  lemma SameThreads(s: State, t: nat, a: Act)
    requires Enabled(s, t, a)
    ensures Next(s, t, a).threads.Keys == s.threads.Keys && t in s.threads
  {
  }

  /** In every interleaving a call raises at a step exactly when that step ends a round of its own whose
      `_initialize_db` raised, and one whose own `_initialize_db` returned ends by returning. */
  lemma RaisesIffOwnRoundFailed(run: seq<State>, who: seq<nat>, acts: seq<Act>, n: nat)
    requires IsRun(run, who, acts) && n < |acts|
    ensures who[n] in run[n + 1].threads
    ensures run[n + 1].threads[who[n]].Raised?
       <==> acts[n].Announce? && exists j :: LeftAt(who, acts, j, n, who[n], false)
    ensures acts[n].Announce? && (exists j :: LeftAt(who, acts, j, n, who[n], true)) ==>
              run[n + 1].threads[who[n]].Served?
  {
    hide Inv, Next;
    var t := who[n];
    RunHasInv(run, who, acts, n);
    assert Enabled(run[n], t, acts[n]) && run[n + 1] == Next(run[n], t, acts[n]);
    SameThreads(run[n], t, acts[n]);
    StepAnswers(run[n], t, acts[n]);
    if acts[n].Announce? {
      var ok := run[n].threads[t].ok;
      WhoCleansUpLeft(run, who, acts, n, t, ok);
      var j :| LeftAt(who, acts, j, n, t, ok);
      forall i, no | LeftAt(who, acts, i, n, t, no) ensures no == ok {
        assert i == j;
      }
    }
  }

  /** In every interleaving the engine is initialised exactly when some `_initialize_db` has returned. */
  lemma {:induction false} InitialisedIffSomeRoundSucceeded(run: seq<State>, who: seq<nat>, acts: seq<Act>, n: nat)
    requires IsRun(run, who, acts) && n <= |acts|
    ensures run[n].initialized <==> exists i :: 0 <= i < n && acts[i] == Finish(true)
  {
    hide Enabled;
    if n > 0 {
      InitialisedIffSomeRoundSucceeded(run, who, acts, n - 1);
      PublishedBy(run[n - 1], who[n - 1], acts[n - 1]);
      hide Next;
      if run[n].initialized {
        if acts[n - 1] == Finish(true) {
          assert 0 <= n - 1 < n;
        }
      }
    }
  }

  lemma PublishedBy(s: State, t: nat, a: Act)
    requires Enabled(s, t, a)
    ensures Next(s, t, a).initialized <==> s.initialized || a == Finish(true)
  {
  }

  // ---------------------------------------------------------------------------------------------
  // Every waiter is woken
  // ---------------------------------------------------------------------------------------------

  /** How many steps a round's owner has left before its `set`, not counting re-entrant calls. */
  function StepsLeft(pc: Pc): nat {
    match pc
    case Nested => 5
    case Working => 4
    case Cleanup(_) => 3
    case Cleared(_) => 2
    case Announcing(_) => 1
    case _ => 0
  }

  /** Nothing another thread does holds an owner up: whatever the others do it stays where it is and its
      next step stays enabled; its own steps, unless it calls itself, bring it closer to the `set`, and
      the last of them sets the event. */
  lemma OwnersAreNeverHeldUp(s: State, o: nat, t: nat, a: Act)
    requires Inv(s) && o in s.threads && WillSet(s.threads[o]) && Enabled(s, t, a)
    ensures var s' := Next(s, t, a);
            && (t != o ==> s'.threads[o] == s.threads[o])
            && (t == o && !a.Reenter? ==>
                  if s.threads[o].Announcing? then s'.done
                  else WillSet(s'.threads[o]) && StepsLeft(s'.threads[o]) < StepsLeft(s.threads[o]))
    ensures exists b :: Enabled(s, o, b) && !b.Reenter?
  {
    OwnerMoves(s, o);
    hide OneRound, Outcomes, NoLostWaiter;
  }

  /** No deadlock: in a reachable state somebody can move, unless there is nobody. */
  lemma SomebodyCanMove(s: State, w: nat)
    requires Inv(s) && w in s.threads
    ensures exists t, a :: Enabled(s, t, a)
  {
    match s.threads[w]
    case Out => assert Enabled(s, w, Call);
    case Entering => assert Enabled(s, w, Test);
    case AtLock => assert Enabled(s, w, TakeLock);
    case Waiting =>
      if s.done {
        assert Enabled(s, w, Wake);
      } else {
        var u :| u in s.threads && WillSet(s.threads[u]);
        OwnerMoves(s, u);
      }
    case Served => assert Enabled(s, w, Leave);
    case Bypassed => assert Enabled(s, w, Leave);
    case Raised => assert Enabled(s, w, Leave);
    case _ => OwnerMoves(s, w);
  }

  lemma OwnerMoves(s: State, o: nat)
    requires o in s.threads && WillSet(s.threads[o])
    ensures exists a :: Enabled(s, o, a) && !a.Reenter?
  {
    match s.threads[o]
    case Working => assert Enabled(s, o, Finish(false));
    case Nested => assert Enabled(s, o, NestedTest);
    case Cleanup(_) => assert Enabled(s, o, ClearOwn);
    case Cleared(_) => assert Enabled(s, o, ClearInitializing);
    case Announcing(_) => assert Enabled(s, o, Announce);
  }

  /** The late `set` of a failed round can fall into the next one: that round's event is then set while
      it runs, so its waiters spin through the lock instead of sleeping, which the invariant allows. */
  lemma LateSetReachesNextRound(s: State, t: nat, u: nat)
    requires Inv(s) && !s.initialized && t != u && t in s.threads && u in s.threads
    requires s.threads[t] == Cleared(false) && s.threads[u] == AtLock
    ensures var s1 := Next(s, t, ClearInitializing);
            Enabled(s1, u, TakeLock) &&
            var s2 := Next(s1, u, TakeLock);
            Enabled(s2, t, Announce) &&
            var s3 := Next(s2, t, Announce);
            Inv(s3) && InsideInit(s3.threads[u]) && s3.done
  {
    StepKeepsInv(s, t, ClearInitializing);
    var s1 := Next(s, t, ClearInitializing);
    StepKeepsInv(s1, u, TakeLock);
    StepKeepsInv(Next(s1, u, TakeLock), t, Announce);
  }

  /** A waiter that a `set` has woken leaves the wait although the next round has cleared the event since. */
  lemma NotifiedWaiterLeaves(s: State, t: nat, u: nat, w: nat)
    requires Inv(s) && !s.initialized && {t, u, w} <= s.threads.Keys
    requires s.threads[t] == Announcing(false) && s.threads[u] == AtLock && s.threads[w] == Waiting && !s.initializing
    ensures Enabled(s, t, Announce)
    ensures var s1 := Next(s, t, Announce);
            Enabled(s1, u, TakeLock) &&
            var s2 := Next(s1, u, TakeLock);
            !s2.done && InsideInit(s2.threads[u]) && Enabled(s2, w, Wake) &&
            var s3 := Next(s2, w, Wake);
            Inv(s3) && !s3.done && s3.threads[w] == AtLock
  {
    StepKeepsInv(s, t, Announce);
    var s1 := Next(s, t, Announce);
    StepKeepsInv(s1, u, TakeLock);
    StepKeepsInv(Next(s1, u, TakeLock), w, Wake);
  }
}
