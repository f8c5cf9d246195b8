/** What every reachable state of the engine keeps, whatever watches the calls list. */
module EngineTracking {
  import opened Results
  import opened EngineState
  import opened EngineInvariant

  /** Goroutine t is inside Stop, which keeps the engine's lock to its end. */
  predicate Stopping(s: State, t: ThreadId) {
    t in s.threads && (s.threads[t].EndWaiting? || s.threads[t].EndLoop? || s.threads[t].EndStopped?)
  }

  /** The engine's lock is held for writing by the goroutine inside Stop, if any. */
  ghost predicate EngineLockOk(s: State) {
    forall t :: s.engineLock == Some(t) <==> Stopping(s, t)
  }

  /** The informers that run are tracked, no goroutine is astray, and each lock is held by the
      goroutine that took it. */
  ghost predicate Tracked(s: State) {
    && s.w.running.Keys <= s.w.active && ControllersOk(s.w) && LocksOk(s) && EngineLockOk(s)
    && forall t :: t in s.threads ==> WellPlaced(s.w, s.threads[t])
  }

  /** Nothing untracked starts to run, no controller object goes away, and no stopped informer
      or handler comes back. */
  ghost predicate KeepsTrack(v: World, w: World) {
    && v.stopped <= w.stopped && v.next <= w.next
    && (forall x :: x in w.handlers && x < v.next ==> x in v.handlers && w.handlers[x] == v.handlers[x])
    && (v.running.Keys <= v.active ==> w.running.Keys <= w.active)
    && (ControllersOk(v) ==> ControllersOk(w)) && v.sources.Keys <= w.sources.Keys
  }

  /** Goroutine t takes or gives up locks as it moves; the others keep theirs. */
  ghost predicate LocksMove(s: State, r: State, t: ThreadId) {
    && (forall c :: c in s.locks && s.locks[c] != t ==> c in r.locks && r.locks[c] == s.locks[c])
    && (forall c :: c in r.locks && r.locks[c] != t ==> c in s.locks && r.locks[c] == s.locks[c])
    && (forall c :: c in r.locks && r.locks[c] == t <==> HeldBy(r, t) == Some(c))
  }

  /** Only goroutine t moves, and it changes no sources but those of a controller it holds. */
  ghost predicate OnlyMoves(s: State, r: State, t: ThreadId) {
    && (forall u :: u != t ==>
      (u in r.threads <==> u in s.threads) && (u in s.threads ==> r.threads[u] == s.threads[u]))
    && (forall c :: c in s.w.sources && HeldBy(s, t) != Some(c) ==>
      c in r.w.sources && r.w.sources[c] == s.w.sources[c])
  }

  /** A step of goroutine t that keeps track and leaves t well placed. */
  ghost predicate Moves(s: State, r: State, t: ThreadId) {
    && KeepsTrack(s.w, r.w) && LocksMove(s, r, t) && OnlyMoves(s, r, t)
    && (t in r.threads ==> WellPlaced(r.w, r.threads[t]))
  }

  /** Goroutine t takes or gives up the engine's lock as it moves.  The controllers do not change
      under another that holds it. */
  predicate EngineLockMoves(s: State, r: State, t: ThreadId) {
    && (r.engineLock == Some(t) <==> Stopping(r, t))
    && (r.engineLock == s.engineLock || (r.engineLock == None && Stopping(s, t)) || s.engineLock == None)
    && (r.engineLock == None || r.engineLock == s.engineLock || r.engineLock == Some(t))
    && (s.engineLock == None || s.engineLock == Some(t) || r.w.controllers == s.w.controllers)
  }

  lemma StepMovesEngineLock(s: State, a: Action)
    requires Enabled(s, a) && Actor(a).Some?
    requires s.engineLock == Actor(a) <==> Stopping(s, Actor(a).value)
    ensures EngineLockMoves(s, Apply(s, a), Actor(a).value)
  {
    if a.StartNext? || a.StartLookLocked? || a.WatchSource? || a.RecordSource? {
      StartMovesEngineLock(s, a);
    } else if a.AskEnd? || a.LockEnd? || a.EndNext? || a.EndDelete? {
      StopMovesEngineLock(s, a);
    }
  }

  lemma StopMovesEngineLock(s: State, a: Action)
    requires Enabled(s, a) && (a.AskEnd? || a.LockEnd? || a.EndNext? || a.EndDelete?)
    requires s.engineLock == Some(a.t) <==> Stopping(s, a.t)
    ensures EngineLockMoves(s, Apply(s, a), a.t)
  {
  }

  lemma StartMovesEngineLock(s: State, a: Action)
    requires Enabled(s, a) && (a.StartNext? || a.StartLookLocked? || a.WatchSource? || a.RecordSource?)
    requires s.engineLock == Some(a.t) <==> Stopping(s, a.t)
    ensures EngineLockMoves(s, Apply(s, a), a.t)
  {
  }

  lemma MovesTracked(s: State, r: State, t: ThreadId)
    requires Tracked(s) && Moves(s, r, t) && EngineLockMoves(s, r, t)
    ensures Tracked(r)
  {
  }

  lemma InformersKeepTrack(w: World, k: Kind, starts: bool)
    ensures KeepsTrack(w, WithInformer(Activate(w, k), k, starts))
    ensures k in w.active ==> KeepsTrack(w, WithInformer(w, k, starts))
  {
  }

  lemma RemovalsKeepTrack(w: World, k: Kind)
    ensures KeepsTrack(w, WithoutInformer(w, k)) && KeepsTrack(w, Deactivate(WithoutInformer(w, k), k))
  {
  }

  /** The world changes in what t may change, and t goes on, holding what it held ... */
  lemma GoesOn(s: State, w: World, t: ThreadId, pc: Pc)
    requires Tracked(s) && KeepsTrack(s.w, w) && WellPlaced(w, pc) && Holds(pc) == HeldBy(s, t)
    requires forall c :: c in s.w.sources && HeldBy(s, t) != Some(c) ==> w.sources[c] == s.w.sources[c]
    ensures Moves(s, Goto(Become(s, w), t, pc), t)
  {
  }

  /** ... or gives up the lock it held. */
  lemma GivesUp(s: State, t: ThreadId, c: Id)
    requires Tracked(s) && HeldBy(s, t) == Some(c)
    ensures Moves(s, Unlock(s, t, c), t)
  {
  }

  lemma EngineLockIsApart(s: State, r: State, t: ThreadId, l: Option<ThreadId>)
    requires Moves(s, r, t)
    ensures Moves(s, r.(engineLock := l), t)
  {
  }

  /** The goroutine that holds a controller changes its sources. */
  lemma DropsSource(s: State, t: ThreadId, c: Id, wid: WatchID, pc: Pc)
    requires Tracked(s) && HeldBy(s, t) == Some(c) == Holds(pc) && c in s.w.sources && WellPlaced(s.w, pc)
    ensures Moves(s, Goto(Become(s, Dropped(s.w, c, wid)), t, pc), t)
  {
  }

  lemma AddsSource(s: State, t: ThreadId, c: Id, wid: WatchID, src: Id, pc: Pc)
    requires Tracked(s) && HeldBy(s, t) == Some(c) == Holds(pc) && c in s.w.sources && WellPlaced(s.w, pc)
    ensures Moves(s, Goto(Become(s, Recorded(s.w, c, wid, src)), t, pc), t)
  {
  }

  lemma AsksMove(s: State, t: ThreadId, name: string, ws: seq<WatchID>)
    requires Tracked(s) && Idle(s, t)
    ensures Moves(s, DoAskStart(s, t, name, ws), t) && Moves(s, DoAskStop(s, t, name, ws), t)
    ensures Moves(s, DoAskEnd(s, t, name), t)
  {
    if name in s.w.controllers {
      var c := s.w.controllers[name];
      GoesOn(s, s.w, t, StartAsked(c, ws));
      GoesOn(s, s.w, t, StopAsked(c, ws));
      GoesOn(s, s.w, t, EndWaiting(c, name));
      EngineLockIsApart(s, Goto(s, t, EndWaiting(c, name)), t, Some(t));
    }
  }

  lemma LooksMove(s: State, t: ThreadId, k: Kind, starts: bool)
    requires Tracked(s) && Idle(s, t)
    ensures Moves(s, DoLook(s, t, k, starts), t)
  {
    InformersKeepTrack(s.w, k, starts);
  }

  lemma LooksLockedMove(s: State, t: ThreadId, starts: bool)
    requires Tracked(s) && At(s, t) && s.threads[t].Looking?
    ensures Moves(s, DoLookLocked(s, t, starts), t)
  {
    InformersKeepTrack(s.w, s.threads[t].kind, starts);
  }

  lemma RemovesMove(s: State, t: ThreadId, k: Kind)
    requires Tracked(s) && Idle(s, t)
    ensures Moves(s, DoRemove(s, t, k), t)
  {
    RemovalsKeepTrack(s.w, k);
  }

  lemma RemovesLockedMove(s: State, t: ThreadId)
    requires Tracked(s) && At(s, t) && s.threads[t].Removing?
    ensures Moves(s, DoRemoveLocked(s, t), t)
  {
    RemovalsKeepTrack(s.w, s.threads[t].kind);
  }

  lemma SeesActiveMove(s: State, t: ThreadId)
    requires Tracked(s) && At(s, t) && s.threads[t].StartAsked?
    ensures Moves(s, DoSeeActive(s, t), t)
  {
  }

  lemma ChecksStartMove(s: State, t: ThreadId)
    requires Tracked(s) && At(s, t) && s.threads[t].StartSeen?
    ensures Moves(s, DoCheckStart(s, t), t)
  {
  }

  lemma ChecksStopMove(s: State, t: ThreadId)
    requires Tracked(s) && At(s, t) && s.threads[t].StopAsked?
    ensures Moves(s, DoCheckStop(s, t), t)
  {
  }

  lemma LocksStartMove(s: State, t: ThreadId)
    requires Tracked(s) && At(s, t) && s.threads[t].StartWaiting? && Free(s, s.threads[t].c)
    ensures Moves(s, DoLockStart(s, t), t)
  {
  }

  lemma LocksStopMove(s: State, t: ThreadId)
    requires Tracked(s) && At(s, t) && s.threads[t].StopWaiting? && Free(s, s.threads[t].c)
    ensures Moves(s, DoLockStop(s, t), t)
  {
  }

  lemma LocksEndMove(s: State, t: ThreadId)
    requires Tracked(s) && At(s, t) && s.threads[t].EndWaiting? && Free(s, s.threads[t].c)
    ensures Moves(s, DoLockEnd(s, t), t)
  {
  }

  lemma SeesActiveAgainMoves(s: State, t: ThreadId)
    requires Tracked(s) && At(s, t) && s.threads[t].StartLocked?
    ensures Moves(s, DoSeeActiveAgain(s, t), t)
  {
  }

  lemma WatchesSourceMove(s: State, t: ThreadId, ok: bool)
    requires Tracked(s) && At(s, t) && s.threads[t].StartGot?
    ensures Moves(s, DoWatchSource(s, t, ok), t)
  {
  }

  lemma RecordsSourceMove(s: State, t: ThreadId)
    requires Tracked(s) && At(s, t) && s.threads[t].StartWatched?
    ensures Moves(s, DoRecordSource(s, t), t)
  {
    var p := s.threads[t];
    AddsSource(s, t, p.c, p.ws[p.i], p.src, StartLoop(p.c, p.ws, p.a, p.i + 1));
  }

  lemma StopsNextMove(s: State, t: ThreadId, ok: bool)
    requires Tracked(s) && At(s, t) && s.threads[t].StopLoop?
    ensures Moves(s, DoStopNext(s, t, ok), t)
  {
    var p := s.threads[t];
    if p.i >= |p.ws| {
      GivesUp(s, t, p.c);
    } else if p.ws[p.i] !in s.w.sources[p.c] {
      GoesOn(s, s.w, t, StopLoop(p.c, p.ws, p.i + 1));
    } else {
      GivesUp(s, t, p.c);
      GoesOn(s, StopSource(s.w, s.w.sources[p.c][p.ws[p.i]]), t, StopStopped(p.c, p.ws, p.i));
    }
  }

  lemma StopsDeleteMove(s: State, t: ThreadId)
    requires Tracked(s) && At(s, t) && s.threads[t].StopStopped?
    ensures Moves(s, DoStopDelete(s, t), t)
  {
    var p := s.threads[t];
    DropsSource(s, t, p.c, p.ws[p.i], StopLoop(p.c, p.ws, p.i + 1));
  }

  lemma EndsNextMove(s: State, t: ThreadId, wid: WatchID, ok: bool)
    requires Tracked(s) && At(s, t) && s.threads[t].EndLoop?
    requires s.w.sources[s.threads[t].c] == map[] || wid in s.w.sources[s.threads[t].c]
    ensures Moves(s, DoEndNext(s, t, wid, ok), t)
  {
    var p := s.threads[t];
    GivesUp(s, t, p.c);
    if s.w.sources[p.c] != map[] {
      EngineLockIsApart(s, Unlock(s, t, p.c), t, None);
      GoesOn(s, StopSource(s.w, s.w.sources[p.c][wid]), t, EndStopped(p.c, p.name, wid));
    }
  }

  lemma EndsDeleteMove(s: State, t: ThreadId)
    requires Tracked(s) && At(s, t) && s.threads[t].EndStopped?
    ensures Moves(s, DoEndDelete(s, t), t)
  {
    var p := s.threads[t];
    DropsSource(s, t, p.c, p.wid, EndLoop(p.c, p.name));
  }

  lemma GotInformerMoves(s: State, t: ThreadId, w: World, ok: bool)
    requires Tracked(s) && KeepsTrack(s.w, w) && w.sources == s.w.sources
    requires t in s.threads && (s.threads[t].StartLoop? || s.threads[t].StartLooking?)
    requires s.threads[t].i < |s.threads[t].ws|
    ensures var p := s.threads[t]; Moves(s, GotInformer(Become(s, w), t, p.c, p.ws, p.a, p.i, ok), t)
  {
  }

  lemma StartsNextMove(s: State, t: ThreadId, starts: bool, ok: bool)
    requires Tracked(s) && At(s, t) && s.threads[t].StartLoop?
    ensures Moves(s, DoStartNext(s, t, starts, ok), t)
  {
    var p := s.threads[t];
    if p.i >= |p.ws| {
      GivesUp(s, t, p.c);
    } else if Running(s.w, p.a, p.c, p.ws[p.i]) {
      GoesOn(s, s.w, t, StartLoop(p.c, p.ws, p.a, p.i + 1));
    } else if p.ws[p.i].kind in s.w.active {
      InformersKeepTrack(s.w, p.ws[p.i].kind, starts);
      GotInformerMoves(s, t, WithInformer(s.w, p.ws[p.i].kind, starts), ok);
    } else {
      GoesOn(s, s.w, t, StartLooking(p.c, p.ws, p.a, p.i));
    }
  }

  lemma StartsLookMove(s: State, t: ThreadId, starts: bool, ok: bool)
    requires Tracked(s) && At(s, t) && s.threads[t].StartLooking?
    ensures Moves(s, DoStartLookLocked(s, t, starts, ok), t)
  {
    var k := s.threads[t].ws[s.threads[t].i].kind;
    InformersKeepTrack(s.w, k, starts);
    GotInformerMoves(s, t, WithInformer(Activate(s.w, k), k, starts), ok);
  }

  /** The goroutine that takes the step; Start is one step of any goroutine. */
  function Actor(a: Action): Option<ThreadId> {
    if a.StartController? then None else Some(a.t)
  }

  lemma StepMoves(s: State, a: Action)
    requires Tracked(s) && Enabled(s, a) && Actor(a).Some?
    ensures Moves(s, Apply(s, a), Actor(a).value)
  {
    match a
    case AskStart(t, name, ws) => AsksMove(s, t, name, ws);
    case AskStop(t, name, ws) => AsksMove(s, t, name, ws);
    case AskEnd(t, name) => AsksMove(s, t, name, []);
    case StartNext(t, starts, ok) => StartsNextMove(s, t, starts, ok);
    case StartLookLocked(t, starts, ok) => StartsLookMove(s, t, starts, ok);
    case Look(t, k, starts) => LooksMove(s, t, k, starts);
    case LookLocked(t, starts) => LooksLockedMove(s, t, starts);
    case Remove(t, k) => RemovesMove(s, t, k);
    case RemoveLocked(t) => RemovesLockedMove(s, t);
    case SeeActive(t) => SeesActiveMove(s, t);
    case CheckStart(t) => ChecksStartMove(s, t);
    case CheckStop(t) => ChecksStopMove(s, t);
    case LockStart(t) => LocksStartMove(s, t);
    case LockStop(t) => LocksStopMove(s, t);
    case LockEnd(t) => LocksEndMove(s, t);
    case SeeActiveAgain(t) => SeesActiveAgainMoves(s, t);
    case WatchSource(t, ok) => WatchesSourceMove(s, t, ok);
    case RecordSource(t) => RecordsSourceMove(s, t);
    case StopNext(t, ok) => StopsNextMove(s, t, ok);
    case StopDelete(t) => StopsDeleteMove(s, t);
    case EndNext(t, wid, ok) => EndsNextMove(s, t, wid, ok);
    case EndDelete(t) => EndsDeleteMove(s, t);
  }

  lemma StepStaysTracked(s: State, a: Action)
    requires Tracked(s) && Enabled(s, a)
    ensures Tracked(Apply(s, a)) && KeepsTrack(s.w, Apply(s, a).w)
  {
    if Actor(a).Some? {
      StepMoves(s, a);
      StepMovesEngineLock(s, a);
      MovesTracked(s, Apply(s, a), Actor(a).value);
    }
  }

  /** Between the two states others moved: t did not, and the sources of the controller that it
      holds are as they were, as are all controllers if it holds the engine's lock. */
  ghost predicate LeftAlone(s: State, r: State, t: ThreadId) {
    && (t in r.threads <==> t in s.threads) && (t in s.threads ==> r.threads[t] == s.threads[t])
    && (s.engineLock == Some(t) ==> r.engineLock == Some(t) && r.w.controllers == s.w.controllers)
    && (HeldBy(s, t).Some? ==> SameSources(s.w, r.w, HeldBy(s, t).value))
  }

  ghost predicate SameSources(v: World, w: World, c: Id) {
    c in v.sources && c in w.sources && w.sources[c] == v.sources[c]
  }

  lemma LeavesAlone(s: State, a: Action, t: ThreadId)
    requires Tracked(s) && Enabled(s, a) && Actor(a) != Some(t)
    ensures LeftAlone(s, Apply(s, a), t)
  {
    if Actor(a).Some? {
      StepMoves(s, a);
      StepMovesEngineLock(s, a);
    }
  }

  lemma AloneStill(s: State, r: State, q: State, t: ThreadId)
    requires LeftAlone(s, r, t) && LeftAlone(r, q, t)
    ensures LeftAlone(s, q, t)
  {
  }

  lemma TrackKeepsDead(v: World, w: World, x: Id)
    requires KeepsTrack(v, w) && x < v.next && !Live(v, x)
    ensures x < w.next && !Live(w, x)
  {
  }

  lemma StepKeepsTrack(run: seq<State>, i: nat)
    requires IsRun(run) && i + 1 < |run| && Tracked(run[i])
    ensures Tracked(run[i + 1]) && KeepsTrack(run[i].w, run[i + 1].w)
  {
    assert StepsAt(run, i);
    var a :| Enabled(run[i], a) && run[i + 1] == Apply(run[i], a);
    StepStaysTracked(run[i], a);
  }

  lemma {:induction false} RunStaysTracked(run: seq<State>, i: nat)
    requires IsRun(run) && i < |run|
    ensures Tracked(run[i])
  {
    if i > 0 {
      RunStaysTracked(run, i - 1);
      StepKeepsTrack(run, i - 1);
    }
  }

  lemma ListingRunStaysTracked(lists: iset<seq<WatchID>>, run: seq<State>)
    requires IsRunListing(lists, run)
    ensures Tracked(Last(run))
  {
    forall i | 0 <= i < |run| - 1 ensures StepsAt(run, i) {
      assert ListingAt(lists, run, i);
    }
    RunStaysTracked(run, |run| - 1);
  }

  /** In every reachable state the informers that run are tracked as active. */
  lemma RunningIsTracked(run: seq<State>, i: nat)
    requires IsRun(run) && i < |run|
    ensures run[i].w.running.Keys <= run[i].w.active
  {
    RunStaysTracked(run, i);
  }

  /** No goroutine ever finds its controller gone or its watch out of range. */
  lemma AlwaysWellPlaced(run: seq<State>, i: nat, t: ThreadId)
    requires IsRun(run) && i < |run| && t in run[i].threads
    ensures WellPlaced(run[i].w, run[i].threads[t])
  {
    RunStaysTracked(run, i);
  }

  /** What is not live any more, its informer stopped or its registration removed, stays so:
      no source comes back to life. */
  lemma {:induction false} DeadForGood(run: seq<State>, i: nat, j: nat, x: Id)
    requires IsRun(run) && i <= j < |run|
    requires x < run[i].w.next && !Live(run[i].w, x)
    ensures x < run[j].w.next && !Live(run[j].w, x)
  {
    if i < j {
      DeadForGood(run, i, j - 1, x);
      RunStaysTracked(run, j - 1);
      StepKeepsTrack(run, j - 1);
      TrackKeepsDead(run[j - 1].w, run[j].w, x);
    }
  }
}
