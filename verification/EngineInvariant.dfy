/** What every reachable state of the engine and its cache keeps. */
module EngineInvariant {
  import opened Results
  import opened EngineState

  // ----- The invariant -----

  /** The handler of source x is registered with an informer that still runs. */
  ghost predicate Live(w: World, x: Id) {
    x in w.handlers && w.handlers[x].inf !in w.stopped
  }

  ghost predicate LiveFor(w: World, x: Id, c: Id, wid: WatchID) {
    Live(w, x) && w.handlers[x].ctrl == c && w.handlers[x].wid == wid
  }

  ghost predicate NoneLive(w: World, c: Id, wid: WatchID) {
    forall x :: !LiveFor(w, x, c, wid)
  }

  /** The informers that run are all tracked, and each runs for one kind. */
  ghost predicate CacheOk(w: World) {
    && (forall k :: k in w.running ==> k in w.active && w.running[k] !in w.stopped && w.running[k] < w.next)
    && (forall k, l :: k in w.running && l in w.running && w.running[k] == w.running[l] ==> k == l)
    && (forall x :: x in w.stopped ==> x < w.next)
  }

  /** An informer obtained for a kind is the one that runs for it, until it is stopped. */
  ghost predicate InformerOk(w: World, k: Kind, inf: Id) {
    inf < w.next && (inf !in w.stopped ==> k in w.running && w.running[k] == inf)
  }

  ghost predicate HandlersOk(w: World) {
    forall x :: x in w.handlers ==>
      x < w.next && w.handlers[x].ctrl in w.sources && InformerOk(w, w.handlers[x].wid.kind, w.handlers[x].inf)
  }

  ghost predicate ControllersOk(w: World) {
    && (forall n :: n in w.controllers ==> w.controllers[n] in w.sources)
    && (forall c :: c in w.sources ==> c < w.next)
  }

  /** The controller whose lock a goroutine holds for writing. */
  function Holds(pc: Pc): Option<Id> {
    match pc
    case StartLocked(c, _) => Some(c)
    case StartLoop(c, _, _, _) => Some(c)
    case StartLooking(c, _, _, _) => Some(c)
    case StartGot(c, _, _, _, _) => Some(c)
    case StartWatched(c, _, _, _, _) => Some(c)
    case StopLoop(c, _, _) => Some(c)
    case StopStopped(c, _, _) => Some(c)
    case EndLoop(c, _) => Some(c)
    case EndStopped(c, _, _) => Some(c)
    case _ => None
  }

  ghost predicate LocksOk(s: State) {
    && (forall c :: c in s.locks ==> s.locks[c] in s.threads && Holds(s.threads[s.locks[c]]) == Some(c))
    && (forall t :: t in s.threads && Holds(s.threads[t]).Some? ==>
      Holds(s.threads[t]).value in s.locks && s.locks[Holds(s.threads[t]).value] == t)
  }

  /** No watch still to be looked at has a live handler unless its kind was seen active. */
  ghost predicate LaterClear(w: World, c: Id, ws: seq<WatchID>, a: set<Kind>, i: nat) {
    forall j :: i <= j < |ws| && ws[j].kind !in a ==> NoneLive(w, c, ws[j])
  }

  ghost predicate ThreadOk(w: World, pc: Pc) {
    && WellPlaced(w, pc)
    && match pc
    case StartAsked(_, ws) => DistinctIDs(ws)
    case StartSeen(_, ws, _) => DistinctIDs(ws)
    case StartWaiting(_, ws) => DistinctIDs(ws)
    case StartLocked(_, ws) => DistinctIDs(ws)
    case StartLoop(c, ws, a, i) => DistinctIDs(ws) && LaterClear(w, c, ws, a, i)
    case StartLooking(c, ws, a, i) => DistinctIDs(ws) && LaterClear(w, c, ws, a, i + 1) && NoneLive(w, c, ws[i])
    case StartGot(c, ws, a, i, inf) => DistinctIDs(ws) && LaterClear(w, c, ws, a, i + 1) && NoneLive(w, c, ws[i])
      && InformerOk(w, ws[i].kind, inf)
    case StartWatched(c, ws, a, i, src) => DistinctIDs(ws) && LaterClear(w, c, ws, a, i + 1)
      && forall x :: LiveFor(w, x, c, ws[i]) ==> x == src
    case StopStopped(c, ws, i) => NoneLive(w, c, ws[i])
    case EndStopped(c, _, wid) => NoneLive(w, c, wid)
    case _ => true
  }

  ghost predicate ThreadsOk(s: State) {
    forall t :: t in s.threads ==> ThreadOk(s.w, s.threads[t])
  }

  ghost predicate RecordedAt(w: World, x: Id)
    requires x in w.handlers
  {
    var h := w.handlers[x];
    h.ctrl in w.sources && h.wid in w.sources[h.ctrl] && w.sources[h.ctrl][h.wid] == x
  }

  predicate Recording(pc: Pc, x: Id, h: Handler) {
    pc.StartWatched? && pc.src == x && pc.c == h.ctrl && pc.i < |pc.ws| && pc.ws[pc.i] == h.wid
  }

  /** The goroutine that holds the controller's lock is about to record x. */
  ghost predicate Pending(s: State, x: Id)
    requires x in s.w.handlers
  {
    var h := s.w.handlers[x];
    h.ctrl in s.locks && s.locks[h.ctrl] in s.threads && Recording(s.threads[s.locks[h.ctrl]], x, h)
  }

  /** A live handler is the one its controller has recorded for the watch, or is about to be. */
  ghost predicate AllAccounted(s: State) {
    forall x :: Live(s.w, x) ==> RecordedAt(s.w, x) || Pending(s, x)
  }

  ghost predicate WorldOk(w: World) {
    CacheOk(w) && HandlersOk(w) && ControllersOk(w)
  }

  ghost predicate Inv(s: State) {
    WorldOk(s.w) && LocksOk(s) && ThreadsOk(s) && AllAccounted(s)
  }

  // ----- Changes of the world -----

  /** Whatever was stopped stays stopped, informers that run go on or stop, and no handler
      comes to life, except for a controller that is held. */
  ghost predicate Calm(v: World, w: World, held: Option<Id>) {
    && v.next <= w.next && v.stopped <= w.stopped && v.sources.Keys <= w.sources.Keys
    && (forall k :: k in v.running && v.running[k] !in w.stopped ==> k in w.running && w.running[k] == v.running[k])
    && (forall x :: Live(w, x) && Some(w.handlers[x].ctrl) != held ==> Live(v, x) && v.handlers[x] == w.handlers[x])
  }

  lemma NoneLiveKept(v: World, w: World, held: Option<Id>, c: Id, wid: WatchID)
    requires Calm(v, w, held) && Some(c) != held && NoneLive(v, c, wid)
    ensures NoneLive(w, c, wid)
  {
    forall x ensures !LiveFor(w, x, c, wid) {
      assert !LiveFor(v, x, c, wid);
    }
  }

  lemma LaterClearKept(v: World, w: World, held: Option<Id>, c: Id, ws: seq<WatchID>, a: set<Kind>, i: nat)
    requires Calm(v, w, held) && Some(c) != held && LaterClear(v, c, ws, a, i)
    ensures LaterClear(w, c, ws, a, i)
  {
    forall j | i <= j < |ws| && ws[j].kind !in a ensures NoneLive(w, c, ws[j]) {
      NoneLiveKept(v, w, held, c, ws[j]);
    }
  }

  /** A goroutine that does not hold the controller stays well placed. */
  lemma PcKept(v: World, w: World, held: Option<Id>, pc: Pc)
    requires Calm(v, w, held) && ThreadOk(v, pc) && (held.Some? ==> Holds(pc) != held)
    ensures ThreadOk(w, pc)
  {
    match pc
    case StartLoop(c, ws, a, i) => LaterClearKept(v, w, held, c, ws, a, i);
    case StartLooking(c, ws, a, i) =>
      LaterClearKept(v, w, held, c, ws, a, i + 1);
      NoneLiveKept(v, w, held, c, ws[i]);
    case StartGot(c, ws, a, i, inf) =>
      LaterClearKept(v, w, held, c, ws, a, i + 1);
      NoneLiveKept(v, w, held, c, ws[i]);
    case StartWatched(c, ws, a, i, src) =>
      LaterClearKept(v, w, held, c, ws, a, i + 1);
      forall x | LiveFor(w, x, c, ws[i]) ensures x == src {
        assert LiveFor(v, x, c, ws[i]);
      }
    case StopStopped(c, ws, i) => NoneLiveKept(v, w, held, c, ws[i]);
    case EndStopped(c, name, wid) => NoneLiveKept(v, w, held, c, wid);
    case _ =>
  }

  /** A change that brings no handler to life and keeps the records of those that live. */
  lemma BecomeKeeps(s: State, w: World)
    requires Inv(s) && WorldOk(w) && Calm(s.w, w, None)
    requires forall x :: Live(w, x) && RecordedAt(s.w, x) ==> RecordedAt(w, x)
    ensures Inv(Become(s, w))
  {
    var r := Become(s, w);
    forall t | t in r.threads ensures ThreadOk(w, r.threads[t]) {
      PcKept(s.w, w, None, s.threads[t]);
    }
    forall x | Live(w, x) ensures RecordedAt(w, x) || Pending(r, x) {
      assert Live(s.w, x);
    }
  }

  /** The cache tracks a kind and may start its informer. */
  lemma InformerStarts(w: World, k: Kind, starts: bool)
    requires WorldOk(w)
    ensures var v := WithInformer(Activate(w, k), k, starts); WorldOk(v) && Calm(w, v, None)
  {
  }

  lemma InformerStops(w: World, k: Kind)
    requires WorldOk(w)
    ensures var v := WithoutInformer(w, k); WorldOk(v) && Calm(w, v, None) && k !in v.running
  {
  }

  /** A kind may be forgotten once its informer does not run. */
  lemma KindForgotten(w: World, k: Kind)
    requires WorldOk(w) && k !in w.running
    ensures var v := Deactivate(w, k); WorldOk(v) && Calm(w, v, None)
  {
  }

  lemma ControllerStarts(w: World, name: string)
    requires WorldOk(w)
    ensures var v := NewController(w, name); WorldOk(v) && Calm(w, v, None)
  {
  }

  /** A source stops: afterwards it is not live. */
  lemma SourceStops(w: World, src: Id)
    requires WorldOk(w)
    ensures var v := StopSource(w, src); WorldOk(v) && Calm(w, v, None) && !Live(v, src)
  {
  }

  // ----- Moves of a goroutine -----

  /** What t holds now, idle or not. */
  function HeldBy(s: State, t: ThreadId): Option<Id> {
    if t in s.threads then Holds(s.threads[t]) else None
  }

  /** t owes no record: whatever lives for the controller it holds is recorded. */
  ghost predicate OwesNothing(s: State, t: ThreadId) {
    t in s.threads && s.threads[t].StartWatched? ==>
      forall x :: Live(s.w, x) && s.w.handlers[x].ctrl == s.threads[t].c ==> RecordedAt(s.w, x)
  }

  lemma MoveKeeps(s: State, r: State, t: ThreadId)
    requires Inv(s) && r.w == s.w && OwesNothing(s, t) && LocksOk(r)
    requires forall u :: u != t ==>
      (u in r.threads <==> u in s.threads) && (u in s.threads ==> r.threads[u] == s.threads[u])
    requires forall c :: c in s.locks && s.locks[c] != t ==> c in r.locks && r.locks[c] == s.locks[c]
    requires t in r.threads ==> ThreadOk(s.w, r.threads[t])
    ensures Inv(r)
  {
    forall x | Live(r.w, x) ensures RecordedAt(r.w, x) || Pending(r, x) {
      assert RecordedAt(s.w, x) || Pending(s, x);
    }
  }

  /** A goroutine moves on without taking or releasing a lock. */
  lemma GotoKeeps(s: State, t: ThreadId, pc: Pc)
    requires Inv(s) && ThreadOk(s.w, pc) && HeldBy(s, t) == Holds(pc) && OwesNothing(s, t)
    ensures Inv(Goto(s, t, pc))
  {
    MoveKeeps(s, Goto(s, t, pc), t);
  }

  lemma LeaveKeeps(s: State, t: ThreadId)
    requires Inv(s) && HeldBy(s, t) == None
    ensures Inv(Leave(s, t))
  {
    MoveKeeps(s, Leave(s, t), t);
  }

  lemma LockKeeps(s: State, t: ThreadId, c: Id, pc: Pc)
    requires Inv(s) && ThreadOk(s.w, pc) && HeldBy(s, t) == None && Holds(pc) == Some(c) && Free(s, c)
    ensures Inv(Goto(s.(locks := s.locks[c := t]), t, pc))
  {
    MoveKeeps(s, Goto(s.(locks := s.locks[c := t]), t, pc), t);
  }

  lemma UnlockKeeps(s: State, t: ThreadId, c: Id)
    requires Inv(s) && HeldBy(s, t) == Some(c) && OwesNothing(s, t)
    ensures Inv(Unlock(s, t, c))
  {
    MoveKeeps(s, Unlock(s, t, c), t);
  }

  lemma EngineLockKeeps(s: State, l: Option<ThreadId>)
    requires Inv(s)
    ensures Inv(s.(engineLock := l))
  {
    var r := s.(engineLock := l);
    forall x | Live(r.w, x) ensures RecordedAt(r.w, x) || Pending(r, x) {
      assert RecordedAt(s.w, x) || Pending(s, x);
    }
  }

  // ----- The steps -----

  lemma LookKeeps(s: State, t: ThreadId, k: Kind, starts: bool)
    requires Inv(s) && Idle(s, t)
    ensures Inv(DoLook(s, t, k, starts))
  {
    if k in s.w.active {
      assert Activate(s.w, k) == s.w;
      InformerStarts(s.w, k, starts);
      BecomeKeeps(s, WithInformer(s.w, k, starts));
    } else {
      GotoKeeps(s, t, Looking(k));
    }
  }

  lemma LookLockedKeeps(s: State, t: ThreadId, starts: bool)
    requires Inv(s) && At(s, t) && s.threads[t].Looking?
    ensures Inv(DoLookLocked(s, t, starts))
  {
    var w := WithInformer(Activate(s.w, s.threads[t].kind), s.threads[t].kind, starts);
    InformerStarts(s.w, s.threads[t].kind, starts);
    BecomeKeeps(s, w);
    LeaveKeeps(Become(s, w), t);
  }

  lemma RemoveKeeps(s: State, t: ThreadId, k: Kind)
    requires Inv(s) && Idle(s, t)
    ensures Inv(DoRemove(s, t, k))
  {
    if k !in s.w.active {
      InformerStops(s.w, k);
      BecomeKeeps(s, WithoutInformer(s.w, k));
    } else {
      GotoKeeps(s, t, Removing(k));
    }
  }

  lemma RemoveLockedKeeps(s: State, t: ThreadId)
    requires Inv(s) && At(s, t) && s.threads[t].Removing?
    ensures Inv(DoRemoveLocked(s, t))
  {
    var k := s.threads[t].kind;
    var w := WithoutInformer(s.w, k);
    InformerStops(s.w, k);
    BecomeKeeps(s, w);
    KindForgotten(w, k);
    BecomeKeeps(Become(s, w), Deactivate(w, k));
    LeaveKeeps(Become(s, Deactivate(w, k)), t);
  }

  lemma StartControllerKeeps(s: State, name: string)
    requires Inv(s)
    ensures Inv(DoStartController(s, name))
  {
    if name !in s.w.controllers {
      ControllerStarts(s.w, name);
      BecomeKeeps(s, NewController(s.w, name));
    }
  }

  lemma AskKeeps(s: State, t: ThreadId, name: string, ws: seq<WatchID>)
    requires Inv(s) && Idle(s, t)
    ensures DistinctIDs(ws) ==> Inv(DoAskStart(s, t, name, ws))
    ensures Inv(DoAskStop(s, t, name, ws)) && Inv(DoAskEnd(s, t, name))
  {
    if name in s.w.controllers {
      var c := s.w.controllers[name];
      if DistinctIDs(ws) { GotoKeeps(s, t, StartAsked(c, ws)); }
      GotoKeeps(s, t, StopAsked(c, ws));
      GotoKeeps(s, t, EndWaiting(c, name));
      EngineLockKeeps(Goto(s, t, EndWaiting(c, name)), Some(t));
    }
  }

  lemma SeeActiveKeeps(s: State, t: ThreadId)
    requires Inv(s) && At(s, t) && s.threads[t].StartAsked?
    ensures Inv(DoSeeActive(s, t))
  {
    GotoKeeps(s, t, StartSeen(s.threads[t].c, s.threads[t].ws, s.w.active));
  }

  lemma CheckStartKeeps(s: State, t: ThreadId)
    requires Inv(s) && At(s, t) && s.threads[t].StartSeen?
    ensures Inv(DoCheckStart(s, t))
  {
    LeaveKeeps(s, t);
    GotoKeeps(s, t, StartWaiting(s.threads[t].c, s.threads[t].ws));
  }

  lemma CheckStopKeeps(s: State, t: ThreadId)
    requires Inv(s) && At(s, t) && s.threads[t].StopAsked?
    ensures Inv(DoCheckStop(s, t))
  {
    LeaveKeeps(s, t);
    GotoKeeps(s, t, StopWaiting(s.threads[t].c, s.threads[t].ws));
  }

  lemma LockStartKeeps(s: State, t: ThreadId)
    requires Inv(s) && At(s, t) && s.threads[t].StartWaiting? && Free(s, s.threads[t].c)
    ensures Inv(DoLockStart(s, t))
  {
    var p := s.threads[t];
    LockKeeps(s, t, p.c, StartLocked(p.c, p.ws));
  }

  lemma LockStopKeeps(s: State, t: ThreadId)
    requires Inv(s) && At(s, t) && s.threads[t].StopWaiting? && Free(s, s.threads[t].c)
    ensures Inv(DoLockStop(s, t))
  {
    var p := s.threads[t];
    LockKeeps(s, t, p.c, StopLoop(p.c, p.ws, 0));
  }

  lemma LockEndKeeps(s: State, t: ThreadId)
    requires Inv(s) && At(s, t) && s.threads[t].EndWaiting? && Free(s, s.threads[t].c)
    ensures Inv(DoLockEnd(s, t))
  {
    var p := s.threads[t];
    LockKeeps(s, t, p.c, EndLoop(p.c, p.name));
  }

  /** A kind that is not tracked has no informer that runs, so no handler for it is live. */
  lemma UntrackedIsDead(w: World, c: Id, wid: WatchID)
    requires WorldOk(w) && wid.kind !in w.active
    ensures NoneLive(w, c, wid)
  {
  }

  lemma SeeActiveAgainKeeps(s: State, t: ThreadId)
    requires Inv(s) && At(s, t) && s.threads[t].StartLocked?
    ensures Inv(DoSeeActiveAgain(s, t))
  {
    var p := s.threads[t];
    forall j | 0 <= j < |p.ws| && p.ws[j].kind !in s.w.active ensures NoneLive(s.w, p.c, p.ws[j]) {
      UntrackedIsDead(s.w, p.c, p.ws[j]);
    }
    GotoKeeps(s, t, StartLoop(p.c, p.ws, s.w.active, 0));
  }

  /** Before a watch is started its controller has no live handler for it. */
  lemma NothingToReplace(s: State, t: ThreadId)
    requires Inv(s) && t in s.threads && s.threads[t].StartLoop? && s.threads[t].i < |s.threads[t].ws|
    requires var p := s.threads[t]; !Running(s.w, p.a, p.c, p.ws[p.i])
    ensures var p := s.threads[t]; NoneLive(s.w, p.c, p.ws[p.i])
  {
    var p := s.threads[t];
    forall x ensures !LiveFor(s.w, x, p.c, p.ws[p.i]) {
      assert Live(s.w, x) ==> RecordedAt(s.w, x) || Pending(s, x);
    }
  }

  /** The cache answers a goroutine that starts watches. */
  lemma GotInformerKeeps(s: State, t: ThreadId, k: Kind, w: World, starts: bool, ok: bool)
    requires Inv(s) && t in s.threads && (s.threads[t].StartLoop? || s.threads[t].StartLooking?)
    requires s.threads[t].i < |s.threads[t].ws| && k == s.threads[t].ws[s.threads[t].i].kind
    requires NoneLive(s.w, s.threads[t].c, s.threads[t].ws[s.threads[t].i])
    requires LaterClear(s.w, s.threads[t].c, s.threads[t].ws, s.threads[t].a, s.threads[t].i + 1)
    requires w == WithInformer(Activate(s.w, k), k, starts)
    ensures var p := s.threads[t]; Inv(GotInformer(Become(s, w), t, p.c, p.ws, p.a, p.i, ok))
  {
    var p := s.threads[t];
    InformerStarts(s.w, k, starts);
    BecomeKeeps(s, w);
    NoneLiveKept(s.w, w, None, p.c, p.ws[p.i]);
    LaterClearKept(s.w, w, None, p.c, p.ws, p.a, p.i + 1);
    if ok && k in w.running {
      GotoKeeps(Become(s, w), t, StartGot(p.c, p.ws, p.a, p.i, w.running[k]));
    } else {
      UnlockKeeps(Become(s, w), t, p.c);
    }
  }

  lemma StartNextKeeps(s: State, t: ThreadId, starts: bool, ok: bool)
    requires Inv(s) && At(s, t) && s.threads[t].StartLoop?
    ensures Inv(DoStartNext(s, t, starts, ok))
  {
    var p := s.threads[t];
    if p.i >= |p.ws| {
      UnlockKeeps(s, t, p.c);
    } else if Running(s.w, p.a, p.c, p.ws[p.i]) {
      GotoKeeps(s, t, StartLoop(p.c, p.ws, p.a, p.i + 1));
    } else {
      var k := p.ws[p.i].kind;
      NothingToReplace(s, t);
      if k in s.w.active {
        assert Activate(s.w, k) == s.w;
        GotInformerKeeps(s, t, k, WithInformer(s.w, k, starts), starts, ok);
      } else {
        GotoKeeps(s, t, StartLooking(p.c, p.ws, p.a, p.i));
      }
    }
  }

  lemma StartLookLockedKeeps(s: State, t: ThreadId, starts: bool, ok: bool)
    requires Inv(s) && At(s, t) && s.threads[t].StartLooking?
    ensures Inv(DoStartLookLocked(s, t, starts, ok))
  {
    var k := s.threads[t].ws[s.threads[t].i].kind;
    GotInformerKeeps(s, t, k, WithInformer(Activate(s.w, k), k, starts), starts, ok);
  }

  /** Registering a handler: the only step that brings one to life. */
  lemma RegisterSettles(w: World, h: Handler)
    requires WorldOk(w) && h.ctrl in w.sources && InformerOk(w, h.wid.kind, h.inf)
    ensures WorldOk(Register(w, h)) && Calm(w, Register(w, h), Some(h.ctrl))
  {
  }

  lemma WatchSourceKeeps(s: State, t: ThreadId, ok: bool)
    requires Inv(s) && At(s, t) && s.threads[t].StartGot?
    ensures Inv(DoWatchSource(s, t, ok))
  {
    var p := s.threads[t];
    if !ok {
      UnlockKeeps(s, t, p.c);
    } else {
      var h := Handler(p.c, p.ws[p.i], p.inf);
      var w, pc := Register(s.w, h), StartWatched(p.c, p.ws, p.a, p.i, s.w.next);
      var r := Goto(Become(s, w), t, pc);
      RegisterSettles(s.w, h);
      RegisteredIsPlaced(s.w, p, h);
      assert LocksOk(r);
      forall u | u in r.threads ensures ThreadOk(w, r.threads[u]) {
        if u != t { PcKept(s.w, w, Some(p.c), s.threads[u]); }
      }
      forall x | Live(w, x) ensures RecordedAt(w, x) || Pending(r, x) {
        if x != s.w.next { assert RecordedAt(s.w, x) || Pending(s, x); }
      }
    }
  }

  /** The goroutine that registered the handler is well placed to record it. */
  lemma RegisteredIsPlaced(w: World, p: Pc, h: Handler)
    requires WorldOk(w) && p.StartGot? && ThreadOk(w, p) && h == Handler(p.c, p.ws[p.i], p.inf)
    ensures ThreadOk(Register(w, h), StartWatched(p.c, p.ws, p.a, p.i, w.next))
  {
    var v := Register(w, h);
    forall j | p.i + 1 <= j < |p.ws| && p.ws[j].kind !in p.a ensures NoneLive(v, p.c, p.ws[j]) {
      forall x ensures !LiveFor(v, x, p.c, p.ws[j]) {
        assert !LiveFor(w, x, p.c, p.ws[j]);
      }
    }
    forall x | LiveFor(v, x, p.c, p.ws[p.i]) ensures x == w.next {
      assert !LiveFor(w, x, p.c, p.ws[p.i]);
    }
  }

  lemma RecordingKeeps(s: State, t: ThreadId)
    requires Inv(s) && At(s, t) && s.threads[t].StartWatched?
    ensures var p := s.threads[t]; Inv(Become(s, Recorded(s.w, p.c, p.ws[p.i], p.src)))
  {
    var p := s.threads[t];
    var w := Recorded(s.w, p.c, p.ws[p.i], p.src);
    forall x | Live(w, x) && RecordedAt(s.w, x) ensures RecordedAt(w, x) {
      assert LiveFor(s.w, x, p.c, p.ws[p.i]) ==> x == p.src;
    }
    BecomeKeeps(s, w);
  }

  /** Once the source is recorded the goroutine owes nothing. */
  lemma RecordingSettlesDebt(s: State, t: ThreadId, w: World)
    requires Inv(s) && At(s, t) && s.threads[t].StartWatched?
    requires var p := s.threads[t]; w == Recorded(s.w, p.c, p.ws[p.i], p.src)
    requires Inv(Become(s, w))
    ensures OwesNothing(Become(s, w), t)
  {
    var p := s.threads[t];
    forall x | Live(w, x) && w.handlers[x].ctrl == p.c ensures RecordedAt(w, x) {
      assert RecordedAt(w, x) || Pending(Become(s, w), x);
    }
  }

  lemma RecordSourceKeeps(s: State, t: ThreadId)
    requires Inv(s) && At(s, t) && s.threads[t].StartWatched?
    ensures Inv(DoRecordSource(s, t))
  {
    var p := s.threads[t];
    var w := Recorded(s.w, p.c, p.ws[p.i], p.src);
    RecordingKeeps(s, t);
    RecordingSettlesDebt(s, t, w);
    LaterClearKept(s.w, w, None, p.c, p.ws, p.a, p.i + 1);
    GotoKeeps(Become(s, w), t, StartLoop(p.c, p.ws, p.a, p.i + 1));
  }

  /** A controller whose recorded source for a watch has stopped has no live handler for it. */
  lemma StoppedLeavesNone(s: State, t: ThreadId, c: Id, wid: WatchID)
    requires Inv(s) && HeldBy(s, t) == Some(c) && !s.threads[t].StartWatched?
    requires c in s.w.sources && wid in s.w.sources[c]
    ensures NoneLive(StopSource(s.w, s.w.sources[c][wid]), c, wid)
  {
    var src := s.w.sources[c][wid];
    var v := StopSource(s.w, src);
    SourceStops(s.w, src);
    forall x ensures !LiveFor(v, x, c, wid) {
      assert Live(v, x) ==> Live(s.w, x);
      assert Live(s.w, x) ==> RecordedAt(s.w, x) || Pending(s, x);
    }
  }

  lemma StopSourceKeeps(s: State, src: Id)
    requires Inv(s)
    ensures Inv(Become(s, StopSource(s.w, src)))
  {
    SourceStops(s.w, src);
    BecomeKeeps(s, StopSource(s.w, src));
  }

  /** A record may go when nothing lives for it. */
  lemma DropKeeps(s: State, c: Id, wid: WatchID)
    requires Inv(s) && c in s.w.sources && NoneLive(s.w, c, wid)
    ensures Inv(Become(s, Dropped(s.w, c, wid)))
  {
    var w := Dropped(s.w, c, wid);
    forall x | Live(w, x) && RecordedAt(s.w, x) ensures RecordedAt(w, x) {
      assert !LiveFor(s.w, x, c, wid);
    }
    BecomeKeeps(s, w);
  }

  lemma StopNextKeeps(s: State, t: ThreadId, ok: bool)
    requires Inv(s) && At(s, t) && s.threads[t].StopLoop?
    ensures Inv(DoStopNext(s, t, ok))
  {
    var p := s.threads[t];
    if p.i < |p.ws| && p.ws[p.i] in s.w.sources[p.c] {
      var src := s.w.sources[p.c][p.ws[p.i]];
      if StopsSource(s.w, src, ok) {
        StoppedLeavesNone(s, t, p.c, p.ws[p.i]);
        StopSourceKeeps(s, src);
        GotoKeeps(Become(s, StopSource(s.w, src)), t, StopStopped(p.c, p.ws, p.i));
      } else {
        UnlockKeeps(s, t, p.c);
      }
    } else if p.i < |p.ws| {
      GotoKeeps(s, t, StopLoop(p.c, p.ws, p.i + 1));
    } else {
      UnlockKeeps(s, t, p.c);
    }
  }

  lemma StopDeleteKeeps(s: State, t: ThreadId)
    requires Inv(s) && At(s, t) && s.threads[t].StopStopped?
    ensures Inv(DoStopDelete(s, t))
  {
    var p := s.threads[t];
    DropKeeps(s, p.c, p.ws[p.i]);
    GotoKeeps(Become(s, Dropped(s.w, p.c, p.ws[p.i])), t, StopLoop(p.c, p.ws, p.i + 1));
  }

  lemma EndNextKeeps(s: State, t: ThreadId, wid: WatchID, ok: bool)
    requires Inv(s) && At(s, t) && s.threads[t].EndLoop?
    requires s.w.sources[s.threads[t].c] == map[] || wid in s.w.sources[s.threads[t].c]
    ensures Inv(DoEndNext(s, t, wid, ok))
  {
    var p := s.threads[t];
    if s.w.sources[p.c] == map[] {
      UnlockKeeps(s, t, p.c);
      var r, w := Unlock(s, t, p.c), WithoutController(s.w, p.name);
      BecomeKeeps(r, w);
      EngineLockKeeps(Become(r, w), None);
    } else {
      var src := s.w.sources[p.c][wid];
      if StopsSource(s.w, src, ok) {
        StoppedLeavesNone(s, t, p.c, wid);
        StopSourceKeeps(s, src);
        GotoKeeps(Become(s, StopSource(s.w, src)), t, EndStopped(p.c, p.name, wid));
      } else {
        UnlockKeeps(s, t, p.c);
        EngineLockKeeps(Unlock(s, t, p.c), None);
      }
    }
  }

  lemma EndDeleteKeeps(s: State, t: ThreadId)
    requires Inv(s) && At(s, t) && s.threads[t].EndStopped?
    ensures Inv(DoEndDelete(s, t))
  {
    var p := s.threads[t];
    DropKeeps(s, p.c, p.wid);
    GotoKeeps(Become(s, Dropped(s.w, p.c, p.wid)), t, EndLoop(p.c, p.name));
  }

  // ----- Every reachable state -----

  lemma StepKeeps(s: State, a: Action)
    requires Inv(s) && Enabled(s, a) && Sensible(a)
    ensures Inv(Apply(s, a))
  {
    match a
    case Look(t, k, starts) => LookKeeps(s, t, k, starts);
    case Remove(t, k) => RemoveKeeps(s, t, k);
    case LookLocked(t, starts) => LookLockedKeeps(s, t, starts);
    case RemoveLocked(t) => RemoveLockedKeeps(s, t);
    case StartController(name) => StartControllerKeeps(s, name);
    case AskStart(t, name, ws) => AskKeeps(s, t, name, ws);
    case AskStop(t, name, ws) => AskKeeps(s, t, name, ws);
    case AskEnd(t, name) => AskKeeps(s, t, name, []);
    case SeeActive(t) => SeeActiveKeeps(s, t);
    case CheckStart(t) => CheckStartKeeps(s, t);
    case CheckStop(t) => CheckStopKeeps(s, t);
    case LockStart(t) => LockStartKeeps(s, t);
    case LockStop(t) => LockStopKeeps(s, t);
    case LockEnd(t) => LockEndKeeps(s, t);
    case SeeActiveAgain(t) => SeeActiveAgainKeeps(s, t);
    case StartNext(t, starts, ok) => StartNextKeeps(s, t, starts, ok);
    case StartLookLocked(t, starts, ok) => StartLookLockedKeeps(s, t, starts, ok);
    case WatchSource(t, ok) => WatchSourceKeeps(s, t, ok);
    case RecordSource(t) => RecordSourceKeeps(s, t);
    case StopNext(t, ok) => StopNextKeeps(s, t, ok);
    case StopDelete(t) => StopDeleteKeeps(s, t);
    case EndNext(t, wid, ok) => EndNextKeeps(s, t, wid, ok);
    case EndDelete(t) => EndDeleteKeeps(s, t);
  }

  lemma {:induction false} RunKeeps(run: seq<State>, i: nat)
    requires IsSensibleRun(run) && i < |run|
    ensures Inv(run[i])
  {
    if i > 0 {
      RunKeeps(run, i - 1);
      assert SensibleAt(run, i - 1);
      var a :| Enabled(run[i - 1], a) && run[i] == Apply(run[i - 1], a) && Sensible(a);
      StepKeeps(run[i - 1], a);
    }
  }

  /** In every reachable state a controller has at most one live handler for a watch ... */
  lemma AtMostOneLiveHandler(run: seq<State>, i: nat, x: Id, y: Id, c: Id, wid: WatchID)
    requires IsSensibleRun(run) && i < |run|
    requires LiveFor(run[i].w, x, c, wid) && LiveFor(run[i].w, y, c, wid)
    ensures x == y
  {
    RunKeeps(run, i);
    var s := run[i];
    assert RecordedAt(s.w, x) || Pending(s, x);
    assert RecordedAt(s.w, y) || Pending(s, y);
    if Pending(s, x) || Pending(s, y) {
      var t := s.locks[c];
      assert ThreadOk(s.w, s.threads[t]);
    }
  }

  /** ... and it is the one the controller has recorded, unless a goroutine that holds the
      controller's lock has just registered it and is about to record it. */
  lemma LiveHandlerIsRecorded(run: seq<State>, i: nat, x: Id, c: Id, wid: WatchID)
    requires IsSensibleRun(run) && i < |run| && LiveFor(run[i].w, x, c, wid)
    ensures c in run[i].w.sources
    ensures Free(run[i], c) ==> wid in run[i].w.sources[c] && run[i].w.sources[c][wid] == x
    ensures RecordedAt(run[i].w, x) || Pending(run[i], x)
  {
    RunKeeps(run, i);
    assert RecordedAt(run[i].w, x) || Pending(run[i], x);
  }
}
