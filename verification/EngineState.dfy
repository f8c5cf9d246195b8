/** The controller engine and its informer tracking cache as one state machine.  A step is
    what one goroutine does inside one critical section, or between two of them; the
    goroutines interleave freely.  (engine.go, cache.go and source.go.) */
module EngineState {
  import opened Results

  type Kind = string  // a group, version and kind
  datatype WatchID = WatchID(watchType: string, kind: Kind)

  type ThreadId = int
  /** Controller objects, informers and sources, all numbered from one counter. */
  type Id = int

  /** A source's registration of an event handler with an informer. */
  datatype Handler = Handler(ctrl: Id, wid: WatchID, inf: Id)

  /** Where a goroutine is between two of its steps. */
  datatype Pc =
    // Get, List, GetInformer or GetInformerForKind gave up the read lock
    | Looking(kind: Kind)
    // RemoveInformer gave up the read lock
    | Removing(kind: Kind)
    // StartWatches: has the controller; has a snapshot of the active informers; wants the write lock
    | StartAsked(c: Id, ws: seq<WatchID>)
    | StartSeen(c: Id, ws: seq<WatchID>, a: set<Kind>)
    | StartWaiting(c: Id, ws: seq<WatchID>)
    // StartWatches holding the write lock: before its snapshot; before the i-th watch; inside GetInformer
    // for it; with its informer; with its handler registered but not yet recorded
    | StartLocked(c: Id, ws: seq<WatchID>)
    | StartLoop(c: Id, ws: seq<WatchID>, a: set<Kind>, i: nat)
    | StartLooking(c: Id, ws: seq<WatchID>, a: set<Kind>, i: nat)
    | StartGot(c: Id, ws: seq<WatchID>, a: set<Kind>, i: nat, inf: Id)
    | StartWatched(c: Id, ws: seq<WatchID>, a: set<Kind>, i: nat, src: Id)
    // StopWatches: has the controller; wants the write lock; before the i-th watch; its source stopped
    | StopAsked(c: Id, ws: seq<WatchID>)
    | StopWaiting(c: Id, ws: seq<WatchID>)
    | StopLoop(c: Id, ws: seq<WatchID>, i: nat)
    | StopStopped(c: Id, ws: seq<WatchID>, i: nat)
    // Stop: holds the engine's lock; holds the controller's too; one source stopped
    | EndWaiting(c: Id, name: string)
    | EndLoop(c: Id, name: string)
    | EndStopped(c: Id, name: string, wid: WatchID)

  /** What the goroutines share, locks aside. */
  datatype World = World(
    active: set<Kind>,                        // what the cache believes to be running
    running: map<Kind, Id>,                   // the informers that do run
    stopped: set<Id>,                         // informers that ran once; they never run again
    controllers: map<string, Id>,             // the engine's running controllers
    sources: map<Id, map<WatchID, Id>>,       // of every controller object ever made
    handlers: map<Id, Handler>,               // registrations, by the source that made them
    next: Id)

  datatype State = State(
    w: World,
    engineLock: Option<ThreadId>,             // who holds the engine's lock for writing
    locks: map<Id, ThreadId>,                 // who holds a controller's lock for writing
    threads: map<ThreadId, Pc>)               // goroutines inside an operation

  const START := State(World({}, map[], {}, map[], map[], map[], 0), None, map[], map[])

  // ----- The cache -----

  /** The wrapped cache looks an informer up, starting it when there is none (or failing). */
  function WithInformer(w: World, k: Kind, starts: bool): World {
    if k in w.running || !starts then w else w.(running := w.running[k := w.next], next := w.next + 1)
  }

  function WithoutInformer(w: World, k: Kind): World {
    if k !in w.running then w else w.(running := w.running - {k}, stopped := w.stopped + {w.running[k]})
  }

  function Activate(w: World, k: Kind): World {
    w.(active := w.active + {k})
  }

  function Deactivate(w: World, k: Kind): World {
    w.(active := w.active - {k})
  }

  function Become(s: State, w: World): State {
    s.(w := w)
  }

  function Goto(s: State, t: ThreadId, pc: Pc): State {
    s.(threads := s.threads[t := pc])
  }

  function Leave(s: State, t: ThreadId): State {
    s.(threads := s.threads - {t})
  }

  function DoLook(s: State, t: ThreadId, k: Kind, starts: bool): State {
    if k in s.w.active then Become(s, WithInformer(s.w, k, starts)) else Goto(s, t, Looking(k))
  }

  function DoLookLocked(s: State, t: ThreadId, starts: bool): State
    requires t in s.threads && s.threads[t].Looking?
  {
    var k := s.threads[t].kind;
    Leave(Become(s, WithInformer(Activate(s.w, k), k, starts)), t)
  }

  function DoRemove(s: State, t: ThreadId, k: Kind): State {
    if k !in s.w.active then Become(s, WithoutInformer(s.w, k)) else Goto(s, t, Removing(k))
  }

  function DoRemoveLocked(s: State, t: ThreadId): State
    requires t in s.threads && s.threads[t].Removing?
  {
    var k := s.threads[t].kind;
    Leave(Become(s, Deactivate(WithoutInformer(s.w, k), k)), t)
  }

  // ----- Start, and the first parts of StartWatches, StopWatches and Stop -----

  function NewController(w: World, name: string): World {
    w.(controllers := w.controllers[name := w.next], sources := w.sources[w.next := map[]], next := w.next + 1)
  }

  function WithoutController(w: World, name: string): World {
    w.(controllers := w.controllers - {name})
  }

  function Register(w: World, h: Handler): World {
    w.(handlers := w.handlers[w.next := h], next := w.next + 1)
  }

  function Recorded(w: World, c: Id, wid: WatchID, src: Id): World
    requires c in w.sources
  {
    w.(sources := w.sources[c := w.sources[c][wid := src]])
  }

  function Dropped(w: World, c: Id, wid: WatchID): World
    requires c in w.sources
  {
    w.(sources := w.sources[c := w.sources[c] - {wid}])
  }

  function DoStartController(s: State, name: string): State {
    if name in s.w.controllers then s
    else Become(s, NewController(s.w, name))
  }

  /** StartWatches, StopWatches and Stop first find the controller, under the engine's lock. */
  function DoAskStart(s: State, t: ThreadId, name: string, ws: seq<WatchID>): State {
    if name in s.w.controllers then Goto(s, t, StartAsked(s.w.controllers[name], ws)) else s
  }

  function DoAskStop(s: State, t: ThreadId, name: string, ws: seq<WatchID>): State {
    if name in s.w.controllers then Goto(s, t, StopAsked(s.w.controllers[name], ws)) else s
  }

  function DoAskEnd(s: State, t: ThreadId, name: string): State {
    if name in s.w.controllers then Goto(s, t, EndWaiting(s.w.controllers[name], name)).(engineLock := Some(t)) else s
  }

  predicate Running(w: World, a: set<Kind>, c: Id, wid: WatchID)
    requires c in w.sources
  {
    wid in w.sources[c] && wid.kind in a
  }

  function DoSeeActive(s: State, t: ThreadId): State
    requires t in s.threads && s.threads[t].StartAsked?
  {
    var p := s.threads[t];
    Goto(s, t, StartSeen(p.c, p.ws, s.w.active))
  }

  /** Under the controller's read lock: is there a watch to start? */
  function DoCheckStart(s: State, t: ThreadId): State
    requires t in s.threads && s.threads[t].StartSeen? && s.threads[t].c in s.w.sources
  {
    var p := s.threads[t];
    if forall i :: 0 <= i < |p.ws| ==> Running(s.w, p.a, p.c, p.ws[i]) then Leave(s, t)
    else Goto(s, t, StartWaiting(p.c, p.ws))
  }

  function DoCheckStop(s: State, t: ThreadId): State
    requires t in s.threads && s.threads[t].StopAsked? && s.threads[t].c in s.w.sources
  {
    var p := s.threads[t];
    if forall i :: 0 <= i < |p.ws| ==> p.ws[i] !in s.w.sources[p.c] then Leave(s, t)
    else Goto(s, t, StopWaiting(p.c, p.ws))
  }

  function Unlock(s: State, t: ThreadId, c: Id): State {
    Leave(s.(locks := s.locks - {c}), t)
  }

  function DoLockStart(s: State, t: ThreadId): State
    requires t in s.threads && s.threads[t].StartWaiting?
  {
    var p := s.threads[t];
    Goto(s.(locks := s.locks[p.c := t]), t, StartLocked(p.c, p.ws))
  }

  function DoLockStop(s: State, t: ThreadId): State
    requires t in s.threads && s.threads[t].StopWaiting?
  {
    var p := s.threads[t];
    Goto(s.(locks := s.locks[p.c := t]), t, StopLoop(p.c, p.ws, 0))
  }

  function DoLockEnd(s: State, t: ThreadId): State
    requires t in s.threads && s.threads[t].EndWaiting?
  {
    var p := s.threads[t];
    Goto(s.(locks := s.locks[p.c := t]), t, EndLoop(p.c, p.name))
  }

  // ----- StartWatches with the lock -----

  function DoSeeActiveAgain(s: State, t: ThreadId): State
    requires t in s.threads && s.threads[t].StartLocked?
  {
    var p := s.threads[t];
    Goto(s, t, StartLoop(p.c, p.ws, s.w.active, 0))
  }

  /** The next watch: skip it, or ask the cache for its informer. */
  function DoStartNext(s: State, t: ThreadId, starts: bool, ok: bool): State
    requires t in s.threads && s.threads[t].StartLoop? && s.threads[t].c in s.w.sources
  {
    var p := s.threads[t];
    if p.i >= |p.ws| then Unlock(s, t, p.c)
    else
      var wid := p.ws[p.i];
      if Running(s.w, p.a, p.c, wid) then Goto(s, t, StartLoop(p.c, p.ws, p.a, p.i + 1))
      else if wid.kind in s.w.active then
        GotInformer(Become(s, WithInformer(s.w, wid.kind, starts)), t, p.c, p.ws, p.a, p.i, ok)
      else Goto(s, t, StartLooking(p.c, p.ws, p.a, p.i))
  }

  /** GetInformer returned: with an informer, or with an error that ends StartWatches. */
  function GotInformer(s: State, t: ThreadId, c: Id, ws: seq<WatchID>, a: set<Kind>, i: nat, ok: bool): State
    requires i < |ws|
  {
    if ok && ws[i].kind in s.w.running then Goto(s, t, StartGot(c, ws, a, i, s.w.running[ws[i].kind]))
    else Unlock(s, t, c)
  }

  function DoStartLookLocked(s: State, t: ThreadId, starts: bool, ok: bool): State
    requires t in s.threads && s.threads[t].StartLooking? && s.threads[t].i < |s.threads[t].ws|
  {
    var p := s.threads[t];
    var k := p.ws[p.i].kind;
    GotInformer(Become(s, WithInformer(Activate(s.w, k), k, starts)), t, p.c, p.ws, p.a, p.i, ok)
  }

  /** The controller starts the source: it registers a handler, or fails. */
  function DoWatchSource(s: State, t: ThreadId, ok: bool): State
    requires t in s.threads && s.threads[t].StartGot? && s.threads[t].i < |s.threads[t].ws|
  {
    var p := s.threads[t];
    if !ok then Unlock(s, t, p.c)
    else Goto(Become(s, Register(s.w, Handler(p.c, p.ws[p.i], p.inf))), t, StartWatched(p.c, p.ws, p.a, p.i, s.w.next))
  }

  function DoRecordSource(s: State, t: ThreadId): State
    requires t in s.threads && s.threads[t].StartWatched? && s.threads[t].i < |s.threads[t].ws|
    requires s.threads[t].c in s.w.sources
  {
    var p := s.threads[t];
    Goto(Become(s, Recorded(s.w, p.c, p.ws[p.i], p.src)), t, StartLoop(p.c, p.ws, p.a, p.i + 1))
  }

  // ----- StopWatches and Stop with the lock -----

  /** StoppableSource.Stop has nothing to do without a registration or on a stopped informer;
      otherwise it removes the handler, which can fail. */
  predicate NothingToStop(w: World, src: Id) {
    src !in w.handlers || w.handlers[src].inf in w.stopped
  }

  predicate StopsSource(w: World, src: Id, ok: bool) {
    ok || NothingToStop(w, src)
  }

  function StopSource(w: World, src: Id): World {
    if NothingToStop(w, src) then w else w.(handlers := w.handlers - {src})
  }

  function DoStopNext(s: State, t: ThreadId, ok: bool): State
    requires t in s.threads && s.threads[t].StopLoop? && s.threads[t].c in s.w.sources
  {
    var p := s.threads[t];
    if p.i >= |p.ws| then Unlock(s, t, p.c)
    else if p.ws[p.i] !in s.w.sources[p.c] then Goto(s, t, StopLoop(p.c, p.ws, p.i + 1))
    else
      var src := s.w.sources[p.c][p.ws[p.i]];
      if StopsSource(s.w, src, ok) then Goto(Become(s, StopSource(s.w, src)), t, StopStopped(p.c, p.ws, p.i))
      else Unlock(s, t, p.c)
  }

  function DoStopDelete(s: State, t: ThreadId): State
    requires t in s.threads && s.threads[t].StopStopped? && s.threads[t].i < |s.threads[t].ws|
    requires s.threads[t].c in s.w.sources
  {
    var p := s.threads[t];
    Goto(Become(s, Dropped(s.w, p.c, p.ws[p.i])), t, StopLoop(p.c, p.ws, p.i + 1))
  }

  /** Stop takes the sources in any order; when none is left the controller goes. */
  function DoEndNext(s: State, t: ThreadId, wid: WatchID, ok: bool): State
    requires t in s.threads && s.threads[t].EndLoop? && s.threads[t].c in s.w.sources
    requires s.w.sources[s.threads[t].c] == map[] || wid in s.w.sources[s.threads[t].c]
  {
    var p := s.threads[t];
    if s.w.sources[p.c] == map[] then Become(Unlock(s, t, p.c), WithoutController(s.w, p.name)).(engineLock := None)
    else
      var src := s.w.sources[p.c][wid];
      if StopsSource(s.w, src, ok) then Goto(Become(s, StopSource(s.w, src)), t, EndStopped(p.c, p.name, wid))
      else Unlock(s, t, p.c).(engineLock := None)
  }

  function DoEndDelete(s: State, t: ThreadId): State
    requires t in s.threads && s.threads[t].EndStopped? && s.threads[t].c in s.w.sources
  {
    var p := s.threads[t];
    Goto(Become(s, Dropped(s.w, p.c, p.wid)), t, EndLoop(p.c, p.name))
  }

  // ----- Runs -----

  predicate Idle(s: State, t: ThreadId) {
    t !in s.threads
  }

  predicate At(s: State, t: ThreadId) {
    t in s.threads
  }

  predicate Free(s: State, c: Id) {
    c !in s.locks
  }

  function Controller(pc: Pc): Option<Id> {
    if pc.Looking? || pc.Removing? then None else Some(pc.c)
  }

  /** The controller exists, and the watch in hand is one of those asked for. */
  predicate WellPlaced(w: World, pc: Pc) {
    && (Controller(pc).Some? ==> Controller(pc).value in w.sources)
    && (pc.StartLooking? || pc.StartGot? || pc.StartWatched? || pc.StopStopped? ==> pc.i < |pc.ws|)
  }

  predicate DistinctIDs(ws: seq<WatchID>) {
    forall i, j :: 0 <= i < j < |ws| ==> ws[i] != ws[j]
  }

  datatype Action =
    | Look(t: ThreadId, kind: Kind, starts: bool) | LookLocked(t: ThreadId, starts: bool)
    | Remove(t: ThreadId, kind: Kind) | RemoveLocked(t: ThreadId)
    | StartController(name: string)
    | AskStart(t: ThreadId, name: string, ws: seq<WatchID>) | SeeActive(t: ThreadId) | CheckStart(t: ThreadId)
    | LockStart(t: ThreadId) | SeeActiveAgain(t: ThreadId) | StartNext(t: ThreadId, starts: bool, ok: bool)
    | StartLookLocked(t: ThreadId, starts: bool, ok: bool)
    | WatchSource(t: ThreadId, ok: bool) | RecordSource(t: ThreadId)
    | AskStop(t: ThreadId, name: string, ws: seq<WatchID>) | CheckStop(t: ThreadId) | LockStop(t: ThreadId)
    | StopNext(t: ThreadId, ok: bool) | StopDelete(t: ThreadId)
    | AskEnd(t: ThreadId, name: string) | LockEnd(t: ThreadId)
    | EndNext(t: ThreadId, wid: WatchID, ok: bool) | EndDelete(t: ThreadId)

  /** The goroutine is where the action starts, and the locks the action needs are free. */
  predicate Enabled(s: State, a: Action) {
    match a
    case Look(t, _, _) => Idle(s, t)
    case Remove(t, _) => Idle(s, t)
    case LookLocked(t, _) => At(s, t) && s.threads[t].Looking?
    case RemoveLocked(t) => At(s, t) && s.threads[t].Removing?
    case StartController(_) => s.engineLock == None
    case AskStart(t, _, _) => Idle(s, t) && s.engineLock == None
    case AskStop(t, _, _) => Idle(s, t) && s.engineLock == None
    case AskEnd(t, _) => Idle(s, t) && s.engineLock == None
    case SeeActive(t) => At(s, t) && s.threads[t].StartAsked?
    case CheckStart(t) => At(s, t) && s.threads[t].StartSeen? && WellPlaced(s.w, s.threads[t])
      && Free(s, s.threads[t].c)
    case CheckStop(t) => At(s, t) && s.threads[t].StopAsked? && WellPlaced(s.w, s.threads[t]) && Free(s, s.threads[t].c)
    case LockStart(t) => At(s, t) && s.threads[t].StartWaiting? && Free(s, s.threads[t].c)
    case LockStop(t) => At(s, t) && s.threads[t].StopWaiting? && Free(s, s.threads[t].c)
    case LockEnd(t) => At(s, t) && s.threads[t].EndWaiting? && Free(s, s.threads[t].c)
    case SeeActiveAgain(t) => At(s, t) && s.threads[t].StartLocked?
    case StartNext(t, _, _) => At(s, t) && s.threads[t].StartLoop? && WellPlaced(s.w, s.threads[t])
    case StartLookLocked(t, _, _) => At(s, t) && s.threads[t].StartLooking? && WellPlaced(s.w, s.threads[t])
    case WatchSource(t, _) => At(s, t) && s.threads[t].StartGot? && WellPlaced(s.w, s.threads[t])
    case RecordSource(t) => At(s, t) && s.threads[t].StartWatched? && WellPlaced(s.w, s.threads[t])
    case StopNext(t, _) => At(s, t) && s.threads[t].StopLoop? && WellPlaced(s.w, s.threads[t])
    case StopDelete(t) => At(s, t) && s.threads[t].StopStopped? && WellPlaced(s.w, s.threads[t])
    case EndNext(t, wid, _) => At(s, t) && s.threads[t].EndLoop? && WellPlaced(s.w, s.threads[t])
      && (s.w.sources[s.threads[t].c] == map[] || wid in s.w.sources[s.threads[t].c])
    case EndDelete(t) => At(s, t) && s.threads[t].EndStopped? && WellPlaced(s.w, s.threads[t])
  }

  function Apply(s: State, a: Action): State
    requires Enabled(s, a)
  {
    match a
    case Look(t, k, ok) => DoLook(s, t, k, ok)
    case Remove(t, k) => DoRemove(s, t, k)
    case LookLocked(t, ok) => DoLookLocked(s, t, ok)
    case RemoveLocked(t) => DoRemoveLocked(s, t)
    case StartController(name) => DoStartController(s, name)
    case AskStart(t, name, ws) => DoAskStart(s, t, name, ws)
    case AskStop(t, name, ws) => DoAskStop(s, t, name, ws)
    case AskEnd(t, name) => DoAskEnd(s, t, name)
    case SeeActive(t) => DoSeeActive(s, t)
    case CheckStart(t) => DoCheckStart(s, t)
    case CheckStop(t) => DoCheckStop(s, t)
    case LockStart(t) => DoLockStart(s, t)
    case LockStop(t) => DoLockStop(s, t)
    case LockEnd(t) => DoLockEnd(s, t)
    case SeeActiveAgain(t) => DoSeeActiveAgain(s, t)
    case StartNext(t, starts, ok) => DoStartNext(s, t, starts, ok)
    case StartLookLocked(t, starts, ok) => DoStartLookLocked(s, t, starts, ok)
    case WatchSource(t, ok) => DoWatchSource(s, t, ok)
    case RecordSource(t) => DoRecordSource(s, t)
    case StopNext(t, ok) => DoStopNext(s, t, ok)
    case StopDelete(t) => DoStopDelete(s, t)
    case EndNext(t, wid, ok) => DoEndNext(s, t, wid, ok)
    case EndDelete(t) => DoEndDelete(s, t)
  }

  /** A call of StartWatches lists no watch twice. */
  predicate Sensible(a: Action) {
    a.AskStart? ==> DistinctIDs(a.ws)
  }

  ghost predicate Steps(s: State, r: State) {
    exists a :: Enabled(s, a) && r == Apply(s, a)
  }

  ghost predicate SensibleStep(s: State, r: State) {
    exists a :: Enabled(s, a) && r == Apply(s, a) && Sensible(a)
  }

  ghost predicate StepsAt(run: seq<State>, i: nat)
    requires i + 1 < |run|
  {
    Steps(run[i], run[i + 1])
  }

  ghost predicate SensibleAt(run: seq<State>, i: nat)
    requires i + 1 < |run|
  {
    SensibleStep(run[i], run[i + 1])
  }

  /** The states of a run: it starts with an idle engine, and each state comes from the one
      before by a step. */
  ghost predicate IsRun(run: seq<State>) {
    |run| > 0 && run[0] == START && forall i :: 0 <= i < |run| - 1 ==> StepsAt(run, i)
  }

  ghost predicate IsSensibleRun(run: seq<State>) {
    |run| > 0 && run[0] == START && forall i :: 0 <= i < |run| - 1 ==> SensibleAt(run, i)
  }

  /** A call of StartWatches lists one of the given lists of watches. */
  ghost predicate Lists(lists: iset<seq<WatchID>>, a: Action) {
    a.AskStart? ==> a.ws in lists
  }

  ghost predicate ListingStep(lists: iset<seq<WatchID>>, s: State, r: State) {
    exists a :: Enabled(s, a) && r == Apply(s, a) && Lists(lists, a)
  }

  ghost predicate ListingAt(lists: iset<seq<WatchID>>, run: seq<State>, i: nat)
    requires i + 1 < |run|
  {
    ListingStep(lists, run[i], run[i + 1])
  }

  ghost predicate IsRunListing(lists: iset<seq<WatchID>>, run: seq<State>) {
    |run| > 0 && run[0] == START && forall i :: 0 <= i < |run| - 1 ==> ListingAt(lists, run, i)
  }

  function Last(run: seq<State>): State
    requires run != []
  {
    run[|run| - 1]
  }
}
