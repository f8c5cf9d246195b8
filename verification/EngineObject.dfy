/** The operations of the controller engine and its informer tracking cache as code over shared
    objects (engine.go, cache.go and source.go), with other goroutines running in between.
    Every operation is proved to be a run of the state machine, so what holds of all runs
    holds of the objects. */
module EngineObject {
  import opened Results
  import opened EngineState
  import opened EngineInvariant
  import opened EngineTracking
  import opened EngineLists

  /** The states that the objects have been through, the latest last. */
  datatype History = Begin(now: State) | Then(before: History, now: State)

  ghost predicate IsHistory(lists: iset<seq<WatchID>>, h: History) {
    match h
    case Begin(s) => s == START
    case Then(before, s) => IsHistory(lists, before) && ListingStep(lists, before.now, s)
  }

  /** h goes on from where it was. */
  ghost predicate Continues(h: History, was: History) {
    h == was || (h.Then? && Continues(h.before, was))
  }

  /** One of the states from was on. */
  ghost predicate Passed(h: History, was: History, s: State) {
    h.now == s || (h != was && h.Then? && Passed(h.before, was, s))
  }

  /** What is noted of an operation: the states when it began; the state in which it looked up
      its controller; and the state in which it last looked at what its answer rests on. */
  datatype Operation = Operation(since: History, found: State, seen: State)

  /** The operation goes on, and what is noted of it happened since it began. */
  ghost predicate Follows(h: History, op: Operation) {
    Continues(h, op.since) && Passed(h, op.since, op.found) && Passed(h, op.since, op.seen)
  }

  lemma FollowsOn(h: History, s: State, op: Operation)
    requires Follows(h, op)
    ensures Follows(Then(h, s), op)
  {
    Longer(h, op.since);
  }

  function Length(h: History): nat {
    if h.Begin? then 1 else 1 + Length(h.before)
  }

  lemma {:induction false} Longer(h: History, was: History)
    requires Continues(h, was)
    ensures Length(was) <= Length(h)
  {
    if h != was { Longer(h.before, was); }
  }

  /** Identifiers are handed out in order. */
  lemma {:induction false} NextGrows(lists: iset<seq<WatchID>>, h: History, was: History)
    requires IsHistory(lists, h) && Continues(h, was)
    ensures was.now.w.next <= h.now.w.next
  {
    if h != was {
      NextGrows(lists, h.before, was);
      HistoryIsRun(lists, h.before);
      ListingRunStaysTracked(lists, RunOf(h.before));
      var a :| Enabled(h.before.now, a) && h.now == Apply(h.before.now, a);
      StepStaysTracked(h.before.now, a);
    }
  }

  function RunOf(h: History): (run: seq<State>)
    ensures run != []
  {
    if h.Begin? then [h.now] else RunOf(h.before) + [h.now]
  }

  lemma {:induction false} HistoryIsRun(lists: iset<seq<WatchID>>, h: History)
    requires IsHistory(lists, h)
    ensures IsRunListing(lists, RunOf(h)) && Last(RunOf(h)) == h.now
  {
    if h.Then? {
      var before, run := RunOf(h.before), RunOf(h);
      HistoryIsRun(lists, h.before);
      forall i: nat | i < |run| - 1 ensures ListingAt(lists, run, i) {
        if i < |before| - 1 { assert ListingAt(lists, before, i); }
      }
    }
  }

  datatype Outcome = Done | NotRunning | Failed | Waits

  class ControllerEngine {
    // The cache: what it tracks; the informers of the cache it wraps.
    var active: set<Kind>
    var running: map<Kind, Id>
    var stopped: set<Id>
    // The engine: its running controllers, and the goroutine that holds its lock for writing.
    var controllers: map<string, Id>
    var engineLock: Option<ThreadId>
    // The controller objects: their sources, and who holds their locks for writing.
    var sources: map<Id, map<WatchID, Id>>
    var locks: map<Id, ThreadId>
    // The sources: the handlers they have registered.
    var handlers: map<Id, Handler>
    var next: Id
    /** Where each goroutine is that is inside an operation. */
    var threads: map<ThreadId, Pc>

    /** The lists of watches that goroutines call StartWatches with. */
    const listed: seq<WatchID> -> bool
    /** The states so far, and what is noted of the operation in hand. */
    ghost var history: History
    ghost var op: Operation

    function View(): State
      reads this
    {
      State(World(active, running, stopped, controllers, sources, handlers, next), engineLock, locks, threads)
    }

    ghost function AllListed(): iset<seq<WatchID>> {
      iset ws: seq<WatchID> | listed(ws)
    }

    /** The objects are in a state that the machine reaches. */
    ghost predicate Valid()
      reads this
    {
      IsHistory(AllListed(), history) && history.now == View() && Follows(history, op)
    }

    constructor (listed: seq<WatchID> -> bool)
      ensures Valid() && this.listed == listed && View() == START
    {
      active, running, stopped := {}, map[], {};
      controllers, engineLock, sources, locks := map[], None, map[], map[];
      handlers, next, threads := map[], 0, map[];
      this.listed := listed;
      history := Begin(START);
      op := Operation(Begin(START), START, START);
    }

    /** What every operation can rely on, whatever other goroutines do: running informers are
        tracked, and if no call lists a watch twice no watch has two live handlers. */
    lemma Guarantees()
      requires Valid()
      ensures running.Keys <= active
      ensures (forall ws :: listed(ws) ==> DistinctIDs(ws)) ==> Unique(View().w)
    {
      HistoryIsRun(AllListed(), history);
      ListingRunStaysTracked(AllListed(), RunOf(history));
      if forall ws :: listed(ws) ==> DistinctIDs(ws) {
        ListedOnceStartsOnce(AllListed(), RunOf(history));
      }
    }

    /** Notes the step just taken. */
    ghost method Log(a: Action)
      requires IsHistory(AllListed(), history) && Follows(history, op)
      requires Enabled(history.now, a) && View() == Apply(history.now, a) && (a.AskStart? ==> listed(a.ws))
      modifies this`history
      ensures Valid() && history == Then(old(history), View())
    {
      FollowsOn(history, View(), op);
      history := Then(history, View());
    }

    /** An operation begins. */
    ghost method BeginOperation()
      requires Valid()
      modifies this`op
      ensures Valid() && op.since == history
    {
      op := Operation(history, View(), View());
    }

    /** The operation looks up its controller in this state. */
    ghost method Find()
      requires Valid()
      modifies this`op
      ensures Valid() && op == old(op).(found := View())
    {
      op := op.(found := View());
    }

    /** What the operation answers rests on this state. */
    ghost method See()
      requires Valid()
      modifies this`op
      ensures Valid() && op == old(op).(seen := View())
    {
      op := op.(seen := View());
    }

    method Assign(s: State)
      modifies this
      ensures View() == s && history == old(history) && op == old(op)
    {
      active, running, stopped := s.w.active, s.w.running, s.w.stopped;
      controllers, engineLock, sources, locks := s.w.controllers, s.engineLock, s.w.sources, s.locks;
      handlers, next, threads := s.w.handlers, s.w.next, s.threads;
    }

    /** Other goroutines take any number of steps.  They leave goroutine t where it is and the
        sources of the controllers that it has locked as they are. */
    method Others(t: ThreadId)
      requires Valid()
      modifies this
      ensures Valid() && op == old(op) && LeftAlone(old(View()), View(), t)
      ensures t in threads ==> WellPlaced(View().w, threads[t])
    {
      HistoryIsRun(AllListed(), history);
      ListingRunStaysTracked(AllListed(), RunOf(history));
      var n: nat :| n >= 0;
      for i := 0 to n
        invariant Valid() && op == old(op) && LeftAlone(old(View()), View(), t) && Tracked(View())
      {
        var a: Action := *;
        if Enabled(View(), a) && Actor(a) != Some(t) && (a.AskStart? ==> listed(a.ws)) {
          LeavesAlone(View(), a, t);
          AloneStill(old(View()), View(), Apply(View(), a), t);
          Other(t, a);
        }
      }
    }

    /** One step that is not goroutine t's. */
    method Other(t: ThreadId, a: Action)
      requires Valid() && Tracked(View())
      requires Enabled(View(), a) && Actor(a) != Some(t) && (a.AskStart? ==> listed(a.ws))
      modifies this
      ensures Valid() && op == old(op) && Tracked(View()) && View() == old(Apply(View(), a))
    {
      StepStaysTracked(View(), a);
      Assign(Apply(View(), a));
      Log(a);
    }

    // ----- The cache -----

    /** The wrapped cache looks an informer up, starting one when none runs (or failing to). */
    method WrappedGet(k: Kind, starts: bool)
      modifies this`running, this`next
      ensures View().w == WithInformer(old(View().w), k, starts)
      ensures running - {k} == old(running) - {k} && (old(k in running) ==> running == old(running))
      ensures starts ==> k in running
    {
      if k !in running && starts {
        running := running[k := next];
        next := next + 1;
      }
    }

    method WrappedRemove(k: Kind)
      modifies this`running, this`stopped
      ensures View().w == WithoutInformer(old(View().w), k) && running == old(running) - {k}
    {
      if k in running {
        stopped := stopped + {running[k]};
        running := running - {k};
      }
    }

    /** Since was, kind k has come to be tracked, and its informer runs if it did or starts; no
        other kind has come or gone. */
    predicate Holds(k: Kind, was: World, starts: bool)
      reads this
    {
      && active == was.active + {k} && running - {k} == was.running - {k}
      && (k in was.running ==> running == was.running) && (starts ==> k in running)
    }

    /** Get, List, GetInformer and GetInformerForKind: the kind is tracked when they return, and
        its informer runs unless there was none and the wrapped cache failed to start it. */
    method Get(t: ThreadId, k: Kind, starts: bool)
      requires Valid() && Idle(View(), t)
      modifies this
      ensures Valid() && op.since == old(history) && Idle(View(), t)
      ensures k in active && Holds(k, op.seen.w, starts)
    {
      BeginOperation();
      Others(t);
      if k in active {
        See();
        WrappedGet(k, starts);
        Log(Look(t, k, starts));
        return;
      }
      threads := threads[t := Looking(k)];
      Log(Look(t, k, starts));
      Others(t);
      GetLocked(t, k, starts);
    }

    method GetLocked(t: ThreadId, k: Kind, starts: bool)
      requires Valid() && t in threads && threads[t] == Looking(k)
      modifies this
      ensures Valid() && op == old(op).(seen := op.seen) && Idle(View(), t)
      ensures Holds(k, op.seen.w, starts)
    {
      See();
      LookStep(View(), t, k, starts);
      active := active + {k};
      WrappedGet(k, starts);
      threads := threads - {t};
      Log(LookLocked(t, starts));
    }

    /** When RemoveInformer returns no informer runs for the kind, and it is not tracked; the other
        kinds go on as they were. */
    method RemoveInformer(t: ThreadId, k: Kind)
      requires Valid() && Idle(View(), t)
      modifies this
      ensures Valid() && op.since == old(history) && Idle(View(), t)
      ensures active == op.seen.w.active - {k} && running == op.seen.w.running - {k}
    {
      BeginOperation();
      Others(t);
      if k !in active {
        See();
        WrappedRemove(k);
        Log(Remove(t, k));
        return;
      }
      threads := threads[t := Removing(k)];
      Log(Remove(t, k));
      Others(t);
      RemoveLocked(t, k);
    }

    method RemoveLocked(t: ThreadId, k: Kind)
      requires Valid() && t in threads && threads[t] == Removing(k)
      modifies this
      ensures Valid() && op == old(op).(seen := op.seen) && Idle(View(), t)
      ensures active == op.seen.w.active - {k} && running == op.seen.w.running - {k}
    {
      See();
      RemoveStep(View(), t, k);
      active := active - {k};
      WrappedRemove(k);
      threads := threads - {t};
      Log(Action.RemoveLocked(t));
    }

    // ----- Start -----

    /** Start does nothing when such a controller runs already.  Otherwise there is one more, with
        no sources; the others go on as they were. */
    method Start(t: ThreadId, name: string) returns (r: Outcome)
      requires Valid() && Idle(View(), t)
      modifies this
      ensures Valid() && op.since == old(history) && Idle(View(), t)
      ensures r == Waits || (r == Done && name in controllers)
      ensures r == Done ==> if name in op.found.w.controllers then View() == op.found else Started(op.found.w, name)
    {
      BeginOperation();
      Others(t);
      if engineLock != None {
        return Waits;
      }
      Find();
      if name !in controllers {
        controllers := controllers[name := next];
        sources := sources[next := map[]];
        next := next + 1;
      }
      Log(StartController(name));
      return Done;
    }

    /** One more controller object than there was, numbered next and without sources. */
    predicate Started(was: World, name: string)
      reads this
    {
      && controllers == was.controllers[name := was.next] && sources == was.sources[was.next := map[]]
      && next > was.next
    }

    // ----- StartWatches -----

    predicate Stands(t: ThreadId, pc: Pc)
      reads this
    {
      t in threads && threads[t] == pc
    }

    /** Controller c has a source for each of the first n watches: one of a kind in a, or one that
        was registered since identifiers had come to from. */
    predicate Watches(c: Id, ws: seq<WatchID>, n: nat, a: set<Kind>, from: Id)
      requires n <= |ws|
      reads this
    {
      c in sources && HasSources(sources[c], ws, n, a, from)
    }

    /** The first n watches are as StartWatches, which began at op.since, leaves them. */
    ghost predicate Settled(c: Id, ws: seq<WatchID>, n: nat, a: set<Kind>)
      requires n <= |ws|
      reads this
    {
      Watches(c, ws, n, a, op.since.now.w.next)
    }

    /** Controller c has a source for every watch, and each is of a kind in a. */
    predicate AllRun(c: Id, ws: seq<WatchID>, a: set<Kind>)
      reads this
    {
      c in sources && forall i :: 0 <= i < |ws| ==> ws[i] in sources[c] && ws[i].kind in a
    }

    /** When StartWatches succeeds the controller that it found running has a source for every
        watch listed.  Each was of a kind whose informer was active at one time during the call,
        or its source was registered during the call. */
    method StartWatches(t: ThreadId, name: string, ws: seq<WatchID>) returns (r: Outcome, c: Id)
      requires Valid() && Idle(View(), t) && listed(ws)
      modifies this
      ensures Valid() && op.since == old(history) && (r != Waits ==> Idle(View(), t))
      ensures r == Done ==> name in op.found.w.controllers && c == op.found.w.controllers[name]
      ensures r == Done ==> Watches(c, ws, |ws|, op.seen.w.active, old(next))
      ensures r == NotRunning ==> name !in op.found.w.controllers
    {
      BeginOperation();
      r, c := FindToStart(t, name, ws);
      if r != Done {
        return;
      }
      var activeInformer := SeeActive(t, c, ws);
      var start;
      r, start := CheckToStart(t, c, ws, activeInformer);
      if r != Done || !start {
        return;
      }
      r := LockAndStart(t, c, ws);
    }

    /** StartWatches from where it takes the lock. */
    method LockAndStart(t: ThreadId, c: Id, ws: seq<WatchID>) returns (r: Outcome)
      requires Valid() && Stands(t, StartWaiting(c, ws))
      modifies this
      ensures Valid() && op == old(op).(seen := op.seen) && (r != Waits ==> Idle(View(), t)) && r != NotRunning
      ensures r == Done ==> Settled(c, ws, |ws|, op.seen.w.active)
    {
      r := LockToStart(t, c, ws);
      if r == Done {
        var activeInformer := SeeActiveAgain(t, c, ws);
        r := StartSources(t, c, ws, activeInformer);
      }
    }

    /** Under the engine's lock. */
    method FindToStart(t: ThreadId, name: string, ws: seq<WatchID>) returns (r: Outcome, c: Id)
      requires Valid() && Idle(View(), t) && listed(ws)
      modifies this
      ensures Valid() && r != Failed && op.since == old(op.since)
      ensures r == Done ==> name in op.found.w.controllers && op.found.w.controllers[name] == c
      ensures r == NotRunning ==> name !in op.found.w.controllers
      ensures if r == Done then Stands(t, StartAsked(c, ws)) else Idle(View(), t)
    {
      c := 0;
      Others(t);
      if engineLock != None {
        return Waits, c;
      }
      Find();
      if name !in controllers {
        Log(AskStart(t, name, ws));
        return NotRunning, c;
      }
      c := controllers[name];
      threads := threads[t := StartAsked(c, ws)];
      Log(AskStart(t, name, ws));
      return Done, c;
    }

    method SeeActive(t: ThreadId, c: Id, ws: seq<WatchID>) returns (activeInformer: set<Kind>)
      requires Valid() && Stands(t, StartAsked(c, ws))
      modifies this
      ensures Valid() && Stands(t, StartSeen(c, ws, activeInformer))
      ensures activeInformer == active && op == old(op).(seen := View())
    {
      Others(t);
      activeInformer := active;
      threads := threads[t := StartSeen(c, ws, activeInformer)];
      Log(Action.SeeActive(t));
      See();
    }

    /** Under the controller's read lock: without a watch to start this was all. */
    method CheckToStart(t: ThreadId, c: Id, ws: seq<WatchID>, activeInformer: set<Kind>)
      returns (r: Outcome, start: bool)
      requires Valid() && Stands(t, StartSeen(c, ws, activeInformer))
      modifies this
      ensures Valid() && op == old(op) && (r == Done || r == Waits)
      ensures r == Done ==> (start <==> !AllRun(c, ws, activeInformer))
      ensures r == Done ==> if start then Stands(t, StartWaiting(c, ws)) else Idle(View(), t)
    {
      Others(t);
      start := false;
      if c in locks {
        return Waits, start;
      }
      start := AnyToStart(c, ws, activeInformer);
      CheckStep(View(), t, c, ws, activeInformer, start);
      threads := if start then threads[t := StartWaiting(c, ws)] else threads - {t};
      Log(CheckStart(t));
      return Done, start;
    }

    /** Is there a watch to start? */
    method AnyToStart(c: Id, ws: seq<WatchID>, activeInformer: set<Kind>) returns (start: bool)
      requires c in sources
      ensures start <==> !AllRun(c, ws, activeInformer)
      ensures start <==> !(forall i :: 0 <= i < |ws| ==> Running(View().w, activeInformer, c, ws[i]))
    {
      for i := 0 to |ws|
        invariant forall j :: 0 <= j < i ==> Running(View().w, activeInformer, c, ws[j])
      {
        if ws[i] in sources[c] && ws[i].kind in activeInformer {
          continue;
        }
        assert !Running(View().w, activeInformer, c, ws[i]);
        return true;
      }
      return false;
    }

    method LockToStart(t: ThreadId, c: Id, ws: seq<WatchID>) returns (r: Outcome)
      requires Valid() && Stands(t, StartWaiting(c, ws))
      modifies this
      ensures Valid() && op == old(op) && (r == Waits || (r == Done && Stands(t, StartLocked(c, ws))))
    {
      Others(t);
      if c in locks {
        return Waits;
      }
      locks := locks[c := t];
      threads := threads[t := StartLocked(c, ws)];
      Log(LockStart(t));
      return Done;
    }

    method SeeActiveAgain(t: ThreadId, c: Id, ws: seq<WatchID>) returns (activeInformer: set<Kind>)
      requires Valid() && Stands(t, StartLocked(c, ws))
      modifies this
      ensures Valid() && Stands(t, StartLoop(c, ws, activeInformer, 0)) && c in sources
      ensures activeInformer == active && op == old(op).(seen := View())
    {
      Others(t);
      activeInformer := active;
      threads := threads[t := StartLoop(c, ws, activeInformer, 0)];
      Log(Action.SeeActiveAgain(t));
      See();
    }

    /** The loop in StartWatches. */
    method StartSources(t: ThreadId, c: Id, ws: seq<WatchID>, activeInformer: set<Kind>) returns (r: Outcome)
      requires Valid() && Stands(t, StartLoop(c, ws, activeInformer, 0)) && c in sources
      modifies this
      ensures Valid() && op == old(op) && Idle(View(), t) && (r == Done || r == Failed)
      ensures r == Done ==> Settled(c, ws, |ws|, activeInformer)
    {
      for i := 0 to |ws|
        invariant Valid() && op == old(op)
        invariant Stands(t, StartLoop(c, ws, activeInformer, i)) && Settled(c, ws, i, activeInformer)
      {
        var ok := StartSource(t, c, ws, activeInformer, i);
        if !ok {
          return Failed;
        }
      }
      FinishStart(t, c, ws, activeInformer);
      return Done;
    }

    /** The end of StartWatches: every watch was looked at. */
    method FinishStart(t: ThreadId, c: Id, ws: seq<WatchID>, activeInformer: set<Kind>)
      requires Valid() && Stands(t, StartLoop(c, ws, activeInformer, |ws|)) && Settled(c, ws, |ws|, activeInformer)
      modifies this
      ensures Valid() && op == old(op) && Idle(View(), t) && Settled(c, ws, |ws|, activeInformer)
    {
      Others(t);
      Unlock(t, c);
      Log(StartNext(t, false, false));
    }

    method Unlock(t: ThreadId, c: Id)
      modifies this`locks, this`threads
      ensures locks == old(locks) - {c} && threads == old(threads) - {t}
    {
      locks := locks - {c};
      threads := threads - {t};
    }

    /** One round of the loop in StartWatches: unless the watch runs, get its informer, start a
        source and record it. */
    method StartSource(t: ThreadId, c: Id, ws: seq<WatchID>, activeInformer: set<Kind>, i: nat) returns (ok: bool)
      requires Valid() && Stands(t, StartLoop(c, ws, activeInformer, i)) && i < |ws|
      requires Settled(c, ws, i, activeInformer)
      modifies this
      ensures Valid() && op == old(op)
      ensures if ok then Stands(t, StartLoop(c, ws, activeInformer, i + 1)) else Idle(View(), t)
      ensures ok ==> Settled(c, ws, i + 1, activeInformer)
    {
      Others(t);
      var wid := ws[i];
      if wid in sources[c] && wid.kind in activeInformer {
        OneMoreSource(sources[c], ws, i, activeInformer, op.since.now.w.next, 0);
        GoOn(t, c, ws, activeInformer, i);
        return true;
      }
      ok := StartAnew(t, c, ws, activeInformer, i);
    }

    method GoOn(t: ThreadId, c: Id, ws: seq<WatchID>, activeInformer: set<Kind>, i: nat)
      requires Valid() && Stands(t, StartLoop(c, ws, activeInformer, i)) && i < |ws| && c in sources
      requires Running(View().w, activeInformer, c, ws[i])
      modifies this`threads, this`history
      ensures Valid() && Stands(t, StartLoop(c, ws, activeInformer, i + 1))
    {
      threads := threads[t := StartLoop(c, ws, activeInformer, i + 1)];
      Log(StartNext(t, false, false));
    }

    method StartAnew(t: ThreadId, c: Id, ws: seq<WatchID>, activeInformer: set<Kind>, i: nat) returns (ok: bool)
      requires Valid() && Stands(t, StartLoop(c, ws, activeInformer, i)) && i < |ws|
      requires Settled(c, ws, i, activeInformer) && !Running(View().w, activeInformer, c, ws[i])
      modifies this
      ensures Valid() && op == old(op)
      ensures if ok then Stands(t, StartLoop(c, ws, activeInformer, i + 1)) else Idle(View(), t)
      ensures ok ==> Settled(c, ws, i + 1, activeInformer)
    {
      ghost var had := sources[c];
      ok := GetInformer(t, c, ws, activeInformer, i);
      if ok {
        ok := Watch(t, c, ws, activeInformer, i);
      }
      if ok {
        OneMoreSource(had, ws, i, activeInformer, op.since.now.w.next, threads[t].src);
        Record(t, c, ws, activeInformer, i);
      }
    }

    /** GetInformer on behalf of StartWatches, as Get above; an error ends StartWatches. */
    method GetInformer(t: ThreadId, c: Id, ws: seq<WatchID>, activeInformer: set<Kind>, i: nat) returns (ok: bool)
      requires Valid() && Stands(t, StartLoop(c, ws, activeInformer, i)) && i < |ws|
      requires c in sources
      requires !Running(View().w, activeInformer, c, ws[i])
      modifies this
      ensures Valid() && op == old(op)
      ensures if ok then t in threads && GotFor(threads[t], c, ws, activeInformer, i) else Idle(View(), t)
      ensures ok ==> c in sources && sources[c] == old(sources[c])
    {
      var starts: bool, gets: bool := *, *;
      if ws[i].kind in active {
        ok := GetInformerRead(t, c, ws, activeInformer, i, starts, gets);
      } else {
        GiveUpRead(t, c, ws, activeInformer, i);
        ok := GetInformerLocked(t, c, ws, activeInformer, i, starts, gets);
      }
    }

    method GetInformerRead(t: ThreadId, c: Id, ws: seq<WatchID>, activeInformer: set<Kind>, i: nat,
                           starts: bool, gets: bool) returns (ok: bool)
      requires Valid() && Stands(t, StartLoop(c, ws, activeInformer, i)) && i < |ws|
      requires c in sources
      requires !Running(View().w, activeInformer, c, ws[i]) && ws[i].kind in active
      modifies this
      ensures Valid() && op == old(op)
      ensures if ok then t in threads && GotFor(threads[t], c, ws, activeInformer, i) else Idle(View(), t)
      ensures ok ==> c in sources && sources[c] == old(sources[c])
    {
      WrappedGet(ws[i].kind, starts);
      ok := Got(t, c, ws, activeInformer, i, gets);
      Log(StartNext(t, starts, gets));
    }

    method GiveUpRead(t: ThreadId, c: Id, ws: seq<WatchID>, activeInformer: set<Kind>, i: nat)
      requires Valid() && Stands(t, StartLoop(c, ws, activeInformer, i)) && i < |ws|
      requires c in sources
      requires !Running(View().w, activeInformer, c, ws[i]) && ws[i].kind !in active
      modifies this`threads, this`history
      ensures Valid() && Stands(t, StartLooking(c, ws, activeInformer, i))
    {
      threads := threads[t := StartLooking(c, ws, activeInformer, i)];
      Log(StartNext(t, false, false));
    }

    method GetInformerLocked(t: ThreadId, c: Id, ws: seq<WatchID>, activeInformer: set<Kind>, i: nat,
                             starts: bool, gets: bool) returns (ok: bool)
      requires Valid() && Stands(t, StartLooking(c, ws, activeInformer, i)) && i < |ws|
      requires c in sources
      modifies this
      ensures Valid() && op == old(op)
      ensures if ok then t in threads && GotFor(threads[t], c, ws, activeInformer, i) else Idle(View(), t)
      ensures ok ==> c in sources && sources[c] == old(sources[c])
    {
      Others(t);
      active := active + {ws[i].kind};
      WrappedGet(ws[i].kind, starts);
      ok := Got(t, c, ws, activeInformer, i, gets);
      Log(StartLookLocked(t, starts, gets));
    }

    /** The informer, or an error that ends StartWatches. */
    method Got(t: ThreadId, c: Id, ws: seq<WatchID>, activeInformer: set<Kind>, i: nat, gets: bool) returns (ok: bool)
      requires i < |ws|
      modifies this`threads, this`locks
      ensures ok == (gets && ws[i].kind in running)
      ensures View() == GotInformer(old(View()), t, c, ws, activeInformer, i, gets)
    {
      ok := gets && ws[i].kind in running;
      if ok {
        threads := threads[t := StartGot(c, ws, activeInformer, i, running[ws[i].kind])];
      } else {
        Unlock(t, c);
      }
    }

    lemma LaterNext()
      requires Valid()
      ensures op.since.now.w.next <= next
    {
      NextGrows(AllListed(), history, op.since);
    }

    /** The controller starts the source, which registers a handler with the informer, or fails. */
    method Watch(t: ThreadId, c: Id, ws: seq<WatchID>, activeInformer: set<Kind>, i: nat) returns (ok: bool)
      requires Valid() && t in threads && GotFor(threads[t], c, ws, activeInformer, i) && i < |ws|
      requires c in sources
      modifies this
      ensures Valid() && op == old(op)
      ensures if ok then t in threads && WatchedFor(threads[t], c, ws, activeInformer, i) else Idle(View(), t)
      ensures ok ==> c in sources && sources[c] == old(sources[c]) && threads[t].src >= op.since.now.w.next
    {
      Others(t);
      ok := *;
      if ok {
        Registers(t, c, ws, activeInformer, i);
      } else {
        WatchStep(View(), t, false);
        Unlock(t, c);
        Log(WatchSource(t, false));
      }
    }

    method Registers(t: ThreadId, c: Id, ws: seq<WatchID>, activeInformer: set<Kind>, i: nat)
      requires Valid() && t in threads && GotFor(threads[t], c, ws, activeInformer, i) && i < |ws|
      requires WellPlaced(View().w, threads[t])
      modifies this
      ensures Valid() && op == old(op) && sources == old(sources)
      ensures t in threads && WatchedFor(threads[t], c, ws, activeInformer, i)
      ensures threads[t].src >= op.since.now.w.next
    {
      LaterNext();
      WatchStep(View(), t, true);
      handlers := handlers[next := Handler(c, ws[i], threads[t].inf)];
      threads := threads[t := StartWatched(c, ws, activeInformer, i, next)];
      next := next + 1;
      Log(WatchSource(t, true));
    }

    method Record(t: ThreadId, c: Id, ws: seq<WatchID>, activeInformer: set<Kind>, i: nat)
      requires Valid() && t in threads && WatchedFor(threads[t], c, ws, activeInformer, i) && i < |ws|
      requires c in sources
      modifies this
      ensures Valid() && op == old(op)
      ensures Stands(t, StartLoop(c, ws, activeInformer, i + 1))
      ensures c in sources && sources[c] == old(sources[c])[ws[i] := old(threads[t].src)]
    {
      Others(t);
      RecordStep(View(), t);
      sources := sources[c := sources[c][ws[i] := threads[t].src]];
      threads := threads[t := StartLoop(c, ws, activeInformer, i + 1)];
      Log(RecordSource(t));
    }

    // ----- StopWatches -----

    /** Controller c has the sources it had, but for the first n watches. */
    predicate WatchesLess(c: Id, had: map<WatchID, Id>, ws: seq<WatchID>, n: nat)
      requires n <= |ws|
      reads this
    {
      c in sources && sources[c] == had - Listed(ws, n)
    }

    /** When StopWatches succeeds the controller that it found running has lost its sources for
        the watches listed, and no other, since one time during the call.  It answers how many
        sources went, also when an error has ended it. */
    method StopWatches(t: ThreadId, name: string, ws: seq<WatchID>) returns (r: Outcome, c: Id, stopped: nat)
      requires Valid() && Idle(View(), t)
      modifies this
      ensures Valid() && op.since == old(history) && (r != Waits ==> Idle(View(), t))
      ensures r == Done || r == Failed ==> name in op.found.w.controllers && c == op.found.w.controllers[name]
      ensures r == Done || r == Failed ==> c in op.seen.w.sources && c in sources
      ensures r == Done ==> WatchesLess(c, op.seen.w.sources[c], ws, |ws|)
      ensures r == Failed ==> exists k :: 0 <= k < |ws| && WatchesLess(c, op.seen.w.sources[c], ws, k)
      ensures r == Done || r == Failed ==> stopped == |op.seen.w.sources[c]| - |sources[c]|
      ensures r == NotRunning ==> name !in op.found.w.controllers
      ensures r == NotRunning || r == Waits ==> stopped == 0
    {
      BeginOperation();
      stopped := 0;
      r, c := FindToStop(t, name, ws);
      if r != Done {
        return;
      }
      var stop;
      r, stop := CheckToStop(t, c, ws);
      if r != Done || !stop {
        return;
      }
      r := LockToStop(t, c, ws);
      if r == Done {
        r, stopped := StopSources(t, c, ws, op.seen.w.sources[c]);
      }
    }

    method FindToStop(t: ThreadId, name: string, ws: seq<WatchID>) returns (r: Outcome, c: Id)
      requires Valid() && Idle(View(), t)
      modifies this
      ensures Valid() && r != Failed && op.since == old(op.since)
      ensures r == Done ==> name in op.found.w.controllers && op.found.w.controllers[name] == c
      ensures r == NotRunning ==> name !in op.found.w.controllers
      ensures if r == Done then Stands(t, StopAsked(c, ws)) else Idle(View(), t)
    {
      c := 0;
      Others(t);
      if engineLock != None {
        return Waits, c;
      }
      Find();
      if name !in controllers {
        Log(AskStop(t, name, ws));
        return NotRunning, c;
      }
      c := controllers[name];
      threads := threads[t := StopAsked(c, ws)];
      Log(AskStop(t, name, ws));
      return Done, c;
    }

    /** Under the controller's read lock: without a watch to stop this was all. */
    method CheckToStop(t: ThreadId, c: Id, ws: seq<WatchID>) returns (r: Outcome, stop: bool)
      requires Valid() && Stands(t, StopAsked(c, ws))
      modifies this
      ensures Valid() && op == old(op).(seen := View()) && (r == Done || r == Waits)
      ensures r == Done ==> if stop then Stands(t, StopWaiting(c, ws)) else Idle(View(), t)
      ensures r == Done ==> c in sources && (stop <==> !WatchesLess(c, sources[c], ws, |ws|))
    {
      Others(t);
      stop := false;
      if c in locks {
        See();
        return Waits, stop;
      }
      stop := AnyToStop(c, ws);
      NoneListed(sources[c], ws);
      threads := if stop then threads[t := StopWaiting(c, ws)] else threads - {t};
      Log(CheckStop(t));
      See();
      return Done, stop;
    }

    /** Is there a watch to stop? */
    method AnyToStop(c: Id, ws: seq<WatchID>) returns (stop: bool)
      requires c in sources
      ensures stop <==> !(forall i :: 0 <= i < |ws| ==> ws[i] !in sources[c])
    {
      for i := 0 to |ws|
        invariant forall j :: 0 <= j < i ==> ws[j] !in sources[c]
      {
        if ws[i] in sources[c] {
          return true;
        }
      }
      return false;
    }

    method LockToStop(t: ThreadId, c: Id, ws: seq<WatchID>) returns (r: Outcome)
      requires Valid() && Stands(t, StopWaiting(c, ws))
      modifies this
      ensures Valid() && op == old(op).(seen := View()) && (r == Waits || r == Done)
      ensures r == Done ==> Stands(t, StopLoop(c, ws, 0)) && c in sources
    {
      Others(t);
      if c in locks {
        See();
        return Waits;
      }
      locks := locks[c := t];
      threads := threads[t := StopLoop(c, ws, 0)];
      Log(LockStop(t));
      See();
      return Done;
    }

    /** The loop in StopWatches, with the controller's lock; stopped counts the sources that went
        of those the controller had. */
    method StopSources(t: ThreadId, c: Id, ws: seq<WatchID>, ghost had: map<WatchID, Id>)
      returns (r: Outcome, stopped: nat)
      requires Valid() && Stands(t, StopLoop(c, ws, 0)) && c in sources && sources[c] == had
      modifies this
      ensures Valid() && op == old(op) && Idle(View(), t) && c in sources
      ensures r == Done || r == Failed
      ensures r == Done ==> WatchesLess(c, had, ws, |ws|)
      ensures r == Failed ==> exists k :: 0 <= k < |ws| && WatchesLess(c, had, ws, k)
      ensures stopped == |had| - |sources[c]|
    {
      stopped := 0;
      for i := 0 to |ws|
        invariant Valid() && op == old(op) && Stands(t, StopLoop(c, ws, i)) && WatchesLess(c, had, ws, i)
        invariant stopped == |had| - |sources[c]|
      {
        var ok, gone := StopOne(t, c, ws, i, had);
        if !ok {
          return Failed, stopped;
        }
        stopped := if gone then stopped + 1 else stopped;
      }
      FinishStop(t, c, ws);
      return Done, stopped;
    }

    /** The end of StopWatches: every watch was looked at. */
    method FinishStop(t: ThreadId, c: Id, ws: seq<WatchID>)
      requires Valid() && Stands(t, StopLoop(c, ws, |ws|)) && c in sources
      modifies this
      ensures Valid() && op == old(op) && Idle(View(), t)
      ensures c in sources && sources[c] == old(sources[c])
    {
      Others(t);
      Unlock(t, c);
      Log(StopNext(t, true));
    }

    /** One round of the loop in StopWatches. */
    method StopOne(t: ThreadId, c: Id, ws: seq<WatchID>, i: nat, ghost had: map<WatchID, Id>)
      returns (ok: bool, gone: bool)
      requires Valid() && Stands(t, StopLoop(c, ws, i)) && i < |ws| && WatchesLess(c, had, ws, i)
      modifies this
      ensures Valid() && op == old(op)
      ensures if ok then Stands(t, StopLoop(c, ws, i + 1)) else Idle(View(), t)
      ensures WatchesLess(c, had, ws, if ok then i + 1 else i)
      ensures |sources[c]| == old(|sources[c]|) - if ok && gone then 1 else 0
    {
      OneMoreListed(had, ws, i);
      gone := ws[i] in sources[c];
      if gone {
        Others(t);
        ok := StopWatched(t, c, ws, i);
        if ok {
          Forget(t, c, ws, i);
        }
      } else {
        Skip(t, c, ws, i);
        ok := true;
      }
    }

    method Skip(t: ThreadId, c: Id, ws: seq<WatchID>, i: nat)
      requires Valid() && Stands(t, StopLoop(c, ws, i)) && i < |ws| && c in sources
      requires ws[i] !in sources[c]
      modifies this
      ensures Valid() && op == old(op) && Stands(t, StopLoop(c, ws, i + 1))
      ensures c in sources && sources[c] == old(sources[c])
    {
      Others(t);
      threads := threads[t := StopLoop(c, ws, i + 1)];
      Log(StopNext(t, true));
    }

    /** Stops the source; an error ends StopWatches. */
    method StopWatched(t: ThreadId, c: Id, ws: seq<WatchID>, i: nat) returns (ok: bool)
      requires t in threads && WellPlaced(View().w, threads[t])
      requires Valid() && Stands(t, StopLoop(c, ws, i)) && i < |ws| && c in sources && ws[i] in sources[c]
      modifies this
      ensures Valid() && op == old(op)
      ensures if ok then Stands(t, StopStopped(c, ws, i)) else Idle(View(), t)
      ensures c in sources && sources[c] == old(sources[c])
    {
      var removes: bool := *;
      ok := StopSource(sources[c][ws[i]], removes);
      if ok {
        threads := threads[t := StopStopped(c, ws, i)];
      } else {
        Unlock(t, c);
      }
      Log(StopNext(t, removes));
    }

    method Forget(t: ThreadId, c: Id, ws: seq<WatchID>, i: nat)
      requires Valid() && Stands(t, StopStopped(c, ws, i)) && i < |ws| && c in sources && ws[i] in sources[c]
      modifies this
      ensures Valid() && op == old(op) && Stands(t, StopLoop(c, ws, i + 1))
      ensures c in sources && sources[c] == old(sources[c]) - {ws[i]}
      ensures |sources[c]| == old(|sources[c]|) - 1
    {
      Others(t);
      Fewer(sources[c], ws[i]);
      ForgetStep(View(), t, c, ws, i);
      sources := sources[c := sources[c] - {ws[i]}];
      threads := threads[t := StopLoop(c, ws, i + 1)];
      Log(StopDelete(t));
    }

    /** A source stops: nothing to do without a registration or when its informer has stopped;
        otherwise its handler is removed, which can fail. */
    method StopSource(src: Id, removes: bool) returns (ok: bool)
      modifies this`handlers
      ensures ok == StopsSource(old(View().w), src, removes)
      ensures View().w == if ok then EngineState.StopSource(old(View().w), src) else old(View().w)
    {
      if src !in handlers || handlers[src].inf in stopped {
        return true;
      }
      if removes {
        handlers := handlers - {src};
      }
      return removes;
    }

    // ----- Stop -----

    /** When Stop succeeds the controller that it found running has no sources and does not run;
        the other controllers do as they did, and nothing was started under its name meanwhile.
        When it fails the controller still runs. */
    method Stop(t: ThreadId, name: string) returns (r: Outcome, c: Id)
      requires Valid() && Idle(View(), t)
      modifies this
      ensures Valid() && op.since == old(history) && (r != Waits ==> Idle(View(), t))
      ensures r == Done || r == Failed ==> name in op.found.w.controllers && c == op.found.w.controllers[name]
      ensures r == Done ==> controllers == op.found.w.controllers - {name} && c in sources && sources[c] == map[]
      ensures r == Failed ==> controllers == op.found.w.controllers
      ensures r == NotRunning ==> name !in controllers
    {
      BeginOperation();
      r, c := FindToEnd(t, name);
      if r != Done {
        return;
      }
      r := LockToEnd(t, c, name);
      if r == Done {
        r := EndSources(t, c, name);
      }
    }

    /** Goroutine t has the engine's lock, and the controllers are those it found. */
    ghost predicate Ending(t: ThreadId)
      reads this
    {
      engineLock == Some(t) && controllers == op.found.w.controllers
    }

    /** Takes the engine's lock, to keep it. */
    method FindToEnd(t: ThreadId, name: string) returns (r: Outcome, c: Id)
      requires Valid() && Idle(View(), t)
      modifies this
      ensures Valid() && r != Failed && op.since == old(op.since)
      ensures if r == Done then Stands(t, EndWaiting(c, name)) && Ending(t) else Idle(View(), t)
      ensures r == Done ==> name in controllers && controllers[name] == c
      ensures r == NotRunning ==> name !in controllers
    {
      c := 0;
      Others(t);
      if engineLock != None {
        return Waits, c;
      }
      Find();
      if name !in controllers {
        Log(AskEnd(t, name));
        return NotRunning, c;
      }
      c := controllers[name];
      threads := threads[t := EndWaiting(c, name)];
      engineLock := Some(t);
      Log(AskEnd(t, name));
      return Done, c;
    }

    method LockToEnd(t: ThreadId, c: Id, name: string) returns (r: Outcome)
      requires Valid() && Stands(t, EndWaiting(c, name)) && Ending(t)
      modifies this
      ensures Valid() && op == old(op) && (r == Waits || r == Done)
      ensures r == Done ==> Stands(t, EndLoop(c, name)) && Ending(t) && c in sources
    {
      Others(t);
      if c in locks {
        return Waits;
      }
      locks := locks[c := t];
      threads := threads[t := EndLoop(c, name)];
      Log(LockEnd(t));
      return Done;
    }

    /** Stop with both locks: the sources in any order, then the controller. */
    method EndSources(t: ThreadId, c: Id, name: string) returns (r: Outcome)
      requires Valid() && Stands(t, EndLoop(c, name)) && Ending(t) && c in sources
      modifies this
      ensures Valid() && op == old(op) && Idle(View(), t) && (r == Done || r == Failed)
      ensures r == Failed ==> controllers == op.found.w.controllers
      ensures r == Done ==> controllers == op.found.w.controllers - {name} && c in sources && sources[c] == map[]
    {
      while sources[c] != map[]
        invariant Valid() && op == old(op) && Stands(t, EndLoop(c, name)) && Ending(t) && c in sources
        decreases |sources[c]|
      {
        var wid :| wid in sources[c];
        var ok := EndOne(t, c, name, wid);
        if !ok {
          return Failed;
        }
      }
      Others(t);
      EndController(t, c, name);
      return Done;
    }

    method EndController(t: ThreadId, c: Id, name: string)
      requires t in threads && WellPlaced(View().w, threads[t])
      requires Valid() && Stands(t, EndLoop(c, name)) && c in sources && sources[c] == map[]
      modifies this
      ensures Valid() && op == old(op) && Idle(View(), t)
      ensures controllers == old(controllers) - {name} && c in sources && sources[c] == map[]
    {
      Unlock(t, c);
      controllers := controllers - {name};
      engineLock := None;
      Log(EndNext(t, WatchID("", ""), true));
    }

    /** One round of the loop in Stop. */
    method EndOne(t: ThreadId, c: Id, name: string, wid: WatchID) returns (ok: bool)
      requires Valid() && Stands(t, EndLoop(c, name)) && Ending(t) && c in sources && wid in sources[c]
      modifies this
      ensures Valid() && op == old(op) && controllers == op.found.w.controllers
      ensures if ok then Stands(t, EndLoop(c, name)) && Ending(t) else Idle(View(), t)
      ensures ok ==> c in sources && |sources[c]| == old(|sources[c]|) - 1
    {
      Others(t);
      ok := EndSource(t, c, name, wid);
      if ok {
        ForgetEnded(t, c, name, wid);
      }
    }

    /** Stops the source; an error ends Stop. */
    method EndSource(t: ThreadId, c: Id, name: string, wid: WatchID) returns (ok: bool)
      requires t in threads && WellPlaced(View().w, threads[t])
      requires Valid() && Stands(t, EndLoop(c, name)) && Ending(t) && c in sources && wid in sources[c]
      modifies this
      ensures Valid() && op == old(op) && controllers == op.found.w.controllers
      ensures if ok then Stands(t, EndStopped(c, name, wid)) && Ending(t) else Idle(View(), t)
      ensures c in sources && sources[c] == old(sources[c])
    {
      var removes: bool := *;
      EndsNext(View(), t, c, name, wid, removes);
      ok := StopSource(sources[c][wid], removes);
      if ok {
        threads := threads[t := EndStopped(c, name, wid)];
      } else {
        Unlock(t, c);
        engineLock := None;
      }
      Log(EndNext(t, wid, removes));
    }

    method ForgetEnded(t: ThreadId, c: Id, name: string, wid: WatchID)
      requires Valid() && Stands(t, EndStopped(c, name, wid)) && Ending(t) && c in sources && wid in sources[c]
      modifies this
      ensures Valid() && op == old(op) && Stands(t, EndLoop(c, name)) && Ending(t)
      ensures c in sources && |sources[c]| == old(|sources[c]|) - 1
    {
      Others(t);
      Fewer(sources[c], wid);
      sources := sources[c := sources[c] - {wid}];
      threads := threads[t := EndLoop(c, name)];
      Log(EndDelete(t));
    }
  }

  predicate GotFor(pc: Pc, c: Id, ws: seq<WatchID>, a: set<Kind>, i: nat) {
    pc.StartGot? && pc.c == c && pc.ws == ws && pc.a == a && pc.i == i
  }

  predicate WatchedFor(pc: Pc, c: Id, ws: seq<WatchID>, a: set<Kind>, i: nat) {
    pc.StartWatched? && pc.c == c && pc.ws == ws && pc.a == a && pc.i == i
  }

  predicate HasSources(m: map<WatchID, Id>, ws: seq<WatchID>, n: nat, a: set<Kind>, from: Id)
    requires n <= |ws|
  {
    forall i :: 0 <= i < n ==> ws[i] in m && (ws[i].kind in a || m[ws[i]] >= from)
  }

  lemma OneMoreSource(m: map<WatchID, Id>, ws: seq<WatchID>, i: nat, a: set<Kind>, from: Id, src: Id)
    requires i < |ws| && HasSources(m, ws, i, a, from)
    ensures ws[i] in m && ws[i].kind in a ==> HasSources(m, ws, i + 1, a, from)
    ensures src >= from ==> HasSources(m[ws[i] := src], ws, i + 1, a, from)
  {
  }

  lemma LookStep(s: State, t: ThreadId, k: Kind, starts: bool)
    requires t in s.threads && s.threads[t] == Looking(k)
    ensures Enabled(s, LookLocked(t, starts))
    ensures Apply(s, LookLocked(t, starts)) == Leave(Become(s, WithInformer(Activate(s.w, k), k, starts)), t)
  {
  }

  lemma RemoveStep(s: State, t: ThreadId, k: Kind)
    requires t in s.threads && s.threads[t] == Removing(k)
    ensures Enabled(s, RemoveLocked(t))
    ensures Apply(s, RemoveLocked(t)) == Leave(Become(s, WithoutInformer(Deactivate(s.w, k), k)), t)
  {
  }

  lemma WatchStep(s: State, t: ThreadId, ok: bool)
    requires t in s.threads && s.threads[t].StartGot? && WellPlaced(s.w, s.threads[t])
    ensures var p := s.threads[t];
      && Enabled(s, WatchSource(t, ok)) && Apply(s, WatchSource(t, ok)) ==
        if ok then
          Goto(Become(s, Register(s.w, Handler(p.c, p.ws[p.i], p.inf))), t,
            StartWatched(p.c, p.ws, p.a, p.i, s.w.next))
        else EngineState.Unlock(s, t, p.c)
  {
  }

  lemma RecordStep(s: State, t: ThreadId)
    requires t in s.threads && s.threads[t].StartWatched? && WellPlaced(s.w, s.threads[t])
    ensures var p := s.threads[t];
      && Enabled(s, RecordSource(t)) && Apply(s, RecordSource(t)) ==
        Goto(Become(s, Recorded(s.w, p.c, p.ws[p.i], p.src)), t, StartLoop(p.c, p.ws, p.a, p.i + 1))
  {
  }

  lemma ForgetStep(s: State, t: ThreadId, c: Id, ws: seq<WatchID>, i: nat)
    requires t in s.threads && s.threads[t] == StopStopped(c, ws, i) && WellPlaced(s.w, s.threads[t])
    ensures Enabled(s, StopDelete(t))
    ensures Apply(s, StopDelete(t)) == Goto(Become(s, Dropped(s.w, c, ws[i])), t, StopLoop(c, ws, i + 1))
  {
  }

  lemma CheckStep(s: State, t: ThreadId, c: Id, ws: seq<WatchID>, a: set<Kind>, start: bool)
    requires t in s.threads && s.threads[t] == StartSeen(c, ws, a) && WellPlaced(s.w, s.threads[t]) && Free(s, c)
    requires start <==> !(forall i :: 0 <= i < |ws| ==> Running(s.w, a, c, ws[i]))
    ensures Enabled(s, CheckStart(t))
    ensures Apply(s, CheckStart(t)) == if start then Goto(s, t, StartWaiting(c, ws)) else Leave(s, t)
  {
  }

  lemma EndsNext(s: State, t: ThreadId, c: Id, name: string, wid: WatchID, removes: bool)
    requires t in s.threads && s.threads[t] == EndLoop(c, name) && c in s.w.sources && wid in s.w.sources[c]
    ensures var a, src := EndNext(t, wid, removes), s.w.sources[c][wid];
      && Enabled(s, a) && Apply(s, a) ==
        if StopsSource(s.w, src, removes) then
          Goto(Become(s, EngineState.StopSource(s.w, src)), t, EndStopped(c, name, wid))
        else EngineState.Unlock(s, t, c).(engineLock := None)
  {
  }

  /** The first n watches of the list. */
  function Listed(ws: seq<WatchID>, n: nat): set<WatchID>
    requires n <= |ws|
  {
    set i | 0 <= i < n :: ws[i]
  }

  lemma OneMoreListed(m: map<WatchID, Id>, ws: seq<WatchID>, i: nat)
    requires i < |ws|
    ensures m - Listed(ws, i) - {ws[i]} == m - Listed(ws, i + 1)
    ensures ws[i] !in m - Listed(ws, i) ==> m - Listed(ws, i) == m - Listed(ws, i + 1)
  {
    assert Listed(ws, i + 1) == Listed(ws, i) + {ws[i]};
  }

  lemma NoneListed(m: map<WatchID, Id>, ws: seq<WatchID>)
    ensures m == m - Listed(ws, |ws|) <==> forall i :: 0 <= i < |ws| ==> ws[i] !in m
  {
    if m == m - Listed(ws, |ws|) {
      forall i | 0 <= i < |ws| ensures ws[i] !in m {
        assert ws[i] in Listed(ws, |ws|);
      }
    }
  }

  lemma Fewer(m: map<WatchID, Id>, wid: WatchID)
    requires wid in m
    ensures |m - {wid}| == |m| - 1
  {
    assert (m - {wid}).Keys == m.Keys - {wid};
    assert |m| == |m.Keys|;
  }
}
