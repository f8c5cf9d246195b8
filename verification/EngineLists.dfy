/** Which lists of watches keep a controller from having two live handlers for one watch. */
module EngineLists {
  import opened Results
  import opened EngineState
  import opened EngineInvariant

  lemma Extend(lists: iset<seq<WatchID>>, run: seq<State>, a: Action) returns (more: seq<State>)
    requires IsRunListing(lists, run) && Enabled(Last(run), a) && Lists(lists, a)
    ensures IsRunListing(lists, more) && more == run + [Apply(Last(run), a)]
  {
    more := run + [Apply(Last(run), a)];
    forall i | 0 <= i < |more| - 1 ensures ListingAt(lists, more, i) {
      if i < |run| - 1 { assert ListingAt(lists, run, i); }
    }
  }

  /** A goroutine of the first controller is starting ws after a snapshot that saw nothing
      active; each watch before the next one has a live handler of its own, in made. */
  ghost predicate InLoop(s: State, t: ThreadId, ws: seq<WatchID>, made: seq<Id>) {
    && t in s.threads && s.threads[t] == StartLoop(0, ws, {}, |made|) && |made| <= |ws|
    && AllLive(s.w, ws, made)
  }

  ghost predicate AllLive(w: World, ws: seq<WatchID>, made: seq<Id>)
    requires |made| <= |ws|
  {
    && 0 in w.sources && w.stopped == {}
    && (forall k :: 0 <= k < |made| ==> made[k] < w.next && LiveFor(w, made[k], 0, ws[k]))
    && (forall k, l :: 0 <= k < l < |made| ==> made[k] != made[l])
  }

  /** Goroutine t is at pc; its controller is the first and new, and nothing ever ran. */
  ghost predicate Fresh(s: State, t: ThreadId, pc: Pc) {
    && t in s.threads && s.threads[t] == pc && s.locks == map[]
    && 0 in s.w.sources && s.w.sources[0] == map[] && s.w.active == {} && s.w.stopped == {}
  }

  lemma Asks(lists: iset<seq<WatchID>>, name: string, t: ThreadId, ws: seq<WatchID>) returns (run: seq<State>)
    requires ws in lists
    ensures IsRunListing(lists, run) && Fresh(Last(run), t, StartSeen(0, ws, {}))
  {
    run := [START];
    run := Extend(lists, run, StartController(name));
    run := Extend(lists, run, AskStart(t, name, ws));
    run := Extend(lists, run, SeeActive(t));
  }

  lemma Begins(lists: iset<seq<WatchID>>, name: string, t: ThreadId, ws: seq<WatchID>) returns (run: seq<State>)
    requires ws in lists && ws != []
    ensures IsRunListing(lists, run) && InLoop(Last(run), t, ws, [])
  {
    run := Asks(lists, name, t, ws);
    assert !Running(Last(run).w, {}, 0, ws[0]);
    run := Extend(lists, run, CheckStart(t));
    assert Fresh(Last(run), t, StartWaiting(0, ws));
    run := Extend(lists, run, LockStart(t));
    run := Extend(lists, run, SeeActiveAgain(t));
  }

  /** The goroutine gets the informer of its next watch, recorded or not ... */
  lemma GetsInformer(lists: iset<seq<WatchID>>, run: seq<State>, t: ThreadId, ws: seq<WatchID>, made: seq<Id>)
    returns (more: seq<State>, inf: Id)
    requires IsRunListing(lists, run) && InLoop(Last(run), t, ws, made) && |made| < |ws|
    ensures IsRunListing(lists, more) && AllLive(Last(more).w, ws, made)
    ensures t in Last(more).threads && Last(more).threads[t] == StartGot(0, ws, {}, |made|, inf)
  {
    var w, wid := Last(run).w, ws[|made|];
    assert !Running(w, {}, 0, wid);
    more := Extend(lists, run, StartNext(t, true, true));
    if wid.kind !in w.active {
      more := Extend(lists, more, StartLookLocked(t, true, true));
    }
    inf := Last(more).w.running[wid.kind];
  }

  /** ... registers a handler with it ... */
  lemma Registers(lists: iset<seq<WatchID>>, run: seq<State>, t: ThreadId, ws: seq<WatchID>, made: seq<Id>)
    returns (more: seq<State>, x: Id)
    requires IsRunListing(lists, run) && InLoop(Last(run), t, ws, made) && |made| < |ws|
    ensures IsRunListing(lists, more) && AllLive(Last(more).w, ws, made + [x])
    ensures t in Last(more).threads && Last(more).threads[t] == StartWatched(0, ws, {}, |made|, x)
  {
    var got, inf := GetsInformer(lists, run, t, ws, made);
    x := Last(got).w.next;
    OneMoreLive(Last(got).w, ws, made, inf);
    more := Extend(lists, got, WatchSource(t, true));
  }

  /** ... and records it. */
  lemma StartsOne(lists: iset<seq<WatchID>>, run: seq<State>, t: ThreadId, ws: seq<WatchID>, made: seq<Id>)
    returns (more: seq<State>, x: Id)
    requires IsRunListing(lists, run) && InLoop(Last(run), t, ws, made) && |made| < |ws|
    ensures IsRunListing(lists, more) && InLoop(Last(more), t, ws, made + [x])
  {
    var registered;
    registered, x := Registers(lists, run, t, ws, made);
    more := Extend(lists, registered, RecordSource(t));
  }

  lemma OneMoreLive(w: World, ws: seq<WatchID>, made: seq<Id>, inf: Id)
    requires |made| < |ws| && AllLive(w, ws, made)
    ensures AllLive(Register(w, Handler(0, ws[|made|], inf)), ws, made + [w.next])
  {
  }

  lemma {:induction false} StartsAll(lists: iset<seq<WatchID>>, run: seq<State>, t: ThreadId, ws: seq<WatchID>,
                                     made: seq<Id>)
    returns (more: seq<State>, all: seq<Id>)
    requires IsRunListing(lists, run) && InLoop(Last(run), t, ws, made)
    ensures IsRunListing(lists, more) && |all| == |ws| && AllLive(Last(more).w, ws, all)
    decreases |ws| - |made|
  {
    if |made| == |ws| {
      more, all := run, made;
    } else {
      var next, x := StartsOne(lists, run, t, ws, made);
      more, all := StartsAll(lists, next, t, ws, made + [x]);
    }
  }

  ghost predicate Unique(w: World) {
    forall x, y, c, wid :: LiveFor(w, x, c, wid) && LiveFor(w, y, c, wid) ==> x == y
  }

  /** A call that lists a watch twice can leave its controller with two live handlers for it. */
  lemma ListedTwiceStartsTwice(lists: iset<seq<WatchID>>, ws: seq<WatchID>) returns (run: seq<State>)
    requires ws in lists && !DistinctIDs(ws)
    ensures IsRunListing(lists, run) && !Unique(Last(run).w)
  {
    var i, j :| 0 <= i < j < |ws| && ws[i] == ws[j];
    var begun := Begins(lists, "", 0, ws);
    var all;
    run, all := StartsAll(lists, begun, 0, ws, []);
    assert LiveFor(Last(run).w, all[i], 0, ws[i]) && LiveFor(Last(run).w, all[j], 0, ws[j]);
  }

  lemma ListedOnceStartsOnce(lists: iset<seq<WatchID>>, run: seq<State>)
    requires IsRunListing(lists, run) && forall ws :: ws in lists ==> DistinctIDs(ws)
    ensures Unique(Last(run).w)
  {
    forall i | 0 <= i < |run| - 1 ensures SensibleAt(run, i) {
      assert ListingAt(lists, run, i);
    }
    var w := Last(run).w;
    forall x, y, c, wid | LiveFor(w, x, c, wid) && LiveFor(w, y, c, wid) ensures x == y {
      AtMostOneLiveHandler(run, |run| - 1, x, y, c, wid);
    }
  }

  /** Exactly when no controller ever has two live handlers for a watch: when no call of
      StartWatches lists a watch twice. */
  lemma UniqueIffListedOnce(lists: iset<seq<WatchID>>)
    ensures (forall ws :: ws in lists ==> DistinctIDs(ws)) <==>
      (forall run :: IsRunListing(lists, run) ==> Unique(Last(run).w))
  {
    if ws :| ws in lists && !DistinctIDs(ws) {
      var run := ListedTwiceStartsTwice(lists, ws);
    } else {
      forall run | IsRunListing(lists, run) ensures Unique(Last(run).w) {
        ListedOnceStartsOnce(lists, run);
      }
    }
  }
}
