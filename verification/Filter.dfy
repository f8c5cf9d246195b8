/** The filter in front of a controller's work queue (mapfunc.go): it keeps or drops
    requests by the state of their targets' circuits. */
module Filter {
  import opened CircuitState
  import opened Breaker

  /** What happens to a breaker.  A request reads the clock twice: when an open circuit is
      asked whether it may let the request pass, and when the event is recorded.  A reset
      comes from the deletion of the target itself. */
  datatype Op =
    | Request(target: Target, source: EventSource, deleting: bool, check: real, record: real)
    | Reset(target: Target)

  /** How the filter handles a request that is not for an object being deleted. */
  function Verdict(cfg: Config, m: Targets, target: Target, check: real): EventType {
    match StateOf(cfg, m, target)
    case Closed => EventAllowed
    case Open(_, nextAllowedAt) => if check > nextAllowedAt then EventHalfOpenAllowed else EventDropped
  }

  predicate Recording(op: Op) {
    op.Request? && !op.deleting
  }

  predicate Keeps(cfg: Config, m: Targets, op: Op) {
    op.Request? && (op.deleting || Verdict(cfg, m, op.target, op.check) != EventDropped)
  }

  function Next(cfg: Config, collect: bool, m: Targets, op: Op): Targets {
    if Recording(op) then
      Recorded(cfg, collect, m, op.target, op.record, op.source.Show(), Verdict(cfg, m, op.target, op.check))
    else if op.Reset? then m - {op.target}
    else m
  }

  function After(cfg: Config, collect: bool, m: Targets, ops: seq<Op>): Targets {
    if ops == [] then m else Next(cfg, collect, After(cfg, collect, m, ops[..|ops| - 1]), ops[|ops| - 1])
  }

  function Decisions(cfg: Config, collect: bool, m: Targets, ops: seq<Op>): (keeps: seq<bool>)
    ensures |keeps| == |ops|
  {
    if ops == [] then []
    else
      var init := ops[..|ops| - 1];
      Decisions(cfg, collect, m, init) + [Keeps(cfg, After(cfg, collect, m, init), ops[|ops| - 1])]
  }

  // ----- The filter itself -----

  datatype Tick = Tick(check: real, record: real)

  function Requests(targets: seq<Target>, source: EventSource, deleting: bool, clock: seq<Tick>): (ops: seq<Op>)
    requires |clock| == |targets|
    ensures |ops| == |targets|
  {
    seq(|targets|, i requires 0 <= i < |targets| =>
      Request(targets[i], source, deleting, clock[i].check, clock[i].record))
  }

  function Chosen<T>(xs: seq<T>, keeps: seq<bool>): seq<T>
    requires |xs| == |keeps|
  {
    if xs == [] then []
    else
      Chosen(xs[..|xs| - 1], keeps[..|xs| - 1]) + if keeps[|xs| - 1] then [xs[|xs| - 1]] else []
  }

  lemma OneMoreOp(cfg: Config, collect: bool, m: Targets, ops: seq<Op>, i: nat)
    requires i < |ops|
    ensures After(cfg, collect, m, ops[..i + 1]) == Next(cfg, collect, After(cfg, collect, m, ops[..i]), ops[i])
    ensures Decisions(cfg, collect, m, ops[..i + 1]) ==
      Decisions(cfg, collect, m, ops[..i]) + [Keeps(cfg, After(cfg, collect, m, ops[..i]), ops[i])]
  {
    assert ops[..i + 1][..i] == ops[..i];
  }

  lemma OneMoreChosen<T>(xs: seq<T>, keeps: seq<bool>, x: T, keep: bool)
    requires |xs| == |keeps|
    ensures Chosen(xs + [x], keeps + [keep]) == Chosen(xs, keeps) + if keep then [x] else []
  {
    assert (xs + [x])[..|xs|] == xs && (keeps + [keep])[..|xs|] == keeps;
  }

  function Kept(keeps: seq<bool>): nat {
    if keeps == [] then 0 else Kept(keeps[..|keeps| - 1]) + if keeps[|keeps| - 1] then 1 else 0
  }

  /** What is chosen comes in its order: as many as are kept, each after those kept before it. */
  lemma {:induction false} ChosenInOrder<T>(xs: seq<T>, keeps: seq<bool>, i: nat)
    requires |xs| == |keeps|
    ensures |Chosen(xs, keeps)| == Kept(keeps)
    ensures i < |xs| && keeps[i] ==> Kept(keeps[..i]) < Kept(keeps) && Chosen(xs, keeps)[Kept(keeps[..i])] == xs[i]
  {
    if xs != [] {
      var n := |xs| - 1;
      ChosenInOrder(xs[..n], keeps[..n], i);
      if i < n {
        assert keeps[..n][..i] == keeps[..i];
      }
    }
  }

  /** Deletions pass, whatever the circuits, and leave them as they were. */
  lemma {:induction false} DeletionsPass(cfg: Config, m: Targets, xs: seq<Target>, ops: seq<Op>)
    requires |xs| == |ops| && forall i :: 0 <= i < |ops| ==> ops[i].Request? && ops[i].deleting
    ensures After(cfg, true, m, ops) == m && Chosen(xs, Decisions(cfg, true, m, ops)) == xs
  {
    if ops != [] {
      var n := |ops| - 1;
      DeletionsPass(cfg, m, xs[..n], ops[..n]);
      assert ops[n].deleting && xs == xs[..n] + [xs[n]];
      OneMoreOp(cfg, true, m, ops, n);
      assert ops[..n + 1] == ops;
      OneMoreChosen(xs[..n], Decisions(cfg, true, m, ops[..n]), xs[n], true);
    }
  }

  /** A request is kept exactly when it is a deletion, or its target is unknown, or its circuit
      is closed or let the last request through more than a half-open interval ago. */
  lemma {:induction false} KeptIff(cfg: Config, collect: bool, m: Targets, ops: seq<Op>, i: nat)
    requires i < |ops| && ops[i].Request?
    ensures
      var op, at := ops[i], After(cfg, collect, m, ops[..i]);
      Decisions(cfg, collect, m, ops)[i] <==>
        || op.deleting || op.target !in at || !at[op.target].isOpen
        || op.check - at[op.target].lastAllowed > cfg.halfOpen
  {
    if i < |ops| - 1 {
      KeptIff(cfg, collect, m, ops[..|ops| - 1], i);
      assert ops[..|ops| - 1][..i] == ops[..i];
    }
  }

  /** A request that is no deletion is noted with its own source, unless noting it closed the
      circuit and cleared the ring. */
  lemma SourceNoted(cfg: Config, collect: bool, m: Targets, op: Op)
    requires op.Request? && !op.deleting
    ensures var n := Next(cfg, collect, m, op);
      && op.target in n
      && var at := if op.target in m then m[op.target].recentIdx else 0;
      (n[op.target].recentSources[at] == op.source.Show() || AllBlank(n[op.target].recentSources))
  {
  }

  /** When a closed circuit opens, the breaker tells a most frequent source of its ring, and a
      half-open interval from now as the next time it lets a request pass. */
  lemma OpeningIsTold(cfg: Config, collect: bool, m: Targets, op: Op)
    requires op.Request? && !op.deleting
    requires op.target !in m || !m[op.target].isOpen
    requires op.target in Next(cfg, collect, m, op) && Next(cfg, collect, m, op)[op.target].isOpen
    ensures var n := Next(cfg, collect, m, op);
      && var ring, st := n[op.target].recentSources, StateOf(cfg, n, op.target);
      && st.Open? && st.nextAllowedAt == op.record + cfg.halfOpen
      && LastMostFrequent(ring, Scanned(multiset(ring)[st.triggeredBy], st.triggeredBy))
  {
    var s := WithTarget(cfg, collect, m, op.target, op.record)[op.target];
    OpeningNamesMostFrequent(cfg, s, op.record, op.source, Verdict(cfg, m, op.target, op.check));
    RecordExactly(cfg, s, op.record, op.source.Show(), Verdict(cfg, m, op.target, op.check));
  }

  /** Filters the requests of one watch event.  Those of an object being deleted all pass. */
  method FilterRequests(b: TokenBucketBreaker, requests: seq<Target>, source: EventSource, deleting: bool,
                        clock: seq<Tick>)
    returns (keep: seq<Target>)
    requires b.Valid() && |clock| == |requests|
    modifies b, b.Repr
    ensures b.Valid() && fresh(b.Repr - old(b.Repr))
    ensures b.Contents() == After(b.config, true, old(b.Contents()), Requests(requests, source, deleting, clock))
    ensures keep == Chosen(requests, Decisions(b.config, true, old(b.Contents()),
                                               Requests(requests, source, deleting, clock)))
    ensures deleting ==> keep == requests && b.Contents() == old(b.Contents())
  {
    keep := [];
    ghost var m0, ops := b.Contents(), Requests(requests, source, deleting, clock);
    for i := 0 to |requests|
      invariant b.Valid() && fresh(b.Repr - old(b.Repr))
      invariant Filtered(b.config, m0, requests, ops, i, b.Contents(), keep)
    {
      ghost var m, before := b.Contents(), keep;
      var kept := FilterRequest(b, requests[i], source, deleting, clock[i]);
      if kept {
        keep := keep + [requests[i]];
      }
      FilteredOne(b.config, m0, requests, ops, i, m, before);
    }
    assert ops[..|requests|] == ops && requests[..|requests|] == requests;
    if deleting {
      DeletionsPass(b.config, m0, requests, ops);
    }
  }

  /** The first i requests are done: m and keep are as the run over them says. */
  ghost predicate Filtered(cfg: Config, m0: Targets, requests: seq<Target>, ops: seq<Op>, i: nat, m: Targets,
                           keep: seq<Target>) {
    && i <= |requests| == |ops|
    && m == After(cfg, true, m0, ops[..i])
    && keep == Chosen(requests[..i], Decisions(cfg, true, m0, ops[..i]))
  }

  lemma FilteredOne(cfg: Config, m0: Targets, requests: seq<Target>, ops: seq<Op>, i: nat, m: Targets,
                    keep: seq<Target>)
    requires Filtered(cfg, m0, requests, ops, i, m, keep) && i < |requests|
    ensures Filtered(cfg, m0, requests, ops, i + 1, Next(cfg, true, m, ops[i]),
                     if Keeps(cfg, m, ops[i]) then keep + [requests[i]] else keep)
  {
    OneMoreOp(cfg, true, m0, ops, i);
    assert requests[..i + 1] == requests[..i] + [requests[i]];
    OneMoreChosen(requests[..i], Decisions(cfg, true, m0, ops[..i]), requests[i], Keeps(cfg, m, ops[i]));
  }

  /** One round of the loop in FilterRequests. */
  method FilterRequest(b: TokenBucketBreaker, req: Target, source: EventSource, deleting: bool, tick: Tick)
    returns (keep: bool)
    requires b.Valid()
    modifies b, b.Repr
    ensures b.Valid() && fresh(b.Repr - old(b.Repr))
    ensures keep == Keeps(b.config, old(b.Contents()), Request(req, source, deleting, tick.check, tick.record))
    ensures b.Contents() == Next(b.config, true, old(b.Contents()),
                                 Request(req, source, deleting, tick.check, tick.record))
  {
    if deleting {
      return true;
    }
    var state := b.GetState(req);
    if state.Closed? {
      b.RecordEvent(req, tick.record, source, EventAllowed);
      return true;
    }
    if tick.check > state.nextAllowedAt {
      b.RecordEvent(req, tick.record, source, EventHalfOpenAllowed);
      return true;
    }
    b.RecordEvent(req, tick.record, source, EventDropped);
    return false;
  }

  /** The wrapper around self-watches: the deletion of an object resets its targets. */
  method ResetOnDelete(b: TokenBucketBreaker, requests: seq<Target>, deleting: bool) returns (keep: seq<Target>)
    requires b.Valid()
    modifies b
    ensures b.Valid() && keep == requests
    ensures b.Contents() == if deleting then old(b.Contents()) - (set t | t in requests) else old(b.Contents())
  {
    if deleting {
      for i := 0 to |requests|
        invariant b.Valid() && b.Repr == old(b.Repr)
        invariant b.Contents() == old(b.Contents()) - (set t | t in requests[..i])
      {
        assert requests[..i + 1] == requests[..i] + [requests[i]];
        b.ResetTarget(requests[i]);
      }
      assert requests[..|requests|] == requests;
    }
    return requests;
  }
}
