/** Whole runs of the breaker behind its filter: collecting idle targets changes no
    decision, tokens are conserved, and admissions are bounded. */
module CircuitRuns {
  import opened CircuitState
  import opened Breaker
  import opened Filter

  /** The last time an event was recorded. */
  function Clock(start: real, ops: seq<Op>): real {
    if ops == [] then start
    else if Recording(ops[|ops| - 1]) then ops[|ops| - 1].record
    else Clock(start, ops[..|ops| - 1])
  }

  /** The clock never goes back. */
  ghost predicate Ordered(start: real, ops: seq<Op>) {
    ops == [] ||
    var init, last := ops[..|ops| - 1], ops[|ops| - 1];
    Ordered(start, init) && (Recording(last) ==> Clock(start, init) <= last.check <= last.record)
  }

  /** With a clock that never goes back the bucket holds at most capacity tokens, and not
      less than zero when it refills (a bucket with a negative capacity stays full), and the
      times of an open circuit lie in the past. */
  ghost predicate Healthy(cfg: Config, s: TargetState, now: real) {
    && s.tokens <= cfg.capacity
    && (cfg.refillRate >= 0.0 ==> s.tokens >= 0.0 || s.tokens == cfg.capacity)
    && s.lastRefill <= now
    && (s.isOpen ==> s.openedAt <= s.lastRefill && s.lastAllowed <= s.lastRefill)
  }

  lemma YieldNotNegative(cfg: Config, elapsed: real)
    requires cfg.refillRate >= 0.0 && elapsed >= 0.0
    ensures Yield(cfg, elapsed) >= 0.0
  {
  }

  lemma YieldAdds(cfg: Config, a: real, b: real)
    ensures Yield(cfg, a + b) == Yield(cfg, a) + Yield(cfg, b)
  {
  }

  lemma YieldOfNothing(cfg: Config)
    ensures Yield(cfg, 0.0) == 0.0
  {
  }

  lemma RecordKeepsHealthy(cfg: Config, s: TargetState, t: real, now: real, src: string, et: EventType)
    requires Healthy(cfg, s, t) && t <= now
    ensures Healthy(cfg, Record(cfg, s, now, src, et), now)
  {
    if cfg.refillRate >= 0.0 {
      YieldNotNegative(cfg, now - s.lastRefill);
    }
  }

  // ----- Collecting idle targets -----

  /** What is left of a target after idling is what a new one starts with: it has cooled, it
      may be probed, and its bucket is full again, unless no bucket ever holds a token. */
  ghost predicate CollectsOnlySettled(cfg: Config) {
    && cfg.expireAfter >= cfg.cooldown
    && cfg.expireAfter >= cfg.halfOpen
    && (NeverHoldsToken(cfg) || RefillsWhileIdle(cfg))
  }

  ghost predicate NeverHoldsToken(cfg: Config) {
    cfg.capacity < 1.0
  }

  ghost predicate RefillsWhileIdle(cfg: Config) {
    cfg.refillRate >= 0.0 && Yield(cfg, cfg.expireAfter) >= cfg.capacity
  }

  /** The parts of two states that decide what happens next.  The ring and the trigger are
      not among them: a collected target forgets both. */
  ghost predicate Agree(cfg: Config, a: TargetState, b: TargetState) {
    && a.lastRefill == b.lastRefill && a.isOpen == b.isOpen
    && (a.isOpen ==> a.openedAt == b.openedAt && a.lastAllowed == b.lastAllowed)
    && (NeverHoldsToken(cfg) || a.tokens == b.tokens)
  }

  /** a collects and b does not: they agree on what a has, and what a lacks is stale in b. */
  ghost predicate Simulates(cfg: Config, a: Targets, b: Targets, now: real) {
    && (forall t :: t in a ==> t in b && Agree(cfg, a[t], b[t]))
    && (forall t :: t in b ==> Healthy(cfg, b[t], now) && (t !in a ==> Stale(cfg, b[t], now)))
  }

  lemma AgreeAfterRecord(cfg: Config, a: TargetState, b: TargetState, now: real, src: string, et: EventType)
    requires Agree(cfg, a, b)
    ensures Agree(cfg, Record(cfg, a, now, src, et), Record(cfg, b, now, src, et))
  {
    var m, n := Noted(cfg, a, now, src), Noted(cfg, b, now, src);
    assert NeverHoldsToken(cfg) ==> m.tokens < 1.0 && n.tokens < 1.0;
    assert m.tokens == n.tokens || NeverHoldsToken(cfg);
  }

  /** A stale target behaves like a new one: it lets the request pass and then agrees with it. */
  lemma StaleActsNew(cfg: Config, m: Targets, t: Target, now: real, check: real, record: real, src: string)
    requires CollectsOnlySettled(cfg) && t in m && Healthy(cfg, m[t], now) && Stale(cfg, m[t], now)
    requires now <= check <= record
    ensures Verdict(cfg, m, t, check) != EventDropped
    ensures Agree(cfg, Record(cfg, NewTarget(cfg, record), record, src, EventAllowed),
                  Record(cfg, m[t], record, src, Verdict(cfg, m, t, check)))
  {
    var s := m[t];
    if RefillsWhileIdle(cfg) {
      StaleRefillsFully(cfg, s, record);
    }
    YieldOfNothing(cfg);
  }

  lemma StaleRefillsFully(cfg: Config, s: TargetState, now: real)
    requires RefillsWhileIdle(cfg) && Healthy(cfg, s, now) && Stale(cfg, s, now)
    ensures Min(cfg.capacity, s.tokens + Yield(cfg, now - s.lastRefill)) == cfg.capacity
  {
    var excess := now - s.lastRefill - cfg.expireAfter;
    YieldNotNegative(cfg, excess);
    YieldAdds(cfg, cfg.expireAfter, excess);
    assert cfg.expireAfter + excess == now - s.lastRefill;
    if s.tokens < 0.0 {
      YieldNotNegative(cfg, now - s.lastRefill);
    }
  }

  /** Whichever breaker decides, both record the event on target t and stay in agreement. */
  lemma SimulationOn(cfg: Config, a: Targets, b: Targets, now: real, t: Target, check: real, record: real, src: string)
    requires CollectsOnlySettled(cfg) && Simulates(cfg, a, b, now) && now <= check <= record
    ensures (Verdict(cfg, a, t, check) == EventDropped) == (Verdict(cfg, b, t, check) == EventDropped)
    ensures var x, y := Recorded(cfg, true, a, t, record, src, Verdict(cfg, a, t, check))[t],
                        Recorded(cfg, false, b, t, record, src, Verdict(cfg, b, t, check))[t];
      Agree(cfg, x, y) && Healthy(cfg, y, record)
  {
    var v := Verdict(cfg, b, t, check);
    if t in b {
      RecordKeepsHealthy(cfg, b[t], now, record, src, v);
      if t in a {
        AgreeAfterRecord(cfg, a[t], b[t], record, src, v);
      } else {
        StaleActsNew(cfg, b, t, now, check, record, src);
      }
    } else {
      RecordKeepsHealthy(cfg, NewTarget(cfg, record), record, record, src, v);
    }
  }

  lemma SimulationStep(cfg: Config, a: Targets, b: Targets, now: real, op: Op)
    requires CollectsOnlySettled(cfg) && Simulates(cfg, a, b, now)
    requires Recording(op) ==> now <= op.check <= op.record
    ensures Keeps(cfg, a, op) == Keeps(cfg, b, op)
    ensures Simulates(cfg, Next(cfg, true, a, op), Next(cfg, false, b, op), if Recording(op) then op.record else now)
  {
    if Recording(op) {
      SimulationOn(cfg, a, b, now, op.target, op.check, op.record, op.source.Show());
      var v, w := Verdict(cfg, a, op.target, op.check), Verdict(cfg, b, op.target, op.check);
      SimulationBeside(cfg, a, b, now, op.target, op.record, op.source.Show(), v, w);
    }
  }

  /** The other targets: at most, stale ones are collected. */
  lemma SimulationBeside(cfg: Config, a: Targets, b: Targets, now: real, t: Target, record: real, src: string,
                         v: EventType, w: EventType)
    requires Simulates(cfg, a, b, now) && now <= record
    requires var x, y := Recorded(cfg, true, a, t, record, src, v)[t], Recorded(cfg, false, b, t, record, src, w)[t];
      Agree(cfg, x, y) && Healthy(cfg, y, record)
    ensures Simulates(cfg, Recorded(cfg, true, a, t, record, src, v),
                      Recorded(cfg, false, b, t, record, src, w), record)
  {
    var c, d := Recorded(cfg, true, a, t, record, src, v), Recorded(cfg, false, b, t, record, src, w);
    forall u | u != t ensures u in d <==> u in b {
      RecordedBeside(cfg, true, a, t, record, src, v, u);
      RecordedBeside(cfg, false, b, t, record, src, w, u);
    }
    forall u | u in d && u != t
      ensures Healthy(cfg, d[u], record) && if u in c then Agree(cfg, c[u], d[u]) else Stale(cfg, d[u], record)
    {
      RecordedBeside(cfg, true, a, t, record, src, v, u);
      RecordedBeside(cfg, false, b, t, record, src, w, u);
    }
  }

  lemma RecordedBeside(cfg: Config, collect: bool, m: Targets, t: Target, now: real, src: string, et: EventType,
                       u: Target)
    requires u != t
    ensures var r := Recorded(cfg, collect, m, t, now, src, et);
      && (u in r <==> u in m && (collect && t !in m ==> !Stale(cfg, m[u], now)))
      && (u in r ==> r[u] == m[u])
  {
  }

  lemma {:induction false} SimulationRun(cfg: Config, a: Targets, b: Targets, start: real, ops: seq<Op>)
    requires CollectsOnlySettled(cfg) && Simulates(cfg, a, b, start) && Ordered(start, ops)
    ensures Simulates(cfg, After(cfg, true, a, ops), After(cfg, false, b, ops), Clock(start, ops))
    ensures Decisions(cfg, true, a, ops) == Decisions(cfg, false, b, ops)
  {
    if ops != [] {
      var init := ops[..|ops| - 1];
      SimulationRun(cfg, a, b, start, init);
      SimulationStep(cfg, After(cfg, true, a, init), After(cfg, false, b, init), Clock(start, init), ops[|ops| - 1]);
    }
  }

  /** Garbage collection is invisible: over every run from an empty breaker the filter keeps
      exactly the requests it would keep over a breaker that never drops a target. */
  lemma CollectionChangesNoDecision(cfg: Config, start: real, ops: seq<Op>)
    requires CollectsOnlySettled(cfg) && Ordered(start, ops)
    ensures Decisions(cfg, true, map[], ops) == Decisions(cfg, false, map[], ops)
  {
    SimulationRun(cfg, map[], map[], start, ops);
  }

  lemma DefaultsCollectOnlySettled()
    ensures CollectsOnlySettled(DEFAULT_CONFIG)
  {
  }

  // ----- Tokens -----

  datatype Event = Event(now: real, source: string, kind: EventType)

  /** This event takes a token. */
  predicate TakesToken(cfg: Config, s: TargetState, now: real, src: string) {
    !Cooling(cfg, s, now) && Noted(cfg, s, now, src).tokens >= 1.0
  }

  function RecordAll(cfg: Config, s: TargetState, events: seq<Event>): TargetState {
    if events == [] then s
    else
      var e := events[|events| - 1];
      Record(cfg, RecordAll(cfg, s, events[..|events| - 1]), e.now, e.source, e.kind)
  }

  function Consumed(cfg: Config, s: TargetState, events: seq<Event>): nat {
    if events == [] then 0
    else
      var init, e := events[..|events| - 1], events[|events| - 1];
      Consumed(cfg, s, init) + One(TakesToken(cfg, RecordAll(cfg, s, init), e.now, e.source))
  }

  function One(b: bool): nat {
    if b then 1 else 0
  }

  /** What an event does to the bucket and to the circuit. */
  lemma RecordShape(cfg: Config, s: TargetState, now: real, src: string, et: EventType)
    ensures var r := Record(cfg, s, now, src, et);
      && r.lastRefill == now
      && r.tokens + One(TakesToken(cfg, s, now, src)) as real <= cfg.capacity
      && r.tokens + One(TakesToken(cfg, s, now, src)) as real <= s.tokens + Yield(cfg, now - s.lastRefill)
      && (Opens(cfg, s, now, src) ==> r.isOpen && r.openedAt == now && r.lastAllowed == now)
      && (Cooling(cfg, s, now) ==> r.isOpen && r.openedAt == s.openedAt)
      && (Cooling(cfg, s, now) ==> r.lastAllowed == if et == EventHalfOpenAllowed then now else s.lastAllowed)
      && (TakesToken(cfg, s, now, src) ==> !r.isOpen)
  {
  }

  /** The least time that n occurrences a gap apart take, and one gap more. */
  function Gaps(n: nat, gap: real): real {
    n as real * gap
  }

  lemma OneGapMore(n: nat, gap: real)
    ensures Gaps(n + 1, gap) == Gaps(n, gap) + gap
    ensures Gaps(0, gap) == 0.0
  {
  }

  /** From s to r no more than the refill rate yields was added, and used tokens were taken. */
  ghost predicate Conserves(cfg: Config, s: TargetState, r: TargetState, used: nat) {
    r.tokens + used as real <= s.tokens + Yield(cfg, r.lastRefill - s.lastRefill)
  }

  /** What the last event does, given what the others do. */
  lemma OneMoreEvent(cfg: Config, s: TargetState, events: seq<Event>, m: TargetState, used: nat)
    requires events != [] && var init := events[..|events| - 1];
      m == RecordAll(cfg, s, init) && used == Consumed(cfg, s, init)
    ensures var e := events[|events| - 1];
      && RecordAll(cfg, s, events) == Record(cfg, m, e.now, e.source, e.kind)
      && Consumed(cfg, s, events) == used + One(TakesToken(cfg, m, e.now, e.source))
  {
  }

  lemma ConservedOnce(cfg: Config, s: TargetState, events: seq<Event>, m: TargetState, used: nat)
    requires events != [] && var init := events[..|events| - 1];
      m == RecordAll(cfg, s, init) && used == Consumed(cfg, s, init)
    requires Conserves(cfg, s, m, used)
    ensures Conserves(cfg, s, RecordAll(cfg, s, events), Consumed(cfg, s, events))
  {
    OneMoreEvent(cfg, s, events, m, used);
    ConservedStep(cfg, s, m, used, events[|events| - 1]);
  }

  /** Tokens are conserved whatever the order the timestamps are applied in. */
  lemma {:induction false} TokensConserved(cfg: Config, s: TargetState, events: seq<Event>)
    ensures Conserves(cfg, s, RecordAll(cfg, s, events), Consumed(cfg, s, events))
  {
    if events == [] {
      NothingConserved(cfg, s);
    } else {
      var init := events[..|events| - 1];
      TokensConserved(cfg, s, init);
      ConservedOnce(cfg, s, events, RecordAll(cfg, s, init), Consumed(cfg, s, init));
    }
  }

  lemma NothingConserved(cfg: Config, s: TargetState)
    ensures Conserves(cfg, s, s, 0)
  {
    YieldOfNothing(cfg);
  }

  lemma ConservedStep(cfg: Config, s: TargetState, m: TargetState, used: nat, e: Event)
    requires Conserves(cfg, s, m, used)
    ensures Conserves(cfg, s, Record(cfg, m, e.now, e.source, e.kind),
                      used + One(TakesToken(cfg, m, e.now, e.source)))
  {
    RecordShape(cfg, m, e.now, e.source, e.kind);
    YieldAdds(cfg, e.now - m.lastRefill, m.lastRefill - s.lastRefill);
  }

  // ----- Refilling while the circuit cools -----

  /** The events come in order, none before start. */
  ghost predicate InOrder(start: real, events: seq<Event>) {
    events == [] ||
    var init, e := events[..|events| - 1], events[|events| - 1];
    InOrder(start, init) && LastTime(start, init) <= e.now
  }

  function LastTime(start: real, events: seq<Event>): real {
    if events == [] then start else events[|events| - 1].now
  }

  /** Every event comes before the cooldown is over. */
  ghost predicate AllCool(cfg: Config, s: TargetState, events: seq<Event>) {
    forall i :: 0 <= i < |events| ==> events[i].now - s.openedAt < cfg.cooldown
  }

  lemma {:induction false} CoolingStaysOpen(cfg: Config, s: TargetState, events: seq<Event>)
    requires s.isOpen && AllCool(cfg, s, events)
    ensures var r := RecordAll(cfg, s, events);
      r.isOpen && r.openedAt == s.openedAt && r.lastRefill == LastTime(s.lastRefill, events)
  {
    if events != [] {
      var init, e := events[..|events| - 1], events[|events| - 1];
      CoolingStaysOpen(cfg, s, init);
      RecordExactly(cfg, RecordAll(cfg, s, init), e.now, e.source, e.kind);
    }
  }

  /** Requests during the cooldown cost no refill: however many events find the circuit cooling,
      the bucket holds what it would hold had only time passed. */
  lemma {:induction false} CoolingRefillsFully(cfg: Config, s: TargetState, events: seq<Event>)
    requires cfg.refillRate >= 0.0 && s.isOpen && s.tokens <= cfg.capacity
    requires InOrder(s.lastRefill, events) && AllCool(cfg, s, events)
    ensures RecordAll(cfg, s, events).tokens == Refilled(cfg, s, LastTime(s.lastRefill, events))
    ensures s.lastRefill <= LastTime(s.lastRefill, events)
  {
    if events == [] {
      RefilledAtOnce(cfg, s);
    } else {
      var init, e := events[..|events| - 1], events[|events| - 1];
      CoolingRefillsFully(cfg, s, init);
      CoolingStaysOpen(cfg, s, init);
      CoolingRefillsOn(cfg, s, RecordAll(cfg, s, init), LastTime(s.lastRefill, init), e);
    }
  }

  lemma RefilledAtOnce(cfg: Config, s: TargetState)
    requires s.tokens <= cfg.capacity
    ensures Refilled(cfg, s, s.lastRefill) == s.tokens
  {
    YieldOfNothing(cfg);
  }

  lemma CoolingRefillsOn(cfg: Config, s: TargetState, m: TargetState, then_: real, e: Event)
    requires cfg.refillRate >= 0.0 && s.tokens <= cfg.capacity && s.lastRefill <= then_ <= e.now
    requires m.isOpen && e.now - m.openedAt < cfg.cooldown
    requires m.lastRefill == then_ && m.tokens == Refilled(cfg, s, then_)
    ensures Record(cfg, m, e.now, e.source, e.kind).tokens == Refilled(cfg, s, e.now)
  {
    RecordExactly(cfg, m, e.now, e.source, e.kind);
    RefilledTwice(cfg, s, m, then_, e.now);
  }

  /** Refilling in two steps or in one. */
  lemma RefilledTwice(cfg: Config, s: TargetState, m: TargetState, then_: real, now: real)
    requires cfg.refillRate >= 0.0 && s.tokens <= cfg.capacity && s.lastRefill <= then_ <= now
    requires m.lastRefill == then_ && m.tokens == Refilled(cfg, s, then_)
    ensures Refilled(cfg, m, now) == Refilled(cfg, s, now)
  {
    var x, y := then_ - s.lastRefill, now - then_;
    YieldAdds(cfg, x, y);
    YieldNotNegative(cfg, y);
    assert now - s.lastRefill == x + y;
  }

  // ----- The ring over whole runs -----

  /** The sources recorded since creation or the last close, the closing event excluded. */
  function SourcesSince(cfg: Config, s: TargetState, events: seq<Event>): seq<string> {
    if events == [] then []
    else
      var init, e := events[..|events| - 1], events[|events| - 1];
      SourcesAfter(cfg, RecordAll(cfg, s, init), SourcesSince(cfg, s, init), e.now, e.source)
  }

  /** Whatever is recorded, the ring of a target holds exactly its last 16 sources. */
  lemma {:induction false} RingHoldsRecentSources(cfg: Config, created: real, events: seq<Event>)
    ensures var s := NewTarget(cfg, created);
      var r := RecordAll(cfg, s, events);
      RingHolds(r.recentSources, r.recentIdx, SourcesSince(cfg, s, events))
  {
    var s := NewTarget(cfg, created);
    if events != [] {
      var init, e := events[..|events| - 1], events[|events| - 1];
      RingHoldsRecentSources(cfg, created, init);
      RecordKeepsRing(cfg, RecordAll(cfg, s, init), SourcesSince(cfg, s, init), e.now, e.source, e.kind);
    }
  }

  // ----- Admissions -----

  /** For one target: requests kept (deletions aside), tokens taken, circuits opened, and
      requests let through an open circuit. */
  datatype Tally = Tally(kept: nat, taken: nat, openings: nat, probes: nat)

  function CountOne(cfg: Config, s: TargetState, keeps: bool, v: EventType, now: real, src: string, c: Tally): Tally {
    Tally(
      c.kept + One(keeps),
      c.taken + One(TakesToken(cfg, s, now, src)),
      c.openings + One(Opens(cfg, s, now, src)),
      c.probes + One(v == EventHalfOpenAllowed))
  }

  function Count(cfg: Config, collect: bool, m: Targets, t: Target, ops: seq<Op>): Tally {
    if ops == [] then Tally(0, 0, 0, 0)
    else
      var init, op := ops[..|ops| - 1], ops[|ops| - 1];
      var before, at := Count(cfg, collect, m, t, init), After(cfg, collect, m, init);
      if Recording(op) && op.target == t then
        CountOne(cfg, WithTarget(cfg, collect, at, t, op.record)[t], Keeps(cfg, at, op),
                 Verdict(cfg, at, t, op.check), op.record, op.source.Show(), before)
      else before
  }

  /** What the counts of a window that began at start owe to the target's present state. */
  ghost predicate Bounded(cfg: Config, s: TargetState, c: Tally, start: real, now: real) {
    && start <= now && Healthy(cfg, s, now)
    && c.kept <= c.taken + c.openings + c.probes
    && TokensOwed(cfg, s, c.taken, start)
    && OpeningsOwed(cfg, s, c.openings, start, now)
    && ProbesOwed(cfg, s, c.probes, start, now)
  }

  ghost predicate TokensOwed(cfg: Config, s: TargetState, taken: nat, start: real) {
    if s.lastRefill < start then taken == 0
    else taken as real + s.tokens <= cfg.capacity + Yield(cfg, s.lastRefill - start)
  }

  /** Openings are a cooldown apart, and no later one comes before the present one has cooled. */
  ghost predicate OpeningsOwed(cfg: Config, s: TargetState, openings: nat, start: real, now: real) {
    openings > 0 ==>
      Gaps(openings, cfg.cooldown) <= (if s.isOpen then s.openedAt + cfg.cooldown else now) - start
  }

  /** Probes are more than a half-open interval apart, and as far from the opening. */
  ghost predicate ProbesOwed(cfg: Config, s: TargetState, probes: nat, start: real, now: real) {
    probes > 0 ==>
      Gaps(probes, cfg.halfOpen) <= LastPass(s, now) + cfg.halfOpen - start
  }

  /** When the circuit last let a request pass, or now when it is closed. */
  function LastPass(s: TargetState, now: real): real {
    if s.isOpen then s.lastAllowed else now
  }

  ghost predicate SaneConfig(cfg: Config) {
    cfg.capacity >= 0.0 && cfg.refillRate >= 0.0 && cfg.cooldown >= 0.0 && cfg.halfOpen >= 0.0
  }

  /** How the filter treats a target in state s. */
  ghost predicate Handles(cfg: Config, s: TargetState, check: real, v: EventType) {
    v == if !s.isOpen then EventAllowed
         else if check > s.lastAllowed + cfg.halfOpen then EventHalfOpenAllowed
         else EventDropped
  }

  lemma TokensStep(cfg: Config, s: TargetState, taken: nat, start: real, now: real, src: string, v: EventType)
    requires SaneConfig(cfg) && start <= now && s.lastRefill <= now
    requires TokensOwed(cfg, s, taken, start)
    ensures TokensOwed(cfg, Record(cfg, s, now, src, v), taken + One(TakesToken(cfg, s, now, src)), start)
  {
    RecordShape(cfg, s, now, src, v);
    if s.lastRefill >= start {
      YieldAdds(cfg, now - s.lastRefill, s.lastRefill - start);
    } else {
      YieldNotNegative(cfg, now - start);
    }
  }

  lemma OpeningsStep(cfg: Config, s: TargetState, n: nat, start: real, now: real, at: real, src: string, v: EventType)
    requires SaneConfig(cfg) && start <= now <= at && (s.isOpen ==> s.openedAt <= now)
    requires OpeningsOwed(cfg, s, n, start, now)
    ensures OpeningsOwed(cfg, Record(cfg, s, at, src, v), n + One(Opens(cfg, s, at, src)), start, at)
  {
    RecordShape(cfg, s, at, src, v);
    OneGapMore(n, cfg.cooldown);
  }

  lemma PassesMoveOn(cfg: Config, s: TargetState, now: real, check: real, at: real, src: string, v: EventType)
    requires now <= check <= at && (s.isOpen ==> s.lastAllowed <= now) && Handles(cfg, s, check, v)
    ensures LastPass(Record(cfg, s, at, src, v), at) >= LastPass(s, now)
    ensures v == EventHalfOpenAllowed ==>
      LastPass(Record(cfg, s, at, src, v), at) == at > LastPass(s, now) + cfg.halfOpen
  {
    RecordShape(cfg, s, at, src, v);
  }

  lemma ProbesStep(cfg: Config, s: TargetState, n: nat, start: real, now: real, check: real, at: real,
                   src: string, v: EventType)
    requires start <= now <= check <= at && (s.isOpen ==> s.lastAllowed <= now)
    requires Handles(cfg, s, check, v) && ProbesOwed(cfg, s, n, start, now)
    ensures ProbesOwed(cfg, Record(cfg, s, at, src, v), n + One(v == EventHalfOpenAllowed), start, at)
  {
    PassesMoveOn(cfg, s, now, check, at, src, v);
    OneGapMore(n, cfg.halfOpen);
  }

  lemma BoundedStep(cfg: Config, s: TargetState, c: Tally, start: real, now: real, check: real, at: real,
                    src: string, v: EventType)
    requires SaneConfig(cfg) && Bounded(cfg, s, c, start, now) && now <= check <= at
    requires Handles(cfg, s, check, v)
    ensures Bounded(cfg, Record(cfg, s, at, src, v), CountOne(cfg, s, v != EventDropped, v, at, src, c), start, at)
  {
    RecordKeepsHealthy(cfg, s, now, at, src, v);
    TokensStep(cfg, s, c.taken, start, at, src, v);
    OpeningsStep(cfg, s, c.openings, start, now, at, src, v);
    ProbesStep(cfg, s, c.probes, start, now, check, at, src, v);
  }

  lemma LaterStillBounded(cfg: Config, s: TargetState, c: Tally, start: real, now: real, later: real)
    requires Bounded(cfg, s, c, start, now) && now <= later
    ensures Bounded(cfg, s, c, start, later)
  {
  }

  lemma {:induction false} CountsBounded(cfg: Config, m: Targets, t: Target, start: real, ops: seq<Op>)
    requires SaneConfig(cfg) && Ordered(start, ops) && (t in m ==> Healthy(cfg, m[t], start))
    requires forall i :: 0 <= i < |ops| ==> ops[i] != Reset(t)
    ensures start <= Clock(start, ops)
    ensures var at, c := After(cfg, false, m, ops), Count(cfg, false, m, t, ops);
      if t in at then Bounded(cfg, at[t], c, start, Clock(start, ops)) else c == Tally(0, 0, 0, 0)
  {
    if ops != [] {
      var init, op := ops[..|ops| - 1], ops[|ops| - 1];
      CountsBounded(cfg, m, t, start, init);
      var at, c, now := After(cfg, false, m, init), Count(cfg, false, m, t, init), Clock(start, init);
      if Recording(op) {
        if op.target == t {
          var s := WithTarget(cfg, false, at, t, op.record)[t];
          var v := Verdict(cfg, at, t, op.check);
          if t in at {
            BoundedStep(cfg, s, c, start, now, op.check, op.record, op.source.Show(), v);
          } else {
            YieldNotNegative(cfg, op.record - start);
            BoundedStep(cfg, s, c, start, op.record, op.record, op.record, op.source.Show(), v);
          }
        } else if t in at {
          LaterStillBounded(cfg, at[t], c, start, now, op.record);
        }
      }
    } else if t in m && m[t].lastRefill >= start {
      YieldOfNothing(cfg);
    }
  }

  /** n occurrences at least gap apart within a stretch of length span. */
  lemma AtMostOnePlus(n: nat, gap: real, span: real)
    requires gap > 0.0 && span >= 0.0 && (n > 0 ==> Gaps(n, gap) <= span + gap)
    ensures n as real <= 1.0 + span / gap
  {
    var q := span / gap;
    assert q * gap == span;
    if n > 0 {
      assert (n as real - 1.0 - q) * gap == n as real * gap - gap - q * gap;
      CancelPositive(n as real - 1.0 - q, gap);
    } else if q < 0.0 {
      CancelPositive(-1.0 - q, gap);
    }
  }

  lemma CancelPositive(x: real, y: real)
    requires y > 0.0 && x * y <= 0.0
    ensures x <= 0.0
  {
  }

  /** At most the tokens of a full bucket and its refill are taken in a window, and at most
      that many requests are kept plus one for each opening and one for each probe, openings
      being a cooldown apart and probes a half-open interval. */
  ghost predicate WithinBound(cfg: Config, c: Tally, span: real)
    requires PositiveConfig(cfg)
  {
    c.taken as real <= cfg.capacity + Yield(cfg, span) && KeptWithin(cfg, c.kept, span)
  }

  ghost predicate KeptWithin(cfg: Config, kept: nat, span: real)
    requires PositiveConfig(cfg)
  {
    kept as real <=
      cfg.capacity + Yield(cfg, span) + (1.0 + span / cfg.cooldown) + (1.0 + span / cfg.halfOpen)
  }

  ghost predicate PositiveConfig(cfg: Config) {
    cfg.capacity >= 0.0 && cfg.refillRate >= 0.0 && cfg.cooldown > 0.0 && cfg.halfOpen > 0.0
  }

  lemma TokensMean(cfg: Config, s: TargetState, taken: nat, start: real, now: real, span: real)
    requires SaneConfig(cfg) && TokensOwed(cfg, s, taken, start)
    requires s.tokens >= 0.0 && s.lastRefill <= now <= start + span && start <= now
    ensures taken as real <= cfg.capacity + Yield(cfg, span)
  {
    if s.lastRefill < start {
      YieldNotNegative(cfg, span);
    } else {
      var rest := start + span - s.lastRefill;
      YieldNotNegative(cfg, rest);
      YieldAdds(cfg, s.lastRefill - start, rest);
      assert s.lastRefill - start + rest == span;
    }
  }

  lemma OpeningsMean(cfg: Config, s: TargetState, n: nat, start: real, now: real, span: real)
    requires cfg.cooldown > 0.0 && OpeningsOwed(cfg, s, n, start, now)
    requires start <= now <= start + span && (s.isOpen ==> s.openedAt <= now)
    ensures n as real <= 1.0 + span / cfg.cooldown
  {
    AtMostOnePlus(n, cfg.cooldown, span);
  }

  lemma ProbesMean(cfg: Config, s: TargetState, n: nat, start: real, now: real, span: real)
    requires cfg.halfOpen > 0.0 && ProbesOwed(cfg, s, n, start, now)
    requires start <= now <= start + span && (s.isOpen ==> s.lastAllowed <= now)
    ensures n as real <= 1.0 + span / cfg.halfOpen
  {
    AtMostOnePlus(n, cfg.halfOpen, span);
  }

  lemma AddUp(c: Tally, x: real, y: real, z: real)
    requires c.kept <= c.taken + c.openings + c.probes
    requires c.taken as real <= x && c.openings as real <= y && c.probes as real <= z
    ensures c.kept as real <= x + y + z
  {
  }

  lemma BoundedIsWithin(cfg: Config, s: TargetState, c: Tally, start: real, now: real, span: real)
    requires PositiveConfig(cfg) && Bounded(cfg, s, c, start, now) && now <= start + span
    ensures WithinBound(cfg, c, span)
  {
    TokensMean(cfg, s, c.taken, start, now, span);
    OpeningsMean(cfg, s, c.openings, start, now, span);
    ProbesMean(cfg, s, c.probes, start, now, span);
    AddUp(c, cfg.capacity + Yield(cfg, span), 1.0 + span / cfg.cooldown, 1.0 + span / cfg.halfOpen);
  }

  lemma NothingIsWithin(cfg: Config, span: real)
    requires PositiveConfig(cfg) && span >= 0.0
    ensures WithinBound(cfg, Tally(0, 0, 0, 0), span)
  {
    YieldNotNegative(cfg, span);
    AtMostOnePlus(0, cfg.cooldown, span);
    AtMostOnePlus(0, cfg.halfOpen, span);
  }

  /** Over a breaker that never collects, every window without a reset of the target. */
  lemma AdmissionsBounded(cfg: Config, m: Targets, t: Target, start: real, ops: seq<Op>, span: real)
    requires PositiveConfig(cfg) && Ordered(start, ops) && Clock(start, ops) <= start + span
    requires t in m ==> Healthy(cfg, m[t], start)
    requires forall i :: 0 <= i < |ops| ==> ops[i] != Reset(t)
    ensures WithinBound(cfg, Count(cfg, false, m, t, ops), span)
  {
    CountsBounded(cfg, m, t, start, ops);
    var at := After(cfg, false, m, ops);
    if t in at {
      BoundedIsWithin(cfg, at[t], Count(cfg, false, m, t, ops), start, Clock(start, ops), span);
    } else {
      NothingIsWithin(cfg, span);
    }
  }

  // ----- The breaker as it is: collecting -----

  /** How many requests for t the decisions keep, deletions aside. */
  function KeptFor(t: Target, ops: seq<Op>, keeps: seq<bool>): nat
    requires |ops| == |keeps|
  {
    if ops == [] then 0
    else
      var n := |ops| - 1;
      KeptFor(t, ops[..n], keeps[..n]) + One(Recording(ops[n]) && ops[n].target == t && keeps[n])
  }

  lemma {:induction false} KeptIsCounted(cfg: Config, collect: bool, m: Targets, t: Target, ops: seq<Op>)
    ensures KeptFor(t, ops, Decisions(cfg, collect, m, ops)) == Count(cfg, collect, m, t, ops).kept
  {
    if ops != [] {
      KeptIsCounted(cfg, collect, m, t, ops[..|ops| - 1]);
    }
  }

  /** End to end: after any run of a collecting breaker, the filter keeps no more requests for
      a target in a window without a reset of it than the bound allows. */
  lemma CollectingAdmissionsBounded(cfg: Config, begin: real, before: seq<Op>, t: Target, start: real,
                                    window: seq<Op>, span: real)
    requires PositiveConfig(cfg) && CollectsOnlySettled(cfg)
    requires Ordered(begin, before) && Clock(begin, before) <= start
    requires Ordered(start, window) && Clock(start, window) <= start + span
    requires forall i :: 0 <= i < |window| ==> window[i] != Reset(t)
    ensures KeptWithin(cfg, KeptFor(t, window, Decisions(cfg, true, After(cfg, true, map[], before), window)), span)
  {
    SimulationRun(cfg, map[], map[], begin, before);
    var a, b := After(cfg, true, map[], before), After(cfg, false, map[], before);
    SimulatesLater(cfg, a, b, Clock(begin, before), start);
    SimulationRun(cfg, a, b, start, window);
    KeptIsCounted(cfg, false, b, t, window);
    AdmissionsBounded(cfg, b, t, start, window, span);
  }

  lemma SimulatesLater(cfg: Config, a: Targets, b: Targets, now: real, later: real)
    requires Simulates(cfg, a, b, now) && now <= later
    ensures Simulates(cfg, a, b, later)
  {
  }
}
