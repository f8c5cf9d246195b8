/** Exactly which configurations let idle targets be collected without changing a decision.
    For every other one a run is built, request by request, on which the filter over the
    collecting breaker and the filter over one that never drops a target decide differently. */
module CollectionLimits {
  import opened CircuitState
  import opened Breaker
  import opened Filter
  import opened CircuitRuns

  ghost predicate SameOn(cfg: Config, a: Targets, b: Targets, ops: seq<Op>) {
    Decisions(cfg, true, a, ops) == Decisions(cfg, false, b, ops)
  }

  /** Some run from here on is decided differently. */
  ghost predicate ToldApart(cfg: Config, a: Targets, b: Targets, now: real) {
    exists ops :: Ordered(now, ops) && !SameOn(cfg, a, b, ops)
  }

  // ----- Building a run from its end -----

  lemma FrontKept(op: Op, ops: seq<Op>)
    requires ops != []
    ensures var all := [op] + ops; all != [] && all[..|all| - 1] == [op] + ops[..|ops| - 1]
    ensures ([op] + ops)[|ops|] == ops[|ops| - 1]
  {
  }

  lemma {:induction false} AfterFrom(cfg: Config, collect: bool, m: Targets, op: Op, ops: seq<Op>)
    ensures After(cfg, collect, m, [op] + ops) == After(cfg, collect, Next(cfg, collect, m, op), ops)
  {
    if ops == [] {
      assert ([op] + ops)[..0] == [] && [op] + ops == [op];
    } else {
      FrontKept(op, ops);
      AfterFrom(cfg, collect, m, op, ops[..|ops| - 1]);
    }
  }

  lemma {:induction false} DecisionsFrom(cfg: Config, collect: bool, m: Targets, op: Op, ops: seq<Op>)
    ensures Decisions(cfg, collect, m, [op] + ops) ==
      [Keeps(cfg, m, op)] + Decisions(cfg, collect, Next(cfg, collect, m, op), ops)
  {
    if ops == [] {
      assert ([op] + ops)[..0] == [] && [op] + ops == [op];
    } else {
      var init := ops[..|ops| - 1];
      FrontKept(op, ops);
      DecisionsFrom(cfg, collect, m, op, init);
      AfterFrom(cfg, collect, m, op, init);
    }
  }

  lemma {:induction false} OrderedFrom(now: real, op: Op, ops: seq<Op>)
    requires Recording(op) && now <= op.check <= op.record && Ordered(op.record, ops)
    ensures Ordered(now, [op] + ops) && Clock(now, [op] + ops) == Clock(op.record, ops)
  {
    if ops == [] {
      assert ([op] + ops)[..0] == [] && [op] + ops == [op];
    } else {
      FrontKept(op, ops);
      OrderedFrom(now, op, ops[..|ops| - 1]);
    }
  }

  lemma FirstOrRestDiffer(x: bool, y: bool, p: seq<bool>, q: seq<bool>)
    requires x != y || p != q
    ensures [x] + p != [y] + q
  {
    assert ([x] + p)[0] == x && ([y] + q)[0] == y;
    assert ([x] + p)[1..] == p && ([y] + q)[1..] == q;
  }

  lemma DifferFrom(cfg: Config, a: Targets, b: Targets, op: Op, ops: seq<Op>)
    requires Keeps(cfg, a, op) != Keeps(cfg, b, op) ||
      !SameOn(cfg, Next(cfg, true, a, op), Next(cfg, false, b, op), ops)
    ensures !SameOn(cfg, a, b, [op] + ops)
  {
    DecisionsFrom(cfg, true, a, op, ops);
    DecisionsFrom(cfg, false, b, op, ops);
    FirstOrRestDiffer(Keeps(cfg, a, op), Keeps(cfg, b, op),
                      Decisions(cfg, true, Next(cfg, true, a, op), ops),
                      Decisions(cfg, false, Next(cfg, false, b, op), ops));
  }

  /** One request earlier: it is decided differently itself, or a later one is. */
  lemma ToldApartBy(cfg: Config, a: Targets, b: Targets, now: real, op: Op)
    requires Recording(op) && now <= op.check <= op.record
    requires Keeps(cfg, a, op) == Keeps(cfg, b, op) ==>
      ToldApart(cfg, Next(cfg, true, a, op), Next(cfg, false, b, op), op.record)
    ensures ToldApart(cfg, a, b, now)
  {
    var ops: seq<Op> := [];
    if Keeps(cfg, a, op) == Keeps(cfg, b, op) {
      ops :| Ordered(op.record, ops) && !SameOn(cfg, Next(cfg, true, a, op), Next(cfg, false, b, op), ops);
    }
    OrderedFrom(now, op, ops);
    DifferFrom(cfg, a, b, op, ops);
  }

  // ----- What a request does -----

  function Ask(t: Target, check: real, record: real): Op {
    Request(t, EventSource("", "", ""), false, check, record)
  }

  function Source(): string {
    EventSource("", "", "").Show()
  }

  /** A closed circuit, last refilled now. */
  ghost predicate ClosedAt(s: TargetState, now: real) {
    !s.isOpen && s.lastRefill == now
  }

  /** A circuit that opened now. */
  ghost predicate OpenedAt(s: TargetState, now: real) {
    s.isOpen && s.openedAt == now && s.lastAllowed == now && s.lastRefill == now
  }

  lemma ClosedTakesOrOpens(cfg: Config, s: TargetState, now: real, src: string, et: EventType)
    requires !s.isOpen
    ensures var r, tokens := Record(cfg, s, now, src, et), Min(cfg.capacity, s.tokens + Yield(cfg, now - s.lastRefill));
      if tokens >= 1.0 then ClosedAt(r, now) && r.tokens == tokens - 1.0 else OpenedAt(r, now)
  {
  }

  /** Asked at once after its last refill, a closed circuit spends what it has. */
  lemma ClosedAskedAgain(cfg: Config, s: TargetState, now: real, src: string, et: EventType)
    requires ClosedAt(s, now) && s.tokens <= cfg.capacity
    ensures var r := Record(cfg, s, now, src, et);
      if s.tokens >= 1.0 then ClosedAt(r, now) && r.tokens == s.tokens - 1.0 else OpenedAt(r, now)
  {
    YieldOfNothing(cfg);
    ClosedTakesOrOpens(cfg, s, now, src, et);
  }

  lemma AskKnown(cfg: Config, collect: bool, m: Targets, t: Target, check: real, record: real)
    requires t in m
    ensures Next(cfg, collect, m, Ask(t, check, record)) ==
      m[t := Record(cfg, m[t], record, Source(), Verdict(cfg, m, t, check))]
  {
  }

  /** The first request for a target takes a token if the bucket holds one. */
  lemma AskNew(cfg: Config, collect: bool, m: Targets, t: Target, now: real)
    requires t !in m
    ensures Keeps(cfg, m, Ask(t, now, now))
    ensures var n := Next(cfg, collect, m, Ask(t, now, now));
      t in n && n[t].tokens <= cfg.capacity &&
      if cfg.capacity >= 1.0 then ClosedAt(n[t], now) && n[t].tokens == cfg.capacity - 1.0 else OpenedAt(n[t], now)
  {
    ClosedAskedAgain(cfg, NewTarget(cfg, now), now, Source(), EventAllowed);
  }

  /** A new target makes the collecting breaker drop a stale one. */
  lemma OtherAsked(cfg: Config, m: Targets, t: Target, u: Target, now: real)
    requires t in m && u !in m && Stale(cfg, m[t], now)
    ensures t !in Next(cfg, true, m, Ask(u, now, now))
    ensures var n := Next(cfg, false, m, Ask(u, now, now)); t in n && n[t] == m[t]
  {
  }

  /** Both breakers let the new target's request pass; t is then known to one of them only. */
  lemma ToldApartAfterIdling(cfg: Config, m: Targets, t: Target, u: Target, now: real, late: real)
    requires t in m && u !in m && now <= late && Stale(cfg, m[t], late)
    requires forall a, b :: t !in a && t in b && b[t] == m[t] ==> ToldApart(cfg, a, b, late)
    ensures ToldApart(cfg, m, m, now)
  {
    OtherAsked(cfg, m, t, u, late);
    ToldApartBy(cfg, m, m, now, Ask(u, late, late));
  }

  /** A closed circuit lets a request pass that one just opened drops. */
  lemma ClosedAndOpenDiffer(cfg: Config, a: Targets, b: Targets, t: Target, now: real)
    requires cfg.halfOpen >= 0.0 && t in a && !a[t].isOpen
    requires t in b && b[t].isOpen && b[t].lastAllowed == now
    ensures ToldApart(cfg, a, b, now)
  {
    ToldApartBy(cfg, a, b, now, Ask(t, now, now));
  }

  // ----- Too short for the half-open interval or the cooldown -----

  /** t opened its circuit now. */
  lemma OpenToldApart(cfg: Config, m: Targets, t: Target, u: Target, now: real)
    requires cfg.halfOpen >= 0.0 && (cfg.expireAfter < cfg.halfOpen || cfg.expireAfter < cfg.cooldown)
    requires t in m && u !in m && OpenedAt(m[t], now)
    ensures ToldApart(cfg, m, m, now)
  {
    if cfg.expireAfter < cfg.halfOpen {
      var late := now + cfg.halfOpen;
      forall a, b | t !in a && t in b && b[t] == m[t] ensures ToldApart(cfg, a, b, late) {
        ToldApartBy(cfg, a, b, late, Ask(t, late, late));
      }
      ToldApartAfterIdling(cfg, m, t, u, now, late);
    } else {
      var late := now + (cfg.expireAfter + cfg.cooldown) / 2.0;
      forall a, b | t !in a && t in b && b[t] == m[t] ensures ToldApart(cfg, a, b, late) {
        CoolingToldApart(cfg, a, b, t, now, late);
      }
      ToldApartAfterIdling(cfg, m, t, u, now, late);
    }
  }

  /** t is new to one breaker; in the other it is still cooling, but may be probed. */
  lemma CoolingToldApart(cfg: Config, a: Targets, b: Targets, t: Target, now: real, late: real)
    requires cfg.halfOpen >= 0.0 && now + cfg.halfOpen < late < now + cfg.cooldown
    requires t !in a && t in b && OpenedAt(b[t], now)
    ensures ToldApart(cfg, a, b, late)
  {
    var op := Ask(t, late, late);
    var x, y := Next(cfg, true, a, op), Next(cfg, false, b, op);
    AskNew(cfg, true, a, t, late);
    AskKnown(cfg, false, b, t, late, late);
    assert y[t].isOpen && y[t].openedAt == now && y[t].lastAllowed == late;
    if cfg.capacity >= 1.0 {
      ClosedAndOpenDiffer(cfg, x, y, t, late);
    } else {
      ReopeningToldApart(cfg, x, y, t, now, late);
    }
    ToldApartBy(cfg, a, b, late, op);
  }

  /** Without tokens both circuits are open, but they opened at different times: the one that
      opened earlier closes and opens again while the other still cools. */
  lemma ReopeningToldApart(cfg: Config, a: Targets, b: Targets, t: Target, now: real, late: real)
    requires cfg.halfOpen >= 0.0 && now < late < now + cfg.cooldown && cfg.capacity < 1.0
    requires t in a && OpenedAt(a[t], late)
    requires t in b && b[t].isOpen && b[t].openedAt == now && b[t].lastAllowed == late
    ensures ToldApart(cfg, a, b, late)
  {
    var cooled := now + cfg.cooldown;
    var op := Ask(t, late, cooled);
    var x, y := Next(cfg, true, a, op), Next(cfg, false, b, op);
    AskKnown(cfg, true, a, t, late, cooled);
    AskKnown(cfg, false, b, t, late, cooled);
    assert x[t].isOpen && x[t].lastAllowed == late;
    assert y[t].isOpen && y[t].lastAllowed == cooled;
    var probe := cooled + cfg.halfOpen;
    ToldApartBy(cfg, x, y, cooled, Ask(t, probe, probe));
    ToldApartBy(cfg, a, b, late, op);
  }

  /** Asking until the bucket is empty opens t's circuit. */
  lemma {:induction false} DrainedToldApart(cfg: Config, m: Targets, t: Target, u: Target, now: real)
    requires cfg.halfOpen >= 0.0 && (cfg.expireAfter < cfg.halfOpen || cfg.expireAfter < cfg.cooldown)
    requires t in m && u !in m && t != u && ClosedAt(m[t], now) && m[t].tokens <= cfg.capacity
    ensures ToldApart(cfg, m, m, now)
    decreases if m[t].tokens < 1.0 then 0 else m[t].tokens.Floor
  {
    var op := Ask(t, now, now);
    AskKnown(cfg, true, m, t, now, now);
    AskKnown(cfg, false, m, t, now, now);
    ClosedAskedAgain(cfg, m[t], now, Source(), Verdict(cfg, m, t, now));
    var n := Next(cfg, true, m, op);
    if m[t].tokens >= 1.0 {
      DrainedToldApart(cfg, n, t, u, now);
    } else {
      OpenToldApart(cfg, n, t, u, now);
    }
    ToldApartBy(cfg, m, m, now, op);
  }

  // ----- Too short for the bucket to refill -----

  ghost predicate Refills(cfg: Config) {
    cfg.refillRate > 0.0
  }

  /** How long the bucket takes for some tokens. */
  function Wait(cfg: Config, tokens: real): real
    requires cfg.refillRate > 0.0
  {
    tokens / cfg.refillRate
  }

  lemma WaitYields(cfg: Config, tokens: real)
    requires cfg.refillRate > 0.0
    ensures Yield(cfg, Wait(cfg, tokens)) == tokens
    ensures tokens >= 0.0 ==> Wait(cfg, tokens) >= 0.0
  {
  }

  lemma YieldOrdered(cfg: Config, x: real, y: real)
    requires cfg.refillRate > 0.0
    ensures x < y <==> Yield(cfg, x) < Yield(cfg, y)
  {
    YieldAdds(cfg, x, y - x);
    assert x + (y - x) == y;
  }

  /** Two closed circuits, the collecting breaker's with more tokens: taking until only the
      other one opens, after a wait for one token if neither holds one. */
  lemma {:induction false} FullerToldApart(cfg: Config, a: Targets, b: Targets, t: Target, now: real)
    requires cfg.halfOpen >= 0.0 && cfg.capacity >= 1.0 && Refills(cfg)
    requires t in a && ClosedAt(a[t], now) && t in b && ClosedAt(b[t], now)
    requires b[t].tokens < a[t].tokens <= cfg.capacity
    ensures ToldApart(cfg, a, b, now)
    decreases if b[t].tokens < 1.0 then 0 else b[t].tokens.Floor
  {
    var late := if a[t].tokens >= 1.0 then now else now + Wait(cfg, 1.0 - a[t].tokens);
    var op := Ask(t, late, late);
    var x, y := Next(cfg, true, a, op), Next(cfg, false, b, op);
    AskKnown(cfg, true, a, t, late, late);
    AskKnown(cfg, false, b, t, late, late);
    ClosedTakesOrOpens(cfg, a[t], late, Source(), EventAllowed);
    ClosedTakesOrOpens(cfg, b[t], late, Source(), EventAllowed);
    if a[t].tokens >= 1.0 {
      YieldOfNothing(cfg);
    } else {
      WaitYields(cfg, 1.0 - a[t].tokens);
      assert late - now == Wait(cfg, 1.0 - a[t].tokens);
    }
    if b[t].tokens >= 1.0 {
      FullerToldApart(cfg, x, y, t, now);
    } else {
      ClosedAndOpenDiffer(cfg, x, y, t, late);
    }
    ToldApartBy(cfg, a, b, now, op);
  }

  /** t is new to one breaker; in the other it comes back with a bucket that is not full. */
  lemma ReturningToldApart(cfg: Config, a: Targets, b: Targets, t: Target, late: real)
    requires cfg.halfOpen >= 0.0 && cfg.capacity >= 1.0
    requires t !in a && t in b && !b[t].isOpen
    requires var tokens := b[t].tokens + Yield(cfg, late - b[t].lastRefill);
      tokens < 1.0 || (Refills(cfg) && tokens < cfg.capacity)
    ensures ToldApart(cfg, a, b, late)
  {
    var op := Ask(t, late, late);
    var x, y := Next(cfg, true, a, op), Next(cfg, false, b, op);
    AskNew(cfg, true, a, t, late);
    AskKnown(cfg, false, b, t, late, late);
    ClosedTakesOrOpens(cfg, b[t], late, Source(), EventAllowed);
    if y[t].isOpen {
      ClosedAndOpenDiffer(cfg, x, y, t, late);
    } else {
      FullerToldApart(cfg, x, y, t, late);
    }
    ToldApartBy(cfg, a, b, late, op);
  }

  /** How long to idle: longer than expireAfter, but not long enough to fill an empty bucket. */
  lemma IdleTime(cfg: Config) returns (e: real)
    requires cfg.expireAfter >= 0.0 && cfg.capacity >= 1.0 && !RefillsWhileIdle(cfg)
    ensures e > cfg.expireAfter
    ensures if Refills(cfg) then Yield(cfg, e) < cfg.capacity else Yield(cfg, e) <= 0.0
  {
    if Refills(cfg) {
      var full := Wait(cfg, cfg.capacity);
      WaitYields(cfg, cfg.capacity);
      YieldOrdered(cfg, cfg.expireAfter, full);
      e := (cfg.expireAfter + full) / 2.0;
      YieldOrdered(cfg, e, full);
    } else {
      e := cfg.expireAfter + 1.0;
      if cfg.refillRate < 0.0 {
        NoYield(cfg, e);
      }
    }
  }

  lemma NoYield(cfg: Config, e: real)
    requires cfg.refillRate <= 0.0 && e >= 0.0
    ensures Yield(cfg, e) <= 0.0
  {
  }

  ghost predicate Emptied(cfg: Config, s: TargetState, now: real) {
    ClosedAt(s, now) && s.tokens < 1.0 && (Refills(cfg) ==> s.tokens == 0.0)
  }

  lemma EmptiedToldApart(cfg: Config, m: Targets, t: Target, u: Target, now: real)
    requires cfg.halfOpen >= 0.0 && cfg.expireAfter >= 0.0 && cfg.capacity >= 1.0 && !RefillsWhileIdle(cfg)
    requires t in m && u !in m && t != u && Emptied(cfg, m[t], now)
    ensures ToldApart(cfg, m, m, now)
  {
    var e := IdleTime(cfg);
    var late := now + e;
    assert late - now == e;
    forall a, b | t !in a && t in b && b[t] == m[t] ensures ToldApart(cfg, a, b, late) {
      ReturningToldApart(cfg, a, b, t, late);
    }
    ToldApartAfterIdling(cfg, m, t, u, now, late);
  }

  /** Taking tokens while there are any, and the next one as soon as it is there, leaves none. */
  lemma {:induction false} EmptyingToldApart(cfg: Config, m: Targets, t: Target, u: Target, now: real)
    requires cfg.halfOpen >= 0.0 && cfg.expireAfter >= 0.0 && cfg.capacity >= 1.0 && !RefillsWhileIdle(cfg)
    requires t in m && u !in m && t != u && ClosedAt(m[t], now) && m[t].tokens <= cfg.capacity
    ensures ToldApart(cfg, m, m, now)
    decreases if m[t].tokens < 1.0 then 0 else m[t].tokens.Floor
  {
    if m[t].tokens < 1.0 && !Refills(cfg) {
      EmptiedToldApart(cfg, m, t, u, now);
    } else {
      var late := if m[t].tokens >= 1.0 then now else now + Wait(cfg, 1.0 - m[t].tokens);
      var op := Ask(t, late, late);
      var n := Next(cfg, true, m, op);
      AskKnown(cfg, true, m, t, late, late);
      AskKnown(cfg, false, m, t, late, late);
      ClosedTakesOrOpens(cfg, m[t], late, Source(), EventAllowed);
      if m[t].tokens >= 1.0 {
        YieldOfNothing(cfg);
        EmptyingToldApart(cfg, n, t, u, now);
      } else {
        WaitYields(cfg, 1.0 - m[t].tokens);
        assert late - now == Wait(cfg, 1.0 - m[t].tokens);
        EmptiedToldApart(cfg, n, t, u, late);
      }
      ToldApartBy(cfg, m, m, now, op);
    }
  }

  // ----- The exact condition -----

  /** Collecting is not noticed: no request is ever dropped, or only settled targets are
      collected. */
  ghost predicate CollectsUnnoticed(cfg: Config) {
    cfg.halfOpen < 0.0 || CollectsOnlySettled(cfg)
  }

  lemma UnsettledToldApart(cfg: Config, start: real, t: Target, u: Target)
    requires t != u && !CollectsUnnoticed(cfg)
    ensures ToldApart(cfg, map[], map[], start)
  {
    var m: Targets := map[];
    var op := Ask(t, start, start);
    var n := Next(cfg, true, m, op);
    AskNew(cfg, true, m, t, start);
    assert n == Next(cfg, false, m, op);
    if cfg.capacity < 1.0 {
      OpenToldApart(cfg, n, t, u, start);
    } else if cfg.expireAfter < cfg.halfOpen || cfg.expireAfter < cfg.cooldown {
      DrainedToldApart(cfg, n, t, u, start);
    } else {
      EmptyingToldApart(cfg, n, t, u, start);
    }
    ToldApartBy(cfg, m, m, start, op);
  }

  /** No circuit let a request pass later than now. */
  ghost predicate PassedBy(m: Targets, now: real) {
    forall t :: t in m && m[t].isOpen ==> m[t].lastAllowed <= now
  }

  /** With a negative half-open interval every request is a probe at least. */
  lemma {:induction false} EveryRequestKept(cfg: Config, collect: bool, m: Targets, start: real, ops: seq<Op>)
    requires cfg.halfOpen < 0.0 && PassedBy(m, start) && Ordered(start, ops)
    ensures PassedBy(After(cfg, collect, m, ops), Clock(start, ops))
    ensures forall i :: 0 <= i < |ops| ==> Decisions(cfg, collect, m, ops)[i] == ops[i].Request?
  {
    if ops != [] {
      var init := ops[..|ops| - 1];
      EveryRequestKept(cfg, collect, m, start, init);
    }
  }

  /** Exactly when garbage collection is invisible: over every run from an empty breaker the
      filter keeps the requests it would keep over one that never drops a target, if and only
      if the half-open interval is negative, or expireAfter is no shorter than the cooldown and
      the half-open interval and suffices to refill a bucket that can hold a token at all. */
  lemma CollectionUnnoticedIff(cfg: Config, start: real)
    ensures CollectsUnnoticed(cfg) <==> forall ops :: Ordered(start, ops) ==> SameOn(cfg, map[], map[], ops)
  {
    if !CollectsUnnoticed(cfg) {
      UnsettledToldApart(cfg, start, Target("", "a"), Target("", "b"));
    } else {
      forall ops | Ordered(start, ops) ensures SameOn(cfg, map[], map[], ops) {
        if cfg.halfOpen < 0.0 {
          EveryRequestKept(cfg, true, map[], start, ops);
          EveryRequestKept(cfg, false, map[], start, ops);
        } else {
          CollectionChangesNoDecision(cfg, start, ops);
        }
      }
    }
  }
}
