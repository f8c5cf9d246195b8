/** The circuit breaker of one target as a value: what recording an event does to it
    (token_bucket.go), and how the filter decides on a request (mapfunc.go).
    Times are seconds and tokens are amounts; both are real numbers. */
module CircuitState {
  import opened Results
  import opened Strings

  datatype Config = Config(
    capacity: real,      // burst allowance
    refillRate: real,    // tokens per second
    cooldown: real,      // how long a circuit stays open
    halfOpen: real,      // how often a request passes an open circuit
    expireAfter: real)   // how long an idle target is kept

  const DEFAULT_CONFIG := Config(100.0, 1.0, 300.0, 30.0, 86400.0)

  datatype EventType = EventAllowed | EventDropped | EventHalfOpenAllowed

  datatype EventSource = EventSource(kind: string, name: string, namespace: string) {
    function Show(): (s: string)
      ensures s != ""
    {
      if namespace == "" then kind + "/" + name else kind + "/" + name + " (" + namespace + ")"
    }
  }

  /** Kinds without a slash or space and names without a space, as Kubernetes has them. */
  predicate ProperSource(es: EventSource) {
    '/' !in es.kind && ' ' !in es.name
  }

  /** Different proper sources are shown, and so counted, apart. */
  lemma ShowTellsApart(a: EventSource, b: EventSource)
    requires ProperSource(a) && ProperSource(b) && a.Show() == b.Show()
    ensures a == b
  {
    SplitAtFirst('/', a.kind, Rest(a), b.kind, Rest(b));
    SpaceShows(a);
    SpaceShows(b);
    if a.namespace != "" {
      var x, y := "(" + a.namespace + ")", "(" + b.namespace + ")";
      assert Rest(a) == a.name + " " + x && Rest(b) == b.name + " " + y;
      SplitAtFirst(' ', a.name, x, b.name, y);
      assert x[1..|x| - 1] == a.namespace && y[1..|y| - 1] == b.namespace;
    }
  }

  lemma SpaceShows(es: EventSource)
    requires ' ' !in es.name
    ensures ' ' in Rest(es) <==> es.namespace != ""
  {
    if es.namespace != "" {
      assert Rest(es)[|es.name|] == ' ';
    }
  }

  /** What is shown after the kind. */
  function Rest(es: EventSource): (r: string)
    ensures es.Show() == es.kind + "/" + r
  {
    if es.namespace == "" then es.name else es.name + " (" + es.namespace + ")"
  }

  const RING_SIZE := 16

  type Ring = r: seq<string> | |r| == RING_SIZE witness seq(RING_SIZE, i => "")
  type Slot = n: nat | n < RING_SIZE

  /** The zero time of a field that was never set. */
  const ZERO_TIME := 0.0

  datatype TargetState = TargetState(
    tokens: real,
    lastRefill: real,
    recentSources: Ring,
    recentIdx: Slot,
    isOpen: bool,
    openedAt: real,
    lastAllowed: real,
    triggerSource: string)

  function BlankRing(): (ring: Ring)
    ensures forall i :: 0 <= i < RING_SIZE ==> ring[i] == ""
  {
    seq(RING_SIZE, i => "")
  }

  /** A new target: a full bucket and a closed circuit. */
  function NewTarget(cfg: Config, now: real): TargetState {
    TargetState(cfg.capacity, now, BlankRing(), 0, false, ZERO_TIME, ZERO_TIME, "")
  }

  function Min(x: real, y: real): real {
    if x <= y then x else y
  }

  /** The tokens that a stretch of time yields. */
  function Yield(cfg: Config, elapsed: real): real {
    cfg.refillRate * elapsed
  }

  /** Refills the bucket and notes the source. */
  function Noted(cfg: Config, s: TargetState, now: real, src: string): TargetState
  {
    s.(
    tokens := Min(cfg.capacity, s.tokens + Yield(cfg, now - s.lastRefill)),
    lastRefill := now,
    recentSources := s.recentSources[s.recentIdx := src],
    recentIdx := (s.recentIdx + 1) % RING_SIZE)
  }

  /** Takes a token, or opens the circuit when there is none. */
  function Spent(s: TargetState, now: real): TargetState {
    if s.tokens >= 1.0 then s.(tokens := s.tokens - 1.0)
    else s.(isOpen := true, openedAt := now, lastAllowed := now,
            triggerSource := Scan(s.recentSources, s.triggerSource).trigger)
  }

  predicate Cooling(cfg: Config, s: TargetState, now: real) {
    s.isOpen && now - s.openedAt < cfg.cooldown
  }

  function Closed(s: TargetState): TargetState {
    s.(isOpen := false, recentSources := BlankRing(), recentIdx := 0)
  }

  /** RecordEvent on a target that is known. */
  function Record(cfg: Config, s: TargetState, now: real, src: string, et: EventType): TargetState
  {
    var n := Noted(cfg, s, now, src);
    if !s.isOpen then Spent(n, now)
    else
      var p := if et == EventHalfOpenAllowed then n.(lastAllowed := now) else n;
      if Cooling(cfg, s, now) then p else Spent(Closed(p), now)
  }

  // ----- The most frequent source -----

  datatype Scanned = Scanned(maxEvents: nat, trigger: string)

  /** One pass over the ring, counting as it goes; blank slots are skipped. */
  function Scan(ring: seq<string>, trigger: string): Scanned {
    if ring == [] then Scanned(0, trigger)
    else
      var init, src := ring[..|ring| - 1], ring[|ring| - 1];
      var before := Scan(init, trigger);
      var n := multiset(ring)[src];
      if src == "" || n < before.maxEvents then before else Scanned(n, src)
  }

  /** trigger is a source of maximal count, and among those the one seen last. */
  ghost predicate LastMostFrequent(ring: seq<string>, r: Scanned) {
    && r.trigger != "" && r.trigger in ring && multiset(ring)[r.trigger] == r.maxEvents
    && (forall x :: x in ring && x != "" ==> multiset(ring)[x] <= r.maxEvents)
    && exists i :: 0 <= i < |ring| && ring[i] == r.trigger && NoneLater(ring, i, r.maxEvents)
  }

  ghost predicate NoneLater(ring: seq<string>, i: nat, n: nat) {
    forall j :: i < j < |ring| && ring[j] != "" ==> multiset(ring)[ring[j]] < n
  }

  ghost predicate AllBlank(ring: seq<string>) {
    forall i :: 0 <= i < |ring| ==> ring[i] == ""
  }

  lemma KeepsMostFrequent(init: seq<string>, src: string, r: Scanned)
    requires LastMostFrequent(init, r)
    requires src == "" || multiset(init + [src])[src] < r.maxEvents
    ensures LastMostFrequent(init + [src], r)
  {
    var ring := init + [src];
    assert multiset(ring) == multiset(init) + multiset{src};
    assert r.trigger != src;
    var i :| 0 <= i < |init| && init[i] == r.trigger && NoneLater(init, i, r.maxEvents);
    assert ring[i] == r.trigger && NoneLater(ring, i, r.maxEvents);
  }

  lemma TakesMostFrequent(init: seq<string>, src: string, maxEvents: nat)
    requires src != "" && multiset(init + [src])[src] >= maxEvents
    requires forall x :: x in init && x != "" ==> multiset(init)[x] <= maxEvents
    ensures LastMostFrequent(init + [src], Scanned(multiset(init + [src])[src], src))
  {
    var ring := init + [src];
    assert multiset(ring) == multiset(init) + multiset{src};
    assert ring[|init|] == src && NoneLater(ring, |init|, multiset(ring)[src]);
  }

  lemma {:induction false} ScanBlank(ring: seq<string>, trigger: string)
    requires AllBlank(ring)
    ensures Scan(ring, trigger) == Scanned(0, trigger)
  {
    if ring != [] {
      ScanBlank(ring[..|ring| - 1], trigger);
    }
  }

  lemma {:induction false} ScanFindsMostFrequent(ring: seq<string>, trigger: string)
    requires !AllBlank(ring)
    ensures LastMostFrequent(ring, Scan(ring, trigger))
  {
    var init, src := ring[..|ring| - 1], ring[|ring| - 1];
    assert ring == init + [src];
    var before := Scan(init, trigger);
    if AllBlank(init) {
      ScanBlank(init, trigger);
    } else {
      ScanFindsMostFrequent(init, trigger);
    }
    if src == "" || multiset(ring)[src] < before.maxEvents {
      KeepsMostFrequent(init, src, before);
    } else {
      TakesMostFrequent(init, src, before.maxEvents);
    }
  }

  // ----- The ring of recent sources -----

  /** The sources noted since creation or the last close; the closing event is not one. */
  function SourcesAfter(cfg: Config, s: TargetState, sources: seq<string>, now: real, src: string): seq<string> {
    if s.isOpen && !Cooling(cfg, s, now) then [] else sources + [src]
  }

  /** The ring holds exactly the last 16 of the sources, each at its index modulo 16. */
  ghost predicate RingHolds(ring: Ring, idx: Slot, sources: seq<string>) {
    && idx == |sources| % RING_SIZE
    && (forall k :: 0 <= k < |sources| && |sources| - RING_SIZE <= k ==> ring[k % RING_SIZE] == sources[k])
    && (forall j :: |sources| <= j < RING_SIZE ==> ring[j] == "")
  }

  lemma SlotsDiffer(k: nat, n: nat)
    requires k < n < k + RING_SIZE
    ensures k % RING_SIZE != n % RING_SIZE
  {
  }

  lemma RingTakes(ring: Ring, idx: Slot, sources: seq<string>, src: string)
    requires RingHolds(ring, idx, sources)
    ensures RingHolds(ring[idx := src], (idx + 1) % RING_SIZE, sources + [src])
  {
    var n, after := |sources|, ring[idx := src];
    forall k | 0 <= k < n + 1 && n + 1 - RING_SIZE <= k ensures after[k % RING_SIZE] == (sources + [src])[k] {
      if k < n {
        SlotsDiffer(k, n);
        assert ring[k % RING_SIZE] == sources[k];
      }
    }
  }

  /** Recording an event keeps the ring equal to the last 16 sources since the last close. */
  lemma RecordKeepsRing(cfg: Config, s: TargetState, sources: seq<string>, now: real, src: string, et: EventType)
    requires RingHolds(s.recentSources, s.recentIdx, sources)
    ensures RingHolds(Record(cfg, s, now, src, et).recentSources, Record(cfg, s, now, src, et).recentIdx,
                      SourcesAfter(cfg, s, sources, now, src))
  {
    RingTakes(s.recentSources, s.recentIdx, sources, src);
  }

  /** When a closed circuit opens, the trigger is the most frequent source of the ring. */
  lemma OpeningNamesMostFrequent(cfg: Config, s: TargetState, now: real, src: EventSource, et: EventType)
    requires !s.isOpen
    requires Record(cfg, s, now, src.Show(), et).isOpen
    ensures var r := Record(cfg, s, now, src.Show(), et);
      LastMostFrequent(r.recentSources, Scanned(multiset(r.recentSources)[r.triggerSource], r.triggerSource))
  {
    var n := Noted(cfg, s, now, src.Show());
    assert n.recentSources[s.recentIdx] == src.Show();
    ScanFindsMostFrequent(n.recentSources, s.triggerSource);
  }

  /** This event opens the circuit: it is not cooling, and the refilled bucket holds no token. */
  predicate Opens(cfg: Config, s: TargetState, now: real, src: string) {
    !Cooling(cfg, s, now) && Noted(cfg, s, now, src).tokens < 1.0
  }

  /** The trigger named when a circuit opens is a most frequent source exactly when the circuit
      was closed: one that closes and opens again sees a ring that was just cleared. */
  lemma TriggerIsMostFrequentIff(cfg: Config, s: TargetState, now: real, src: EventSource, et: EventType)
    requires Opens(cfg, s, now, src.Show())
    ensures var r := Record(cfg, s, now, src.Show(), et);
      r.isOpen && r.openedAt == now &&
      (!s.isOpen <==>
        LastMostFrequent(r.recentSources, Scanned(multiset(r.recentSources)[r.triggerSource], r.triggerSource)))
  {
    if s.isOpen {
      ScanBlank(BlankRing(), s.triggerSource);
    } else {
      OpeningNamesMostFrequent(cfg, s, now, src, et);
    }
  }

  /** An event leaves an open circuit open with a cleared ring, that is, it closes it and opens
      it again, exactly when the cooldown is over and the refilled bucket holds no token; and
      whatever it does to an open circuit, the trigger stays. */
  lemma ReopeningKeepsTrigger(cfg: Config, s: TargetState, now: real, src: EventSource, et: EventType)
    requires s.isOpen
    ensures var r := Record(cfg, s, now, src.Show(), et);
      && r.triggerSource == s.triggerSource
      && (r.isOpen && AllBlank(r.recentSources) <==>
        now - s.openedAt >= cfg.cooldown && Min(cfg.capacity, s.tokens + Yield(cfg, now - s.lastRefill)) < 1.0)
  {
    ScanBlank(BlankRing(), s.triggerSource);
    assert Noted(cfg, s, now, src.Show()).recentSources[s.recentIdx] == src.Show();
  }

  // ----- Every branch of an event, without following its code -----

  /** What the refilled bucket holds. */
  function Refilled(cfg: Config, s: TargetState, now: real): (b: real)
    ensures b <= cfg.capacity && b <= s.tokens + Yield(cfg, now - s.lastRefill)
    ensures b == cfg.capacity || b == s.tokens + Yield(cfg, now - s.lastRefill)
  {
    var all := s.tokens + Yield(cfg, now - s.lastRefill);
    if all <= cfg.capacity then all else cfg.capacity
  }

  /** The bucket is always refilled first, an open circuit or not.  While an open circuit cools,
      nothing is taken and only a probe is noted; any other event takes a token and leaves the
      circuit closed, or finds none and leaves it just opened. */
  lemma RecordExactly(cfg: Config, s: TargetState, now: real, src: string, et: EventType)
    ensures var b, r := Refilled(cfg, s, now), Record(cfg, s, now, src, et);
      && r.lastRefill == now
      && if s.isOpen && now - s.openedAt < cfg.cooldown then
           && r.isOpen && r.openedAt == s.openedAt && r.tokens == b
           && r.lastAllowed == if et == EventHalfOpenAllowed then now else s.lastAllowed
         else if b >= 1.0 then !r.isOpen && r.tokens == b - 1.0
         else r.isOpen && r.tokens == b && r.openedAt == now && r.lastAllowed == now
  {
  }
}
