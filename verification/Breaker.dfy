/** The token bucket breaker over all its targets (token_bucket.go). */
module Breaker {
  import opened CircuitState

  datatype Target = Target(namespace: string, name: string)

  type Targets = map<Target, TargetState>

  datatype State = Closed | Open(triggeredBy: string, nextAllowedAt: real)

  /** GetState on one target: absent and closed targets look the same. */
  function StateOf(cfg: Config, m: Targets, target: Target): State {
    if target !in m || !m[target].isOpen then State.Closed
    else Open(m[target].triggerSource, m[target].lastAllowed + cfg.halfOpen)
  }

  predicate Stale(cfg: Config, s: TargetState, now: real) {
    now - s.lastRefill > cfg.expireAfter
  }

  /** The targets that garbage collection leaves. */
  function Collected(cfg: Config, m: Targets, now: real): Targets {
    map t | t in m && !Stale(cfg, m[t], now) :: m[t]
  }

  /** The targets once target is one of them: adding one may collect stale ones first. */
  function WithTarget(cfg: Config, collect: bool, m: Targets, target: Target, now: real): Targets {
    if target in m then m
    else (if collect then Collected(cfg, m, now) else m)[target := NewTarget(cfg, now)]
  }

  /** RecordEvent; collect says whether this breaker garbage collects. */
  function Recorded(cfg: Config, collect: bool, m: Targets, target: Target, now: real, src: string,
                    et: EventType): Targets {
    var known := WithTarget(cfg, collect, m, target, now);
    known[target := Record(cfg, known[target], now, src, et)]
  }

  // ----- The objects -----

  /** events maps the sources of a part of the ring to how often they occur there. */
  ghost predicate Counts(events: map<string, nat>, part: seq<string>) {
    && (forall x :: x in events ==> events[x] == multiset(part)[x])
    && (forall x :: x in part && x != "" ==> x in events)
    && "" !in events
  }

  lemma CountsGrow(events: map<string, nat>, part: seq<string>, src: string)
    requires Counts(events, part)
    ensures src == "" ==> Counts(events, part + [src])
    ensures src != "" ==> Counts(events[src := if src in events then events[src] + 1 else 1], part + [src])
    ensures src != "" ==> multiset(part + [src])[src] == if src in events then events[src] + 1 else 1
  {
    assert multiset(part + [src]) == multiset(part) + multiset{src};
    assert src in part <==> multiset(part)[src] > 0;
  }

  /** The state of a single target. */
  class TargetRecord {
    var tokens: real
    var lastRefill: real
    const recentSources: array<string>
    var recentIdx: Slot
    var isOpen: bool
    var openedAt: real
    var lastAllowed: real
    var triggerSource: string

    ghost predicate Valid()
    {
      recentSources.Length == RING_SIZE
    }

    ghost function View(): TargetState
      requires Valid()
      reads this, recentSources
    {
      TargetState(tokens, lastRefill, recentSources[..], recentIdx, isOpen, openedAt, lastAllowed, triggerSource)
    }

    constructor (cfg: Config, now: real)
      ensures Valid() && fresh(recentSources) && View() == NewTarget(cfg, now)
    {
      tokens, lastRefill := cfg.capacity, now;
      recentSources := new string[RING_SIZE](i => "");
      recentIdx, isOpen := 0, false;
      openedAt, lastAllowed, triggerSource := ZERO_TIME, ZERO_TIME, "";
      new;
      assert recentSources[..] == BlankRing();
    }

    /** The locked part of RecordEvent. */
    method RecordEvent(cfg: Config, now: real, src: string, et: EventType)
      requires Valid()
      modifies this, recentSources
      ensures View() == Record(cfg, old(View()), now, src, et)
    {
      ghost var before := View();
      var elapsed := now - lastRefill;
      tokens := Min(cfg.capacity, tokens + Yield(cfg, elapsed));
      lastRefill := now;
      recentSources[recentIdx] := src;
      recentIdx := (recentIdx + 1) % RING_SIZE;
      assert View() == Noted(cfg, before, now, src);

      if isOpen {
        if et == EventHalfOpenAllowed {
          lastAllowed := now;
        }
        if now - openedAt < cfg.cooldown {
          return;
        }
        isOpen := false;
        ClearRing();
        recentIdx := 0;
      }

      Spend(now);
    }

    /** The end of RecordEvent: take a token, or open the circuit. */
    method Spend(now: real)
      requires Valid()
      modifies this
      ensures View() == Spent(old(View()), now)
    {
      if tokens >= 1.0 {
        tokens := tokens - 1.0;
        return;
      }
      isOpen := true;
      openedAt := now;
      lastAllowed := now;
      FindTrigger();
    }

    method ClearRing()
      requires Valid()
      modifies recentSources
      ensures recentSources[..] == BlankRing()
    {
      for i := 0 to recentSources.Length
        invariant forall j :: 0 <= j < i ==> recentSources[j] == ""
      {
        recentSources[i] := "";
      }
    }

    /** Counts the ring's sources and remembers the most frequent. */
    method FindTrigger()
      requires Valid()
      modifies this`triggerSource
      ensures triggerSource == Scan(recentSources[..], old(triggerSource)).trigger
    {
      var events: map<string, nat> := map[];
      var maxEvents: nat := 0;
      for i := 0 to recentSources.Length
        invariant Counts(events, recentSources[..i])
        invariant Scan(recentSources[..i], old(triggerSource)) == Scanned(maxEvents, triggerSource)
      {
        var src := recentSources[i];
        assert recentSources[..i + 1] == recentSources[..i] + [src];
        assert recentSources[..i + 1][..i] == recentSources[..i];
        CountsGrow(events, recentSources[..i], src);
        if src == "" {
          continue;
        }
        events := events[src := if src in events then events[src] + 1 else 1];
        if events[src] < maxEvents {
          continue;
        }
        maxEvents := events[src];
        triggerSource := src;
      }
      assert recentSources[..recentSources.Length] == recentSources[..];
    }
  }

  /** Of the targets looked at, exactly the stale ones are gone. */
  ghost predicate Swept(cfg: Config, before: Targets, left: set<Target>, todo: set<Target>, now: real) {
    forall t :: t in before && t !in todo ==> (t in left <==> !Stale(cfg, before[t], now))
  }

  lemma SweptIsCollected(cfg: Config, before: Targets, after: Targets, now: real)
    requires forall t :: t in after ==> t in before && after[t] == before[t]
    requires Swept(cfg, before, after.Keys, {}, now)
    ensures after == Collected(cfg, before, now)
  {
  }

  class TokenBucketBreaker {
    const config: Config
    var targets: map<Target, TargetRecord>

    ghost var Repr: set<object>  // the records of the targets and their rings

    /** No two targets share a record or a ring. */
    ghost predicate Valid()
      reads this
    {
      && (forall t :: t in targets ==>
        targets[t].Valid() && targets[t] in Repr && targets[t].recentSources in Repr)
      && (forall t, u :: t in targets && u in targets && t != u ==>
        targets[t] != targets[u] && targets[t].recentSources != targets[u].recentSources)
      && this !in Repr
    }

    ghost function Contents(): Targets
      requires Valid()
      reads this, Repr
    {
      map t | t in targets :: targets[t].View()
    }

    constructor (config: Config)
      ensures Valid() && this.config == config && Contents() == map[]
    {
      this.config := config;
      targets := map[];
      Repr := {};
    }

    /** Drops every target that has been idle for too long. */
    method CollectGarbage(now: real)
      requires Valid()
      modifies this`targets
      ensures Valid() && Repr == old(Repr) && targets.Keys <= old(targets.Keys)
      ensures Contents() == Collected(config, old(Contents()), now)
    {
      ghost var before := Contents();
      var todo := targets.Keys;
      while todo != {}
        invariant todo <= targets.Keys && targets.Keys <= old(targets.Keys)
        invariant forall t :: t in targets ==> targets[t] == old(targets[t])
        invariant Swept(config, before, targets.Keys, todo, now)
        decreases todo
      {
        var t :| t in todo;
        todo := todo - {t};
        if now - targets[t].lastRefill > config.expireAfter {
          targets := targets - {t};
        }
      }
      SweptIsCollected(config, before, Contents(), now);
    }

    method RecordEvent(target: Target, now: real, source: EventSource, et: EventType)
      requires Valid()
      modifies this, Repr
      ensures Valid() && fresh(Repr - old(Repr))
      ensures Contents() == Recorded(config, true, old(Contents()), target, now, source.Show(), et)
    {
      EnsureTarget(target, now);
      RecordKnown(target, now, source.Show(), et);
    }

    /** The part of RecordEvent under the breaker's own lock. */
    method EnsureTarget(target: Target, now: real)
      requires Valid()
      modifies this
      ensures Valid() && fresh(Repr - old(Repr)) && target in targets
      ensures Contents() == WithTarget(config, true, old(Contents()), target, now)
    {
      if target !in targets {
        CollectGarbage(now);
        AddTarget(target, now);
      }
    }

    method AddTarget(target: Target, now: real)
      requires Valid() && target !in targets
      modifies this
      ensures Valid() && fresh(Repr - old(Repr)) && target in targets
      ensures Contents() == old(Contents())[target := NewTarget(config, now)]
    {
      var s := new TargetRecord(config, now);
      targets := targets[target := s];
      Repr := Repr + {s, s.recentSources};
    }

    method RecordKnown(target: Target, now: real, src: string, et: EventType)
      requires Valid() && target in targets
      modifies Repr
      ensures Valid() && Repr == old(Repr)
      ensures Contents() == old(Contents())[target := Record(config, old(Contents()[target]), now, src, et)]
    {
      targets[target].RecordEvent(config, now, src, et);
    }

    method GetState(target: Target) returns (st: State)
      requires Valid()
      ensures st == StateOf(config, Contents(), target)
    {
      if target !in targets {
        return State.Closed;
      }
      var s := targets[target];
      if !s.isOpen {
        return State.Closed;
      }
      return Open(s.triggerSource, s.lastAllowed + config.halfOpen);
    }

    method ResetTarget(target: Target)
      requires Valid()
      modifies this
      ensures Valid() && Repr == old(Repr)
      ensures Contents() == old(Contents()) - {target}
    {
      targets := targets - {target};
    }
  }
}
