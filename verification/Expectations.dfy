/** Expectations of a controller about what it creates and deletes, with the deletions
    tracked by UID (pkg/controller/expectations.go). */
module Expectations {
  import opened Results

  const TIMEOUT := 300.0  // seconds

  // ----- Both stores as values -----

  datatype Counts = Counts(add: int, del: int, timestamp: real)

  /** The counters and the sets of UIDs still expected, by controller key. */
  datatype Tracked = Tracked(counts: map<string, Counts>, uids: map<string, set<string>>)

  datatype Op =
    | ExpectDeletions(key: string, deleted: seq<string>, now: real)
    | AddExpectedDeletion(key: string, uid: string, now: real)
    | DeletionObserved(key: string, uid: string)
    | CreationObserved(key: string)
    | DeleteExpectations(key: string)
    | SetExpectations(key: string, add: int, del: int, now: real)
    | RaiseExpectations(key: string, add: int, del: int)

  ghost function Distinct(keys: seq<string>): set<string> {
    set u | u in keys
  }

  ghost function UidsOf(t: Tracked, key: string): set<string> {
    if key in t.uids then t.uids[key] else {}
  }

  ghost function Expecting(t: Tracked, key: string, uids: set<string>, now: real): Tracked {
    Tracked(t.counts[key := Counts(0, |uids|, now)], t.uids[key := uids])
  }

  ghost function Raised(counts: map<string, Counts>, key: string, add: int, del: int): map<string, Counts> {
    if key !in counts then counts
    else counts[key := counts[key].(add := counts[key].add + add, del := counts[key].del + del)]
  }

  ghost function Apply(t: Tracked, op: Op): Tracked {
    match op
    case ExpectDeletions(k, deleted, now) => Expecting(t, k, Distinct(deleted), now)
    case AddExpectedDeletion(k, uid, now) => Expecting(t, k, UidsOf(t, k) + {uid}, now)
    case DeletionObserved(k, uid) =>
      if uid in UidsOf(t, k) then Tracked(Raised(t.counts, k, 0, -1), t.uids[k := UidsOf(t, k) - {uid}]) else t
    case CreationObserved(k) => t.(counts := Raised(t.counts, k, -1, 0))
    case DeleteExpectations(k) => Tracked(t.counts - {k}, t.uids - {k})
    case SetExpectations(k, add, del, now) => t.(counts := t.counts[k := Counts(add, del, now)])
    case RaiseExpectations(k, add, del) => t.(counts := Raised(t.counts, k, add, del))
  }

  /** ExpectCreations only sets the counters. */
  function ExpectingCreations(key: string, adds: int, now: real): Op {
    SetExpectations(key, adds, 0, now)
  }

  ghost function After(t: Tracked, ops: seq<Op>): Tracked {
    if ops == [] then t else Apply(After(t, ops[..|ops| - 1]), ops[|ops| - 1])
  }

  // ----- Counters and sets in agreement -----

  /** As many deletions of the controller are pending as UIDs. */
  ghost predicate AgreesAt(t: Tracked, k: string) {
    k in t.uids ==> k in t.counts && t.counts[k].del == |t.uids[k]|
  }

  ghost predicate Agrees(t: Tracked) {
    forall k :: AgreesAt(t, k)
  }

  /** What a caller of the operations that set or change counters alone has to mind: the
      deletions stand for the UIDs, if any are tracked. */
  ghost predicate Minds(t: Tracked, op: Op) {
    match op
    case SetExpectations(k, _, del, _) => k in t.uids ==> del == |t.uids[k]|
    case RaiseExpectations(k, _, del) => k in t.uids ==> del == 0
    case _ => true
  }

  lemma MindedKeepsAgreement(t: Tracked, op: Op, k: string)
    requires AgreesAt(t, k) && (op.key == k ==> Minds(t, op))
    ensures AgreesAt(Apply(t, op), k)
  {
  }

  lemma UnmindedBreaksAgreement(t: Tracked, op: Op)
    requires AgreesAt(t, op.key) && !Minds(t, op)
    ensures !AgreesAt(Apply(t, op), op.key)
  {
  }

  /** Every operation on the way minds the UIDs that are then pending. */
  ghost predicate AllMind(t: Tracked, ops: seq<Op>) {
    ops == [] || (AllMind(t, ops[..|ops| - 1]) && Minds(After(t, ops[..|ops| - 1]), ops[|ops| - 1]))
  }

  ghost predicate AlwaysAgrees(t: Tracked, ops: seq<Op>) {
    Agrees(After(t, ops)) && (ops == [] || AlwaysAgrees(t, ops[..|ops| - 1]))
  }

  /** Over every run the counter of deletions equals the number of UIDs still expected, after
      every operation, if and only if whoever sets or changes counters alone minds the UIDs. */
  lemma {:induction false} CounterEqualsPendingIff(t: Tracked, ops: seq<Op>)
    requires Agrees(t)
    ensures AlwaysAgrees(t, ops) <==> AllMind(t, ops)
  {
    if ops != [] {
      var init, op := ops[..|ops| - 1], ops[|ops| - 1];
      var before := After(t, init);
      CounterEqualsPendingIff(t, init);
      if AlwaysAgrees(t, init) {
        assert Agrees(before) by {
          assert AlwaysAgrees(t, init);
        }
        if Minds(before, op) {
          forall k ensures AgreesAt(Apply(before, op), k) {
            MindedKeepsAgreement(before, op, k);
          }
        } else {
          UnmindedBreaksAgreement(before, op);
        }
      }
    }
  }

  /** The operations that set or change counters alone, absent from the run. */
  ghost predicate TracksUids(op: Op) {
    !op.SetExpectations? && !op.RaiseExpectations?
  }

  /** Without those the two always agree. */
  lemma {:induction false} CounterEqualsPending(t: Tracked, ops: seq<Op>)
    requires Agrees(t) && forall i :: 0 <= i < |ops| ==> TracksUids(ops[i])
    ensures AlwaysAgrees(t, ops)
  {
    EveryOpMinds(t, ops);
    CounterEqualsPendingIff(t, ops);
  }

  lemma {:induction false} EveryOpMinds(t: Tracked, ops: seq<Op>)
    requires forall i :: 0 <= i < |ops| ==> TracksUids(ops[i])
    ensures AllMind(t, ops)
  {
    if ops != [] {
      assert TracksUids(ops[|ops| - 1]);
      EveryOpMinds(t, ops[..|ops| - 1]);
    }
  }

  /** ExpectCreations sets the counter of deletions to zero and leaves the UIDs: after a run that
      keeps both in agreement, it keeps them so exactly when no deletion is pending. */
  lemma ExpectCreationsAgreesIff(t: Tracked, ops: seq<Op>, key: string, adds: int, now: real)
    requires Agrees(t) && AllMind(t, ops)
    ensures AlwaysAgrees(t, ops + [ExpectingCreations(key, adds, now)]) <==> UidsOf(After(t, ops), key) == {}
  {
    var op := ExpectingCreations(key, adds, now);
    var all, pending := ops + [op], UidsOf(After(t, ops), key);
    assert all[..|all| - 1] == ops && all[|all| - 1] == op;
    CounterEqualsPendingIff(t, all);
    assert AllMind(t, all) <==> Minds(After(t, ops), op);
    assert pending == {} <==> |pending| == 0;
  }

  // ----- Observing deletions -----

  /** Operations during which the expected deletions of key are only observed; what happens to
      other controllers is free. */
  ghost predicate OnlyObserves(key: string, ops: seq<Op>) {
    forall i :: 0 <= i < |ops| && ops[i].key == key ==> Observes(ops[i])
  }

  ghost predicate Observes(op: Op) {
    op.DeletionObserved? || op.CreationObserved? || (op.RaiseExpectations? && op.del == 0)
  }

  ghost function Observed(key: string, ops: seq<Op>): set<string> {
    if ops == [] then {}
    else
      var last := ops[|ops| - 1];
      Observed(key, ops[..|ops| - 1]) + if last.DeletionObserved? && last.key == key then {last.uid} else {}
  }

  lemma {:induction false} PendingAfterObserving(t: Tracked, key: string, ops: seq<Op>)
    requires key in t.uids && AgreesAt(t, key) && OnlyObserves(key, ops)
    ensures var r := After(t, ops);
      key in r.uids && r.uids[key] == t.uids[key] - Observed(key, ops) && AgreesAt(r, key)
  {
    if ops != [] {
      var init, op := ops[..|ops| - 1], ops[|ops| - 1];
      assert OnlyObserves(key, init) by {
        forall i | 0 <= i < |init| && init[i].key == key ensures Observes(init[i]) {
          assert init[i] == ops[i];
        }
      }
      PendingAfterObserving(t, key, init);
      assert op.key == key ==> Observes(op);
      MindedKeepsAgreement(After(t, init), op, key);
      ObservedOnce(After(t, init), key, op);
    }
  }

  lemma ObservedOnce(t: Tracked, key: string, op: Op)
    requires key in t.uids && (op.key == key ==> Observes(op))
    ensures var r, seen := Apply(t, op), if op.DeletionObserved? && op.key == key then {op.uid} else {};
      key in r.uids && r.uids[key] == t.uids[key] - seen
  {
  }

  lemma DifferenceEmptyIff(a: set<string>, b: set<string>)
    ensures |a - b| <= 0 <==> a <= b
  {
    if |a - b| <= 0 {
      assert a - b == {};
      forall x | x in a ensures x in b {
        assert x !in a - b;
      }
    } else {
      assert a - b != {};
    }
  }

  /** After deletions are expected, and any sequence of observations with repeats, strangers
      and other controllers' operations, what is pending is what was not observed, and the
      deletions are fulfilled exactly when all were observed. */
  lemma DeletionsFulfilledIff(t: Tracked, key: string, deleted: seq<string>, now: real, ops: seq<Op>)
    requires OnlyObserves(key, ops)
    ensures var r := After(Apply(t, Op.ExpectDeletions(key, deleted, now)), ops);
      && key in r.uids && key in r.counts
      && r.uids[key] == Distinct(deleted) - Observed(key, ops)
      && r.counts[key].del == |r.uids[key]|
      && (r.counts[key].del <= 0 <==> Distinct(deleted) <= Observed(key, ops))
  {
    PendingAfterObserving(Apply(t, Op.ExpectDeletions(key, deleted, now)), key, ops);
    DifferenceEmptyIff(Distinct(deleted), Observed(key, ops));
  }

  /** The operation expects the deletion of u for key ... */
  ghost predicate Expects(op: Op, key: string, u: string) {
    op.key == key && ((op.ExpectDeletions? && u in op.deleted) || (op.AddExpectedDeletion? && op.uid == u))
  }

  /** ... or takes it as observed, or forgets it. */
  ghost predicate Drops(op: Op, key: string, u: string) {
    && op.key == key
    && (op.DeleteExpectations? || (op.DeletionObserved? && op.uid == u) || (op.ExpectDeletions? && u !in op.deleted))
  }

  ghost predicate NoneDrops(ops: seq<Op>, from: nat, key: string, u: string) {
    forall j :: from <= j < |ops| ==> !Drops(ops[j], key, u)
  }

  ghost predicate ExpectedStill(ops: seq<Op>, i: nat, key: string, u: string)
    requires i < |ops|
  {
    Expects(ops[i], key, u) && NoneDrops(ops, i + 1, key, u)
  }

  /** Over any operations a UID is pending exactly when it was expected, by one of them or
      before, and no later one observed or dropped it. */
  lemma {:induction false} PendingIff(t: Tracked, ops: seq<Op>, key: string, u: string)
    ensures u in UidsOf(After(t, ops), key) <==>
      || (u in UidsOf(t, key) && NoneDrops(ops, 0, key, u))
      || exists i :: 0 <= i < |ops| && ExpectedStill(ops, i, key, u)
  {
    if ops != [] {
      var init, op := ops[..|ops| - 1], ops[|ops| - 1];
      PendingIff(t, init, key, u);
      PendingAfterOne(After(t, init), op, key, u);
      StillExpectedAfterOne(init, op, key, u);
      NoneDropsOneMore(init, op, 0, key, u);
      assert ops == init + [op];
    }
  }

  lemma NoneDropsOneMore(init: seq<Op>, op: Op, from: nat, key: string, u: string)
    requires from <= |init|
    ensures NoneDrops(init + [op], from, key, u) <==> NoneDrops(init, from, key, u) && !Drops(op, key, u)
  {
    var ops := init + [op];
    assert ops[|init|] == op;
    if NoneDrops(ops, from, key, u) {
      forall j | from <= j < |init| ensures !Drops(init[j], key, u) {
        assert !Drops(ops[j], key, u) && ops[j] == init[j];
      }
    }
  }

  lemma PendingAfterOne(t: Tracked, op: Op, key: string, u: string)
    ensures u in UidsOf(Apply(t, op), key) <==> Expects(op, key, u) || (u in UidsOf(t, key) && !Drops(op, key, u))
  {
  }

  lemma StillExpectedAfterOne(init: seq<Op>, op: Op, key: string, u: string)
    ensures var ops := init + [op];
      (exists i :: 0 <= i < |ops| && ExpectedStill(ops, i, key, u)) <==>
      Expects(op, key, u) || (!Drops(op, key, u) && exists i :: 0 <= i < |init| && ExpectedStill(init, i, key, u))
  {
    var ops := init + [op];
    forall i | 0 <= i < |init|
      ensures ExpectedStill(ops, i, key, u) <==> ExpectedStill(init, i, key, u) && !Drops(op, key, u)
    {
      assert ops[i] == init[i];
      NoneDropsOneMore(init, op, i + 1, key, u);
    }
    assert ExpectedStill(ops, |init|, key, u) <==> Expects(op, key, u);
  }

  // ----- Observing creations -----

  /** How many creations for key the operations observe, and what they raise its counter by. */
  ghost function Created(key: string, ops: seq<Op>): nat {
    if ops == [] then 0
    else
      var last := ops[|ops| - 1];
      Created(key, ops[..|ops| - 1]) + if last.CreationObserved? && last.key == key then 1 else 0
  }

  ghost function RaisedBy(key: string, ops: seq<Op>): int {
    if ops == [] then 0
    else
      var last := ops[|ops| - 1];
      RaisedBy(key, ops[..|ops| - 1]) + if last.RaiseExpectations? && last.key == key then last.add else 0
  }

  /** The operation gives key new counters ... */
  ghost predicate SetsCounters(op: Op, key: string) {
    op.key == key && (op.ExpectDeletions? || op.AddExpectedDeletion? || op.SetExpectations?)
  }

  /** ... or leaves it those it has. */
  ghost predicate KeepsCounters(op: Op, key: string) {
    op.key == key ==> op.DeletionObserved? || op.CreationObserved? || op.RaiseExpectations?
  }

  /** From the operation that set a key's counters on, the creations still expected are those it
      set, plus what was raised, minus those observed; and the counters keep their time. */
  lemma {:induction false} CreationsCounted(t: Tracked, key: string, first: Op, ops: seq<Op>)
    requires SetsCounters(first, key) && forall i :: 0 <= i < |ops| ==> KeepsCounters(ops[i], key)
    ensures var r := After(Apply(t, first), ops);
      && key in r.counts && r.counts[key].timestamp == first.now
      && r.counts[key].add ==
        (if first.SetExpectations? then first.add else 0) + RaisedBy(key, ops) - Created(key, ops)
  {
    if ops != [] {
      CreationsCounted(t, key, first, ops[..|ops| - 1]);
      assert KeepsCounters(ops[|ops| - 1], key);
    }
  }

  ghost predicate OnlyWatches(key: string, ops: seq<Op>) {
    forall i :: 0 <= i < |ops| && ops[i].key == key ==> ops[i].DeletionObserved? || ops[i].CreationObserved?
  }

  lemma {:induction false} NothingRaised(key: string, ops: seq<Op>)
    requires OnlyWatches(key, ops)
    ensures RaisedBy(key, ops) == 0
  {
    if ops != [] {
      var init := ops[..|ops| - 1];
      assert OnlyWatches(key, init) by {
        forall i | 0 <= i < |init| && init[i].key == key
          ensures init[i].DeletionObserved? || init[i].CreationObserved?
        {
          assert init[i] == ops[i];
        }
      }
      NothingRaised(key, init);
    }
  }

  /** After n creations are expected, and any operations that only observe for that key, those
      still expected are n minus the observed: they are fulfilled exactly when n were observed. */
  lemma CreationsFulfilledIff(t: Tracked, key: string, n: int, now: real, ops: seq<Op>)
    requires OnlyWatches(key, ops)
    ensures var r := After(Apply(t, ExpectingCreations(key, n, now)), ops);
      && key in r.counts && r.counts[key].timestamp == now
      && r.counts[key].add == n - Created(key, ops)
      && (r.counts[key].add <= 0 <==> Created(key, ops) >= n)
  {
    OnlyWatchingKeeps(key, ops);
    NothingRaised(key, ops);
    CreationsCounted(t, key, ExpectingCreations(key, n, now), ops);
  }

  lemma OnlyWatchingKeeps(key: string, ops: seq<Op>)
    requires OnlyWatches(key, ops)
    ensures OnlyObserves(key, ops) && forall i :: 0 <= i < |ops| ==> KeepsCounters(ops[i], key)
  {
  }

  // ----- When a controller may sync -----

  /** No expectations, fulfilled ones, or expired ones. */
  ghost predicate MaySync(t: Tracked, key: string, now: real) {
    key in t.counts ==>
      (t.counts[key].add <= 0 && t.counts[key].del <= 0) || now - t.counts[key].timestamp > TIMEOUT
  }

  /** After deletions are expected a controller that only watches may sync exactly when it has
      observed them all, or five minutes have passed. */
  lemma MaySyncAfterDeletionsIff(t: Tracked, key: string, deleted: seq<string>, from: real, ops: seq<Op>, now: real)
    requires OnlyWatches(key, ops)
    ensures MaySync(After(Apply(t, Op.ExpectDeletions(key, deleted, from)), ops), key, now) <==>
      Distinct(deleted) <= Observed(key, ops) || now - from > 300.0
  {
    OnlyWatchingKeeps(key, ops);
    NothingRaised(key, ops);
    CreationsCounted(t, key, Op.ExpectDeletions(key, deleted, from), ops);
    DeletionsFulfilledIff(t, key, deleted, from, ops);
  }

  /** After creations are expected, with no deletion pending, exactly when it has observed as
      many, or five minutes have passed. */
  lemma MaySyncAfterCreationsIff(t: Tracked, key: string, n: int, from: real, ops: seq<Op>, now: real)
    requires UidsOf(t, key) == {} && OnlyWatches(key, ops)
    ensures MaySync(After(Apply(t, ExpectingCreations(key, n, from)), ops), key, now) <==>
      Created(key, ops) >= n || now - from > 300.0
  {
    CreationsFulfilledIff(t, key, n, from, ops);
    NothingPendingNothingCounted(Apply(t, ExpectingCreations(key, n, from)), key, ops);
  }

  /** A controller whose expectations were deleted may sync until it sets new ones. */
  lemma {:induction false} MaySyncAfterDeleting(t: Tracked, key: string, ops: seq<Op>, now: real)
    requires forall i :: 0 <= i < |ops| ==> !SetsCounters(ops[i], key)
    ensures var r := After(Apply(t, Op.DeleteExpectations(key)), ops);
      key !in r.counts && MaySync(r, key, now)
  {
    if ops != [] {
      MaySyncAfterDeleting(t, key, ops[..|ops| - 1], now);
      assert !SetsCounters(ops[|ops| - 1], key);
    }
  }

  lemma {:induction false} NothingPendingNothingCounted(t: Tracked, key: string, ops: seq<Op>)
    requires UidsOf(t, key) == {} && key in t.counts && OnlyWatches(key, ops)
    ensures var r := After(t, ops);
      UidsOf(r, key) == {} && key in r.counts && r.counts[key].del == t.counts[key].del
  {
    if ops != [] {
      var init, op := ops[..|ops| - 1], ops[|ops| - 1];
      assert OnlyWatches(key, init) by {
        forall i | 0 <= i < |init| && init[i].key == key
          ensures init[i].DeletionObserved? || init[i].CreationObserved?
        {
          assert init[i] == ops[i];
        }
      }
      NothingPendingNothingCounted(t, key, init);
      assert op.key == key ==> op.DeletionObserved? || op.CreationObserved?;
    }
  }

  // ----- The objects -----

  class ControlleeExpectations {
    var add: int
    var del: int
    const timestamp: real

    constructor (add: int, del: int, now: real)
      ensures View() == Counts(add, del, now)
    {
      this.add, this.del, timestamp := add, del, now;
    }

    ghost function View(): Counts
      reads this
    {
      Counts(add, del, timestamp)
    }

    method Add(add: int, del: int)
      modifies this
      ensures View() == old(View()).(add := old(this.add) + add, del := old(this.del) + del)
    {
      this.add := this.add + add;
      this.del := this.del + del;
    }

    predicate Fulfilled()
      reads this
    {
      add <= 0 && del <= 0
    }
  }

  class StringSet {
    var elems: set<string>

    constructor (elems: set<string>)
      ensures this.elems == elems
    {
      this.elems := elems;
    }
  }

  /** The counters and the UID sets of all controllers. */
  class UIDTrackingControllerExpectations {
    var store: map<string, ControlleeExpectations>
    var uidStore: map<string, StringSet>

    ghost predicate Valid()
      reads this
    {
      && (forall j, k :: j in store && k in store && store[j] == store[k] ==> j == k)
      && (forall j, k :: j in uidStore && k in uidStore && uidStore[j] == uidStore[k] ==> j == k)
    }

    ghost function View(): Tracked
      reads this, store.Values, uidStore.Values
    {
      Tracked(map k | k in store :: store[k].View(), map k | k in uidStore :: uidStore[k].elems)
    }

    constructor ()
      ensures Valid() && View() == Tracked(map[], map[])
    {
      store, uidStore := map[], map[];
    }

    /** Registers new counters, forgetting existing ones. */
    method SetExpectations(key: string, add: int, del: int, now: real)
      requires Valid()
      modifies this`store
      ensures Valid() && View() == Apply(old(View()), Op.SetExpectations(key, add, del, now))
      ensures fresh(store.Values - old(store.Values))
    {
      ghost var before := View();
      var exp := new ControlleeExpectations(add, del, now);
      store := store[key := exp];
      assert View().counts == before.counts[key := Counts(add, del, now)];
    }

    method ExpectCreations(key: string, adds: int, now: real)
      requires Valid()
      modifies this`store
      ensures Valid() && View() == Apply(old(View()), ExpectingCreations(key, adds, now))
    {
      SetExpectations(key, adds, 0, now);
    }

    method RaiseExpectations(key: string, add: int, del: int)
      requires Valid()
      modifies store.Values
      ensures View() == Apply(old(View()), Op.RaiseExpectations(key, add, del))
    {
      if key in store {
        ghost var before := View();
        store[key].Add(add, del);
        assert forall k :: k in store && k != key ==> View().counts[k] == before.counts[k];
        assert View().uids == before.uids;
      }
    }

    method LowerExpectations(key: string, add: int, del: int)
      requires Valid()
      modifies store.Values
      ensures View() == Apply(old(View()), Op.RaiseExpectations(key, -add, -del))
    {
      RaiseExpectations(key, -add, -del);
    }

    method CreationObserved(key: string)
      requires Valid()
      modifies store.Values
      ensures View() == Apply(old(View()), Op.CreationObserved(key))
    {
      LowerExpectations(key, 1, 0);
    }

    /** The pending UIDs of a key: a set of its own, so that changes to it are seen for this key
        and for no other. */
    method GetUIDs(key: string) returns (uids: StringSet?)
      requires Valid()
      ensures uids == null <==> key !in View().uids
      ensures uids != null ==> uids.elems == View().uids[key] && uids in uidStore.Values
      ensures uids != null ==> forall k :: k in uidStore ==> (uidStore[k] == uids <==> k == key)
    {
      return if key in uidStore then uidStore[key] else null;
    }

    /** Stores the set of expected UIDs and counters to match: how both operations below end. */
    method Expect(key: string, expected: StringSet, now: real)
      requires Valid() && forall k :: k in uidStore && uidStore[k] == expected ==> k == key
      modifies this
      ensures Valid() && View() == Expecting(old(View()), key, expected.elems, now)
    {
      ghost var before := View();
      uidStore := uidStore[key := expected];
      assert View() == Tracked(before.counts, before.uids[key := expected.elems]);
      SetExpectations(key, 0, |expected.elems|, now);
    }

    method ExpectDeletions(key: string, deletedKeys: seq<string>, now: real)
      requires Valid()
      modifies this
      ensures Valid() && View() == Apply(old(View()), Op.ExpectDeletions(key, deletedKeys, now))
    {
      var expected := new StringSet({});
      for i := 0 to |deletedKeys|
        modifies expected
        invariant expected.elems == Distinct(deletedKeys[..i])
      {
        expected.elems := expected.elems + {deletedKeys[i]};
        assert deletedKeys[..i + 1] == deletedKeys[..i] + [deletedKeys[i]];
      }
      assert deletedKeys[..|deletedKeys|] == deletedKeys;
      Expect(key, expected, now);
    }

    /** Adds one UID to those already expected: the same set object, when it is not empty. */
    method AddExpectedDeletion(key: string, deletedKey: string, now: real)
      requires Valid()
      modifies this, uidStore.Values
      ensures Valid() && View() == Apply(old(View()), Op.AddExpectedDeletion(key, deletedKey, now))
    {
      var expected := ExpectedWith(key, deletedKey);
      Expect(key, expected, now);
    }

    /** The expected UIDs of a key with one more: the same set object, when it is not empty. */
    method ExpectedWith(key: string, deletedKey: string) returns (expected: StringSet)
      requires Valid()
      modifies uidStore.Values
      ensures expected.elems == UidsOf(old(View()), key) + {deletedKey}
      ensures forall k :: k in uidStore && uidStore[k] == expected ==> k == key
      ensures View().counts == old(View()).counts
      ensures forall k :: k in uidStore && k != key ==> uidStore[k].elems == old(View()).uids[k]
    {
      expected := new StringSet({});
      var existing := GetUIDs(key);
      if existing != null && |existing.elems| != 0 {
        expected := existing;
      }
      expected.elems := expected.elems + {deletedKey};
    }

    method DeletionObserved(key: string, deleteKey: string)
      requires Valid()
      modifies store.Values, uidStore.Values
      ensures View() == Apply(old(View()), Op.DeletionObserved(key, deleteKey))
    {
      var uids := GetUIDs(key);
      if uids != null && deleteKey in uids.elems {
        LowerExpectations(key, 0, 1);
        Remove(key, uids, deleteKey);
      }
    }

    /** Takes one UID out of the set of a key. */
    method Remove(key: string, uids: StringSet, deleteKey: string)
      requires Valid() && key in uidStore && uidStore[key] == uids
      modifies uids
      ensures View() == old(View()).(uids := old(View()).uids[key := old(uids.elems) - {deleteKey}])
    {
      ghost var before := View();
      uids.elems := uids.elems - {deleteKey};
      assert forall k :: k in uidStore && k != key ==> View().uids[k] == before.uids[k];
      assert View().counts == before.counts;
    }

    method DeleteExpectations(key: string)
      requires Valid()
      modifies this
      ensures Valid() && View() == Apply(old(View()), Op.DeleteExpectations(key))
    {
      ghost var before := View();
      store := store - {key};
      assert View() == Tracked(before.counts - {key}, before.uids);
      uidStore := uidStore - {key};
      assert View().counts == before.counts - {key};
    }

    /** A controller without expectations, with fulfilled ones or with expired ones may sync. */
    method SatisfiedExpectations(key: string, now: real) returns (satisfied: bool)
      requires Valid()
      ensures satisfied <==> MaySync(View(), key, now)
    {
      if key in store {
        return store[key].Fulfilled() || now - store[key].timestamp > TIMEOUT;
      }
      return true;
    }
  }
}
