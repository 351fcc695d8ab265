/** The elected poller's loop: drain a batch, and keep draining while batches come full.
    Nobody else moves here; what concurrent pollers and enqueues can do is Relay's. */
module Poller {
  import opened Base
  import opened Engine
  import opened Relay

  /** What is left after taking the n lowest. */
  ghost function WithoutLowest(ids: set<nat>, n: nat): (rest: set<nat>)
    ensures |rest| == if |ids| <= n then 0 else |ids| - n
    decreases |ids|
  {
    if n == 0 || |ids| == 0 then ids else WithoutLowest(ids - {Least(ids)}, n - 1)
  }

  lemma {:induction false} WithoutLowestRemovesThem(ids: set<nat>, n: nat)
    ensures forall id :: id in WithoutLowest(ids, n) <==> id in ids && id !in Lowest(ids, n)
    decreases |ids|
  {
    if n > 0 && |ids| > 0 {
      var others := ids - {Least(ids)};
      WithoutLowestRemovesThem(others, n - 1);
      var rest, without := Lowest(others, n - 1), WithoutLowest(others, n - 1);
      assert Lowest(ids, n) == [Least(ids)] + rest && WithoutLowest(ids, n) == without;
      assert forall id :: id in [Least(ids)] + rest <==> id == Least(ids) || id in rest;
    }
  }

  /** Taking the n lowest ids and then the m lowest of the rest is taking the n+m lowest. */
  lemma {:induction false} LowestInTwoTakes(ids: set<nat>, n: nat, m: nat)
    ensures Lowest(ids, n + m) == Lowest(ids, n) + Lowest(WithoutLowest(ids, n), m)
    ensures WithoutLowest(ids, n + m) == WithoutLowest(WithoutLowest(ids, n), m)
    decreases |ids|
  {
    if n > 0 && |ids| > 0 {
      LowestInTwoTakes(ids - {Least(ids)}, n - 1, m);
    }
  }

  lemma TakeLowest(taken: seq<nat>, left: set<nat>, n: nat)
    requires n > 0 && |left| > 0
    ensures taken + Lowest(left, n) == (taken + [Least(left)]) + Lowest(left - {Least(left)}, n - 1)
  {
  }

  /** From a to b these rows were marked published, at the instant it is in a, and no others. */
  ghost predicate Stamped(a: World, b: World, rows: seq<nat>) {
    && (forall id :: id in b.published <==> id in a.published || id in rows)
    && (forall id | id in b.published :: b.published[id] == if id in rows then a.db.now else a.published[id])
  }

  /** From a to b these rows went to the log, in order, and were marked. */
  ghost predicate Relayed(a: World, b: World, rows: seq<nat>) {
    && (forall id | id in rows :: id in Rows(a))
    && b.log == a.log + Records(a, rows) && Stamped(a, b, rows)
  }

  /** From a to b the n oldest unpublished rows were published, in order, and no others. */
  ghost predicate Drained(a: World, b: World, n: nat) {
    Relayed(a, b, Lowest(Unpublished(a), n)) && Unpublished(b) == WithoutLowest(Unpublished(a), n)
  }

  lemma UnlockedIsClaimable(w: World)
    requires w.pollers == map[]
    ensures Claimable(w) == Unpublished(w)
  {
  }

  /** Whatever a cycle that never marks left in the log, its rows are claimable again. */
  lemma CycleFails(a: World, b: World, landed: seq<nat>, ok: bool, d: World, me: nat)
    requires a.pollers == map[] && b == TakeBatch(a, me) && CanPublish(b, me, landed, ok)
    requires d == DropBatch(DoPublish(b, me, landed, ok), me)
    ensures Unpublished(d) == Unpublished(a) && d.pollers == map[] && d.db == a.db && a.log <= d.log
  {
  }

  /** A claim, a publish that succeeds and a mark that commits are one drain. */
  lemma CycleDrains(a: World, b: World, c: World, d: World, me: nat)
    requires a.pollers == map[] && b == TakeBatch(a, me)
    requires CanPublish(b, me, b.pollers[me].rows, true)
    requires c == DoPublish(b, me, b.pollers[me].rows, true) && d == MarkBatch(c, me)
    ensures Drained(a, d, 100) && d.pollers == map[] && d.db == a.db && a.log <= d.log
  {
    UnlockedIsClaimable(a);
    var rows := Lowest(Unpublished(a), BATCH_SIZE);
    assert d.published == a.published + Stamps(b.pollers[me]) && b.pollers[me] == Batch(a.db.now, rows, false);
    MarkStamps(a, d, b.pollers[me]);
    WithoutLowestRemovesThem(Unpublished(a), BATCH_SIZE);
    MarkTakesOff(a, d, rows, WithoutLowest(Unpublished(a), BATCH_SIZE));
    assert d.log == a.log + Records(a, rows);
  }

  lemma MarkStamps(a: World, d: World, batch: Batch)
    requires d.published == a.published + Stamps(batch) && batch.began == a.db.now
    ensures Stamped(a, d, batch.rows)
  {
  }

  lemma MarkTakesOff(a: World, d: World, rows: seq<nat>, rest: set<nat>)
    requires Stamped(a, d, rows) && d.db == a.db && d.pruned == a.pruned
    requires forall id :: id in rest <==> id in Unpublished(a) && id !in rows
    ensures Unpublished(d) == rest
  {
  }

  lemma DrainedTwice(a: World, b: World, c: World, n: nat, m: nat)
    requires Drained(a, b, n) && Drained(b, c, m) && a.db == b.db
    ensures Drained(a, c, n + m)
  {
    LowestInTwoTakes(Unpublished(a), n, m);
    RelayedTwice(a, b, c, Lowest(Unpublished(a), n), Lowest(Unpublished(b), m));
  }

  lemma RelayedTwice(a: World, b: World, c: World, first: seq<nat>, second: seq<nat>)
    requires Relayed(a, b, first) && Relayed(b, c, second) && a.db == b.db
    ensures Relayed(a, c, first + second)
  {
    RecordsInTwo(a, b, first, second);
    StampedTwice(a, b, c, first, second);
  }

  lemma StampedTwice(a: World, b: World, c: World, first: seq<nat>, second: seq<nat>)
    requires Stamped(a, b, first) && Stamped(b, c, second) && a.db == b.db
    ensures Stamped(a, c, first + second)
  {
    assert forall id :: id in first + second <==> id in first || id in second;
  }

  lemma RecordsInTwo(a: World, b: World, first: seq<nat>, second: seq<nat>)
    requires a.db == b.db
    requires (forall id | id in first :: id in Rows(a)) && (forall id | id in second :: id in Rows(b))
    ensures forall id | id in first + second :: id in Rows(a)
    ensures a.log + Records(a, first + second) == (a.log + Records(a, first)) + Records(b, second)
  {
    assert Records(a, first + second) == Records(a, first) + Records(b, second);
  }

  /** So many drains have each taken a full batch. */
  ghost predicate FullDrains(a: World, b: World, drains: nat) {
    drains * BATCH_SIZE <= |Unpublished(a)| && Drained(a, b, drains * BATCH_SIZE)
  }

  lemma NothingDrained(w: World)
    ensures FullDrains(w, w, 0)
  {
    assert w.log + Records(w, []) == w.log;
  }

  lemma OneMoreDrain(a: World, b: World, c: World, drains: nat)
    requires FullDrains(a, b, drains) && a.db == b.db && Drained(b, c, BATCH_SIZE) && |Unpublished(b)| >= BATCH_SIZE
    ensures FullDrains(a, c, drains + 1) && |Unpublished(c)| < |Unpublished(b)|
  {
    DrainedLeaves(a, b, drains * BATCH_SIZE);
    DrainedLeaves(b, c, BATCH_SIZE);
    DrainedTwice(a, b, c, drains * BATCH_SIZE, BATCH_SIZE);
    assert (drains + 1) * BATCH_SIZE == drains * BATCH_SIZE + BATCH_SIZE;
  }

  lemma LastDrain(a: World, b: World, c: World, drains: nat)
    requires FullDrains(a, b, drains) && a.db == b.db && Drained(b, c, BATCH_SIZE) && |Unpublished(b)| < BATCH_SIZE
    ensures drains == |Unpublished(a)| / BATCH_SIZE
    ensures Drained(a, c, |Unpublished(a)|) && Unpublished(c) == {}
  {
    LastTake(a, b, c, drains * BATCH_SIZE, BATCH_SIZE);
  }

  lemma LastTake(a: World, b: World, c: World, n: nat, m: nat)
    requires Drained(a, b, n) && n <= |Unpublished(a)| && a.db == b.db && Drained(b, c, m) && |Unpublished(b)| < m
    ensures |Unpublished(a)| == n + |Unpublished(b)|
    ensures Drained(a, c, |Unpublished(a)|) && Unpublished(c) == {}
  {
    DrainedLeaves(a, b, n);
    DrainedTwice(a, b, c, n, m);
    DrainedEverything(a, c, n + m);
  }

  lemma DrainedLeaves(a: World, b: World, n: nat)
    requires Drained(a, b, n)
    ensures |Unpublished(b)| == if |Unpublished(a)| <= n then 0 else |Unpublished(a)| - n
  {
  }

  lemma DrainedEverything(a: World, b: World, n: nat)
    requires Drained(a, b, n) && |Unpublished(a)| <= n
    ensures Drained(a, b, |Unpublished(a)|) && Unpublished(b) == {}
  {
    LowestIsEverything(Unpublished(a), n);
    var all := Unpublished(a);
    assert WithoutLowest(all, n) == {} && WithoutLowest(all, |all|) == {};
  }

  lemma {:induction false} LowestIsEverything(ids: set<nat>, n: nat)
    requires |ids| <= n
    ensures Lowest(ids, n) == Lowest(ids, |ids|)
    decreases |ids|
  {
    if |ids| > 0 {
      LowestIsEverything(ids - {Least(ids)}, n - 1);
    }
  }

  class Poller {
    var world: World
    /** No publish, mark or commit fails. */
    const reliable: bool

    constructor (world: World, reliable: bool)
      requires ReachableWorld(world)
      ensures Valid() && this.world == world && this.reliable == reliable
    {
      this.world, this.reliable := world, reliable;
    }

    ghost predicate Valid()
      reads this
    {
      ReachableWorld(world)
    }

    method Broken() returns (broken: bool)
      ensures reliable ==> !broken
    {
      broken := *;
      if reliable { broken := false; }
    }

    /** Reads and locks the oldest unpublished rows, one by one. */
    method Claim(me: nat) returns (claimed: seq<nat>)
      requires Valid() && me !in world.pollers
      modifies this
      ensures Valid() && world == TakeBatch(old(world), me)
      ensures claimed == Lowest(Claimable(old(world)), 100)
    {
      var left := Claimable(world);
      claimed := [];
      while |left| > 0 && |claimed| < BATCH_SIZE
        invariant Valid() && world == old(world) && |claimed| <= BATCH_SIZE
        invariant claimed + Lowest(left, BATCH_SIZE - |claimed|) == Lowest(Claimable(world), BATCH_SIZE)
        decreases BATCH_SIZE - |claimed|
      {
        var least := Least(left);
        TakeLowest(claimed, left, BATCH_SIZE - |claimed|);
        claimed := claimed + [least];
        left := left - {least};
      }
      assert Lowest(left, BATCH_SIZE - |claimed|) == [];
      assert claimed + [] == claimed;
      MoveIsReachable(world, ClaimRows(me));
      world := world.(pollers := world.pollers[me := Batch(world.db.now, claimed, false)]);
    }

    /** Sends the claimed rows in order. A failure may leave any part of them in the log. */
    method Publish(me: nat) returns (ok: bool, ghost landed: seq<nat>)
      requires Valid() && me in world.pollers && !world.pollers[me].sent
      modifies this
      ensures Valid() && CanPublish(old(world), me, landed, ok)
      ensures world == DoPublish(old(world), me, landed, ok)
      ensures ok ==> landed == old(world.pollers[me].rows)
      ensures reliable ==> ok
    {
      ReachableWorldOk(world);
      var rows := world.pollers[me].rows;
      assert BatchOk(world, world.pollers[me]);
      var broken := Broken();
      if broken {
        var some: seq<nat> := *;
        if exists id | id in some :: id !in rows { some := []; }
        MoveIsReachable(world, Relay.Publish(me, some, false));
        world := DoPublish(world, me, some, false);
        return false, some;
      }
      MoveIsReachable(world, Relay.Publish(me, rows, true));
      world := DoPublish(world, me, rows, true);
      return true, rows;
    }

    method Rollback(me: nat)
      requires Valid()
      modifies this
      ensures Valid() && world == DropBatch(old(world), me)
    {
      MoveIsReachable(world, Relay.Rollback(me));
      world := world.(pollers := world.pollers - {me});
    }

    /** Marks the published rows and commits. A failure rolls back, unless it is only the
        report of the commit that was lost. */
    method Mark(me: nat) returns (ok: bool)
      requires Valid() && me in world.pollers && world.pollers[me].sent
      modifies this
      ensures Valid()
      ensures world == MarkBatch(old(world), me) || (!ok && world == DropBatch(old(world), me))
      ensures reliable ==> ok
    {
      var broken := Broken();
      if broken {
        Rollback(me);
        return false;
      }
      MoveIsReachable(world, MarkRows(me));
      world := world.(published := world.published + Stamps(world.pollers[me]),
                      pollers := world.pollers - {me});
      var unheard := Broken();
      return !unheard;
    }

    /** One claim-publish-mark cycle. When it works it publishes the oldest rows in order and
        takes exactly those off the unpublished; when it fails, at whatever point, no row
        stops being claimable, unless the drain worked and only its commit went unheard. */
    method Drain(me: nat) returns (n: nat, ok: bool)
      requires Valid() && world.pollers == map[]
      modifies this
      ensures Valid() && world.pollers == map[] && world.db == old(world).db
      ensures old(world).log <= world.log
      ensures ok ==> Drained(old(world), world, 100)
      ensures ok ==> n == if |Unpublished(old(world))| <= 100 then |Unpublished(old(world))| else 100
      ensures !ok ==> n == 0
      ensures Unpublished(world) == Unpublished(old(world)) || Drained(old(world), world, 100)
      ensures reliable ==> ok
    {
      var down := Broken();
      if down { return 0, false; }
      ghost var start := world;
      UnlockedIsClaimable(world);
      LowestIsLowest(Unpublished(world), BATCH_SIZE);
      var claimed := Claim(me);
      if |claimed| == 0 {
        Rollback(me);
        return 0, true;
      }
      ghost var claiming := world;
      ghost var landed;
      ok, landed := Publish(me);
      if !ok {
        CycleFails(start, claiming, landed, ok, world, me);
        return 0, false;
      }
      ghost var sent := world;
      ok := Mark(me);
      if world == MarkBatch(sent, me) {
        CycleDrains(start, claiming, sent, world, me);
      } else {
        CycleFails(start, claiming, landed, true, world, me);
      }
      n := if ok then |claimed| else 0;
    }

    /** Drains until a batch is not full. With no failures that is exactly one drain for each
        full batch and one more: every unpublished row is published, in id order, and none
        is left. */
    method DrainAll(me: nat) returns (drains: nat)
      requires Valid() && world.pollers == map[]
      modifies this
      ensures Valid() && world.pollers == map[] && world.db == old(world).db
      ensures reliable ==>
        && drains == |Unpublished(old(world))| / 100 + 1
        && Drained(old(world), world, |Unpublished(old(world))|) && Unpublished(world) == {}
    {
      ghost var start, all := world, Unpublished(world);
      drains := 0;
      NothingDrained(world);
      while true
        invariant Valid() && world.pollers == map[] && world.db == start.db
        invariant FullDrains(start, world, drains)
        decreases |Unpublished(world)|
      {
        ghost var before := world;
        var n, ok := Drain(me);
        drains := drains + 1;
        if !ok { return; }
        if n < BATCH_SIZE {
          LastDrain(start, before, world, drains - 1);
          return;
        }
        OneMoreDrain(start, before, world, drains - 1);
      }
    }
  }
}
