/** The shared fruit pool (`FruitPoolManager`): per tree type, a queue of
    pre-made fruit objects that `GetFruit` hands out round-robin.

    A fruit object is a `FruitId`; whether it is switched on is held in
    one `active` map. Creating an object takes the next unused id. A fruit
    hangs from the tree that drew it, so destroying that tree destroys the
    fruit too; the pool keeps the queued reference, and the set
    `destroyed` records which pooled objects are gone. Position, rotation
    and the pickup component on each fruit are not modelled. */
module FruitPool {
  import opened GameData

  type FruitId = nat

  predicate IsActive(active: map<FruitId, bool>, f: FruitId)
  {
    f in active && active[f]
  }

  /** The tree names `Awake` builds a pool for: every registered template
      with a fruit prefab, a missing entry or one without a prefab being
      skipped. */
  function FruitTrees(trees: seq<Option<TreeData>>): (r: set<string>)
    ensures forall j :: 0 <= j < |trees| && trees[j].Some? && trees[j].value.hasFruitPrefab ==>
              trees[j].value.treeName in r
    ensures forall n :: n in r ==>
              exists j :: 0 <= j < |trees| && trees[j].Some? && trees[j].value.hasFruitPrefab &&
                          trees[j].value.treeName == n
  {
    if |trees| == 0 then {}
    else
      var rest := FruitTrees(trees[..|trees| - 1]);
      var last := trees[|trees| - 1];
      if last.Some? && last.value.hasFruitPrefab then rest + {last.value.treeName} else rest
  }

  /** One dequeue followed by one enqueue: the front moves to the back. */
  function Rotate(q: seq<FruitId>): (r: seq<FruitId>)
    requires |q| > 0
    ensures |r| == |q| && r[|r| - 1] == q[0]
  {
    q[1..] + [q[0]]
  }

  /** Where the front of a queue of length `n` sits after `k` rotations:
      one step on each time, back to 0 after the last element. */
  function Index(k: nat, n: nat): (i: nat)
    requires n > 0
    ensures i < n
  {
    if k == 0 then 0
    else
      var i := Index(k - 1, n);
      if i + 1 < n then i + 1 else 0
  }

  /** How many times the front has gone back to 0 in `k` rotations. */
  function Wraps(k: nat, n: nat): nat
    requires n > 0
  {
    if k == 0 then 0
    else if Index(k - 1, n) + 1 < n then Wraps(k - 1, n)
    else Wraps(k - 1, n) + 1
  }

  /** `k` rotations are `Wraps` full rounds and `Index` steps. */
  lemma {:induction false} IndexDecomposes(k: nat, n: nat)
    requires n > 0
    ensures k == Wraps(k, n) * n + Index(k, n)
  {
    if k > 0 {
      IndexDecomposes(k - 1, n);
      MulSucc(Wraps(k - 1, n), n);
    }
  }

  /** The rotation index is `k mod n`. */
  lemma IndexIsMod(k: nat, n: nat)
    requires n > 0
    ensures Index(k, n) == k % n
  {
    IndexDecomposes(k, n);
    ModOf(k, Wraps(k, n), Index(k, n), n);
  }

  lemma MulSucc(d: int, n: int)
    ensures (d + 1) * n == d * n + n
  {
  }

  /** A rotation moves every other fruit one place forward and keeps the
      queue's fruits, each as often. */
  lemma RotateKeepsFruits(q: seq<FruitId>)
    requires |q| > 0
    ensures forall j :: 0 <= j < |q| - 1 ==> Rotate(q)[j] == q[j + 1]
    ensures multiset(Rotate(q)) == multiset(q)
  {
    assert q == [q[0]] + q[1..];
  }

  /** The queue `q` after `k` rotations: it starts at element `Index(k, |q|)`. */
  function Rotated(q: seq<FruitId>, k: nat): (r: seq<FruitId>)
    requires |q| > 0
    ensures |r| == |q|
    ensures r[0] == q[Index(k, |q|)]
  {
    var m := Index(k, |q|);
    q[m..] + q[..m]
  }

  /** A rotated queue holds the same fruits, each as often. */
  lemma RotatedKeepsFruits(q: seq<FruitId>, k: nat)
    requires |q| > 0
    ensures multiset(Rotated(q, k)) == multiset(q)
  {
    var m := Index(k, |q|);
    assert q == q[..m] + q[m..];
  }

  /** One more rotation of a rotated queue is the next rotation. */
  lemma RotateRotated(q: seq<FruitId>, k: nat)
    requires |q| > 0
    ensures Rotate(Rotated(q, k)) == Rotated(q, k + 1)
  {
    var m := Index(k, |q|);
    if m + 1 < |q| {
      assert q[..m + 1] == q[..m] + [q[m]];
    } else {
      assert q[..m] + [q[m]] == q;
    }
  }

  /** Dafny's `%` agrees with a quotient-and-remainder split. */
  lemma ModOf(x: nat, d: nat, m: nat, n: nat)
    requires 0 <= m < n && x == d * n + m
    ensures x % n == m
  {
    var q, r := x / n, x % n;
    assert x == q * n + r;
    var e := d - q;
    assert e * n == r - m;
    if e >= 1 {
      MulNonNegative(e - 1, n);
      assert false;
    } else if e <= -1 {
      MulNonNegative(-e - 1, n);
      assert false;
    }
  }

  lemma MulNonNegative(a: int, b: int)
    requires a >= 0 && b >= 0
    ensures a * b >= 0
  {
  }

  /** What `GetFruit` leaves behind: the pools, the active flags, the
      fruit it returns, and whether it threw. */
  datatype Draw = Draw(pools: map<string, seq<FruitId>>, active: map<FruitId, bool>, fruit: Option<FruitId>,
                       thrown: bool)

  /** `GetFruit(name)`: an unknown tree gets nothing and changes nothing.
      An empty queue makes the dequeue throw, which changes nothing. A
      destroyed front fruit is dequeued and the next step throws, so it
      leaves the queue and nothing is returned. Otherwise the front fruit
      is taken, switched on and put back at the end of the queue, whether
      or not it was still in use. */
  function GetFruitOn(pools: map<string, seq<FruitId>>, active: map<FruitId, bool>, destroyed: set<FruitId>,
                      name: string): (r: Draw)
    ensures name !in pools ==> r == Draw(pools, active, None, false)
    ensures name in pools && |pools[name]| == 0 ==> r == Draw(pools, active, None, true)
    ensures name in pools && |pools[name]| > 0 && pools[name][0] in destroyed ==>
              r == Draw(pools[name := pools[name][1..]], active, None, true)
    ensures name in pools && |pools[name]| > 0 && pools[name][0] !in destroyed ==>
              !r.thrown && r.fruit == Some(pools[name][0]) && IsActive(r.active, pools[name][0]) &&
              r.pools == pools[name := Rotate(pools[name])]
  {
    if name !in pools then Draw(pools, active, None, false)
    else
      var q := pools[name];
      if |q| == 0 then Draw(pools, active, None, true)
      else if q[0] in destroyed then Draw(pools[name := q[1..]], active, None, true)
      else Draw(pools[name := Rotate(q)], active[q[0] := true], Some(q[0]), false)
  }

  /** A draw switches on the fruit it returns and no other, never a
      destroyed one, and forgets no fruit object. */
  lemma DrawSwitchesOnlyItsFruit(pools: map<string, seq<FruitId>>, active: map<FruitId, bool>,
                                 destroyed: set<FruitId>, name: string)
    ensures var r := GetFruitOn(pools, active, destroyed, name);
            (forall f :: f in active ==> f in r.active) &&
            (forall f :: f in r.active && r.fruit != Some(f) ==> f in active && r.active[f] == active[f]) &&
            (r.fruit.Some? ==> r.fruit.value !in destroyed)
  {
  }

  /** What a draw does to the queues: no queue grows and none appears or
      disappears; the drawn tree's queue keeps its fruits, each as often,
      unless its front fruit was destroyed, which then leaves the queue;
      every other queue is untouched. */
  lemma DrawKeepsQueues(pools: map<string, seq<FruitId>>, active: map<FruitId, bool>, destroyed: set<FruitId>,
                        name: string)
    ensures var r := GetFruitOn(pools, active, destroyed, name);
            r.pools.Keys == pools.Keys &&
            (forall n :: n in pools && n != name ==> r.pools[n] == pools[n]) &&
            (name in pools ==> multiset(r.pools[name]) <= multiset(pools[name])) &&
            (name in pools ==>
               (multiset(r.pools[name]) == multiset(pools[name]) <==>
                |pools[name]| == 0 || pools[name][0] !in destroyed))
  {
    var r := GetFruitOn(pools, active, destroyed, name);
    if name in pools && |pools[name]| > 0 {
      var q := pools[name];
      assert q == [q[0]] + q[1..];
      if q[0] in destroyed {
        assert multiset(q) == multiset{q[0]} + multiset(q[1..]);
        assert |multiset(q[1..])| < |multiset(q)|;
      } else {
        RotateKeepsFruits(q);
      }
    }
  }

  /** The loss the pool suffers: a draw that finds its front fruit
      destroyed shortens the queue by one and drops exactly that fruit. */
  lemma DestroyedFrontIsLost(pools: map<string, seq<FruitId>>, active: map<FruitId, bool>,
                             destroyed: set<FruitId>, name: string)
    requires name in pools && |pools[name]| > 0 && pools[name][0] in destroyed
    ensures var r := GetFruitOn(pools, active, destroyed, name);
            var q := pools[name];
            r.thrown && r.fruit.None? && |r.pools[name]| == |q| - 1 &&
            multiset(r.pools[name]) == multiset(q) - multiset{q[0]}
  {
    var q := pools[name];
    assert q == [q[0]] + q[1..];
  }

  /** A tree's queue after `k` successful `GetFruit` calls. */
  function Drawn(q: seq<FruitId>, k: nat): (r: seq<FruitId>)
    requires |q| > 0
    ensures |r| == |q|
  {
    if k == 0 then q else Rotate(Drawn(q, k - 1))
  }

  /** `k` draws leave the `k`-th rotation of the first queue. */
  lemma {:induction false} DrawnIsRotated(q: seq<FruitId>, k: nat)
    requires |q| > 0
    ensures Drawn(q, k) == Rotated(q, k)
  {
    if k == 0 {
      RotatedNone(q);
    } else {
      DrawnIsRotated(q, k - 1);
      DrawnStep(q, k);
    }
  }

  lemma DrawnStep(q: seq<FruitId>, k: nat)
    requires |q| > 0 && k > 0 && Drawn(q, k - 1) == Rotated(q, k - 1)
    ensures Drawn(q, k) == Rotated(q, k)
  {
    RotateRotated(q, k - 1);
  }

  lemma RotatedNone(q: seq<FruitId>)
    requires |q| > 0
    ensures Rotated(q, 0) == q
  {
    assert q[0..] + q[..0] == q;
  }

  /** Round-robin: the `k+1`-th call for a tree returns element
      `k mod poolSize` of its first queue, and the queue keeps its length
      and its fruits. */
  lemma RoundRobin(q: seq<FruitId>, k: nat)
    requires |q| > 0
    ensures Drawn(q, k)[0] == q[k % |q|]
    ensures multiset(Drawn(q, k)) == multiset(q)
  {
    DrawnIsRotated(q, k);
    RotatedKeepsFruits(q, k);
    IndexIsMod(k, |q|);
  }

  /** While none of its fruits is destroyed, a tree's queue is drawn
      round-robin: after `k` draws have left `Drawn(q, k)`, the next
      `GetFruit` returns element `k mod poolSize` of the first queue and
      leaves `Drawn(q, k + 1)`. */
  lemma LiveDrawIsRoundRobin(pools: map<string, seq<FruitId>>, active: map<FruitId, bool>,
                             destroyed: set<FruitId>, name: string, q: seq<FruitId>, k: nat)
    requires |q| > 0 && forall j :: 0 <= j < |q| ==> q[j] !in destroyed
    ensures var r := GetFruitOn(pools[name := Drawn(q, k)], active, destroyed, name);
            !r.thrown && r.fruit == Some(q[k % |q|]) && r.pools == pools[name := Drawn(q, k + 1)]
  {
    RoundRobin(q, k);
    var d := Drawn(q, k);
    assert d[0] in multiset(q);
  }

  /** Nothing stops a fruit being handed out again while it is in use:
      the call `poolSize` later returns the same object. */
  lemma RecycledWhileActive(q: seq<FruitId>, k: nat)
    requires |q| > 0
    ensures Drawn(q, k + |q|)[0] == Drawn(q, k)[0]
  {
    RoundRobin(q, k);
    RoundRobin(q, k + |q|);
    ModShift(k, |q|);
  }

  lemma ModShift(k: nat, n: nat)
    requires n > 0
    ensures (k + n) % n == k % n
  {
    var d, m := k / n, k % n;
    assert k == d * n + m;
    MulSucc(d, n);
    ModOf(k + n, d + 1, m, n);
  }

  /** What `Awake` has built so far: every queued fruit is known and
      switched off, every fruit id is below the next one, and each queue
      holds `size` distinct fruits. */
  ghost predicate Stocked(pools: map<string, seq<FruitId>>, active: map<FruitId, bool>, nextId: nat, size: nat)
  {
    (forall name, j :: name in pools && 0 <= j < |pools[name]| ==> pools[name][j] in active) &&
    (forall f :: f in active ==> !active[f] && f < nextId) &&
    (forall name :: name in pools ==> |pools[name]| == size) &&
    (forall name, i, j :: name in pools && 0 <= i < j < |pools[name]| ==> pools[name][i] != pools[name][j])
  }

  /** Queuing `size` freshly created, switched-off fruits under a name
      keeps `Stocked`. */
  lemma StockedAdd(pools: map<string, seq<FruitId>>, active: map<FruitId, bool>, nextId: nat, size: nat,
                   name: string, queue: seq<FruitId>, active2: map<FruitId, bool>, nextId2: nat)
    requires Stocked(pools, active, nextId, size)
    requires |queue| == size && nextId2 == nextId + size
    requires forall j :: 0 <= j < |queue| ==> queue[j] == nextId + j
    requires forall f :: f in active2 <==> f in active || nextId <= f < nextId2
    requires forall f :: f in active2 ==> active2[f] == (f in active && active[f])
    ensures Stocked(pools[name := queue], active2, nextId2, size)
  {
  }

  class FruitPoolManager {
    const poolSize: int
    var pools: map<string, seq<FruitId>>
    var active: map<FruitId, bool>
    var nextId: FruitId
    var destroyed: set<FruitId>

    /** Every pooled fruit is a known object, and no destroyed one is
        switched on. */
    ghost predicate Valid()
      reads this
    {
      (forall name, j :: name in pools && 0 <= j < |pools[name]| ==> pools[name][j] in active) &&
      (forall f :: f in destroyed ==> !IsActive(active, f))
    }

    /** `Awake`: for each template with a fruit prefab, `poolSize` new
        fruits, switched off, queued under its name; a later template of
        the same name replaces the earlier queue. */
    constructor (trees: seq<Option<TreeData>>, poolSize: int)
      ensures Valid() && this.poolSize == poolSize && destroyed == {}
      ensures pools.Keys == FruitTrees(trees)
      ensures forall name :: name in pools ==> |pools[name]| == MaxI(0, poolSize)
      ensures forall name, j :: name in pools && 0 <= j < |pools[name]| ==> !IsActive(active, pools[name][j])
      ensures forall name, i, j :: name in pools && 0 <= i < j < |pools[name]| ==> pools[name][i] != pools[name][j]
    {
      this.poolSize := poolSize;
      pools := map[];
      active := map[];
      nextId := 0;
      destroyed := {};
      new;
      var i := 0;
      while i < |trees|
        invariant 0 <= i <= |trees|
        invariant Stocked(pools, active, nextId, MaxI(0, poolSize)) && pools.Keys == FruitTrees(trees[..i])
        invariant destroyed == {}
      {
        assert trees[..i + 1][..i] == trees[..i];
        var tree := trees[i];
        if tree.Some? && tree.value.hasFruitPrefab {
          ghost var (p0, a0, n0) := (pools, active, nextId);
          var queue := MakeFruits();
          StockedAdd(p0, a0, n0, MaxI(0, poolSize), tree.value.treeName, queue, active, nextId);
          pools := pools[tree.value.treeName := queue];
        }
        i := i + 1;
      }
      assert trees[..|trees|] == trees;
    }

    /** The inner loop of `Awake`: `poolSize` new fruits, each switched
        off, in creation order. */
    method MakeFruits() returns (queue: seq<FruitId>)
      requires forall f :: f in active ==> f < nextId
      modifies this`active, this`nextId
      ensures |queue| == MaxI(0, poolSize) && nextId == old(nextId) + |queue|
      ensures forall j :: 0 <= j < |queue| ==> queue[j] == old(nextId) + j
      ensures forall f :: f in active <==> f in old(active) || old(nextId) <= f < nextId
      ensures forall f :: f in active ==> f < nextId
      ensures forall f :: f in active ==> active[f] == (f in old(active) && old(active)[f])
    {
      queue := [];
      var i := 0;
      while i < poolSize
        invariant 0 <= i == |queue| <= MaxI(0, poolSize) && nextId == old(nextId) + i
        invariant forall j :: 0 <= j < |queue| ==> queue[j] == old(nextId) + j
        invariant forall f :: f in active <==> f in old(active) || old(nextId) <= f < nextId
        invariant forall f :: f in active ==> f < nextId
        invariant forall f :: f in active ==> active[f] == (f in old(active) && old(active)[f])
      {
        var fruit := nextId;
        nextId := nextId + 1;
        active := active[fruit := false];
        queue := queue + [fruit];
        i := i + 1;
      }
    }

    /** `GetFruit`, as `GetFruitOn` states it; `thrown` says the call
        threw. */
    method GetFruit(treeName: string) returns (fruit: Option<FruitId>, thrown: bool)
      requires Valid()
      modifies this`pools, this`active
      ensures Valid()
      ensures Draw(pools, active, fruit, thrown) == GetFruitOn(old(pools), old(active), destroyed, treeName)
    {
      fruit, thrown := None, false;
      if treeName !in pools {
        return;
      }
      var q := pools[treeName];
      if |q| == 0 {
        thrown := true;
        return;
      }
      var f := q[0];
      var rest := q[1..];
      pools := pools[treeName := rest];
      if f in destroyed {
        thrown := true;
        return;
      }
      active := active[f := true];
      pools := pools[treeName := rest + [f]];
      fruit := Some(f);
    }

    /** `ReturnFruit`: the fruit is switched off; no queue changes. A
        destroyed fruit makes the call throw, which changes nothing. */
    method ReturnFruit(fruit: FruitId)
      requires Valid()
      modifies this`active
      ensures Valid()
      ensures active == if fruit in destroyed then old(active) else old(active)[fruit := false]
    {
      if fruit in destroyed {
        return;
      }
      active := active[fruit := false];
    }

    /** The engine destroying pooled fruit objects, as a dying or felled
        tree does to the fruits hanging from it: they count as destroyed
        and are no longer switched on. */
    method DestroyFruits(fruits: set<FruitId>)
      requires Valid()
      modifies this`active, this`destroyed
      ensures Valid() && destroyed == old(destroyed) + fruits
      ensures active == map f | f in old(active) :: old(active)[f] && f !in fruits
    {
      destroyed := destroyed + fruits;
      active := map f | f in active :: active[f] && f !in fruits;
    }
  }
}
