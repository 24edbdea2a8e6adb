/** A grown tree's fruit spawner (`FruitSpawner`): the spawn gate and
    timer, the capacity and free-point rules of a spawn, the sweep that
    frees points whose fruit is gone, and the list of live fruits.

    Spawn points are `PointId`s. A spawn point that has been destroyed
    compares equal to null in the engine; the model passes the destroyed
    points as the set `gone`. The random pick is the `pick` input, which
    selects `available[pick mod |available|]`. Distances are not
    modelled: the sweep gets the set of points whose fruit is more than
    two units away as `displaced`. The sweep's two-second wait is the
    caller's business: `SweepOnce` is one pass of its loop, and
    `sweepRunning` says whether that coroutine is still alive. */
module FruitSpawning {
  import opened GameData
  import opened TreeGrowth
  import opened FruitPool

  type PointId = nat

  type FruitMap = map<PointId, Option<FruitId>>

  /** Point `p` holds a live fruit: one is mapped there and it is on. */
  predicate Holds(m: FruitMap, active: map<FruitId, bool>, p: PointId)
  {
    p in m && m[p].Some? && IsActive(active, m[p].value)
  }

  /** The points holding a live fruit: what `TrySpawnFruit` counts. Two
      points mapped to the same recycled fruit count twice. */
  function Occupied(m: FruitMap, active: map<FruitId, bool>): set<PointId>
  {
    set p | p in m && Holds(m, active, p)
  }

  /** The fruits live at the points of `seen`. */
  function LiveFruits(m: FruitMap, active: map<FruitId, bool>, seen: set<PointId>): set<FruitId>
  {
    set p | p in seen && Holds(m, active, p) :: m[p].value
  }

  /** Looking at one more point adds it to the count exactly when it
      holds a live fruit, and adds its fruit to the live fruits. */
  lemma SeeOneMore(m: FruitMap, active: map<FruitId, bool>, seen: set<PointId>, p: PointId)
    requires p !in seen
    ensures Holds(m, active, p) ==> Occupied(m, active) * (seen + {p}) == Occupied(m, active) * seen + {p}
    ensures !Holds(m, active, p) ==> Occupied(m, active) * (seen + {p}) == Occupied(m, active) * seen
    ensures Holds(m, active, p) ==> LiveFruits(m, active, seen + {p}) == LiveFruits(m, active, seen) + {m[p].value}
    ensures !Holds(m, active, p) ==> LiveFruits(m, active, seen + {p}) == LiveFruits(m, active, seen)
  {
  }

  /** The spawn points a fruit may go to, in order: not destroyed and not
      holding a live fruit. */
  function FreePoints(points: seq<PointId>, gone: set<PointId>, m: FruitMap, active: map<FruitId, bool>)
    : (r: seq<PointId>)
    ensures forall p :: p in r <==> p in points && p !in gone && !Holds(m, active, p)
    ensures |r| <= |points|
  {
    if |points| == 0 then []
    else
      var rest := FreePoints(points[..|points| - 1], gone, m, active);
      var p := points[|points| - 1];
      if p !in gone && !Holds(m, active, p) then rest + [p] else rest
  }

  /** The guards of `Update`: fully grown, and a health fraction that is
      positive and at least the tree's water threshold. */
  predicate SpawnGate(grown: bool, fraction: real, threshold: real)
  {
    grown && fraction > 0.0 && fraction >= threshold
  }

  /** The speed multiplier `Update` computes: half below the threshold. */
  function SpeedMultiplier(fraction: real, threshold: real): real
  {
    if fraction < threshold then 0.5 else 1.0
  }

  /** The half-speed branch is dead code: past the gate the multiplier is
      always one. */
  lemma HalfSpeedUnreachable(grown: bool, fraction: real, threshold: real)
    requires SpawnGate(grown, fraction, threshold)
    ensures SpeedMultiplier(fraction, threshold) == 1.0
  {
  }

  /** One frame of the spawn timer: dt is added, and on reaching the
      interval the timer resets and a spawn is attempted. */
  function TimerStep(timer: real, dt: real, interval: real): (r: (real, bool))
    ensures r.1 <==> timer + dt >= interval
    ensures r.1 ==> r.0 == 0.0
    ensures !r.1 ==> r.0 == timer + dt && r.0 < interval
  {
    if timer + dt >= interval then (0.0, true) else (timer + dt, false)
  }

  /** The timer over several gated frames: where it ends and how many
      spawns were attempted. */
  function TimerRun(timer: real, dts: seq<real>, interval: real): (r: (real, nat))
    decreases |dts|
  {
    if |dts| == 0 then (timer, 0)
    else
      var s := TimerStep(timer, dts[0], interval);
      var t := TimerRun(s.0, dts[1..], interval);
      (t.0, t.1 + if s.1 then 1 else 0)
  }

  function SumOf(xs: seq<real>): real
  {
    if |xs| == 0 then 0.0 else xs[0] + SumOf(xs[1..])
  }

  /** Spawns are paced by time: each attempt uses up a full interval of
      the time that passed, so `n` attempts need at least `n` intervals,
      less what the timer already held. */
  lemma {:induction false} TimerPaces(timer: real, dts: seq<real>, interval: real)
    requires 0.0 <= timer && interval > 0.0
    requires forall j :: 0 <= j < |dts| ==> dts[j] >= 0.0
    ensures var r := TimerRun(timer, dts, interval);
            0.0 <= r.0 && (r.1 as real) * interval <= timer + SumOf(dts) - r.0
    decreases |dts|
  {
    if |dts| > 0 {
      var s := TimerStep(timer, dts[0], interval);
      TimerPaces(s.0, dts[1..], interval);
      var t := TimerRun(s.0, dts[1..], interval);
      if s.1 {
        assert ((t.1 + 1) as real) * interval == (t.1 as real) * interval + interval;
      }
    }
  }

  /** What a spawn attempt leaves behind: the point map, the pool, and
      whether the pool's `GetFruit` threw. */
  datatype Spawn = Spawn(at: FruitMap, pools: map<string, seq<FruitId>>, active: map<FruitId, bool>, thrown: bool)

  /** `TrySpawnFruit`: nothing at capacity or without a free point;
      otherwise one fruit is drawn from the pool for the tree, and if the
      pool had one it is mapped at the chosen free point. A draw that
      throws maps nothing, and the spawn throws with it. */
  function SpawnAt(points: seq<PointId>, gone: set<PointId>, m: FruitMap, pools: map<string, seq<FruitId>>,
                   active: map<FruitId, bool>, destroyed: set<FruitId>, name: string, maxCount: int, pick: nat)
    : (r: Spawn)
    ensures |Occupied(m, active)| >= maxCount ==> r == Spawn(m, pools, active, false)
    ensures |FreePoints(points, gone, m, active)| == 0 ==> r == Spawn(m, pools, active, false)
    ensures r.thrown ==> r.at == m && r.active == active
    ensures r.thrown <==> |Occupied(m, active)| < maxCount && |FreePoints(points, gone, m, active)| > 0 &&
                          name in pools && (|pools[name]| == 0 || pools[name][0] in destroyed)
  {
    if |Occupied(m, active)| >= maxCount then Spawn(m, pools, active, false)
    else
      var free := FreePoints(points, gone, m, active);
      if |free| == 0 then Spawn(m, pools, active, false)
      else
        var p := free[pick % |free|];
        var d := GetFruitOn(pools, active, destroyed, name);
        Spawn(if d.fruit.Some? then m[p := d.fruit] else m, d.pools, d.active, d.thrown)
  }

  /** A spawn that changes the map changes it at one point only: a live
      spawn point that held no live fruit, and which now holds the live
      fruit the pool handed out. */
  lemma SpawnPlacesAtFreePoint(points: seq<PointId>, gone: set<PointId>, m: FruitMap,
                               pools: map<string, seq<FruitId>>, active: map<FruitId, bool>,
                               destroyed: set<FruitId>, name: string, maxCount: int, pick: nat)
    ensures var r := SpawnAt(points, gone, m, pools, active, destroyed, name, maxCount, pick);
            r.at != m ==>
              exists p :: p in points && p !in gone && !Holds(m, active, p) &&
                          p in r.at && r.at == m[p := r.at[p]] && Holds(r.at, r.active, p)
  {
    var r := SpawnAt(points, gone, m, pools, active, destroyed, name, maxCount, pick);
    if r.at != m {
      var free := FreePoints(points, gone, m, active);
      var p := free[pick % |free|];
      assert p in free;
      assert r.at == m[p := r.at[p]];
    }
  }

  /** One sweep: every live point whose fruit is missing, switched off or
      displaced is cleared; destroyed points are skipped. */
  function Swept(m: FruitMap, active: map<FruitId, bool>, gone: set<PointId>, displaced: set<PointId>)
    : (r: FruitMap)
    ensures r.Keys == m.Keys
    ensures forall p :: p in m && p in gone ==> r[p] == m[p]
    ensures forall p :: p in m && p !in gone ==>
              (r[p] == if Holds(m, active, p) && p !in displaced then m[p] else None)
  {
    map p | p in m :: if p !in gone && (!Holds(m, active, p) || p in displaced) then None else m[p]
  }

  /** A sweep frees exactly the displaced live points that still exist;
      every other live point keeps its fruit. */
  lemma SweepFreesDisplaced(m: FruitMap, active: map<FruitId, bool>, gone: set<PointId>, displaced: set<PointId>)
    ensures Occupied(Swept(m, active, gone, displaced), active) == Occupied(m, active) - (displaced - gone)
  {
    var r := Swept(m, active, gone, displaced);
    forall p
      ensures p in Occupied(r, active) <==> p in Occupied(m, active) - (displaced - gone)
    {
      if p in m && p !in gone && !(Holds(m, active, p) && p !in displaced) {
        assert !Holds(r, active, p);
      }
    }
  }

  /** Where the loops over the points stand: the points of `seen` are done
      and those of `rest` are still to come. */
  predicate Split(m: FruitMap, rest: set<PointId>, seen: set<PointId>)
  {
    rest !! seen && rest + seen == m.Keys
  }

  lemma SplitStep(m: FruitMap, rest: set<PointId>, seen: set<PointId>, p: PointId)
    requires Split(m, rest, seen) && p in rest
    ensures Split(m, rest - {p}, seen + {p}) && p !in seen && p in m
  {
  }

  lemma SplitDone(m: FruitMap, active: map<FruitId, bool>, seen: set<PointId>)
    requires Split(m, {}, seen)
    ensures seen == m.Keys
    ensures Occupied(m, active) * seen == Occupied(m, active)
  {
  }

  /** What the counting loop has counted among the points of `seen`. */
  ghost predicate Counted(m: FruitMap, active: map<FruitId, bool>, seen: set<PointId>, n: nat)
  {
    n == |Occupied(m, active) * seen|
  }

  lemma CountedStep(m: FruitMap, active: map<FruitId, bool>, seen: set<PointId>, n: nat, p: PointId)
    requires Counted(m, active, seen, n) && p !in seen
    ensures Counted(m, active, seen + {p}, if Holds(m, active, p) then n + 1 else n)
  {
    SeeOneMore(m, active, seen, p);
    if Holds(m, active, p) {
      assert p !in Occupied(m, active) * seen;
    }
  }

  /** The counting loop of `TrySpawnFruit`, over the points in any order:
      the points holding a live fruit. */
  method CountOccupied(m: FruitMap, active: map<FruitId, bool>) returns (n: nat)
    ensures n == |Occupied(m, active)|
  {
    n := 0;
    var rest := m.Keys;
    ghost var seen: set<PointId> := {};
    while rest != {}
      invariant Split(m, rest, seen) && Counted(m, active, seen, n)
      decreases |rest|
    {
      var p :| p in rest;
      SplitStep(m, rest, seen, p);
      CountedStep(m, active, seen, n, p);
      if m[p].Some? && IsActive(active, m[p].value) {
        n := n + 1;
      }
      rest := rest - {p};
      seen := seen + {p};
    }
    SplitDone(m, active, seen);
  }

  /** What the loop of `GetActiveFruits` has collected from the points
      of `seen`. */
  ghost predicate Listed(m: FruitMap, active: map<FruitId, bool>, seen: set<PointId>, list: seq<FruitId>)
  {
    |list| == |Occupied(m, active) * seen| && forall f :: f in list <==> f in LiveFruits(m, active, seen)
  }

  lemma ListedStep(m: FruitMap, active: map<FruitId, bool>, seen: set<PointId>, list: seq<FruitId>, p: PointId)
    requires Listed(m, active, seen, list) && p !in seen && p in m
    ensures Holds(m, active, p) ==> Listed(m, active, seen + {p}, list + [m[p].value])
    ensures !Holds(m, active, p) ==> Listed(m, active, seen + {p}, list)
  {
    SeeOneMore(m, active, seen, p);
    if Holds(m, active, p) {
      assert p !in Occupied(m, active) * seen;
      assert forall f :: f in list + [m[p].value] <==> f in list || f == m[p].value;
    }
  }

  /** The loop of `GetActiveFruits`: the fruit of each point holding a
      live one. */
  method LiveList(m: FruitMap, active: map<FruitId, bool>) returns (list: seq<FruitId>)
    ensures |list| == |Occupied(m, active)|
    ensures forall f :: f in list <==> f in LiveFruits(m, active, m.Keys)
  {
    list := [];
    var rest := m.Keys;
    ghost var seen: set<PointId> := {};
    while rest != {}
      invariant Split(m, rest, seen) && Listed(m, active, seen, list)
      decreases |rest|
    {
      var p :| p in rest;
      SplitStep(m, rest, seen, p);
      ListedStep(m, active, seen, list, p);
      var v := m[p];
      if v.Some? && IsActive(active, v.value) {
        list := list + [v.value];
      }
      rest := rest - {p};
      seen := seen + {p};
    }
    SplitDone(m, active, seen);
  }

  class FruitSpawner {
    const growTree: GrowTree?
    const treeData: Option<TreeData>
    const spawnPoints: seq<PointId>
    const pool: FruitPoolManager
    var fruitAtPoint: FruitMap
    var isSpawning: bool
    var sweepRunning: bool
    var spawnTimer: real

    ghost predicate Valid()
      reads this, pool, growTree
    {
      pool.Valid() && (growTree != null ==> growTree.Valid())
    }

    /** `Awake`: the tree on the same object, the template it carried at
        that moment (the prefab's own, before the plot assigns the
        planted one), and the children of the spawn-point parent, or no
        points when there is no parent. */
    constructor (growTree: GrowTree?, prefabData: Option<TreeData>, children: Option<seq<PointId>>,
                 pool: FruitPoolManager)
      requires pool.Valid() && (growTree != null ==> growTree.Valid())
      ensures Valid() && this.growTree == growTree && this.pool == pool
      ensures treeData == (if growTree == null then None else prefabData)
      ensures spawnPoints == (if children.Some? then children.value else [])
      ensures fruitAtPoint == map[] && !isSpawning && !sweepRunning && spawnTimer == 0.0
    {
      this.growTree := growTree;
      this.treeData := if growTree == null then None else prefabData;
      this.spawnPoints := if children.Some? then children.value else [];
      this.pool := pool;
      fruitAtPoint := map[];
      isSpawning := false;
      sweepRunning := false;
      spawnTimer := 0.0;
    }

    /** Whether `Update` gets past its guards this frame. */
    ghost predicate Open()
      reads this, growTree
      requires growTree != null ==> growTree.Valid()
    {
      growTree != null && treeData.Some? &&
      SpawnGate(growTree.IsFullyGrown(), growTree.CurrentHealthPercent(), growTree.treeData.waterNeedThreshold)
    }

    /** `Update`: past the gate, the timer advances at full speed; on
        reaching the interval it resets and a spawn is attempted, and the
        first open frame starts the sweep. A spawn that throws ends the
        frame before the sweep is looked at. */
    method Update(dt: real, gone: set<PointId>, pick: nat) returns (sweepStarted: bool)
      requires Valid()
      modifies this`spawnTimer, this`fruitAtPoint, this`isSpawning, this`sweepRunning, pool`pools, pool`active
      ensures Valid()
      ensures !Open() ==>
                !sweepStarted && spawnTimer == old(spawnTimer) && isSpawning == old(isSpawning) &&
                sweepRunning == old(sweepRunning) &&
                fruitAtPoint == old(fruitAtPoint) && pool.pools == old(pool.pools) && pool.active == old(pool.active)
      ensures Open() ==>
                var t := treeData.value;
                var step := TimerStep(old(spawnTimer), dt, t.fruitSpawnInterval);
                var spawn := SpawnAt(spawnPoints, gone, old(fruitAtPoint), old(pool.pools), old(pool.active),
                                     pool.destroyed, t.treeName, t.maxFruitCount, pick);
                var thrown := step.1 && spawn.thrown;
                spawnTimer == step.0 &&
                sweepStarted == (!old(isSpawning) && !thrown) &&
                isSpawning == (old(isSpawning) || !thrown) &&
                sweepRunning == (old(sweepRunning) || sweepStarted) &&
                (!step.1 ==> fruitAtPoint == old(fruitAtPoint) && pool.pools == old(pool.pools) &&
                             pool.active == old(pool.active)) &&
                (step.1 ==> Spawn(fruitAtPoint, pool.pools, pool.active, spawn.thrown) == spawn)
    {
      sweepStarted := false;
      if growTree == null || treeData.None? {
        return;
      }
      if !growTree.IsFullyGrown() {
        return;
      }
      var fraction := growTree.CurrentHealthPercent();
      if fraction <= 0.0 {
        return;
      }
      if fraction < growTree.treeData.waterNeedThreshold {
        return;
      }
      var multiplier := 1.0;
      if fraction < growTree.treeData.waterNeedThreshold {
        multiplier := 0.5;
      }
      spawnTimer := spawnTimer + dt * multiplier;
      if spawnTimer >= treeData.value.fruitSpawnInterval {
        spawnTimer := 0.0;
        var thrown := TrySpawnFruit(gone, pick);
        if thrown {
          return;
        }
      }
      if !isSpawning {
        isSpawning := true;
        sweepRunning := true;
        sweepStarted := true;
      }
    }

    /** `TrySpawnFruit`, as `SpawnAt` states it; `thrown` says the pool's
        `GetFruit` threw. */
    method TrySpawnFruit(gone: set<PointId>, pick: nat) returns (thrown: bool)
      requires Valid() && treeData.Some?
      modifies this`fruitAtPoint, pool`pools, pool`active
      ensures Valid()
      ensures Spawn(fruitAtPoint, pool.pools, pool.active, thrown) ==
              SpawnAt(spawnPoints, gone, old(fruitAtPoint), old(pool.pools), old(pool.active), pool.destroyed,
                      treeData.value.treeName, treeData.value.maxFruitCount, pick)
    {
      thrown := false;
      var activeFruits := CountActive();
      if activeFruits >= treeData.value.maxFruitCount {
        return;
      }
      var available := AvailablePoints(gone);
      if |available| == 0 {
        return;
      }
      var point := available[pick % |available|];
      var fruit;
      fruit, thrown := pool.GetFruit(treeData.value.treeName);
      if fruit.Some? {
        fruitAtPoint := fruitAtPoint[point := fruit];
      }
    }

    /** The counting loop of `TrySpawnFruit`: the points holding a live
        fruit. */
    method CountActive() returns (n: nat)
      ensures n == |Occupied(fruitAtPoint, pool.active)|
    {
      n := CountOccupied(fruitAtPoint, pool.active);
    }

    /** The free-point loop of `TrySpawnFruit`. */
    method AvailablePoints(gone: set<PointId>) returns (available: seq<PointId>)
      ensures available == FreePoints(spawnPoints, gone, fruitAtPoint, pool.active)
    {
      available := [];
      var i := 0;
      while i < |spawnPoints|
        invariant 0 <= i <= |spawnPoints|
        invariant available == FreePoints(spawnPoints[..i], gone, fruitAtPoint, pool.active)
      {
        assert spawnPoints[..i + 1][..i] == spawnPoints[..i];
        var p := spawnPoints[i];
        if p !in gone && !(p in fruitAtPoint && fruitAtPoint[p].Some? && IsActive(pool.active, fruitAtPoint[p].value)) {
          available := available + [p];
        }
        i := i + 1;
      }
      assert spawnPoints[..|spawnPoints|] == spawnPoints;
    }

    /** `GetActiveFruits`: one entry per point holding a live fruit, and
        exactly the fruits held live somewhere. */
    method GetActiveFruits() returns (list: seq<FruitId>)
      ensures |list| == |Occupied(fruitAtPoint, pool.active)|
      ensures forall f :: f in list <==> f in LiveFruits(fruitAtPoint, pool.active, fruitAtPoint.Keys)
    {
      list := LiveList(fruitAtPoint, pool.active);
    }

    /** One pass of `CheckDroppedFruits` after its wait, if the coroutine
        is still running: it ends when the tree or its template is missing
        (and the spawner never starts another, `isSpawning` staying set);
        otherwise the points to clear are collected and then cleared. */
    method SweepOnce(gone: set<PointId>, displaced: set<PointId>) returns (continues: bool)
      modifies this`fruitAtPoint, this`sweepRunning
      ensures continues <==> old(sweepRunning) && growTree != null && treeData.Some?
      ensures sweepRunning == continues
      ensures continues ==> fruitAtPoint == Swept(old(fruitAtPoint), pool.active, gone, displaced)
      ensures !continues ==> fruitAtPoint == old(fruitAtPoint)
    {
      if !sweepRunning {
        return false;
      }
      if growTree == null || treeData.None? {
        sweepRunning := false;
        return false;
      }
      continues := true;
      var m := fruitAtPoint;
      var toClear: set<PointId> := {};
      var rest := m.Keys;
      while rest != {}
        invariant rest <= m.Keys && toClear <= m.Keys && sweepRunning
        invariant forall p :: p in toClear <==>
                    p in m && p !in rest && p !in gone && (!Holds(m, pool.active, p) || p in displaced)
        decreases |rest|
      {
        var p :| p in rest;
        rest := rest - {p};
        if p in gone {
          continue;
        }
        var fruit := m[p];
        if fruit.None? || !IsActive(pool.active, fruit.value) {
          toClear := toClear + {p};
          continue;
        }
        if p in displaced {
          toClear := toClear + {p};
        }
      }
      var left := toClear;
      while left != {}
        invariant left <= toClear && fruitAtPoint.Keys == m.Keys && sweepRunning
        invariant forall p :: p in m ==> fruitAtPoint[p] == if p in toClear - left then None else m[p]
        decreases |left|
      {
        var p :| p in left;
        fruitAtPoint := fruitAtPoint[p := None];
        left := left - {p};
      }
      assert fruitAtPoint == Swept(m, pool.active, gone, displaced);
    }

    /** `StopAllCoroutines`: the sweep stops for good; `isSpawning` stays
        set, so `Update` never starts another. */
    method StopAllCoroutines()
      modifies this`sweepRunning
      ensures !sweepRunning
    {
      sweepRunning := false;
    }

    /** What `HandleTreeDeath` does beyond the tree itself: the spawner on
        the tree stops its coroutines, and every child of the tree is
        destroyed, among them the pooled fruits `hanging` from it. */
    method OnTreeDeath(hanging: set<FruitId>)
      requires Valid()
      modifies this`sweepRunning, pool`active, pool`destroyed
      ensures Valid() && !sweepRunning && isSpawning == old(isSpawning)
      ensures pool.destroyed == old(pool.destroyed) + hanging
      ensures pool.active == map f | f in old(pool.active) :: old(pool.active)[f] && f !in hanging
    {
      StopAllCoroutines();
      pool.DestroyFruits(hanging);
    }
  }
}
