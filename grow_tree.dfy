/** A planted tree (`GrowTree`): health that decays at one of three rates,
    death when it reaches zero, a growth timer that ends in a one-time
    reward, the withered look with its hysteresis band, and watering.

    The frame time `Time.deltaTime` is the `dt` parameter. Scaling, the
    leaf colour transition, particles and the dead-trunk prefab are
    presentation; whether the prefab has a leaf material is the constant
    `hasLeafMaterial`. */
module TreeGrowth {
  import opened GameData

  /** Health divides by `maxHealth` and the growth timer by
      `timeNeededToGrow`: both must be positive for the fractions to be
      numbers. */
  predicate Sane(t: TreeData)
  {
    t.maxHealth > 0.0 && t.timeNeededToGrow > 0.0
  }

  /** The health fraction at and above which the tree grows at full speed. */
  const FastGrowthFraction: real := 0.4
  /** The leaves wither below this fraction ... */
  const WitherBelow: real := 0.4
  /** ... and recover only above this one. */
  const RecoverAbove: real := 0.6

  /** The tree's state as its fields hold it. */
  datatype TreeState = TreeState(
    health: real,
    growTimer: real,
    fullyGrown: bool,
    wasFullyGrown: bool,
    dead: bool,
    withered: bool)

  /** `Start`: the template's start health, nothing grown. */
  function Planted(t: TreeData): (s: TreeState)
    ensures s.health == t.startHealth && s.growTimer == 0.0
    ensures !s.fullyGrown && !s.wasFullyGrown && !s.dead && !s.withered
  {
    TreeState(t.startHealth, 0.0, false, false, false, false)
  }

  /** `CurrentHealthPercent`. */
  function Fraction(health: real, t: TreeData): (f: real)
    requires Sane(t)
    ensures 0.0 <= f <= 1.0
    ensures 0.0 <= health <= t.maxHealth ==> f * t.maxHealth == health
  {
    Clamp01(health / t.maxHealth)
  }

  /** The decay rate of one frame: the grown rate once fully grown,
      otherwise the critical rate below the water threshold and the
      healthy rate at or above it. */
  function DecayRate(s: TreeState, t: TreeData): (rate: real)
    requires Sane(t)
    ensures s.fullyGrown ==> rate == t.grownDecayRate
    ensures !s.fullyGrown && Fraction(s.health, t) < t.waterNeedThreshold ==> rate == t.criticalDecayRate
    ensures !s.fullyGrown && Fraction(s.health, t) >= t.waterNeedThreshold ==> rate == t.healthyDecayRate
  {
    if s.fullyGrown then t.grownDecayRate
    else if Fraction(s.health, t) < t.waterNeedThreshold then t.criticalDecayRate
    else t.healthyDecayRate
  }

  /** `HandleHealthDecay`: health drops by rate times `dt`, clamped to
      [0, max]; reaching zero kills the tree. */
  function Decay(s: TreeState, t: TreeData, dt: real): (r: TreeState)
    requires Sane(t)
    ensures 0.0 <= r.health <= t.maxHealth
    ensures r.health == Clamp(s.health - DecayRate(s, t) * dt, 0.0, t.maxHealth)
    ensures r.dead <==> s.dead || r.health == 0.0
    ensures r.(health := s.health, dead := s.dead) == s
  {
    var h := Clamp(s.health - DecayRate(s, t) * dt, 0.0, t.maxHealth);
    s.(health := h, dead := s.dead || h <= 0.0)
  }

  /** `UpdateVisualByHealth`: with a leaf material, the leaves wither
      below 40% and recover above 60%; in between they keep their look. */
  function Wither(s: TreeState, t: TreeData, hasLeafMaterial: bool): (r: TreeState)
    requires Sane(t)
    ensures r.(withered := s.withered) == s
    ensures !hasLeafMaterial ==> r == s
    ensures hasLeafMaterial && Fraction(s.health, t) < WitherBelow ==> r.withered
    ensures hasLeafMaterial && Fraction(s.health, t) > RecoverAbove ==> !r.withered
    ensures WitherBelow <= Fraction(s.health, t) <= RecoverAbove ==> r == s
  {
    if !hasLeafMaterial then s
    else if !s.withered && Fraction(s.health, t) < WitherBelow then s.(withered := true)
    else if s.withered && Fraction(s.health, t) > RecoverAbove then s.(withered := false)
    else s
  }

  /** `OnFullyGrown`: save, then the plant reward, the pollution
      reduction and the planting quest progress. */
  function GrownReward(t: TreeData): (cs: seq<Call>)
    ensures |cs| == 4 && cs[0] == SaveGame
    ensures CountOf(cs, AddProgress(t.treeName, QuestGoalType.PlantTree)) == 1
  {
    var p := AddProgress(t.treeName, QuestGoalType.PlantTree);
    var cs := [SaveGame, AddXP(t.xpRewardPlant), ModifyPollution(-t.pollutionReduction), p];
    assert CountOf(cs[3..], p) == 1;
    assert cs[2..][1..] == cs[3..];
    assert CountOf(cs[2..], p) == 1;
    assert cs[1..][1..] == cs[2..];
    assert CountOf(cs[1..], p) == 1;
    cs
  }

  /** The growth timer after one frame: `dt` is added twice, the second
      time halved when the tree is below 40% health. */
  function GrownTimer(s: TreeState, t: TreeData, dt: real): (timer: real)
    requires Sane(t)
    ensures Fraction(s.health, t) >= FastGrowthFraction ==> timer == s.growTimer + 2.0 * dt
    ensures Fraction(s.health, t) < FastGrowthFraction ==> timer == s.growTimer + 1.5 * dt
  {
    s.growTimer + dt + dt * (if Fraction(s.health, t) >= FastGrowthFraction then 1.0 else 0.5)
  }

  /** `HandleGrowth`: nothing once fully grown; otherwise the timer
      advances and, the first time it reaches the time needed, the tree is
      fully grown and the reward calls are made. */
  function Grow(s: TreeState, t: TreeData, dt: real): (r: (TreeState, seq<Call>))
    requires Sane(t)
    ensures s.fullyGrown ==> r == (s, [])
    ensures !s.fullyGrown ==> r.0.growTimer == GrownTimer(s, t, dt)
    ensures r.0.(growTimer := s.growTimer, fullyGrown := s.fullyGrown, wasFullyGrown := s.wasFullyGrown) == s
    ensures r.1 != [] <==> !s.fullyGrown && !s.wasFullyGrown && GrownTimer(s, t, dt) >= t.timeNeededToGrow
    ensures r.1 != [] ==> r.1 == GrownReward(t)
    ensures r.0.fullyGrown <==> s.fullyGrown || r.1 != []
    ensures r.0.wasFullyGrown <==> s.wasFullyGrown || r.1 != []
  {
    if s.fullyGrown then (s, [])
    else
      var timer := GrownTimer(s, t, dt);
      var progress := Clamp01(timer / t.timeNeededToGrow);
      assert progress >= 1.0 <==> timer >= t.timeNeededToGrow;
      if progress >= 1.0 && !s.wasFullyGrown then
        (s.(growTimer := timer, fullyGrown := true, wasFullyGrown := true), GrownReward(t))
      else (s.(growTimer := timer), [])
  }

  /** One `Update`: a dead tree does nothing; otherwise decay, the leaf
      look and growth, in that order, so the frame that kills the tree
      still advances its growth. */
  function Tick(s: TreeState, t: TreeData, hasLeafMaterial: bool, dt: real): (r: (TreeState, seq<Call>))
    requires Sane(t)
    ensures s.dead ==> r == (s, [])
    ensures !s.dead ==> 0.0 <= r.0.health <= t.maxHealth
    ensures r.0.dead <==> s.dead || r.0.health == 0.0
    ensures !s.dead && !s.fullyGrown ==> r.0.growTimer > s.growTimer || dt <= 0.0
    ensures r.1 != [] ==> !s.dead && !s.fullyGrown && !s.wasFullyGrown && r.0.fullyGrown && r.1 == GrownReward(t)
  {
    if s.dead then (s, []) else Grow(Wither(Decay(s, t, dt), t, hasLeafMaterial), t, dt)
  }

  /** Whether `HandleWaterPrompt` shows the water prompt (otherwise it
      hides it): the player is near and the tree is alive below the water
      threshold. */
  function NeedsWaterPrompt(s: TreeState, t: TreeData, playerNearby: bool): (show: bool)
    requires Sane(t)
    ensures show ==> playerNearby && !s.dead
    ensures show <==> playerNearby && !s.dead && Fraction(s.health, t) < t.waterNeedThreshold
  {
    playerNearby && Fraction(s.health, t) < t.waterNeedThreshold && !s.dead
  }

  /** `TriggerGrowth`: on a live tree below the water threshold the
      health is clamped into [0, max] and the tree is marked as watered. */
  function Water(s: TreeState, t: TreeData): (r: (TreeState, bool))
    requires Sane(t)
    ensures r.1 <==> !s.dead && s.health < t.maxHealth * t.waterNeedThreshold
    ensures !r.1 ==> r.0 == s
    ensures r.1 ==> r.0 == s.(health := Clamp(s.health, 0.0, t.maxHealth))
  {
    if s.dead then (s, false)
    else if s.health < t.maxHealth * t.waterNeedThreshold then
      (s.(health := Clamp(s.health, 0.0, t.maxHealth)), true)
    else (s, false)
  }

  /** Watering never adds health: a tree whose health is not negative
      keeps exactly what it had. */
  lemma WaterKeepsHealth(s: TreeState, t: TreeData)
    requires Sane(t) && 0.0 <= s.health <= t.maxHealth
    ensures Water(s, t).0 == s
  {
  }

  /** After a live frame the health lies in [0, max], whatever it was. */
  lemma TickBoundsHealth(s: TreeState, t: TreeData, hasLeafMaterial: bool, dt: real)
    requires Sane(t) && !s.dead
    ensures 0.0 <= Tick(s, t, hasLeafMaterial, dt).0.health <= t.maxHealth
  {
  }

  /** A frame with no time passing and a healthy, not yet grown tree
      reports the reward only when the timer was already full. */
  lemma TickNoTime(s: TreeState, t: TreeData, hasLeafMaterial: bool)
    requires Sane(t) && !s.dead && !s.fullyGrown && !s.wasFullyGrown && s.growTimer < t.timeNeededToGrow
    ensures Tick(s, t, hasLeafMaterial, 0.0).1 == []
  {
    var d := Wither(Decay(s, t, 0.0), t, hasLeafMaterial);
    assert d.growTimer == s.growTimer;
    assert GrownTimer(d, t, 0.0) == s.growTimer;
  }

  /** A run of frames with the given frame times: the final state and
      every call made, in order. */
  function Run(s: TreeState, t: TreeData, hasLeafMaterial: bool, dts: seq<real>): (TreeState, seq<Call>)
    requires Sane(t)
    decreases |dts|
  {
    if dts == [] then (s, [])
    else
      var (s1, c1) := Tick(s, t, hasLeafMaterial, dts[0]);
      var (s2, c2) := Run(s1, t, hasLeafMaterial, dts[1..]);
      (s2, c1 + c2)
  }

  /** What every state reachable from `Planted` satisfies: the two grown
      flags agree. */
  predicate Reachable(s: TreeState)
  {
    s.fullyGrown == s.wasFullyGrown
  }

  /** A dead tree stays as it is and makes no calls. */
  lemma {:induction false} DeadIsFinal(s: TreeState, t: TreeData, hasLeafMaterial: bool, dts: seq<real>)
    requires Sane(t) && s.dead
    ensures Run(s, t, hasLeafMaterial, dts) == (s, [])
    decreases |dts|
  {
    if dts != [] {
      assert Tick(s, t, hasLeafMaterial, dts[0]) == (s, []);
      DeadIsFinal(s, t, hasLeafMaterial, dts[1..]);
      var none: seq<Call> := [];
      assert none + none == none;
    }
  }

  /** Death and being fully grown are never undone, and the two grown
      flags keep agreeing. */
  lemma {:induction false} FlagsMonotone(s: TreeState, t: TreeData, hasLeafMaterial: bool, dts: seq<real>)
    requires Sane(t) && Reachable(s)
    ensures var r := Run(s, t, hasLeafMaterial, dts).0;
            Reachable(r) && (s.dead ==> r.dead) && (s.fullyGrown ==> r.fullyGrown)
    decreases |dts|
  {
    if dts != [] {
      FlagsMonotone(Tick(s, t, hasLeafMaterial, dts[0]).0, t, hasLeafMaterial, dts[1..]);
    }
  }

  /** The tree rewards its player at most once: over any run, the
      planting quest progress is reported at most once and at most the
      four reward calls are made, none at all by a tree already grown. */
  lemma {:induction false} RewardAtMostOnce(s: TreeState, t: TreeData, hasLeafMaterial: bool, dts: seq<real>)
    requires Sane(t) && Reachable(s)
    ensures var cs := Run(s, t, hasLeafMaterial, dts).1;
            CountOf(cs, AddProgress(t.treeName, QuestGoalType.PlantTree)) <= 1 &&
            |cs| <= 4 &&
            (s.fullyGrown ==> cs == []) &&
            (cs != [] ==> cs == GrownReward(t))
    decreases |dts|
  {
    if dts != [] {
      var (s1, c1) := Tick(s, t, hasLeafMaterial, dts[0]);
      var c2 := Run(s1, t, hasLeafMaterial, dts[1..]).1;
      RewardAtMostOnce(s1, t, hasLeafMaterial, dts[1..]);
      CountOfAppend(c1, c2, AddProgress(t.treeName, QuestGoalType.PlantTree));
      if c1 != [] {
        assert s1.fullyGrown;
        assert c2 == [];
        assert c1 + c2 == c1;
      } else {
        assert c1 + c2 == c2;
      }
    }
  }

  class GrowTree {
    const treeData: TreeData
    const hasLeafMaterial: bool
    var currentHealth: real
    var growTimer: real
    var isFullyGrown: bool
    var wasFullyGrown: bool
    var recentlyWatered: bool
    var isDead: bool
    var isWithered: bool
    var playerNearby: bool

    predicate Valid()
    {
      Sane(treeData)
    }

    function State(): TreeState
      reads this
    {
      TreeState(currentHealth, growTimer, isFullyGrown, wasFullyGrown, isDead, isWithered)
    }

    /** The prefab instantiated with its template, after `Start`. */
    constructor (data: TreeData, hasLeafMaterial: bool)
      requires Sane(data)
      ensures Valid() && treeData == data && this.hasLeafMaterial == hasLeafMaterial
      ensures State() == Planted(data)
      ensures !recentlyWatered && !playerNearby
    {
      treeData := data;
      this.hasLeafMaterial := hasLeafMaterial;
      currentHealth := data.startHealth;
      growTimer := 0.0;
      isFullyGrown := false;
      wasFullyGrown := false;
      recentlyWatered := false;
      isDead := false;
      isWithered := false;
      playerNearby := false;
    }

    function MaxHealth(): real
    {
      treeData.maxHealth
    }

    function IsFullyGrown(): (grown: bool)
      reads this
      ensures grown == State().fullyGrown
    {
      isFullyGrown
    }

    function CurrentHealthPercent(): (f: real)
      reads this
      requires Valid()
      ensures f == Fraction(State().health, treeData)
      ensures 0.0 <= f <= 1.0
    {
      Clamp01(currentHealth / MaxHealth())
    }

    /** `IsTreeDead` tests the health, not the death flag. */
    function IsTreeDead(): (dead: bool)
      reads this
      ensures dead <==> State().health <= 0.0
    {
      currentHealth <= 0.0
    }

    method SetPlayerNearby(b: bool)
      modifies this`playerNearby
      ensures playerNearby == b
    {
      playerNearby := b;
    }

    /** One frame. `showPrompt` says whether the water prompt is shown for
        this tree (otherwise it is hidden); `effectIdle` says the water
        particle effect exists and is not playing, which ends the watered
        mark. */
    method Update(dt: real, effectIdle: bool) returns (calls: seq<Call>, showPrompt: bool, died: bool)
      requires Valid()
      modifies this
      ensures (State(), calls) == Tick(old(State()), treeData, hasLeafMaterial, dt)
      ensures died <==> !old(isDead) && isDead
      ensures showPrompt == (!old(isDead) && NeedsWaterPrompt(State(), treeData, playerNearby))
      ensures recentlyWatered == (old(recentlyWatered) && (old(isDead) || !effectIdle))
      ensures playerNearby == old(playerNearby)
    {
      calls := [];
      showPrompt := false;
      died := false;
      if isDead {
        return;
      }
      died := HandleHealthDecay(dt);
      UpdateVisualByHealth();
      calls := HandleGrowth(dt);
      showPrompt := playerNearby && CurrentHealthPercent() < treeData.waterNeedThreshold && !isDead;
      if recentlyWatered && effectIdle {
        recentlyWatered := false;
      }
    }

    /** `died` says this frame ran `HandleTreeDeath`. */
    method HandleHealthDecay(dt: real) returns (died: bool)
      requires Valid()
      modifies this`currentHealth, this`isDead
      ensures State() == Decay(old(State()), treeData, dt)
      ensures died <==> !old(isDead) && isDead
    {
      var decay := if isFullyGrown then treeData.grownDecayRate
        else if CurrentHealthPercent() < treeData.waterNeedThreshold then treeData.criticalDecayRate
        else treeData.healthyDecayRate;
      currentHealth := Clamp(currentHealth - decay * dt, 0.0, MaxHealth());
      died := false;
      if currentHealth <= 0.0 && !isDead {
        HandleTreeDeath();
        died := true;
      }
    }

    method UpdateVisualByHealth()
      requires Valid()
      modifies this`isWithered
      ensures State() == Wither(old(State()), treeData, hasLeafMaterial)
    {
      if !hasLeafMaterial {
        return;
      }
      var hp := CurrentHealthPercent();
      if !isWithered && hp < WitherBelow {
        isWithered := true;
      } else if isWithered && hp > RecoverAbove {
        isWithered := false;
      }
    }

    method HandleGrowth(dt: real) returns (calls: seq<Call>)
      requires Valid()
      modifies this`growTimer, this`isFullyGrown, this`wasFullyGrown
      ensures (State(), calls) == Grow(old(State()), treeData, dt)
    {
      calls := [];
      if isFullyGrown {
        return;
      }
      growTimer := growTimer + dt;
      growTimer := growTimer + dt * (if CurrentHealthPercent() >= FastGrowthFraction then 1.0 else 0.5);
      var progress := Clamp01(growTimer / treeData.timeNeededToGrow);
      if progress >= 1.0 && !wasFullyGrown {
        wasFullyGrown := true;
        isFullyGrown := true;
        calls := OnFullyGrown();
      }
    }

    method OnFullyGrown() returns (calls: seq<Call>)
      ensures calls == GrownReward(treeData)
    {
      calls := [SaveGame];
      calls := calls + [AddXP(treeData.xpRewardPlant)];
      calls := calls + [ModifyPollution(-treeData.pollutionReduction)];
      calls := calls + [AddProgress(treeData.treeName, QuestGoalType.PlantTree)];
    }

    /** Watering from the spray. */
    method TriggerGrowth()
      requires Valid()
      modifies this`currentHealth, this`recentlyWatered
      ensures (State(), recentlyWatered) == (Water(old(State()), treeData).0,
                                             old(recentlyWatered) || Water(old(State()), treeData).1)
    {
      if isDead {
        return;
      }
      if currentHealth < MaxHealth() * treeData.waterNeedThreshold {
        recentlyWatered := true;
        currentHealth := Clamp(currentHealth, 0.0, MaxHealth());
      }
    }

    /** `HandleTreeDeath` on the tree itself: it is dead for good. The
        rest of its work falls on the spawner and the fruits on the same
        tree, as `FruitSpawning.FruitSpawner.OnTreeDeath` states; `Update`
        reports the frame it happens in. */
    method HandleTreeDeath()
      modifies this`isDead
      ensures isDead
    {
      isDead := true;
    }
  }
}
