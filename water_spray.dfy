/** The player's watering can (`WaterSpray`): spraying, which heals a
    hit tree that needs water or wastes water otherwise, and the refill
    routine at a water source.

    The Q key is the `Key` input of a frame, the ray cast is the tree it
    hits (or `null`), and `Time.deltaTime` is `dt`. The refill coroutine
    is a phase field: `StartRefill` runs it up to its first pause, each
    later frame resumes it with `RefillFrame`, and the end of a two-second
    notice is the `NoticeElapsed` call. Audio, particles and the watering
    can model are presentation. */
module Watering {
  import opened GameData
  import opened TreeGrowth
  import opened GameManagement

  /** A tree whose health fraction is at or above this is not healed. */
  const HealBelow: real := 0.4
  /** Below this much missing health a tree counts as healed. */
  const HealEpsilon: real := 0.01
  /** Refill refuses when the water is within this of the maximum. */
  const FullEpsilon: real := 0.01

  const EmptyText: string := "Air habis!"
  const AlreadyFullText: string := "Water already full!"
  const RefillingText: string := "Refilling water..."
  const RefilledText: string := "Water refilled!"
  const CancelledText: string := "Refill dibatalkan!"

  /** The Q key on one frame. */
  datatype Key = QDown | QUp | NoKey

  // -------------------------------------------------------------- spraying

  /** The outcome of `HealTree`. */
  datatype Healing = Healing(health: real, water: real, stop: bool)

  /** `HealTree` on a tree with `health` of `maxHealth`, with `water` in a
      can of `maxWater`, at `cost` water per health point. */
  function Heal(health: real, maxHealth: real, water: real, maxWater: real, cost: real): (r: Healing)
    requires cost > 0.0
    // a tree missing no more than the epsilon is left alone
    ensures maxHealth - health <= HealEpsilon ==> r == Healing(health, water, false)
    // spraying stops exactly when the water runs short of a full heal
    ensures r.stop <==> maxHealth - health > HealEpsilon && water < (maxHealth - health) * cost
    // with enough water the tree is healed completely
    ensures maxHealth - health > HealEpsilon && !r.stop ==> r.health == maxHealth
    // running short empties the can
    ensures 0.0 <= maxWater && r.stop ==> r.water == 0.0
  {
    var missing := maxHealth - health;
    if missing <= HealEpsilon then Healing(health, water, false)
    else
      var required := missing * cost;
      if water < required then
        Healing(health + MinR(water / cost, missing), Clamp(water - water, 0.0, maxWater), true)
      else
        Healing(maxHealth, Clamp(water - required, 0.0, maxWater), false)
  }

  /** The two branches of `Heal` for a tree missing more than the
      epsilon, written over the amounts `HealTree` computes. */
  lemma HealBranches(health: real, maxHealth: real, water: real, maxWater: real, cost: real,
                     missing: real, required: real)
    requires cost > 0.0 && missing == maxHealth - health && missing > HealEpsilon && required == missing * cost
    ensures water < required ==>
              Heal(health, maxHealth, water, maxWater, cost) ==
              Healing(health + MinR(water / cost, missing), Clamp(water - water, 0.0, maxWater), true)
    ensures water >= required ==>
              Heal(health, maxHealth, water, maxWater, cost) == Healing(maxHealth, Clamp(water - required, 0.0, maxWater), false)
  {
  }

  /** Below the price of a full heal, the water buys fewer points than are
      missing, and buys exactly `water / cost` of them. */
  lemma AffordableBelowMissing(water: real, cost: real, missing: real)
    requires cost > 0.0 && 0.0 <= water < missing * cost
    ensures water / cost < missing && (water / cost) * cost == water
  {
    var q := water / cost;
    assert q * cost == water;
    if q >= missing {
      assert q * cost >= missing * cost;
    }
  }

  /** Healing only adds health, never beyond the maximum, and every point
      gained is paid for at `cost` from a can that is never overdrawn. */
  lemma HealPays(health: real, maxHealth: real, water: real, maxWater: real, cost: real)
    requires cost > 0.0 && 0.0 <= water <= maxWater && health <= maxHealth
    ensures var r := Heal(health, maxHealth, water, maxWater, cost);
            health <= r.health <= maxHealth &&
            0.0 <= r.water <= water &&
            water - r.water == (r.health - health) * cost
  {
    var missing := maxHealth - health;
    if missing > HealEpsilon {
      var required := missing * cost;
      if water < required {
        AffordableBelowMissing(water, cost, missing);
        assert MinR(water / cost, missing) == water / cost;
      } else {
        assert (maxHealth - health) * cost == required;
      }
    }
  }

  /** The spray's part of a frame: whether it sprays, the water in the
      can, and the health of the tree it hits. */
  datatype Nozzle = Nozzle(spraying: bool, water: real, target: Option<real>)

  /** The configured rates. */
  datatype Rates = Rates(refillRatePerSecond: real, waterCostPerHP: real, waterWastePerSecond: real)

  /** The key handling of `Update`: Q down starts spraying unless the can
      is empty (then the empty notice is shown), Q up stops it. */
  function KeyedSpraying(spraying: bool, water: real, key: Key): (r: (bool, seq<PromptOp>))
    ensures key == QDown && water <= 0.0 ==> r == (spraying, [ShowPrompt(EmptyText), HideLater])
    ensures key == QDown && water > 0.0 ==> r == (true, [])
    ensures key == QUp ==> r == (false, [])
    ensures key == NoKey ==> r == (spraying, [])
  {
    match key
    case QDown => if water <= 0.0 then (spraying, [ShowPrompt(EmptyText), HideLater]) else (true, [])
    case QUp => (false, [])
    case NoKey => (spraying, [])
  }

  /** `SprayLogic` while spraying: a tree that needs water is healed;
      otherwise water is wasted, and spraying at nothing stops once the
      can is empty. */
  function Spray(n: Nozzle, targetMax: real, maxWater: real, rates: Rates, dt: real): (r: Nozzle)
    requires rates.waterCostPerHP > 0.0 && targetMax > 0.0
    ensures r.target.Some? <==> n.target.Some?
    ensures n.target.None? ==> r.water == Clamp(n.water - rates.waterWastePerSecond * dt, 0.0, maxWater)
    ensures n.target.None? ==> (r.spraying <==> n.spraying && r.water > 0.0)
    ensures n.target.Some? && Clamp01(n.target.value / targetMax) >= HealBelow ==>
              r == n.(water := Clamp(n.water - rates.waterWastePerSecond * dt, 0.0, maxWater))
    ensures n.target.Some? && Clamp01(n.target.value / targetMax) < HealBelow ==>
              var h := Heal(n.target.value, targetMax, n.water, maxWater, rates.waterCostPerHP);
              r == Nozzle(n.spraying && !h.stop, h.water, Some(h.health))
  {
    var wasted := Clamp(n.water - rates.waterWastePerSecond * dt, 0.0, maxWater);
    match n.target
    case Some(health) =>
      if Clamp01(health / targetMax) >= HealBelow then n.(water := wasted)
      else
        var h := Heal(health, targetMax, n.water, maxWater, rates.waterCostPerHP);
        Nozzle(n.spraying && !h.stop, h.water, Some(h.health))
    case None =>
      n.(spraying := n.spraying && wasted > 0.0, water := wasted)
  }

  /** One `Update` of the spray: nothing while refilling; otherwise the
      key is handled and, if the spray is then on, it sprays. */
  function SprayFrame(n: Nozzle, refilling: bool, key: Key, targetMax: real, maxWater: real,
                      rates: Rates, dt: real): (r: (Nozzle, seq<PromptOp>))
    requires rates.waterCostPerHP > 0.0 && targetMax > 0.0
    ensures refilling ==> r == (n, [])
    ensures !refilling ==> r.1 == KeyedSpraying(n.spraying, n.water, key).1
    ensures !refilling && !KeyedSpraying(n.spraying, n.water, key).0 ==> r.0 == n.(spraying := false)
    ensures r.0.target.Some? <==> n.target.Some?
    ensures !refilling && r.0.spraying ==> KeyedSpraying(n.spraying, n.water, key).0
  {
    if refilling then (n, [])
    else
      var (on, prompts) := KeyedSpraying(n.spraying, n.water, key);
      if on then (Spray(n.(spraying := on), targetMax, maxWater, rates, dt), prompts)
      else (n.(spraying := on), prompts)
  }

  /** Spray input is ignored while refilling, and an empty can does not
      start spraying. */
  lemma SprayGuards(n: Nozzle, key: Key, targetMax: real, maxWater: real, rates: Rates, dt: real)
    requires rates.waterCostPerHP > 0.0 && targetMax > 0.0
    ensures SprayFrame(n, true, key, targetMax, maxWater, rates, dt) == (n, [])
    ensures !n.spraying && n.water <= 0.0 ==>
              !SprayFrame(n, false, key, targetMax, maxWater, rates, dt).0.spraying &&
              SprayFrame(n, false, key, targetMax, maxWater, rates, dt).0 == n
  {
  }

  /** Over one frame of spraying, with water in range and time not running
      backwards: the can never gains water nor leaves [0, max]; a hit
      tree's health only rises, never past its maximum, and each point
      gained costs exactly `waterCostPerHP`; a tree at or above 40% gains
      nothing. */
  lemma SprayAccounts(n: Nozzle, refilling: bool, key: Key, targetMax: real, maxWater: real,
                      rates: Rates, dt: real)
    requires rates.waterCostPerHP > 0.0 && targetMax > 0.0
    requires 0.0 <= n.water <= maxWater && rates.waterWastePerSecond >= 0.0 && dt >= 0.0
    requires n.target.Some? ==> n.target.value <= targetMax
    ensures var r := SprayFrame(n, refilling, key, targetMax, maxWater, rates, dt).0;
            0.0 <= r.water <= n.water &&
            r.target.Some? == n.target.Some? &&
            (n.target.Some? ==>
               n.target.value <= r.target.value <= targetMax &&
               (Clamp01(n.target.value / targetMax) < HealBelow ==>
                  n.water - r.water == (r.target.value - n.target.value) * rates.waterCostPerHP) &&
               (Clamp01(n.target.value / targetMax) >= HealBelow ==> r.target == n.target))
  {
    if !refilling {
      var on := KeyedSpraying(n.spraying, n.water, key).0;
      if on {
        SprayPays(n.(spraying := on), targetMax, maxWater, rates, dt);
      }
    }
  }

  /** `SprayAccounts` for the frame's `Spray` step alone. */
  lemma SprayPays(n: Nozzle, targetMax: real, maxWater: real, rates: Rates, dt: real)
    requires rates.waterCostPerHP > 0.0 && targetMax > 0.0
    requires 0.0 <= n.water <= maxWater && rates.waterWastePerSecond >= 0.0 && dt >= 0.0
    requires n.target.Some? ==> n.target.value <= targetMax
    ensures var r := Spray(n, targetMax, maxWater, rates, dt);
            0.0 <= r.water <= n.water &&
            (n.target.Some? ==>
               n.target.value <= r.target.value <= targetMax &&
               (Clamp01(n.target.value / targetMax) < HealBelow ==>
                  n.water - r.water == (r.target.value - n.target.value) * rates.waterCostPerHP) &&
               (Clamp01(n.target.value / targetMax) >= HealBelow ==> r.target == n.target))
  {
    assert rates.waterWastePerSecond * dt >= 0.0;
    if n.target.Some? && Clamp01(n.target.value / targetMax) < HealBelow {
      var health := n.target.value;
      var h := Heal(health, targetMax, n.water, maxWater, rates.waterCostPerHP);
      HealPays(health, targetMax, n.water, maxWater, rates.waterCostPerHP);
      assert Spray(n, targetMax, maxWater, rates, dt) == Nozzle(n.spraying && !h.stop, h.water, Some(h.health));
    }
  }

  /** The spray heals a dead tree just as a living one: nothing in
      `HealTree` looks at the death flag, so water is spent on a tree that
      can never recover. */
  lemma HealsDeadTree(rates: Rates)
    requires rates.waterCostPerHP == 1.0 && rates.waterWastePerSecond == 10.0
    ensures var r := SprayFrame(Nozzle(true, 500.0, Some(0.0)), false, NoKey, 100.0, 1000.0, rates, 0.02).0;
            r.target == Some(100.0) && r.water == 400.0
  {
    assert Heal(0.0, 100.0, 500.0, 1000.0, 1.0) == Healing(100.0, 400.0, false);
  }

  // --------------------------------------------------------------- refill

  /** Where the refill coroutine is: not running, showing "already full",
      filling towards the maximum captured at its start, or showing
      "refilled". */
  datatype Routine = NoRoutine | FullNotice | Filling(max: real) | RefilledNotice

  datatype Refill = Refill(routine: Routine, water: real)

  /** The coroutine from its start to its first pause: it refuses a can
      within the epsilon of full, and otherwise makes the first step. */
  function RefillStart(water: real, maxWater: real, add: real): (r: (Refill, seq<PromptOp>))
    ensures water >= maxWater - FullEpsilon ==> r == (Refill(FullNotice, water), [ShowPrompt(AlreadyFullText)])
    ensures water < maxWater - FullEpsilon ==>
              r == (RefillStep(Refill(Filling(maxWater), water), add).0, [ShowPrompt(RefillingText)])
    ensures add >= 0.0 ==> water <= r.0.water && r.0.water <= MaxR(water, maxWater)
  {
    if water >= maxWater - FullEpsilon then (Refill(FullNotice, water), [ShowPrompt(AlreadyFullText)])
    else (Refill(Filling(maxWater), MinR(water + add, maxWater)), [ShowPrompt(RefillingText)])
  }

  function MaxR(a: real, b: real): (r: real)
    ensures r >= a && r >= b && (r == a || r == b)
  {
    if a >= b then a else b
  }

  /** One pass of the coroutine's loop, with `add` the frame's
      `refillRatePerSecond * dt`: while filling and below the captured
      maximum, water is added up to it; once there, the "refilled"
      notice. A notice does not change on a frame. */
  function RefillStep(f: Refill, add: real): (r: (Refill, seq<PromptOp>))
    ensures !f.routine.Filling? ==> r == (f, [])
    ensures f.routine.Filling? && f.water < f.routine.max ==>
              r.1 == [] && r.0.routine == f.routine && r.0.water <= f.routine.max &&
              (add >= 0.0 ==> r.0.water >= f.water)
    ensures r.1 != [] <==> f.routine.Filling? && f.water >= f.routine.max
    ensures r.1 != [] ==> r == (Refill(RefilledNotice, f.water), [ShowPrompt(RefilledText)])
  {
    match f.routine
    case Filling(m) =>
      if f.water < m then (Refill(Filling(m), MinR(f.water + add, m)), [])
      else (Refill(RefilledNotice, f.water), [ShowPrompt(RefilledText)])
    case _ => (f, [])
  }

  /** A run of refill frames adding the given amounts. */
  function RefillRun(f: Refill, adds: seq<real>): (r: Refill)
    decreases |adds|
  {
    if adds == [] then f else RefillRun(RefillStep(f, adds[0]).0, adds[1..])
  }

  function Sum(adds: seq<real>): real
    decreases |adds|
  {
    if adds == [] then 0.0 else adds[0] + Sum(adds[1..])
  }

  predicate NonNegatives(adds: seq<real>)
  {
    forall i :: 0 <= i < |adds| ==> adds[i] >= 0.0
  }

  /** Refilling is exact: after any run of frames the can holds the
      captured maximum or the start amount plus everything added,
      whichever is less; it never overfills and never loses water. */
  lemma {:induction false} RefillReaches(m: real, water: real, adds: seq<real>)
    requires water <= m && NonNegatives(adds)
    ensures var r := RefillRun(Refill(Filling(m), water), adds);
            r.water == MinR(water + Sum(adds), m) &&
            water <= r.water <= m &&
            (r.routine == Filling(m) || r.routine == RefilledNotice)
    decreases |adds|
  {
    if adds != [] {
      var rest := adds[1..];
      TailNonNegative(adds);
      SumNonNegative(rest);
      var next := RefillStep(Refill(Filling(m), water), adds[0]).0;
      assert RefillRun(Refill(Filling(m), water), adds) == RefillRun(next, rest);
      if water < m {
        RefillReaches(m, next.water, rest);
      } else {
        RefilledStays(next, rest);
      }
    }
  }

  lemma TailNonNegative(adds: seq<real>)
    requires adds != [] && NonNegatives(adds)
    ensures adds[0] >= 0.0 && NonNegatives(adds[1..])
  {
    forall i | 0 <= i < |adds[1..]| ensures adds[1..][i] >= 0.0 {
      assert adds[1..][i] == adds[i + 1];
    }
  }

  lemma {:induction false} SumNonNegative(adds: seq<real>)
    requires NonNegatives(adds)
    ensures Sum(adds) >= 0.0
    decreases |adds|
  {
    if adds != [] {
      TailNonNegative(adds);
      SumNonNegative(adds[1..]);
    }
  }

  /** Frames do not end a notice: only `NoticeElapsed` does. */
  lemma {:induction false} RefilledStays(f: Refill, adds: seq<real>)
    requires f.routine == RefilledNotice || f.routine == FullNotice
    ensures RefillRun(f, adds) == f
    decreases |adds|
  {
    if adds != [] {
      RefilledStays(f, adds[1..]);
    }
  }

  class WaterSpray {
    const refillRatePerSecond: real
    const waterCostPerHP: real
    const waterWastePerSecond: real
    var spraying: bool
    var refilling: bool
    var routine: Routine

    /** `refilling` is set exactly while the refill coroutine runs. */
    predicate Valid()
      reads this
    {
      waterCostPerHP > 0.0 && (refilling <==> routine != NoRoutine)
    }

    function Config(): Rates
    {
      Rates(refillRatePerSecond, waterCostPerHP, waterWastePerSecond)
    }

    /** The component with its inspector rates (by default 100, 1 and 10). */
    constructor (refillRatePerSecond: real, waterCostPerHP: real, waterWastePerSecond: real)
      requires waterCostPerHP > 0.0
      ensures Valid() && !spraying && !refilling
      ensures Config() == Rates(refillRatePerSecond, waterCostPerHP, waterWastePerSecond)
    {
      this.refillRatePerSecond := refillRatePerSecond;
      this.waterCostPerHP := waterCostPerHP;
      this.waterWastePerSecond := waterWastePerSecond;
      spraying := false;
      refilling := false;
      routine := NoRoutine;
    }

    /** One frame: `tree` is the tree the spray ray hits, if any. */
    method Update(key: Key, tree: GrowTree?, dt: real, gm: GameManager) returns (prompts: seq<PromptOp>)
      requires Valid() && (tree != null ==> tree.Valid())
      modifies this`spraying, gm`currentWater, (if tree == null then {} else {tree})`currentHealth
      ensures Valid()
      ensures var r := SprayFrame(Nozzle(old(spraying), old(gm.currentWater),
                                         if tree == null then None else Some(old(tree.currentHealth))),
                                  refilling, key, if tree == null then 1.0 else tree.MaxHealth(),
                                  gm.maxWater, Config(), dt);
              spraying == r.0.spraying && gm.currentWater == r.0.water && prompts == r.1 &&
              (tree != null ==> Some(tree.currentHealth) == r.0.target)
    {
      prompts := [];
      if refilling {
        return;
      }
      if key == QDown {
        prompts := TryStartSpray(gm);
      } else if key == QUp {
        StopSpray();
      }
      if spraying {
        SprayLogic(tree, dt, gm);
      }
    }

    method TryStartSpray(gm: GameManager) returns (prompts: seq<PromptOp>)
      modifies this`spraying
      ensures (spraying, prompts) == KeyedSpraying(old(spraying), gm.currentWater, QDown)
    {
      if gm.currentWater <= 0.0 {
        prompts := [ShowPrompt(EmptyText), HideLater];
        return;
      }
      prompts := [];
      spraying := true;
    }

    method StopSpray()
      modifies this`spraying
      ensures !spraying
    {
      spraying := false;
    }

    method SprayLogic(tree: GrowTree?, dt: real, gm: GameManager)
      requires waterCostPerHP > 0.0 && (tree != null ==> tree.Valid())
      modifies this`spraying, gm`currentWater, (if tree == null then {} else {tree})`currentHealth
      ensures var r := Spray(Nozzle(old(spraying), old(gm.currentWater),
                                    if tree == null then None else Some(old(tree.currentHealth))),
                              if tree == null then 1.0 else tree.MaxHealth(), gm.maxWater, Config(), dt);
              spraying == r.spraying && gm.currentWater == r.water &&
              (tree != null ==> Some(tree.currentHealth) == r.target)
    {
      if tree != null {
        SprayAt(tree, dt, gm);
        return;
      }
      gm.ModifyWater(waterWastePerSecond * dt);
      if gm.currentWater <= 0.0 {
        StopSpray();
      }
    }

    /** The branch of `SprayLogic` where the ray hits a tree. */
    method SprayAt(tree: GrowTree, dt: real, gm: GameManager)
      requires waterCostPerHP > 0.0 && tree.Valid()
      modifies this`spraying, gm`currentWater, tree`currentHealth
      ensures var r := Spray(Nozzle(old(spraying), old(gm.currentWater), Some(old(tree.currentHealth))),
                             tree.MaxHealth(), gm.maxWater, Config(), dt);
              spraying == r.spraying && gm.currentWater == r.water && Some(tree.currentHealth) == r.target
    {
      if tree.CurrentHealthPercent() >= HealBelow {
        gm.ModifyWater(waterWastePerSecond * dt);
        return;
      }
      HealTree(tree, gm);
    }

    method HealTree(tree: GrowTree, gm: GameManager)
      requires waterCostPerHP > 0.0
      modifies this`spraying, gm`currentWater, tree`currentHealth
      ensures var h := Heal(old(tree.currentHealth), tree.MaxHealth(), old(gm.currentWater), gm.maxWater, waterCostPerHP);
              tree.currentHealth == h.health && gm.currentWater == h.water &&
              spraying == (old(spraying) && !h.stop)
    {
      var health, maxHealth, water := tree.currentHealth, tree.MaxHealth(), gm.currentWater;
      var missingHP := maxHealth - health;
      if missingHP <= HealEpsilon {
        return;
      }
      var requiredWater := missingHP * waterCostPerHP;
      HealBranches(health, maxHealth, water, gm.maxWater, waterCostPerHP, missingHP, requiredWater);
      if water < requiredWater {
        var healAmount := MinR(water / waterCostPerHP, missingHP);
        tree.currentHealth := health + healAmount;
        gm.ModifyWater(water);
        StopSpray();
        return;
      }
      tree.currentHealth := maxHealth;
      gm.ModifyWater(requiredWater);
    }

    /** Called by the water source: starts the coroutine unless one runs. */
    method StartRefill(dt: real, gm: GameManager) returns (prompts: seq<PromptOp>)
      requires Valid()
      modifies this`spraying, this`refilling, this`routine, gm`currentWater
      ensures Valid()
      ensures old(refilling) ==> spraying == old(spraying) && refilling && routine == old(routine) &&
                                 gm.currentWater == old(gm.currentWater) && prompts == []
      ensures !old(refilling) ==>
                var r := RefillStart(old(gm.currentWater), gm.maxWater, refillRatePerSecond * dt);
                !spraying && refilling && Refill(routine, gm.currentWater) == r.0 && prompts == r.1
    {
      prompts := [];
      if refilling {
        return;
      }
      refilling := true;
      StopSpray();
      var max := gm.maxWater;
      if gm.currentWater >= max - FullEpsilon {
        prompts := [ShowPrompt(AlreadyFullText)];
        routine := FullNotice;
        return;
      }
      prompts := [ShowPrompt(RefillingText)];
      gm.currentWater := MinR(gm.currentWater + refillRatePerSecond * dt, max);
      routine := Filling(max);
    }

    /** The coroutine resumed on a later frame. */
    method RefillFrame(dt: real, gm: GameManager) returns (prompts: seq<PromptOp>)
      requires Valid()
      modifies this`routine, gm`currentWater
      ensures Valid()
      ensures var r := RefillStep(Refill(old(routine), old(gm.currentWater)), refillRatePerSecond * dt);
              Refill(routine, gm.currentWater) == r.0 && prompts == r.1
    {
      prompts := [];
      match routine
      case Filling(max) =>
        if gm.currentWater < max {
          gm.currentWater := MinR(gm.currentWater + refillRatePerSecond * dt, max);
        } else {
          prompts := [ShowPrompt(RefilledText)];
          routine := RefilledNotice;
        }
      case _ =>
    }

    /** The two seconds of a notice are over: the prompt is hidden and the
        routine ends. */
    method NoticeElapsed() returns (prompts: seq<PromptOp>)
      requires Valid()
      modifies this`refilling, this`routine
      ensures Valid()
      ensures old(routine) == FullNotice || old(routine) == RefilledNotice ==>
                !refilling && routine == NoRoutine && prompts == [HidePrompt]
      ensures !(old(routine) == FullNotice || old(routine) == RefilledNotice) ==>
                refilling == old(refilling) && routine == old(routine) && prompts == []
    {
      prompts := [];
      if routine == FullNotice || routine == RefilledNotice {
        prompts := [HidePrompt];
        refilling := false;
        routine := NoRoutine;
      }
    }

    /** Called when the player leaves the water source: cancels a running
        refill, stopping the coroutine, and says so. */
    method StopRefill() returns (prompts: seq<PromptOp>)
      requires Valid()
      modifies this`refilling, this`routine
      ensures Valid() && !refilling
      ensures !old(refilling) ==> routine == old(routine) && prompts == []
      ensures old(refilling) ==> routine == NoRoutine && prompts == [HidePrompt, ShowPrompt(CancelledText)]
    {
      prompts := [];
      if !refilling {
        return;
      }
      refilling := false;
      routine := NoRoutine;
      prompts := [HidePrompt, ShowPrompt(CancelledText)];
    }
  }
}
