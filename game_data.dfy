/** Designer data shared by every manager: the quest and tree templates, the
    Unity clamping helpers, and the calls one manager makes into another.

    Unity objects (transforms, prefabs, game objects) are opaque natural
    numbers; a reference that may be null is an `Option`. */
module GameData {

  datatype Option<+T> = None | Some(value: T)

  /** Identity of a prefab asset (`GameObject npcPrefab`, `fruitPrefab`). */
  type PrefabId = nat

  /** Identity of a scene object's `Transform` (spawn points, quest
      points, guide targets). */
  type TransformId = nat

  /** Identity of the script that owns a prompt (`MonoBehaviour owner`). */
  type Owner = nat

  /** A screen-space `Vector2` (anchored positions of prompts). */
  datatype Vec2 = Vec2(x: real, y: real)

  // ---------------------------------------------------------------- quests

  datatype QuestType = Main | Side | Random
  datatype QuestDifficulty = Easy | Medium | Hard
  datatype QuestGoalType = BuySeed | PlantTree | HarvestFruit | SellFruit | DeliverItem

  /** The quest template: the designer fields of the `QuestData` asset that
      the managers read (titles, descriptions and icons are presentation).
      The asset is a shared object that nothing writes at run time, and the
      dictionaries and lists keyed by it compare it by identity, so it is a
      class of constants. */
  class QuestData {
    const questID: string
    const npcPrefab: Option<PrefabId>
    const questType: QuestType
    const difficulty: QuestDifficulty
    const goalType: QuestGoalType
    const targetName: string
    const requiredAmount: int
    const forceNewNPC: bool
    const rewardXP: int
    const rewardCoins: int
    const hasTimer: bool
    const duration: real
    const isRepeatable: bool

    /** The asset as the designer filled it in. */
    constructor (questID: string, npcPrefab: Option<PrefabId>, questType: QuestType,
                 difficulty: QuestDifficulty, goalType: QuestGoalType, targetName: string,
                 requiredAmount: int, forceNewNPC: bool, rewardXP: int, rewardCoins: int,
                 hasTimer: bool, duration: real, isRepeatable: bool)
      ensures this.questID == questID && this.npcPrefab == npcPrefab
      ensures this.questType == questType && this.difficulty == difficulty
      ensures this.goalType == goalType && this.targetName == targetName
      ensures this.requiredAmount == requiredAmount && this.forceNewNPC == forceNewNPC
      ensures this.rewardXP == rewardXP && this.rewardCoins == rewardCoins
      ensures this.hasTimer == hasTimer && this.duration == duration
      ensures this.isRepeatable == isRepeatable
    {
      this.questID := questID;
      this.npcPrefab := npcPrefab;
      this.questType := questType;
      this.difficulty := difficulty;
      this.goalType := goalType;
      this.targetName := targetName;
      this.requiredAmount := requiredAmount;
      this.forceNewNPC := forceNewNPC;
      this.rewardXP := rewardXP;
      this.rewardCoins := rewardCoins;
      this.hasTimer := hasTimer;
      this.duration := duration;
      this.isRepeatable := isRepeatable;
    }
  }

  /** The wildcard target of a quest goal. */
  const AnyTarget: string := "Any"

  // ----------------------------------------------------------------- trees

  /** The tree template `TreeData`, with the prefab references it carries
      reduced to whether they are set. */
  datatype TreeData = TreeData(
    treeName: string,
    seedBuyPrice: int,
    fruitSellPrice: int,
    requiredLevel: int,
    xpRewardPlant: int,
    xpRewardHarvest: int,
    pollutionReduction: real,
    hasTreePrefab: bool,
    hasFruitPrefab: bool,
    timeNeededToGrow: real,
    maxHealth: real,
    startHealth: real,
    grownDecayRate: real,
    healthyDecayRate: real,
    criticalDecayRate: real,
    waterNeedThreshold: real,
    maxFruitCount: int,
    fruitSpawnInterval: real)

  /** The template defaults declared on `TreeData`. */
  function DefaultTree(name: string): (t: TreeData)
    ensures t.treeName == name && t.maxHealth == 100.0 && t.startHealth == 50.0
    ensures t.waterNeedThreshold == 0.4 && t.timeNeededToGrow == 60.0
  {
    TreeData(name, 10, 5, 1, 10, 2, 3.0, false, false, 60.0, 100.0, 50.0, 1.0, 2.0, 5.0, 0.4, 3, 5.0)
  }

  /** The first of the first `n` entries of a tree list that is missing
      (a null entry in an inspector list), or `n`. */
  function FirstMissing(trees: seq<Option<TreeData>>, n: nat): (k: nat)
    requires n <= |trees|
    ensures k <= n
    ensures forall j :: 0 <= j < k ==> trees[j].Some?
    ensures k < n ==> trees[k].None?
    decreases n
  {
    if n == 0 then 0
    else
      var k := FirstMissing(trees, n - 1);
      if k < n - 1 then k else if trees[n - 1].None? then n - 1 else n
  }

  // ----------------------------------------------------------- Mathf helpers

  /** `Mathf.Clamp(value, min, max)`: the lower bound is compared first. */
  function Clamp(v: real, lo: real, hi: real): (r: real)
    ensures lo <= hi ==> lo <= r <= hi
    ensures lo <= v <= hi ==> r == v
    ensures v < lo ==> r == lo
  {
    if v < lo then lo else if v > hi then hi else v
  }

  /** `Mathf.Clamp01`. */
  function Clamp01(v: real): (r: real)
    ensures 0.0 <= r <= 1.0
    ensures 0.0 <= v <= 1.0 ==> r == v
  {
    Clamp(v, 0.0, 1.0)
  }

  function MinR(a: real, b: real): (r: real)
    ensures r <= a && r <= b && (r == a || r == b)
  {
    if a <= b then a else b
  }

  function MinI(a: int, b: int): (r: int)
    ensures r <= a && r <= b && (r == a || r == b)
  {
    if a <= b then a else b
  }

  function MaxI(a: int, b: int): (r: int)
    ensures r >= a && r >= b && (r == a || r == b)
  {
    if a >= b then a else b
  }

  // ------------------------------------------------ calls between managers

  /** A call one manager makes into another (the quest UI, the game
      manager, the quest manager, the save system). Managers whose partner
      is not part of their own state return these in call order. */
  datatype Call =
    | SaveGame
    | AddXP(xpAmount: int)
    | AddCoins(coinAmount: int)
    | ModifyPollution(pollutionDelta: real)
    | AddProgress(target: string, goal: QuestGoalType)
    | ShowQuest(shown: QuestData)
    | UpdateProgress(updated: QuestData, now: int, max: int)
    | MarkCompleted(completedQuest: QuestData)
    | MarkClaimed(claimedQuest: QuestData)
    | MarkFailed(failedQuest: QuestData)
    | FailQuest(timedOut: QuestData)
    | ClaimQuest(claimRequested: QuestData)
    | TutorialClaim(claimedID: string)
    | TutorialSellFruit
    | SoldNotice(soldAmount: int, soldName: string, soldCoins: int)

  /** What a component asks of the shared single prompt (`PromptUI`),
      with itself as the owner. `HideLater` is a hide after a delay (one or
      two seconds), from a coroutine that nothing stops. */
  datatype PromptOp = ShowPrompt(text: string) | HidePrompt | HideLater

  /** How many calls of `cs` equal `c`. */
  function CountOf(cs: seq<Call>, c: Call): (n: nat)
    ensures n <= |cs|
    ensures n == 0 <==> c !in cs
  {
    if cs == [] then 0 else (if cs[0] == c then 1 else 0) + CountOf(cs[1..], c)
  }

  lemma {:induction false} CountOfAppend(a: seq<Call>, b: seq<Call>, c: Call)
    ensures CountOf(a + b, c) == CountOf(a, c) + CountOf(b, c)
  {
    if a == [] {
      assert a + b == b;
    } else {
      assert (a + b)[1..] == a[1..] + b;
      CountOfAppend(a[1..], b, c);
    }
  }

  /** `n` copies of the call `c`: what a loop making the same call `n`
      times returns. */
  function Repeat(c: Call, n: int): (r: seq<Call>)
    ensures |r| == MaxI(0, n)
    ensures forall i :: 0 <= i < |r| ==> r[i] == c
    ensures n > 0 ==> CountOf(r, c) == n
    decreases n
  {
    if n <= 0 then [] else [c] + Repeat(c, n - 1)
  }

  // ------------------------------------------------------- list helpers

  /** No element of `s` appears twice (dictionary keys, list entries). */
  predicate Distinct<T(==)>(s: seq<T>)
  {
    forall i, j :: 0 <= i < j < |s| ==> s[i] != s[j]
  }

  /** `s` with every occurrence of `x` removed, the rest in order
      (`Dictionary.Remove` on the key order, `List.Remove` on a list
      without duplicates). */
  function Without<T(==)>(s: seq<T>, x: T): (r: seq<T>)
    ensures forall y :: y in r ==> y in s && y != x
    ensures forall y :: y in s && y != x ==> y in r
    ensures Distinct(s) ==> Distinct(r)
    ensures x !in s ==> r == s
    ensures Distinct(s) && x in s ==> |r| == |s| - 1
    decreases |s|
  {
    if s == [] then []
    else if s[0] == x then Without(s[1..], x)
    else
      assert Distinct(s) ==> s[0] !in s[1..];
      [s[0]] + Without(s[1..], x)
  }
}
