/** Economy and progression (`GameManager`): level and XP against the XP
    table, coins, water, city pollution with the win/lose latch, and the
    fruit and seed stock dictionaries keyed by tree name.

    The singleton bookkeeping of `Awake`, the load in `Start`, the fog, UI
    and audio updates, the time scale and the cursor are engine glue; the
    save requests are returned as `SaveGame` calls. */
module GameManagement {
  import opened GameData

  // ------------------------------------------------------------ XP table

  /** The XP table as declared on the manager. */
  const DefaultXpTable: seq<int> := [20, 50, 100, 200, 350, 600, 1000]

  /** The progression fields `level`, `xp`, `prevXp`, `nextXp` and the
      private `xpIndex`. */
  datatype Progress = Progress(level: int, xp: int, prevXp: int, nextXp: int, xpIndex: int)

  /** `LevelUp`: one more level, the old threshold becomes the previous
      one, and the next threshold is the table's next entry while one is
      left, and 500 more than the old one after that. */
  function LevelUp(p: Progress, table: seq<int>): (r: Progress)
    requires 0 <= p.xpIndex
    ensures r.level == p.level + 1 && r.xp == p.xp && r.prevXp == p.nextXp
    ensures p.xpIndex < |table| - 1 ==> r.xpIndex == p.xpIndex + 1 && r.nextXp == table[r.xpIndex]
    ensures p.xpIndex >= |table| - 1 ==> r.xpIndex == p.xpIndex && r.nextXp == p.nextXp + 500
  {
    if p.xpIndex < |table| - 1 then
      Progress(p.level + 1, p.xp, p.nextXp, table[p.xpIndex + 1], p.xpIndex + 1)
    else
      Progress(p.level + 1, p.xp, p.nextXp, p.nextXp + 500, p.xpIndex)
  }

  /** The `while (xp >= nextXp) LevelUp();` loop of `AddXP`. It ends for
      every table: the table steps run out, and after them each level
      raises the threshold by 500. On return the XP is below the next
      threshold, and after at least one level it is at or above the
      previous one. */
  function Settle(p: Progress, table: seq<int>): (r: Progress)
    requires 0 <= p.xpIndex
    ensures r.xp == p.xp && r.xp < r.nextXp && 0 <= r.xpIndex
    ensures r.level >= p.level
    ensures p.xp < p.nextXp ==> r == p
    ensures p.xp >= p.nextXp ==> r.level > p.level && r.prevXp <= r.xp
    decreases |table| - p.xpIndex, p.xp - p.nextXp
  {
    if p.xp >= p.nextXp then Settle(LevelUp(p, table), table) else p
  }

  predicate Ascending(table: seq<int>)
  {
    forall i, j :: 0 <= i < j < |table| ==> table[i] < table[j]
  }

  /** The threshold follows the table: on the table's current entry while
      further entries remain, and at or above its last entry after that. */
  predicate OnTable(p: Progress, table: seq<int>)
  {
    && 0 <= p.xpIndex
    && (p.xpIndex < |table| - 1 ==> p.nextXp == table[p.xpIndex])
    && (|table| > 0 && p.xpIndex >= |table| - 1 ==> p.xpIndex == |table| - 1 && p.nextXp >= table[|table| - 1])
    && (|table| == 0 ==> p.xpIndex == 0)
  }

  /** With an ascending table every level strictly raises the threshold,
      and the threshold keeps following the table. */
  lemma LevelUpRaises(p: Progress, table: seq<int>)
    requires Ascending(table) && OnTable(p, table)
    ensures OnTable(LevelUp(p, table), table)
    ensures LevelUp(p, table).nextXp > p.nextXp
  {
  }

  /** From the initial progression, the default table is followed. */
  lemma InitialOnTable()
    ensures Ascending(DefaultXpTable) && OnTable(Progress(1, 0, 0, 20, 0), DefaultXpTable)
  {
  }

  /** `ResetGameData` resets the threshold to 20 but keeps `xpIndex`: a
      player reset after reaching table entry 2 goes from level 1 straight
      to a threshold of 200 instead of 50. */
  lemma ResetKeepsTableIndex()
    ensures Settle(Progress(1, 20, 0, 20, 0), DefaultXpTable) == Progress(2, 20, 20, 50, 1)
    ensures Settle(Progress(1, 20, 0, 20, 2), DefaultXpTable) == Progress(2, 20, 20, 200, 3)
    ensures !OnTable(Progress(1, 0, 0, 20, 2), DefaultXpTable)
  {
  }

  // ------------------------------------------------------- win and lose

  datatype Ending = Playing | Won | Lost

  /** `CheckGameCondition`: once ended nothing changes; a clean city
      (pollution at most 20) wins and a choked one (at least 90) loses. */
  function CheckCondition(e: Ending, pollution: real): (r: Ending)
    ensures e != Playing ==> r == e
    ensures e == Playing && pollution <= 20.0 ==> r == Won
    ensures e == Playing && pollution >= 90.0 ==> r == Lost
    ensures e == Playing && 20.0 < pollution < 90.0 ==> r == Playing
  {
    if e != Playing then e
    else if pollution <= 20.0 then Won
    else if pollution >= 90.0 then Lost
    else Playing
  }

  /** `ModifyPollution` on the pair (pollution, ending). */
  function PollutionStep(pollution: real, e: Ending, value: real, maxPollution: real): (r: (real, Ending))
    ensures r.0 == Clamp(pollution + value, 0.0, maxPollution)
    ensures 0.0 <= maxPollution ==> 0.0 <= r.0 <= maxPollution
    ensures r.1 == CheckCondition(e, r.0)
  {
    var p := Clamp(pollution + value, 0.0, maxPollution);
    (p, CheckCondition(e, p))
  }

  function PollutionRun(pollution: real, e: Ending, values: seq<real>, maxPollution: real): (r: (real, Ending))
    ensures values != [] && 0.0 <= maxPollution ==> 0.0 <= r.0 <= maxPollution
    decreases |values|
  {
    if values == [] then (pollution, e)
    else
      var s := PollutionStep(pollution, e, values[0], maxPollution);
      PollutionRun(s.0, s.1, values[1..], maxPollution)
  }

  /** The game ends at most once: along any series of pollution changes
      the ending, once reached, never changes again, and pollution stays
      within its bounds. */
  lemma {:induction false} EndsAtMostOnce(pollution: real, e: Ending, values: seq<real>, maxPollution: real)
    requires 0.0 <= pollution <= maxPollution
    ensures e != Playing ==> PollutionRun(pollution, e, values, maxPollution).1 == e
    ensures 0.0 <= PollutionRun(pollution, e, values, maxPollution).0 <= maxPollution
    decreases |values|
  {
    if values != [] {
      var s := PollutionStep(pollution, e, values[0], maxPollution);
      EndsAtMostOnce(s.0, s.1, values[1..], maxPollution);
    }
  }

  // ------------------------------------------------------------- stocks

  predicate NonNegative(m: map<string, int>)
  {
    forall k :: k in m ==> m[k] >= 0
  }

  /** `Modify*Stock` on the dictionary: an unregistered name is left out,
      a registered one becomes max(0, stock + amount). */
  function Restock(m: map<string, int>, name: string, amount: int): (r: map<string, int>)
    ensures r.Keys == m.Keys
    ensures name !in m ==> r == m
    ensures name in m ==> r[name] == MaxI(0, m[name] + amount) && r[name] >= 0
    ensures forall k :: k in m && k != name ==> r[k] == m[k]
    ensures NonNegative(m) ==> NonNegative(r)
  {
    if name !in m then m else m[name := MaxI(0, m[name] + amount)]
  }

  /** `GetFruitStock` / `GetSeedStock`: 0 for an unknown name. */
  function StockOf(m: map<string, int>, name: string): (n: int)
    ensures name !in m ==> n == 0
    ensures name in m ==> n == m[name]
    ensures NonNegative(m) ==> n >= 0
  {
    if name in m then m[name] else 0
  }

  /** The sum of a dictionary's values. */
  ghost function Total(m: map<string, int>): int
    decreases |m.Keys|
  {
    if m.Keys == {} then 0
    else
      var k :| k in m.Keys;
      m[k] + Total(m - {k})
  }

  /** The sum can be taken starting from any key. */
  lemma {:induction false} TotalRemove(m: map<string, int>, k: string)
    requires k in m
    ensures Total(m) == m[k] + Total(m - {k})
    decreases |m.Keys|
  {
    var j :| j in m.Keys && Total(m) == m[j] + Total(m - {j});
    if j != k {
      TotalRemove(m - {j}, k);
      TotalRemove(m - {k}, j);
      assert (m - {j}) - {k} == (m - {k}) - {j};
    }
  }

  /** Changing one entry changes the sum by the difference. */
  lemma TotalUpdate(m: map<string, int>, k: string, v: int)
    requires k in m
    ensures Total(m[k := v]) == Total(m) - m[k] + v
  {
    TotalRemove(m, k);
    TotalRemove(m[k := v], k);
    assert m[k := v] - {k} == m - {k};
  }

  lemma {:induction false} TotalNonNegative(m: map<string, int>)
    requires NonNegative(m)
    ensures Total(m) >= 0
    decreases |m.Keys|
  {
    if m.Keys != {} {
      var k :| k in m.Keys;
      TotalRemove(m, k);
      TotalNonNegative(m - {k});
    }
  }

  /** `m` cut down to the keys of `ks`. */
  function Restrict(m: map<string, int>, ks: set<string>): (r: map<string, int>)
    ensures r.Keys == m.Keys * ks
  {
    map k | k in m && k in ks :: m[k]
  }

  /** The `foreach` accumulation of `GetTotalFruits` / `GetTotalSeeds`. */
  method SumStock(m: map<string, int>) returns (total: int)
    ensures total == Total(m)
  {
    total := 0;
    var rest := m.Keys;
    assert Restrict(m, rest) == m;
    while rest != {}
      invariant rest <= m.Keys
      invariant total + Total(Restrict(m, rest)) == Total(m)
      decreases |rest|
    {
      var k :| k in rest;
      TotalRemove(Restrict(m, rest), k);
      assert Restrict(m, rest) - {k} == Restrict(m, rest - {k});
      total := total + m[k];
      rest := rest - {k};
    }
  }

  /** The names of the registered trees (null entries skipped). */
  function Names(trees: seq<Option<TreeData>>): (r: set<string>)
    ensures forall t :: t in trees && t.Some? ==> t.value.treeName in r
    ensures forall n :: n in r ==> exists t :: t in trees && t.Some? && t.value.treeName == n
  {
    set t | t in trees && t.Some? :: t.value.treeName
  }

  /** The stock dictionary of a fresh start: every registered tree at 0. */
  function ZeroStock(trees: seq<Option<TreeData>>): (m: map<string, int>)
    ensures m.Keys == Names(trees) && NonNegative(m)
    ensures forall n :: n in m ==> m[n] == 0
  {
    map n | n in Names(trees) :: 0
  }

  lemma TotalZero(m: map<string, int>)
    requires forall n :: n in m ==> m[n] == 0
    ensures Total(m) == 0
    decreases |m.Keys|
  {
    if m.Keys != {} {
      var k :| k in m.Keys;
      TotalRemove(m, k);
      TotalZero(m - {k});
    }
  }

  /** A reset or fresh stock holds no items. */
  lemma ZeroStockTotal(trees: seq<Option<TreeData>>)
    ensures Total(ZeroStock(trees)) == 0
  {
    TotalZero(ZeroStock(trees));
  }

  /** The `foreach` over `allTrees` with `TryAdd(tree.treeName, 0)`, from
      an empty dictionary. */
  method RegisterTrees(trees: seq<Option<TreeData>>) returns (m: map<string, int>)
    ensures m == ZeroStock(trees)
  {
    m := map[];
    var i := 0;
    while i < |trees|
      invariant 0 <= i <= |trees|
      invariant m == ZeroStock(trees[..i])
    {
      assert trees[..i + 1] == trees[..i] + [trees[i]];
      if trees[i].Some? && trees[i].value.treeName !in m {
        m := m[trees[i].value.treeName := 0];
      }
      assert Names(trees[..i + 1]) == Names(trees[..i]) + (if trees[i].Some? then {trees[i].value.treeName} else {});
      i := i + 1;
    }
    assert trees[..i] == trees;
  }

  // ------------------------------------------------------------ manager

  class GameManager {
    var level: int
    var coins: int
    const xpTable: seq<int>
    var xpIndex: int
    var xp: int
    var prevXp: int
    var nextXp: int
    var maxWater: real
    var currentWater: real
    const allTrees: seq<Option<TreeData>>
    var fruitStocks: map<string, int>
    var seedStocks: map<string, int>
    var pollution: real
    var maxPollution: real
    var isGameEnded: bool
    var winPanelActive: bool
    var losePanelActive: bool
    var pollutionTimer: real
    const pollutionInterval: real

    ghost predicate Valid()
      reads this
    {
      && 0 <= xpIndex
      && NonNegative(fruitStocks) && NonNegative(seedStocks)
      && (isGameEnded <==> winPanelActive || losePanelActive)
      && !(winPanelActive && losePanelActive)
    }

    function XpState(): Progress
      reads this
    {
      Progress(level, xp, prevXp, nextXp, xpIndex)
    }

    /** Which result panel `GameOver` has shown, if any. */
    function Result(): Ending
      reads this
    {
      if winPanelActive then Won else if losePanelActive then Lost else Playing
    }

    /** The manager with its field defaults after `Awake` (stocks
        registered) and `Start` (both result panels hidden). */
    constructor (xpTable: seq<int>, allTrees: seq<Option<TreeData>>)
      ensures Valid() && this.xpTable == xpTable && this.allTrees == allTrees
      ensures XpState() == Progress(1, 0, 0, 20, 0) && coins == 300
      ensures maxWater == 1000.0 && currentWater == 500.0
      ensures pollution == 75.0 && maxPollution == 100.0 && Result() == Playing && !isGameEnded
      ensures fruitStocks == ZeroStock(allTrees) && seedStocks == ZeroStock(allTrees)
      ensures pollutionTimer == 0.0 && pollutionInterval == 20.0
    {
      this.xpTable := xpTable;
      this.allTrees := allTrees;
      level := 1;
      coins := 300;
      xpIndex := 0;
      xp := 0;
      prevXp := 0;
      nextXp := 20;
      maxWater := 1000.0;
      currentWater := 500.0;
      pollution := 75.0;
      maxPollution := 100.0;
      isGameEnded := false;
      winPanelActive := false;
      losePanelActive := false;
      pollutionTimer := 0.0;
      pollutionInterval := 20.0;
      new;
      fruitStocks := RegisterTrees(allTrees);
      seedStocks := RegisterTrees(allTrees);
    }

    /** The pollution timer of `Update`: every interval pollution rises by
        one. */
    method Update(dt: real)
      requires Valid()
      modifies this
      ensures Valid()
      ensures old(pollutionTimer) + dt >= pollutionInterval ==>
                pollutionTimer == 0.0
                && (pollution, Result()) == PollutionStep(old(pollution), old(Result()), 1.0, maxPollution)
      ensures old(pollutionTimer) + dt < pollutionInterval ==>
                pollutionTimer == old(pollutionTimer) + dt && pollution == old(pollution) && Result() == old(Result())
      ensures XpState() == old(XpState()) && coins == old(coins) && maxPollution == old(maxPollution)
      ensures currentWater == old(currentWater) && maxWater == old(maxWater)
      ensures fruitStocks == old(fruitStocks) && seedStocks == old(seedStocks)
    {
      pollutionTimer := pollutionTimer + dt;
      if pollutionTimer >= pollutionInterval {
        pollutionTimer := 0.0;
        ModifyPollution(1.0);
      }
    }

    method CheckGameCondition()
      requires Valid()
      modifies this`isGameEnded, this`winPanelActive, this`losePanelActive
      ensures Valid() && Result() == CheckCondition(old(Result()), pollution)
    {
      if isGameEnded {
        return;
      }
      if pollution <= 20.0 {
        GameOver(true);
      } else if pollution >= 90.0 {
        GameOver(false);
      }
    }

    method GameOver(isWin: bool)
      requires Valid() && !isGameEnded
      modifies this`isGameEnded, this`winPanelActive, this`losePanelActive
      ensures Valid() && isGameEnded && Result() == (if isWin then Won else Lost)
    {
      isGameEnded := true;
      if isWin {
        winPanelActive := true;
      } else {
        losePanelActive := true;
      }
    }

    method ModifyPollution(value: real)
      requires Valid()
      modifies this`pollution, this`isGameEnded, this`winPanelActive, this`losePanelActive
      ensures Valid()
      ensures (pollution, Result()) == PollutionStep(old(pollution), old(Result()), value, maxPollution)
    {
      pollution := Clamp(pollution + value, 0.0, maxPollution);
      CheckGameCondition();
    }

    /** `ModifyWater`: the value is subtracted and the result clamped to
        [0, maxWater]. */
    method ModifyWater(value: real)
      modifies this`currentWater
      ensures currentWater == Clamp(old(currentWater) - value, 0.0, maxWater)
      ensures 0.0 <= maxWater ==> 0.0 <= currentWater <= maxWater
    {
      currentWater := Clamp(currentWater - value, 0.0, maxWater);
    }

    /** `AddXP`: a save, the XP added, then one save and one level per
        threshold reached. */
    method AddXP(amount: int) returns (calls: seq<Call>)
      requires Valid()
      modifies this`level, this`xp, this`prevXp, this`nextXp, this`xpIndex
      ensures Valid()
      ensures XpState() == Settle(old(XpState()).(xp := old(xp) + amount), xpTable)
      ensures xp < nextXp
      ensures |calls| == 1 + level - old(level) && forall c :: c in calls ==> c == SaveGame
    {
      calls := [SaveGame];
      xp := xp + amount;
      ghost var start := XpState();
      while xp >= nextXp
        invariant 0 <= xpIndex && xp == start.xp && level >= start.level
        invariant Settle(XpState(), xpTable) == Settle(start, xpTable)
        invariant |calls| == 1 + level - start.level && forall c :: c in calls ==> c == SaveGame
        decreases |xpTable| - xpIndex, xp - nextXp
      {
        var more := LevelUpStep();
        calls := calls + more;
      }
    }

    /** The private `LevelUp`, with its save request. */
    method LevelUpStep() returns (calls: seq<Call>)
      requires 0 <= xpIndex
      modifies this`level, this`prevXp, this`nextXp, this`xpIndex
      ensures XpState() == LevelUp(old(XpState()), xpTable)
      ensures calls == [SaveGame]
    {
      calls := [SaveGame];
      level := level + 1;
      prevXp := nextXp;
      if xpIndex < |xpTable| - 1 {
        xpIndex := xpIndex + 1;
        nextXp := xpTable[xpIndex];
      } else {
        nextXp := nextXp + 500;
      }
    }

    method ModifyFruitStock(fruitName: string, amount: int) returns (calls: seq<Call>)
      requires Valid()
      modifies this`fruitStocks
      ensures Valid() && calls == [SaveGame]
      ensures fruitStocks == Restock(old(fruitStocks), fruitName, amount)
    {
      calls := [SaveGame];
      if fruitName !in fruitStocks {
        return;
      }
      fruitStocks := fruitStocks[fruitName := MaxI(0, fruitStocks[fruitName] + amount)];
    }

    method ModifySeedStock(seedName: string, amount: int) returns (calls: seq<Call>)
      requires Valid()
      modifies this`seedStocks
      ensures Valid() && calls == [SaveGame]
      ensures seedStocks == Restock(old(seedStocks), seedName, amount)
    {
      calls := [SaveGame];
      if seedName !in seedStocks {
        return;
      }
      seedStocks := seedStocks[seedName := MaxI(0, seedStocks[seedName] + amount)];
    }

    function GetFruitStock(name: string): (n: int)
      reads this
      ensures n == StockOf(fruitStocks, name)
    {
      if name in fruitStocks then fruitStocks[name] else 0
    }

    function GetSeedStock(name: string): (n: int)
      reads this
      ensures n == StockOf(seedStocks, name)
    {
      if name in seedStocks then seedStocks[name] else 0
    }

    method GetTotalFruits() returns (total: int)
      ensures total == Total(fruitStocks)
    {
      total := SumStock(fruitStocks);
    }

    method GetTotalSeeds() returns (total: int)
      ensures total == Total(seedStocks)
    {
      total := SumStock(seedStocks);
    }

    method GetTotalItems() returns (total: int)
      requires Valid()
      ensures total == Total(fruitStocks) + Total(seedStocks) && total >= 0
    {
      var fruits := GetTotalFruits();
      var seeds := GetTotalSeeds();
      TotalNonNegative(fruitStocks);
      TotalNonNegative(seedStocks);
      total := fruits + seeds;
    }

    /** `AddCoins`: no clamp, so a negative amount can drive coins below
        zero. */
    method AddCoins(amount: int)
      modifies this`coins
      ensures coins == old(coins) + amount
    {
      coins := coins + amount;
    }

    /** `ResetGameData`: the starting values and an empty stock for every
        registered tree. `xpIndex`, the game-over latch, the maximum
        pollution and the pollution timer are not reset. */
    method ResetGameData()
      requires Valid()
      modifies this`level, this`coins, this`xp, this`prevXp, this`nextXp, this`maxWater, this`currentWater
      modifies this`pollution, this`fruitStocks, this`seedStocks
      ensures Valid()
      ensures XpState() == Progress(1, 0, 0, 20, old(xpIndex)) && coins == 300
      ensures maxWater == 1000.0 && currentWater == 500.0 && pollution == 75.0
      ensures fruitStocks == ZeroStock(allTrees) && seedStocks == ZeroStock(allTrees)
    {
      var zeroed := RegisterTrees(allTrees);
      assert NonNegative(zeroed);
      level, coins, xp, prevXp, nextXp := 1, 300, 0, 0, 20;
      maxWater, currentWater, pollution := 1000.0, 500.0, 75.0;
      fruitStocks, seedStocks := zeroed, zeroed;
    }
  }
}
