/** A plot the player plants on (`PlantPlot`): the planting guards, the
    seed it consumes, chopping a dead tree, and the E key.

    The planted object and its `GrowTree` component are set and cleared
    together, so the plot holds one reference, `growTree`. The planting
    menu, the highlight, the health bar and audio are presentation;
    `GameManager.Instance` is the nullable `gm` parameter; whether the
    instantiated prefab has a leaf material is the `leafFound` input. */
module Planting {
  import opened GameData
  import opened TreeGrowth
  import opened GameManagement

  const PlantPromptText: string := "[E] Plant a Tree"
  const ChopPromptText: string := "[E] Chop Down Dead Tree"

  /** The guards of `PlantTree`, in order: a tree type must be selected,
      the game manager must exist, a seed of that type must be in stock,
      and no living tree may stand on the plot. */
  predicate PlantAllowed(selected: Option<TreeData>, hasManager: bool, seeds: map<string, int>, liveTree: bool)
  {
    selected.Some? && hasManager && StockOf(seeds, selected.value.treeName) > 0 && !liveTree
  }

  /** Planting takes exactly one seed of the planted type and no other. */
  lemma PlantTakesOneSeed(seeds: map<string, int>, name: string)
    requires StockOf(seeds, name) > 0
    ensures StockOf(Restock(seeds, name, -1), name) == StockOf(seeds, name) - 1
    ensures forall other :: other != name ==> StockOf(Restock(seeds, name, -1), other) == StockOf(seeds, other)
  {
  }

  /** The prompt shown when the player walks onto the plot: plant on an
      empty plot, chop on a dead tree, none on a living one. */
  function EnterPrompt(hasTree: bool, treeHealth: real): (op: PromptOp)
    ensures !hasTree ==> op == ShowPrompt(PlantPromptText)
    ensures hasTree && treeHealth <= 0.0 ==> op == ShowPrompt(ChopPromptText)
    ensures hasTree && treeHealth > 0.0 ==> op == HidePrompt
  {
    if !hasTree then ShowPrompt(PlantPromptText)
    else if treeHealth <= 0.0 then ShowPrompt(ChopPromptText)
    else HidePrompt
  }

  class PlantPlot {
    var selectedTreeData: Option<TreeData>
    var growTree: GrowTree?
    var playerInRange: bool

    /** Every tree template the plot plants from has positive health and
        growth time, and its tree is well formed. */
    predicate Valid()
      reads this
    {
      (selectedTreeData.Some? ==> Sane(selectedTreeData.value)) &&
      (growTree != null ==> growTree.Valid())
    }

    /** An empty plot with the template chosen in the inspector, if any. */
    constructor (selected: Option<TreeData>)
      requires selected.Some? ==> Sane(selected.value)
      ensures Valid() && selectedTreeData == selected && growTree == null && !playerInRange
    {
      selectedTreeData := selected;
      growTree := null;
      playerInRange := false;
    }

    /** Whether a tree stands on the plot and is alive, as `PlantTree`
        tests it: by its health. */
    function HasLiveTree(): (live: bool)
      reads this, growTree
      ensures live <==> growTree != null && growTree.currentHealth > 0.0
    {
      growTree != null && !growTree.IsTreeDead()
    }

    /** The planting menu's choice. */
    method SelectTreeType(tree: Option<TreeData>)
      requires Valid() && (tree.Some? ==> Sane(tree.value))
      modifies this`selectedTreeData
      ensures Valid() && selectedTreeData == tree
    {
      selectedTreeData := tree;
    }

    /** `PlantTree`: a save first, whatever follows; then, if allowed, one
        seed is taken and a tree of the selected type is planted. A tree
        type without a prefab takes the seed and then fails to
        instantiate, so nothing is planted. A dead tree standing there is
        only dropped from the plot's reference: its object stays in the
        scene. */
    method PlantTree(gm: GameManager?, leafFound: bool) returns (calls: seq<Call>)
      requires Valid() && (gm != null ==> gm.Valid())
      modifies this`growTree, (if gm == null then {} else {gm})`seedStocks
      ensures Valid() && (gm != null ==> gm.Valid())
      ensures var allowed := PlantAllowed(selectedTreeData, gm != null,
                                          if gm == null then map[] else old(gm.seedStocks), old(HasLiveTree()));
              (!allowed ==> calls == [SaveGame] && growTree == old(growTree) &&
                            (gm != null ==> gm.seedStocks == old(gm.seedStocks))) &&
              (allowed ==>
                 var t := selectedTreeData.value;
                 calls == [SaveGame, SaveGame] &&
                 gm.seedStocks == Restock(old(gm.seedStocks), t.treeName, -1) &&
                 (t.hasTreePrefab ==> growTree != null && fresh(growTree) &&
                                      growTree.treeData == t && growTree.hasLeafMaterial == leafFound &&
                                      growTree.State() == Planted(t)) &&
                 (!t.hasTreePrefab ==> growTree == old(growTree)))
    {
      calls := [SaveGame];
      if selectedTreeData.None? {
        return;
      }
      if gm == null {
        return;
      }
      var t := selectedTreeData.value;
      if gm.GetSeedStock(t.treeName) <= 0 {
        return;
      }
      if growTree != null && !growTree.IsTreeDead() {
        return;
      }
      var saved := gm.ModifySeedStock(t.treeName, -1);
      calls := calls + saved;
      if !t.hasTreePrefab {
        return;
      }
      growTree := new GrowTree(t, leafFound);
    }

    /** `ChopDownTree`: a save, and the tree and the selection are
        cleared when a tree stands there. */
    method ChopDownTree() returns (calls: seq<Call>)
      requires Valid()
      modifies this`growTree, this`selectedTreeData
      ensures Valid() && calls == [SaveGame] && growTree == null
      ensures old(growTree) != null ==> selectedTreeData == None
      ensures old(growTree) == null ==> selectedTreeData == old(selectedTreeData)
    {
      calls := [SaveGame];
      if growTree != null {
        growTree := null;
        selectedTreeData := None;
      }
    }

    /** One frame with the E key pressed or not: on an empty plot in
        range it opens the planting menu; on a dead tree in range it chops
        the tree and offers planting. */
    method Update(ePressed: bool) returns (opensMenu: bool, calls: seq<Call>, prompts: seq<PromptOp>)
      requires Valid()
      modifies this`growTree, this`selectedTreeData
      ensures Valid()
      ensures opensMenu <==> playerInRange && old(growTree) == null && ePressed
      ensures var chop := playerInRange && ePressed && old(growTree) != null && old(growTree.currentHealth) <= 0.0;
              (chop ==> growTree == null && selectedTreeData == None &&
                        calls == [SaveGame] && prompts == [ShowPrompt(PlantPromptText)]) &&
              (!chop ==> growTree == old(growTree) && selectedTreeData == old(selectedTreeData) &&
                         calls == [] && prompts == [])
    {
      opensMenu := playerInRange && growTree == null && ePressed;
      calls := [];
      prompts := [];
      if playerInRange && growTree != null && ePressed {
        if growTree.IsTreeDead() {
          calls := ChopDownTree();
          prompts := [ShowPrompt(PlantPromptText)];
        }
      }
    }

    /** The player walks onto the plot. */
    method PlayerEntered() returns (prompt: PromptOp)
      requires Valid()
      modifies this`playerInRange, (if growTree == null then {} else {growTree})`playerNearby
      ensures Valid() && playerInRange
      ensures growTree != null ==> growTree.playerNearby
      ensures prompt == EnterPrompt(growTree != null, if growTree == null then 0.0 else growTree.currentHealth)
    {
      playerInRange := true;
      if growTree != null {
        growTree.SetPlayerNearby(true);
      }
      if growTree == null {
        prompt := ShowPrompt(PlantPromptText);
      } else if growTree.IsTreeDead() {
        prompt := ShowPrompt(ChopPromptText);
      } else {
        prompt := HidePrompt;
      }
    }

    /** The player walks off the plot. */
    method PlayerLeft() returns (prompt: PromptOp)
      requires Valid()
      modifies this`playerInRange, (if growTree == null then {} else {growTree})`playerNearby
      ensures Valid() && !playerInRange && prompt == HidePrompt
      ensures growTree != null ==> !growTree.playerNearby
    {
      playerInRange := false;
      if growTree != null {
        growTree.SetPlayerNearby(false);
      }
      prompt := HidePrompt;
    }
  }
}
