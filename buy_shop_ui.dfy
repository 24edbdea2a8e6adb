/** The seed shop's panel list (`BuyShopUI`): one slot per tree type with
    a buy button, and the purchase itself.

    A slot is held by value: whether its button is interactable and the
    tree its listener captured. Texts, icons and the coin label are
    presentation; the purchase message goes to the shared prompt. */
module BuyShop {
  import opened GameData
  import opened GameManagement

  datatype BuySlot = BuySlot(interactable: bool, listener: Option<TreeData>)

  /** A pre-generated panel before its first update: no listener yet. */
  const FreshSlot := BuySlot(true, None)

  /** The shop's one rule, used both for the button and for the purchase:
      enough coins for the seed and a high enough level. */
  predicate CanBuy(coins: int, level: int, t: TreeData)
  {
    coins >= t.seedBuyPrice && level >= t.requiredLevel
  }

  /** The slot an update builds for tree `t`. */
  function SlotFor(t: TreeData, coins: int, level: int): (s: BuySlot)
    ensures s.interactable <==> coins >= t.seedBuyPrice && level >= t.requiredLevel
    ensures s.listener == Some(t)
  {
    BuySlot(CanBuy(coins, level, t), Some(t))
  }

  /** `UpdateShopPanels` took `before` to `after`: every slot up to the
      first missing tree entry is rebuilt from the current coins and
      level, and a missing entry stops the update (the null dereference
      throws), leaving the later slots as they were. */
  predicate Updated(before: seq<BuySlot>, trees: seq<Option<TreeData>>, coins: int, level: int,
                    after: seq<BuySlot>)
    requires |before| <= |trees|
  {
    var k := FirstMissing(trees, |before|);
    |after| == |before| &&
    (forall j :: 0 <= j < k ==> after[j] == SlotFor(trees[j].value, coins, level)) &&
    (forall j :: k <= j < |before| ==> after[j] == before[j])
  }

  /** The outcome of `PurchaseSeed`. */
  datatype Purchase = Purchase(coins: int, seeds: map<string, int>, bought: bool)

  /** `PurchaseSeed(t)`: refused without the coins or the level;
      otherwise the price is paid and one seed is stocked. */
  function Buy(coins: int, level: int, seeds: map<string, int>, t: TreeData): (r: Purchase)
    ensures r.bought <==> CanBuy(coins, level, t)
    ensures !r.bought ==> r == Purchase(coins, seeds, false)
    ensures r.bought ==> r.seeds == Restock(seeds, t.treeName, 1)
  {
    if coins < t.seedBuyPrice then Purchase(coins, seeds, false)
    else if level < t.requiredLevel then Purchase(coins, seeds, false)
    else Purchase(coins - t.seedBuyPrice, Restock(seeds, t.treeName, 1), true)
  }

  /** A purchase costs exactly the seed price and adds exactly one seed of
      that type (when the type is registered), touches no other seed, and
      never drives the coins negative. */
  lemma PurchaseAccounts(coins: int, level: int, seeds: map<string, int>, t: TreeData)
    requires NonNegative(seeds)
    ensures var r := Buy(coins, level, seeds, t);
            (r.bought ==> coins - r.coins == t.seedBuyPrice && r.coins >= 0) &&
            (r.bought && t.treeName in seeds ==> StockOf(r.seeds, t.treeName) == StockOf(seeds, t.treeName) + 1) &&
            (forall other :: other != t.treeName ==> StockOf(r.seeds, other) == StockOf(seeds, other)) &&
            (coins >= 0 ==> r.coins >= 0)
  {
  }

  /** An interactable button buys, as long as coins and level are what
      they were when the panel was last updated. */
  lemma ButtonMatchesPurchase(t: TreeData, coins: int, level: int, seeds: map<string, int>)
    ensures SlotFor(t, coins, level).interactable <==> Buy(coins, level, seeds, t).bought
  {
  }

  function BoughtText(t: TreeData): string
  {
    "1 Bibit " + t.treeName + " dibeli!"
  }

  class BuyShopUI {
    const gm: GameManager
    var slots: seq<BuySlot>

    ghost predicate Valid()
      reads this, gm
    {
      gm.Valid() && |slots| == |gm.allTrees|
    }

    /** `Start`: one fresh panel per registered tree type. */
    constructor (gm: GameManager)
      requires gm.Valid()
      ensures Valid() && this.gm == gm
      ensures forall j :: 0 <= j < |slots| ==> slots[j] == FreshSlot
    {
      this.gm := gm;
      slots := [];
      new;
      var i := 0;
      while i < |gm.allTrees|
        invariant 0 <= i <= |gm.allTrees| && |slots| == i
        invariant forall j :: 0 <= j < |slots| ==> slots[j] == FreshSlot
      {
        slots := slots + [FreshSlot];
        i := i + 1;
      }
    }

    /** `UpdateShopPanels`, also run whenever the shop is opened. */
    method UpdateShopPanels()
      requires Valid()
      modifies this`slots
      ensures Valid() && Updated(old(slots), gm.allTrees, gm.coins, gm.level, slots)
    {
      var k := FirstMissing(gm.allTrees, |slots|);
      var i := 0;
      while i < |slots|
        invariant 0 <= i <= |slots| && |slots| == |old(slots)|
        invariant i <= k || i == |slots|
        invariant forall j :: 0 <= j < i && j < k ==> slots[j] == SlotFor(gm.allTrees[j].value, gm.coins, gm.level)
        invariant forall j :: i <= j < |slots| || (k <= j < |slots|) ==> slots[j] == old(slots)[j]
      {
        var tree := gm.allTrees[i];
        if tree.None? {
          return;
        }
        var t := tree.value;
        var enoughCoin := gm.coins >= t.seedBuyPrice;
        var enoughLevel := gm.level >= t.requiredLevel;
        slots := slots[i := BuySlot(enoughCoin && enoughLevel, Some(t))];
        i := i + 1;
      }
    }

    /** `PurchaseSeed`: on success, the payment, one seed (with the save
        the stock change makes), the bought message for a second, and the
        panels updated. */
    method PurchaseSeed(t: TreeData) returns (calls: seq<Call>, prompts: seq<PromptOp>)
      requires Valid()
      modifies this`slots, gm`coins, gm`seedStocks
      ensures Valid()
      ensures var r := Buy(old(gm.coins), gm.level, old(gm.seedStocks), t);
              gm.coins == r.coins && gm.seedStocks == r.seeds &&
              (!r.bought ==> calls == [] && prompts == [] && slots == old(slots)) &&
              (r.bought ==> calls == [SaveGame] && prompts == [ShowPrompt(BoughtText(t)), HideLater] &&
                            Updated(old(slots), gm.allTrees, gm.coins, gm.level, slots))
    {
      calls := [];
      prompts := [];
      if gm.coins < t.seedBuyPrice {
        return;
      }
      if gm.level < t.requiredLevel {
        return;
      }
      gm.AddCoins(-t.seedBuyPrice);
      calls := gm.ModifySeedStock(t.treeName, 1);
      prompts := [ShowPrompt(BoughtText(t)), HideLater];
      UpdateShopPanels();
    }

    /** A click on slot `i`'s buy button; a button that is not
        interactable or has no listener does nothing. */
    method BuyClicked(i: nat) returns (calls: seq<Call>, prompts: seq<PromptOp>)
      requires Valid() && i < |slots|
      modifies this`slots, gm`coins, gm`seedStocks
      ensures Valid()
      ensures var s := old(slots[i]);
              (!s.interactable || s.listener.None? ==>
                 (calls == [] && prompts == [] && slots == old(slots) &&
                  gm.coins == old(gm.coins) && gm.seedStocks == old(gm.seedStocks))) &&
              (s.interactable && s.listener.Some? ==>
                 var r := Buy(old(gm.coins), gm.level, old(gm.seedStocks), s.listener.value);
                 gm.coins == r.coins && gm.seedStocks == r.seeds &&
                 (calls, prompts) == (if r.bought then ([SaveGame], [ShowPrompt(BoughtText(s.listener.value)), HideLater])
                                      else ([], [])))
    {
      calls := [];
      prompts := [];
      if !slots[i].interactable || slots[i].listener.None? {
        return;
      }
      calls, prompts := PurchaseSeed(slots[i].listener.value);
    }
  }
}
