/** One inventory slot (`ItemSlot`): a seed or fruit of one tree type,
    the quantity it shows, its visibility, a click that selects it, and
    dropping one or all of it.

    The icon, the quantity text and the inventory redraw that follows a
    drop are presentation. Selection lives in the inventory system, so a
    click returns what it asks of it. */
module Inventory {
  import opened GameData
  import opened GameManagement

  /** The index of the first registered template called `name`, skipping
      missing entries, or `|trees|` when there is none. */
  function FirstNamed(trees: seq<Option<TreeData>>, name: string): (k: nat)
    ensures k <= |trees|
    ensures forall j :: 0 <= j < k ==> trees[j].None? || trees[j].value.treeName != name
    ensures k < |trees| ==> trees[k].Some? && trees[k].value.treeName == name
  {
    if |trees| == 0 then 0
    else if trees[0].Some? && trees[0].value.treeName == name then 0
    else 1 + FirstNamed(trees[1..], name)
  }

  /** The template a slot for `name` finds: the first one of that name. */
  function TemplateFor(trees: seq<Option<TreeData>>, name: string): (r: Option<TreeData>)
    ensures r.Some? <==> exists j :: 0 <= j < |trees| && trees[j].Some? && trees[j].value.treeName == name
    ensures r.Some? ==> r.value.treeName == name && r in trees
  {
    var k := FirstNamed(trees, name);
    if k < |trees| then trees[k] else None
  }

  /** The stock a slot reads: the seed stock for a seed slot, the fruit
      stock otherwise. */
  function Quantity(isSeed: bool, seeds: map<string, int>, fruits: map<string, int>, name: string): (n: int)
    ensures isSeed ==> n == StockOf(seeds, name)
    ensures !isSeed ==> n == StockOf(fruits, name)
  {
    StockOf(if isSeed then seeds else fruits, name)
  }

  /** How many a drop removes: the whole shown quantity, or one. */
  function DropAmount(quantity: int, dropAll: bool): (n: int)
    ensures dropAll ==> n == quantity
    ensures !dropAll ==> n == 1
  {
    if dropAll then quantity else 1
  }

  /** When the shown quantity is the stock, dropping all of it empties the
      stock and dropping one decrements it; when the shown quantity is
      stale and at least the stock, dropping all still empties it and
      never drives it below zero. No other item's stock changes. */
  lemma DropRemoves(stocks: map<string, int>, name: string, quantity: int, dropAll: bool)
    requires NonNegative(stocks) && quantity > 0 && quantity >= StockOf(stocks, name)
    ensures var after := Restock(stocks, name, -DropAmount(quantity, dropAll));
            (dropAll ==> StockOf(after, name) == 0) &&
            (!dropAll && quantity == StockOf(stocks, name) ==> StockOf(after, name) == quantity - 1) &&
            NonNegative(after) &&
            (forall other :: other != name ==> StockOf(after, other) == StockOf(stocks, other))
  {
  }

  /** What a click asks of the inventory system. */
  datatype Click = Select | Deselect

  class ItemSlot {
    const gm: GameManager
    const itemID: string
    const isSeed: bool
    var currentQuantity: int
    var data: Option<TreeData>
    var active: bool
    var borderOn: bool

    ghost predicate Valid()
      reads this, gm
    {
      gm.Valid()
    }

    /** `Start`: the template is looked up, the quantity shown and the
        border hidden. */
    constructor (gm: GameManager, itemID: string, isSeed: bool)
      requires gm.Valid()
      ensures Valid() && this.gm == gm && this.itemID == itemID && this.isSeed == isSeed
      ensures data == TemplateFor(gm.allTrees, itemID) && !borderOn
      ensures data.Some? ==> currentQuantity == Quantity(isSeed, gm.seedStocks, gm.fruitStocks, itemID) &&
                             (active <==> currentQuantity > 0)
      ensures data.None? ==> currentQuantity == 0 && active
    {
      this.gm := gm;
      this.itemID := itemID;
      this.isSeed := isSeed;
      currentQuantity := 0;
      data := None;
      active := true;
      borderOn := false;
      new;
      FindTreeData();
      UpdateSlotUI();
      borderOn := false;
    }

    /** `FindTreeData`: a walk over the registered templates that stops at
        the first one named `itemID`; without one the slot stays empty. */
    method FindTreeData()
      modifies this`data
      ensures data == TemplateFor(gm.allTrees, itemID)
    {
      var trees := gm.allTrees;
      var i := 0;
      while i < |trees|
        invariant 0 <= i <= |trees|
        invariant forall j :: 0 <= j < i ==> trees[j].None? || trees[j].value.treeName != itemID
        invariant data == old(data)
      {
        if trees[i].Some? && trees[i].value.treeName == itemID {
          data := trees[i];
          assert FirstNamed(trees, itemID) == i by { FirstNamedIs(trees, itemID, i); }
          return;
        }
        i := i + 1;
      }
      FirstNamedIs(trees, itemID, |trees|);
      data := None;
    }

    /** `UpdateSlotUI`: without a template nothing happens; otherwise the
        quantity is read from the matching stock, and the slot is hidden
        exactly when it is not positive, a shown slot losing its border. */
    method UpdateSlotUI()
      requires Valid()
      modifies this`currentQuantity, this`active, this`borderOn
      ensures Valid()
      ensures data.None? ==> currentQuantity == old(currentQuantity) && active == old(active) &&
                             borderOn == old(borderOn)
      ensures data.Some? ==> currentQuantity == Quantity(isSeed, gm.seedStocks, gm.fruitStocks, itemID) &&
                             (active <==> currentQuantity > 0) &&
                             (currentQuantity > 0 ==> !borderOn) &&
                             (currentQuantity <= 0 ==> borderOn == old(borderOn))
    {
      if data.None? {
        return;
      }
      if isSeed {
        currentQuantity := gm.GetSeedStock(itemID);
      } else {
        currentQuantity := gm.GetFruitStock(itemID);
      }
      if currentQuantity <= 0 {
        active := false;
        return;
      }
      active := true;
      borderOn := false;
    }

    /** `OnSlotClicked`: an empty slot deselects; otherwise the slot is
        selected, highlighted and shows its border. */
    method OnSlotClicked() returns (click: Click)
      modifies this`borderOn
      ensures click == Deselect <==> currentQuantity <= 0
      ensures click == Select ==> borderOn
      ensures click == Deselect ==> borderOn == old(borderOn)
    {
      if currentQuantity <= 0 {
        click := Deselect;
        return;
      }
      click := Select;
      borderOn := true;
    }

    /** `DropItem`: nothing when the shown quantity is not positive;
        otherwise the shown quantity (all) or one is taken from the slot's
        own stock, with the save the stock change makes, the other stock
        untouched, and a drop-all deselects. The shown quantity itself is
        left for the inventory redraw. */
    method DropItem(dropAll: bool) returns (calls: seq<Call>, deselect: bool)
      requires Valid()
      modifies gm`seedStocks, gm`fruitStocks
      ensures Valid() && currentQuantity == old(currentQuantity)
      ensures old(currentQuantity) <= 0 ==>
                calls == [] && !deselect &&
                gm.seedStocks == old(gm.seedStocks) && gm.fruitStocks == old(gm.fruitStocks)
      ensures old(currentQuantity) > 0 ==>
                var amount := DropAmount(currentQuantity, dropAll);
                calls == [SaveGame] && deselect == dropAll &&
                (isSeed ==> gm.seedStocks == Restock(old(gm.seedStocks), itemID, -amount) &&
                            gm.fruitStocks == old(gm.fruitStocks)) &&
                (!isSeed ==> gm.fruitStocks == Restock(old(gm.fruitStocks), itemID, -amount) &&
                             gm.seedStocks == old(gm.seedStocks))
    {
      calls := [];
      deselect := false;
      if currentQuantity <= 0 {
        return;
      }
      var amount := if dropAll then currentQuantity else 1;
      if isSeed {
        calls := gm.ModifySeedStock(itemID, -amount);
      } else {
        calls := gm.ModifyFruitStock(itemID, -amount);
      }
      deselect := dropAll;
    }
  }

  /** `FirstNamed` is the index a left-to-right search stops at. */
  lemma {:induction false} FirstNamedIs(trees: seq<Option<TreeData>>, name: string, i: nat)
    requires i <= |trees|
    requires forall j :: 0 <= j < i ==> trees[j].None? || trees[j].value.treeName != name
    requires i < |trees| ==> trees[i].Some? && trees[i].value.treeName == name
    ensures FirstNamed(trees, name) == i
  {
    if |trees| > 0 && i > 0 {
      FirstNamedIs(trees[1..], name, i - 1);
    }
  }
}
