/** The fruit shop's panel list (`SellShopUI`): one slot per tree type,
    each with a sell-one and a sell-all button, and the sale itself.

    A slot is held by value: whether its buttons are interactable and
    what their listeners captured at the last refresh. Texts, icons and
    the panel alpha are presentation. The tutorial event and the quest
    progress the listeners raise are returned as calls. */
module SellShop {
  import opened GameData
  import opened GameManagement

  /** What a slot's listeners captured at refresh: the tree's name, its
      fruit price and the stock at that moment. */
  datatype SellListener = SellListener(treeName: string, price: int, stock: int)

  datatype SellSlot = SellSlot(interactable: bool, listener: Option<SellListener>)

  /** A pre-generated panel before its first refresh: no listeners yet. */
  const FreshSlot := SellSlot(true, None)

  /** The slot a refresh builds for tree `t`: both buttons are
      interactable exactly when the fruit is in stock. */
  function SlotFor(t: TreeData, fruits: map<string, int>): (s: SellSlot)
    ensures s.interactable <==> StockOf(fruits, t.treeName) > 0
    ensures s.listener == Some(SellListener(t.treeName, t.fruitSellPrice, StockOf(fruits, t.treeName)))
  {
    var stock := StockOf(fruits, t.treeName);
    SellSlot(stock > 0, Some(SellListener(t.treeName, t.fruitSellPrice, stock)))
  }

  /** `RefreshUI` took `before` to `after`: every slot up to the first
      missing tree entry is rebuilt from the current stock, and a missing
      entry stops the refresh (the null dereference throws), leaving the
      later slots as they were. */
  predicate Refreshed(before: seq<SellSlot>, trees: seq<Option<TreeData>>, fruits: map<string, int>,
                      after: seq<SellSlot>)
    requires |before| <= |trees|
  {
    var k := FirstMissing(trees, |before|);
    |after| == |before| &&
    (forall j :: 0 <= j < k ==> after[j] == SlotFor(trees[j].value, fruits)) &&
    (forall j :: k <= j < |before| ==> after[j] == before[j])
  }

  /** The outcome of `SellItem`. */
  datatype Sale = Sale(stocks: map<string, int>, coins: int, made: bool, sold: int)

  /** `SellItem(name, amount, price)`: nothing without stock; otherwise
      the smaller of the stock and the amount is sold at `price` each. */
  function Sell(fruits: map<string, int>, coins: int, name: string, amount: int, price: int): (r: Sale)
    ensures !r.made <==> StockOf(fruits, name) <= 0
    ensures !r.made ==> r == Sale(fruits, coins, false, 0)
    ensures r.made ==> r.sold == MinI(StockOf(fruits, name), amount)
  {
    var stock := StockOf(fruits, name);
    if stock <= 0 then Sale(fruits, coins, false, 0)
    else
      var n := MinI(stock, amount);
      Sale(Restock(fruits, name, -n), coins + n * price, true, n)
  }

  /** A sale of a non-negative amount takes no more than is in stock and
      no more than asked, leaves exactly the rest in stock (so the stock
      never goes negative), pays exactly `price` per fruit sold, and
      touches no other fruit. */
  lemma SaleConserves(fruits: map<string, int>, coins: int, name: string, amount: int, price: int)
    requires NonNegative(fruits) && amount >= 0
    ensures var r := Sell(fruits, coins, name, amount, price);
            0 <= r.sold <= amount && r.sold <= StockOf(fruits, name) &&
            StockOf(r.stocks, name) == StockOf(fruits, name) - r.sold &&
            NonNegative(r.stocks) &&
            r.coins - coins == r.sold * price &&
            (forall other :: other != name ==> StockOf(r.stocks, other) == StockOf(fruits, other))
  {
  }

  /** Selling at least the whole stock empties it. */
  lemma SellAllEmpties(fruits: map<string, int>, coins: int, name: string, amount: int, price: int)
    requires NonNegative(fruits) && amount >= StockOf(fruits, name)
    ensures StockOf(Sell(fruits, coins, name, amount, price).stocks, name) == 0
  {
  }

  class SellShopUI {
    const gm: GameManager
    var slots: seq<SellSlot>

    ghost predicate Valid()
      reads this, gm
    {
      gm.Valid() && |slots| == |gm.allTrees|
    }

    /** `Start`: one fresh panel per registered tree type. */
    constructor (gm: GameManager)
      requires gm.Valid()
      ensures Valid() && this.gm == gm
      ensures |slots| == |gm.allTrees| && forall j :: 0 <= j < |slots| ==> slots[j] == FreshSlot
    {
      this.gm := gm;
      slots := [];
      new;
      PreGenerateSlots();
    }

    method PreGenerateSlots()
      modifies this`slots
      ensures |slots| == |old(slots)| + |gm.allTrees|
      ensures slots[..|old(slots)|] == old(slots)
      ensures forall j :: |old(slots)| <= j < |slots| ==> slots[j] == FreshSlot
    {
      var count := |gm.allTrees|;
      var i := 0;
      while i < count
        invariant 0 <= i <= count
        invariant |slots| == |old(slots)| + i
        invariant slots[..|old(slots)|] == old(slots)
        invariant forall j :: |old(slots)| <= j < |slots| ==> slots[j] == FreshSlot
      {
        slots := slots + [FreshSlot];
        i := i + 1;
      }
    }

    /** `RefreshUI`, also run whenever the shop is opened. It runs to the
        end (`completed`) exactly when no tree entry it reaches is
        missing; otherwise it throws at the missing entry. */
    method RefreshUI() returns (completed: bool)
      requires Valid()
      modifies this`slots
      ensures Valid() && Refreshed(old(slots), gm.allTrees, gm.fruitStocks, slots)
      ensures completed <==> forall j :: 0 <= j < |slots| ==> gm.allTrees[j].Some?
    {
      completed := false;
      var k := FirstMissing(gm.allTrees, |slots|);
      var i := 0;
      while i < |slots|
        invariant 0 <= i <= |slots| && |slots| == |old(slots)|
        invariant i <= k
        invariant forall j :: 0 <= j < i && j < k ==> slots[j] == SlotFor(gm.allTrees[j].value, gm.fruitStocks)
        invariant forall j :: i <= j < |slots| || (k <= j < |slots|) ==> slots[j] == old(slots)[j]
      {
        var tree := gm.allTrees[i];
        if tree.None? {
          assert gm.allTrees[i].None?;
          return;
        }
        slots := slots[i := SlotFor(tree.value, gm.fruitStocks)];
        i := i + 1;
      }
      assert k == |slots|;
      completed := true;
    }

    /** `SellItem`: the sale, a save from the stock change, the sold
        notice, and a refresh when a sale was made. It returns normally
        (`completed`) unless that refresh throws. */
    method SellItem(fruitName: string, amount: int, price: int) returns (calls: seq<Call>, completed: bool)
      requires Valid()
      modifies this`slots, gm`fruitStocks, gm`coins
      ensures Valid()
      ensures var r := Sell(old(gm.fruitStocks), old(gm.coins), fruitName, amount, price);
              gm.fruitStocks == r.stocks && gm.coins == r.coins &&
              (!r.made ==> calls == [] && slots == old(slots) && completed) &&
              (r.made ==> calls == [SaveGame, SoldNotice(r.sold, fruitName, r.sold * price)] &&
                          Refreshed(old(slots), gm.allTrees, gm.fruitStocks, slots) &&
                          (completed <==> forall j :: 0 <= j < |slots| ==> gm.allTrees[j].Some?))
    {
      calls, completed := [], true;
      var stock := gm.GetFruitStock(fruitName);
      if stock <= 0 {
        return;
      }
      var sold := MinI(stock, amount);
      var totalCoins := sold * price;
      calls := gm.ModifyFruitStock(fruitName, -sold);
      gm.AddCoins(totalCoins);
      calls := calls + [SoldNotice(sold, fruitName, totalCoins)];
      completed := RefreshUI();
    }

    /** A click on slot `i`'s sell-one button: one fruit sold, then the
        tutorial event and one sale reported to the quests, unless the
        refresh inside the sale throws, which ends the listener there. A
        button that is not interactable or has no listener does nothing. */
    method SellOneClicked(i: nat) returns (calls: seq<Call>)
      requires Valid() && i < |slots|
      modifies this`slots, gm`fruitStocks, gm`coins
      ensures Valid()
      ensures var s := old(slots[i]);
              (!s.interactable || s.listener.None? ==>
                 (calls == [] && slots == old(slots) &&
                  gm.fruitStocks == old(gm.fruitStocks) && gm.coins == old(gm.coins))) &&
              (s.interactable && s.listener.Some? ==>
                 var l := s.listener.value;
                 var r := Sell(old(gm.fruitStocks), old(gm.coins), l.treeName, 1, l.price);
                 gm.fruitStocks == r.stocks && gm.coins == r.coins &&
                 var sale := if r.made then [SaveGame, SoldNotice(r.sold, l.treeName, r.sold * l.price)] else [];
                 var thrown := r.made && exists j :: 0 <= j < |slots| && gm.allTrees[j].None?;
                 calls == sale + (if thrown then [] else [TutorialSellFruit, AddProgress(l.treeName, QuestGoalType.SellFruit)]))
    {
      calls := [];
      if !slots[i].interactable || slots[i].listener.None? {
        return;
      }
      var l := slots[i].listener.value;
      var completed;
      calls, completed := SellItem(l.treeName, 1, l.price);
      if completed {
        calls := calls + [TutorialSellFruit, AddProgress(l.treeName, QuestGoalType.SellFruit)];
      }
    }

    /** A click on slot `i`'s sell-all button: the stock captured at the
        last refresh is sold, then the tutorial event, then one sale is
        reported to the quests per fruit of the captured stock, however
        many were actually sold. A refresh that throws inside the sale
        ends the listener before the tutorial event. */
    method SellAllClicked(i: nat) returns (calls: seq<Call>)
      requires Valid() && i < |slots|
      modifies this`slots, gm`fruitStocks, gm`coins
      ensures Valid()
      ensures var s := old(slots[i]);
              (!s.interactable || s.listener.None? ==>
                 (calls == [] && slots == old(slots) &&
                  gm.fruitStocks == old(gm.fruitStocks) && gm.coins == old(gm.coins))) &&
              (s.interactable && s.listener.Some? ==>
                 var l := s.listener.value;
                 var r := Sell(old(gm.fruitStocks), old(gm.coins), l.treeName, l.stock, l.price);
                 var progress := AddProgress(l.treeName, QuestGoalType.SellFruit);
                 gm.fruitStocks == r.stocks && gm.coins == r.coins &&
                 var sale := if r.made then [SaveGame, SoldNotice(r.sold, l.treeName, r.sold * l.price)] else [];
                 var thrown := r.made && exists j :: 0 <= j < |slots| && gm.allTrees[j].None?;
                 calls == sale + (if thrown then [] else [TutorialSellFruit] + Repeat(progress, l.stock)))
    {
      calls := [];
      if !slots[i].interactable || slots[i].listener.None? {
        return;
      }
      var l := slots[i].listener.value;
      var progress := AddProgress(l.treeName, QuestGoalType.SellFruit);
      var sale, completed := SellItem(l.treeName, l.stock, l.price);
      if !completed {
        calls := sale;
        return;
      }
      var reports := ReportSales(progress, l.stock);
      calls := sale + [TutorialSellFruit] + reports;
    }
  }

  /** The `for` loop of `SellAllClicked`: one quest report per fruit of
      the captured stock. */
  method ReportSales(progress: Call, stock: int) returns (calls: seq<Call>)
    ensures calls == Repeat(progress, stock)
  {
    calls := [];
    var j := 0;
    while j < stock
      invariant 0 <= j <= MaxI(0, stock)
      invariant calls == Repeat(progress, j)
    {
      RepeatSnoc(progress, j);
      calls := calls + [progress];
      j := j + 1;
    }
    assert Repeat(progress, j) == Repeat(progress, stock);
  }

  lemma RepeatSnoc(c: Call, n: nat)
    ensures Repeat(c, n + 1) == Repeat(c, n) + [c]
  {
    var a, b := Repeat(c, n + 1), Repeat(c, n) + [c];
    assert |a| == |b|;
    forall k | 0 <= k < |a| ensures a[k] == b[k] {}
  }

  /** The calls of a sell-all click report exactly the captured stock
      many sales of that fruit. */
  lemma SellAllReportsCapturedStock(sale: seq<Call>, name: string, stock: int)
    requires AddProgress(name, QuestGoalType.SellFruit) !in sale
    ensures var progress := AddProgress(name, QuestGoalType.SellFruit);
            CountOf(sale + [TutorialSellFruit] + Repeat(progress, stock), progress) == MaxI(0, stock)
  {
    var progress := AddProgress(name, QuestGoalType.SellFruit);
    CountOfAppend(sale + [TutorialSellFruit], Repeat(progress, stock), progress);
    CountOfAppend(sale, [TutorialSellFruit], progress);
    assert CountOf([TutorialSellFruit], progress) == 0;
    if stock <= 0 {
      assert Repeat(progress, stock) == [];
    }
  }
}
