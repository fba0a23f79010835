/** The upgrade shop of shop.py: the catalog, the price rule and purchases. */
module Shops {
  import opened Wrappers
  import opened Input
  import opened Saves

  /** `ShopItem`: fixed data of one purchasable upgrade. */
  datatype ShopItem = ShopItem(name: string, description: string, baseCost: int,
                               unlockScore: int, maxLevel: int)
  {
    /**
     * `get_cost`: the base price plus half of `level` times the base price,
     * rounded down (Python's `//`, which floors).
     */
    function GetCost(level: int): (c: int)
      ensures 2 * (c - baseCost) <= level * baseCost < 2 * (c - baseCost) + 2
    {
      baseCost + (level * baseCost) / 2
    }

    predicate IsUnlocked(highScore: int)
    {
      highScore >= unlockScore
    }

    predicate IsMaxed(level: int)
    {
      level >= maxLevel
    }
  }

  /** The catalog keys in the order the shop lists them (and numbers them 1 to 5). */
  const ItemNames: seq<string> := UpgradeNames

  /** `Shop.items`. */
  function Catalog(): (items: map<string, ShopItem>)
    ensures items.Keys == set n | n in ItemNames
  {
    map[
      "jump_boost" := ShopItem("Jump Boost", "Higher jumps", 10, 0, 5),
      "coin_multiplier" := ShopItem("Coin Multiplier", "2x coins per cactus", 25, 100, 3),
      "speed_boost" := ShopItem("Speed Boost", "Faster movement", 20, 200, 3),
      "shield" := ShopItem("Shield", "Press S for protection", 50, 500, 1),
      "slow_motion" := ShopItem("Slow Motion", "Slower obstacles", 75, 750, 4)
    ]
  }

  /** The five items, in order, with their (base cost, unlock score, max level). */
  lemma CatalogContents()
    ensures |ItemNames| == 5 && |Catalog()| == 5
    ensures forall i, j :: 0 <= i < j < |ItemNames| ==> ItemNames[i] != ItemNames[j]
    ensures var c := Catalog();
      && (c["jump_boost"].baseCost, c["jump_boost"].unlockScore, c["jump_boost"].maxLevel) == (10, 0, 5)
      && (c["coin_multiplier"].baseCost, c["coin_multiplier"].unlockScore, c["coin_multiplier"].maxLevel) == (25, 100, 3)
      && (c["speed_boost"].baseCost, c["speed_boost"].unlockScore, c["speed_boost"].maxLevel) == (20, 200, 3)
      && (c["shield"].baseCost, c["shield"].unlockScore, c["shield"].maxLevel) == (50, 500, 1)
      && (c["slow_motion"].baseCost, c["slow_motion"].unlockScore, c["slow_motion"].maxLevel) == (75, 750, 4)
  {
    assert Catalog().Keys == {"jump_boost", "coin_multiplier", "speed_boost", "shield", "slow_motion"};
  }

  /** With a non-negative base price, no non-negative level costs less than the base price. */
  lemma CostAtLeastBase(item: ShopItem, level: int)
    requires item.baseCost >= 0 && level >= 0
    ensures item.GetCost(level) >= item.baseCost
  {
    assert level * item.baseCost >= 0;
  }

  /** With a non-negative base price, a higher level never costs less. */
  lemma CostNonDecreasing(item: ShopItem, low: int, high: int)
    requires item.baseCost >= 0 && low <= high
    ensures item.GetCost(low) <= item.GetCost(high)
  {
    assert low * item.baseCost <= high * item.baseCost by {
      assert (high - low) * item.baseCost >= 0;
    }
  }

  /**
   * `Shop.try_buy_upgrade` on the save record: an unknown name, a locked item,
   * a maxed item or too few coins refuse and change nothing; otherwise the
   * price of the current level is paid and that one level rises by one.
   */
  function Buy(items: map<string, ShopItem>, d: SaveData, name: string): (r: (bool, SaveData))
    requires name in items ==> name in d.upgrades
    ensures !r.0 ==> r.1 == d
    ensures r.0 <==>
      && name in items
      && items[name].IsUnlocked(d.highScore)
      && !items[name].IsMaxed(d.upgrades[name])
      && d.coins >= items[name].GetCost(d.upgrades[name])
    ensures r.0 ==>
      && r.1.coins == d.coins - items[name].GetCost(d.upgrades[name])
      && r.1.highScore == d.highScore
      && r.1.upgrades == d.upgrades[name := d.upgrades[name] + 1]
  {
    if name !in items then (false, d)
    else
      var item := items[name];
      var level := d.upgrades[name];
      if !item.IsUnlocked(d.highScore) then (false, d)
      else if item.IsMaxed(level) then (false, d)
      else
        var (paid, after) := Spent(d, item.GetCost(level));
        if !paid then (false, d) else (true, Upgraded(after, name))
  }

  /** A purchase never lifts a level above the item's maximum, and needs the level below it. */
  lemma PurchaseWithinMax(items: map<string, ShopItem>, d: SaveData, name: string)
    requires name in items ==> name in d.upgrades
    requires Buy(items, d, name).0
    ensures d.upgrades[name] < items[name].maxLevel
    ensures Buy(items, d, name).1.upgrades[name] <= items[name].maxLevel
  {
  }

  /** A purchase from a non-negative balance leaves a non-negative balance. */
  lemma PurchaseKeepsBalance(items: map<string, ShopItem>, d: SaveData, name: string)
    requires name in items ==> name in d.upgrades
    requires d.coins >= 0
    ensures Buy(items, d, name).1.coins >= 0
  {
  }

  /** In the real catalog a purchase always costs at least the item's base price. */
  lemma CatalogPurchaseCosts(d: SaveData, name: string)
    requires HasAllUpgrades(d)
    requires name in d.upgrades ==> d.upgrades[name] >= 0
    requires Buy(Catalog(), d, name).0
    ensures Buy(Catalog(), d, name).1.coins <= d.coins - Catalog()[name].baseCost
  {
    CatalogContents();
    CostAtLeastBase(Catalog()[name], d.upgrades[name]);
  }

  /** What a key press in the shop asks for. */
  datatype ShopCommand = ToMenu | BuySlot(index: nat) | NoCommand

  /** The key mapping of `Shop.handle_event`: ESC or M leave, 1 to 5 buy the item at that position. */
  function ShopCommandOf(e: Event): (c: ShopCommand)
    ensures c == ToMenu <==> e == KeyPress(KeyEscape) || e == KeyPress(KeyM)
    ensures c.BuySlot? <==> e.KeyPress? && Key1 <= e.key <= Key5
    ensures c.BuySlot? ==> c.index < |ItemNames| && Key1 + c.index == e.key
  {
    match e
    case KeyPress(k) =>
      if k == KeyEscape || k == KeyM then ToMenu
      else if Key1 <= k <= Key5 then BuySlot(k - Key1)
      else NoCommand
    case _ => NoCommand
  }

  /** `Shop`: a view onto the save system it sells from. */
  class Shop {
    const saveSystem: SaveSystem
    const items: map<string, ShopItem>
    const itemNames: seq<string>

    constructor (saveSystem: SaveSystem)
      ensures this.saveSystem == saveSystem
      ensures items == Catalog() && itemNames == ItemNames
    {
      this.saveSystem := saveSystem;
      items := Catalog();
      itemNames := ItemNames;
    }

    method TryBuyUpgrade(name: string) returns (ok: bool)
      requires items == Catalog() && saveSystem.Valid()
      modifies saveSystem
      ensures (ok, saveSystem.data) == Buy(items, old(saveSystem.data), name)
      ensures saveSystem.Valid()
    {
      if name !in items {
        return false;
      }
      var item := items[name];
      var level := saveSystem.data.upgrades[name];
      if !item.IsUnlocked(saveSystem.data.highScore) {
        return false;
      }
      if item.IsMaxed(level) {
        return false;
      }
      var cost := item.GetCost(level);
      var paid := saveSystem.SpendCoins(cost);
      if !paid {
        return false;
      }
      saveSystem.UpgradeItem(name);
      return true;
    }

    /** `Shop.handle_event`: returns "menu" for ESC or M, otherwise nothing; 1 to 5 try a purchase. */
    method HandleEvent(e: Event) returns (r: Option<string>)
      requires items == Catalog() && itemNames == ItemNames && saveSystem.Valid()
      modifies saveSystem
      ensures r == (if ShopCommandOf(e) == ToMenu then Some("menu") else None)
      ensures ShopCommandOf(e).BuySlot? ==>
        saveSystem.data == Buy(items, old(saveSystem.data), itemNames[ShopCommandOf(e).index]).1
      ensures !ShopCommandOf(e).BuySlot? ==> saveSystem.data == old(saveSystem.data)
      ensures saveSystem.Valid()
    {
      if e.KeyPress? {
        if e.key == KeyEscape || e.key == KeyM {
          return Some("menu");
        } else if Key1 <= e.key <= Key5 {
          var index := e.key - Key1;
          if index < |itemNames| {
            var _ := TryBuyUpgrade(itemNames[index]);
          }
        }
      }
      return None;
    }
  }
}
