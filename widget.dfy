/**
 * The embedded widget's own copy of the economy: its upgrade and hire tables,
 * the tier clamping of `getCurrentUpgrade` / `getCurrentHire`, the local
 * fallbacks it runs when no tool host is present, and the display lookups
 * `getStage` and `getCurrencyIcon`. The local fallbacks are specified by the
 * server's economy functions, so verifying them proves the two copies agree.
 */
module Widget {
  import Economy
  import opened Wrappers

  datatype Item = Item(name: string, emoji: string, cost: nat)

  datatype Stage = Stage(name: string, threshold: int)

  /** `upgrades`: the multiplier track as the widget shows it. */
  const Upgrades: seq<Item> := [
    Item("Coffee Machine", "coffee", 15),
    Item("Standing Desk", "desk", 75),
    Item("Pitch Deck", "chart", 300),
    Item("Co-founder", "handshake", 1000),
    Item("Seed Round", "seed", 5000),
    Item("Series A", "trending", 25000),
    Item("AI Pivot", "robot", 100000),
    Item("Unicorn", "unicorn", 500000)
  ]

  /** `hires`: the auto-clicker track as the widget shows it. */
  const Hires: seq<Item> := [
    Item("Hire Intern", "person", 20),
    Item("Junior Dev", "laptop", 150),
    Item("Growth Hacker", "phone", 800),
    Item("VP of Vibes", "sparkle", 4000),
    Item("Board Member", "tophat", 20000),
    Item("AI Agent", "robot", 100000)
  ]

  /** `stages`: the company's stage by funding. */
  const Stages: seq<Stage> := [
    Stage("The Garage", 0),
    Stage("Coworking", 1000),
    Stage("Small Office", 50000),
    Stage("HQ Campus", 500000),
    Stage("Unicorn!", 10000000),
    Stage("To The Moon", 100000000)
  ]

  /** The widget's tables carry the server's base costs, entry for entry. */
  lemma TablesMatchServer()
    ensures |Upgrades| == |Economy.MultiplierBaseCosts|
    ensures forall i :: 0 <= i < |Upgrades| ==> Upgrades[i].cost == Economy.MultiplierBaseCosts[i]
    ensures |Hires| == |Economy.AutoClickerBaseCosts|
    ensures forall i :: 0 <= i < |Hires| ==> Hires[i].cost == Economy.AutoClickerBaseCosts[i]
  {
  }

  /**
   * `getCurrentUpgrade`'s index: `min(multiplier - 1, 7)`, falling back to the
   * last entry when that index is outside the table (`upgrades[idx] || last`).
   */
  function UpgradeIndex(multiplier: int): (i: nat)
    ensures i < |Upgrades|
    ensures 1 <= multiplier <= |Upgrades| ==> i == multiplier - 1
    ensures multiplier > |Upgrades| || multiplier < 1 ==> i == |Upgrades| - 1
  {
    var idx := if multiplier - 1 < |Upgrades| - 1 then multiplier - 1 else |Upgrades| - 1;
    if 0 <= idx < |Upgrades| then idx else |Upgrades| - 1
  }

  /** `getCurrentHire`'s index: `min(autoClickerLevel, 5)`, with the same fallback. */
  function HireIndex(autoClickerLevel: int): (i: nat)
    ensures i < |Hires|
    ensures 0 <= autoClickerLevel < |Hires| ==> i == autoClickerLevel
    ensures autoClickerLevel >= |Hires| || autoClickerLevel < 0 ==> i == |Hires| - 1
  {
    var idx := if autoClickerLevel < |Hires| - 1 then autoClickerLevel else |Hires| - 1;
    if 0 <= idx < |Hires| then idx else |Hires| - 1
  }

  /** The upgrade cost the widget computes and shows. */
  function UpgradeCost(multiplier: int): (c: nat)
    requires multiplier >= 1
    ensures var tier, base := multiplier - 1, Upgrades[UpgradeIndex(multiplier)].cost;
      c * Economy.Pow(2, tier) <= base * Economy.Pow(3, tier) < (c + 1) * Economy.Pow(2, tier)
  {
    Economy.GrowthCost(Upgrades[UpgradeIndex(multiplier)].cost, multiplier - 1)
  }

  /** The hire cost the widget computes and shows. */
  function HireCost(autoClickerLevel: int): (c: nat)
    requires autoClickerLevel >= 0
    ensures var tier, base := autoClickerLevel, Hires[HireIndex(autoClickerLevel)].cost;
      c * Economy.Pow(2, tier) <= base * Economy.Pow(3, tier) < (c + 1) * Economy.Pow(2, tier)
  {
    Economy.GrowthCost(Hires[HireIndex(autoClickerLevel)].cost, autoClickerLevel)
  }

  /** The widget's costs are the server's, on every reachable level. */
  lemma CostsMatchServer(multiplier: int, autoClickerLevel: int)
    requires multiplier >= 1 && autoClickerLevel >= 0
    ensures UpgradeCost(multiplier) == Economy.MultiplierCost(multiplier)
    ensures HireCost(autoClickerLevel) == Economy.AutoClickerCost(autoClickerLevel)
  {
    TablesMatchServer();
  }

  /** `upgradeBtn.disabled`: the funds fall short of the server's multiplier cost. */
  function UpgradeDisabled(c: Economy.Counters): (disabled: bool)
    requires c.multiplier >= 1
    ensures disabled <==> c.clicks < Economy.MultiplierCost(c.multiplier)
  {
    CostsMatchServer(c.multiplier, 0);
    c.clicks < UpgradeCost(c.multiplier)
  }

  /** `hireBtn.disabled`: the funds fall short of the server's auto-clicker cost. */
  function HireDisabled(c: Economy.Counters): (disabled: bool)
    requires c.autoClickerLevel >= 0
    ensures disabled <==> c.clicks < Economy.AutoClickerCost(c.autoClickerLevel)
  {
    CostsMatchServer(1, c.autoClickerLevel);
    c.clicks < HireCost(c.autoClickerLevel)
  }

  /** A purchase button is enabled exactly when the server would sell. */
  lemma ButtonsMatchPurchases(c: Economy.Counters)
    requires Economy.CountersInv(c)
    ensures UpgradeDisabled(c) <==> !Economy.PurchaseMultiplier(c).bought
    ensures HireDisabled(c) <==> !Economy.PurchaseAutoClicker(c).bought
  {
    CostsMatchServer(c.multiplier, c.autoClickerLevel);
  }

  // ---------------------------------------------------------------------
  // Stage lookup and currency icon
  // ---------------------------------------------------------------------

  /**
   * `k` is the stage shown for `amount`: no later stage's threshold is
   * reached, and stage `k`'s is (or `k` is the first stage, the fallback).
   */
  predicate IsStageOf(amount: int, k: nat) {
    && k < |Stages|
    && (k == 0 || Stages[k].threshold <= amount)
    && forall j :: k < j < |Stages| ==> amount < Stages[j].threshold
  }

  /** The highest stage below `n` whose threshold `amount` reaches, else the first. */
  function StageSearch(amount: int, n: nat): (k: nat)
    requires 1 <= n <= |Stages|
    ensures k < n
    ensures k == 0 || Stages[k].threshold <= amount
    ensures forall j :: k < j < n ==> amount < Stages[j].threshold
    decreases n
  {
    if amount >= Stages[n - 1].threshold then n - 1
    else if n == 1 then 0
    else StageSearch(amount, n - 1)
  }

  function StageOf(amount: int): (k: nat)
    ensures IsStageOf(amount, k)
  {
    StageSearch(amount, |Stages|)
  }

  /** Only one stage fits an amount. */
  lemma StageOfUnique(amount: int, k: nat)
    requires IsStageOf(amount, k)
    ensures k == StageOf(amount)
  {
  }

  /**
   * With thresholds ascending from 0, every amount >= 0 falls in exactly one
   * band [threshold k, threshold k+1), and the stage shown is that band's.
   * A negative amount shows the first stage.
   */
  lemma StageBands(amount: int, k: nat)
    requires k < |Stages|
    ensures amount >= 0 ==>
      (k == StageOf(amount) <==>
        Stages[k].threshold <= amount && (k + 1 == |Stages| || amount < Stages[k + 1].threshold))
    ensures amount < 0 ==> StageOf(amount) == 0
  {
    assert forall i, j :: 0 <= i < j < |Stages| ==> Stages[i].threshold < Stages[j].threshold;
    if amount >= 0 && Stages[k].threshold <= amount
       && (k + 1 == |Stages| || amount < Stages[k + 1].threshold) {
      assert IsStageOf(amount, k);
      StageOfUnique(amount, k);
    }
  }

  /** `getStage`: scan the stages from the last down and return the first one reached. */
  method GetStage(amount: int) returns (name: string)
    ensures name == Stages[StageOf(amount)].name
  {
    var i := |Stages| - 1;
    while i >= 0
      invariant -1 <= i < |Stages|
      invariant forall j :: i < j < |Stages| ==> amount < Stages[j].threshold
    {
      if amount >= Stages[i].threshold {
        StageOfUnique(amount, i);
        return Stages[i].name;
      }
      i := i - 1;
    }
    StageOfUnique(amount, 0);
    return Stages[0].name;
  }

  /** `getCurrencyIcon`: four bands, at a thousand, a million and a billion. */
  function CurrencyIcon(amount: int): (icon: string)
    ensures icon == "unicorn" <==> amount >= 1000000000
    ensures icon == "rich" <==> 1000000 <= amount < 1000000000
    ensures icon == "money" <==> 1000 <= amount < 1000000
    ensures icon == "$" <==> amount < 1000
  {
    if amount >= 1000000000 then "unicorn"
    else if amount >= 1000000 then "rich"
    else if amount >= 1000 then "money"
    else "$"
  }

  // ---------------------------------------------------------------------
  // The widget's state and its local fallbacks
  // ---------------------------------------------------------------------

  /**
   * The widget's `state`: the counters it last received from a tool call, or
   * the starting values when it was opened without any.
   */
  class WidgetState {
    var clicks: int
    var multiplier: int
    var autoClickerLevel: int

    ghost predicate Valid()
      reads this
    {
      Economy.CountersInv(Counts())
    }

    function Counts(): Economy.Counters
      reads this
    {
      Economy.Counters(clicks, multiplier, autoClickerLevel)
    }

    /** `openai?.toolOutput || { clicks: 0, multiplier: 1, autoClickerLevel: 0 }`. */
    constructor (toolOutput: Option<Economy.GameState>)
      requires toolOutput.Some? ==> Economy.Inv(toolOutput.value)
      ensures Valid()
      ensures toolOutput.Some? ==> Counts() == Economy.CountersOf(toolOutput.value)
      ensures toolOutput.None? ==> Counts() == Economy.Counters(0, 1, 0)
    {
      if toolOutput.Some? {
        clicks := toolOutput.value.clicks;
        multiplier := toolOutput.value.multiplier;
        autoClickerLevel := toolOutput.value.autoClickerLevel;
      } else {
        clicks, multiplier, autoClickerLevel := 0, 1, 0;
      }
    }

    /** `getCurrentUpgrade`: the table entry whose base cost the server charges next. */
    function CurrentUpgrade(): (it: Item)
      reads this
      ensures it in Upgrades
      ensures multiplier >= 1 ==>
        it.cost == Economy.MultiplierBaseCosts[Economy.TierIndex(multiplier - 1, |Economy.MultiplierBaseCosts|)]
    {
      TablesMatchServer();
      Upgrades[UpgradeIndex(multiplier)]
    }

    /** `getCurrentHire`: the table entry whose base cost the server charges next. */
    function CurrentHire(): (it: Item)
      reads this
      ensures it in Hires
      ensures autoClickerLevel >= 0 ==>
        it.cost == Economy.AutoClickerBaseCosts[Economy.TierIndex(autoClickerLevel, |Economy.AutoClickerBaseCosts|)]
    {
      TablesMatchServer();
      Hires[HireIndex(autoClickerLevel)]
    }

    /** `localClick`: the server's `click` on the counters. */
    method LocalClick()
      requires Valid()
      modifies this
      ensures Valid()
      ensures Counts() == Economy.AfterClick(old(Counts()))
    {
      clicks := clicks + multiplier;
    }

    /** `localBuyMultiplier`: the server's `buy_multiplier` on the counters. */
    method LocalBuyMultiplier()
      requires Valid()
      modifies this
      ensures Valid()
      ensures Counts() == Economy.PurchaseMultiplier(old(Counts())).counters
    {
      var upgrade := CurrentUpgrade();
      var cost := Economy.GrowthCost(upgrade.cost, multiplier - 1);
      CostsMatchServer(multiplier, autoClickerLevel);
      if clicks >= cost {
        clicks := clicks - cost;
        multiplier := multiplier + 1;
      }
    }

    /** `localBuyAutoClicker`: the server's `buy_auto_clicker` on the counters. */
    method LocalBuyAutoClicker()
      requires Valid()
      modifies this
      ensures Valid()
      ensures Counts() == Economy.PurchaseAutoClicker(old(Counts())).counters
    {
      var hire := CurrentHire();
      var cost := Economy.GrowthCost(hire.cost, autoClickerLevel);
      CostsMatchServer(multiplier, autoClickerLevel);
      if clicks >= cost {
        clicks := clicks - cost;
        autoClickerLevel := autoClickerLevel + 1;
      }
    }

    /** `localAutoClick`: the server's `auto_click` on the counters. */
    method LocalAutoClick()
      requires Valid()
      modifies this
      ensures Valid()
      ensures Counts() == Economy.AfterAutoClick(old(Counts()))
    {
      if autoClickerLevel > 0 {
        clicks := clicks + autoClickerLevel;
      }
    }
  }
}
