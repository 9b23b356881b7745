/**
 * The economy engine of the Startup Hustle clicker game: the per-user game
 * state, the two purchase tracks and their cost curve, and the six actions a
 * player can take, as pure functions. The server's tool handlers and the
 * widget's local fallback are both specified by these functions.
 */
module Economy {

  /** One user's game state, as the server stores it. */
  datatype GameState = GameState(clicks: int, multiplier: int, autoClickerLevel: int, lastUpdated: int)

  /** The three counters the economy works on (everything but the timestamp). */
  datatype Counters = Counters(clicks: int, multiplier: int, autoClickerLevel: int)

  /** The six actions, one per tool the server exposes. */
  datatype Action = Click | AutoClick | BuyMultiplier | BuyAutoClicker | GetGameState | ResetGame

  /** One action taken at one instant. */
  datatype Event = Event(action: Action, now: int)

  /** The outcome of a purchase: the new counters, whether it was bought, and what it cost. */
  datatype Purchase = Purchase(counters: Counters, bought: bool, cost: int)

  /** The state the server keeps as `defaultState`; its timestamp is the module's load time. */
  function Default(loadTime: int): (s: GameState)
    ensures s.clicks == 0 && s.multiplier == 1 && s.autoClickerLevel == 0
    ensures s.lastUpdated == loadTime
  {
    GameState(0, 1, 0, loadTime)
  }

  function CountersOf(s: GameState): Counters {
    Counters(s.clicks, s.multiplier, s.autoClickerLevel)
  }

  /** `s` with its counters replaced by `c` and its timestamp set to `now`. */
  function Stamped(c: Counters, now: int): (s: GameState)
    ensures CountersOf(s) == c && s.lastUpdated == now
  {
    GameState(c.clicks, c.multiplier, c.autoClickerLevel, now)
  }

  /** The invariant every reachable state keeps. */
  predicate CountersInv(c: Counters) {
    c.clicks >= 0 && c.multiplier >= 1 && c.autoClickerLevel >= 0
  }

  predicate Inv(s: GameState) {
    CountersInv(CountersOf(s))
  }

  // ---------------------------------------------------------------------
  // The cost curve
  // ---------------------------------------------------------------------

  /** Base costs of the multiplier track (`buy_multiplier`). */
  const MultiplierBaseCosts: seq<nat> := [15, 75, 300, 1000, 5000, 25000, 100000, 500000]

  /** Base costs of the auto-clicker track (`buy_auto_clicker`). */
  const AutoClickerBaseCosts: seq<nat> := [20, 150, 800, 4000, 20000, 100000]

  predicate Ascending(t: seq<nat>) {
    forall i, j :: 0 <= i < j < |t| ==> t[i] <= t[j]
  }

  function Pow(b: nat, e: nat): (r: nat)
    ensures b >= 1 ==> r >= 1
    decreases e
  {
    if e == 0 then 1 else b * Pow(b, e - 1)
  }

  lemma {:induction false} PowThreeAtLeastPowTwo(e: nat)
    ensures Pow(3, e) >= Pow(2, e) >= 1
    decreases e
  {
    if e > 0 {
      PowThreeAtLeastPowTwo(e - 1);
    }
  }

  /**
   * `floor(base * 1.5^tier)`, computed exactly as `base * 3^tier / 2^tier`:
   * the result is the unique integer r with r <= base * 1.5^tier < r + 1.
   */
  function GrowthCost(base: nat, tier: nat): (r: nat)
    ensures r * Pow(2, tier) <= base * Pow(3, tier) < (r + 1) * Pow(2, tier)
  {
    var q := Pow(2, tier);
    var x := base * Pow(3, tier);
    assert x == (x / q) * q + x % q && 0 <= x % q < q;
    x / q
  }

  /** `Math.min(tier, n - 1)` for a table of length `n`: the index of the base cost. */
  function TierIndex(tier: nat, n: nat): (i: nat)
    requires n >= 1
    ensures i < n
    ensures tier < n ==> i == tier
    ensures tier >= n ==> i == n - 1
  {
    if tier < n - 1 then tier else n - 1
  }

  /** The cost of the next multiplier, tier `multiplier - 1`. */
  function MultiplierCost(multiplier: int): (c: nat)
    requires multiplier >= 1
    ensures var tier := multiplier - 1;
      var base := MultiplierBaseCosts[TierIndex(tier, |MultiplierBaseCosts|)];
      c * Pow(2, tier) <= base * Pow(3, tier) < (c + 1) * Pow(2, tier)
  {
    var tier := multiplier - 1;
    GrowthCost(MultiplierBaseCosts[TierIndex(tier, |MultiplierBaseCosts|)], tier)
  }

  /** The cost of the next auto clicker, tier `autoClickerLevel`. */
  function AutoClickerCost(autoClickerLevel: int): (c: nat)
    requires autoClickerLevel >= 0
    ensures var tier := autoClickerLevel;
      var base := AutoClickerBaseCosts[TierIndex(tier, |AutoClickerBaseCosts|)];
      c * Pow(2, tier) <= base * Pow(3, tier) < (c + 1) * Pow(2, tier)
  {
    var tier := autoClickerLevel;
    GrowthCost(AutoClickerBaseCosts[TierIndex(tier, |AutoClickerBaseCosts|)], tier)
  }

  lemma MulMonotone(a: int, b: int, k: int)
    requires a <= b && k >= 0
    ensures a * k <= b * k
  {
    assert b * k - a * k == (b - a) * k;
  }

  /** A tier never costs less than its base cost, since 1.5^tier >= 1. */
  lemma GrowthCostAtLeastBase(base: nat, tier: nat)
    ensures GrowthCost(base, tier) >= base
  {
    PowThreeAtLeastPowTwo(tier);
    FloorAtLeast(base, Pow(3, tier), Pow(2, tier), GrowthCost(base, tier));
  }

  /** If r is the floor of base * p / q and p >= q > 0, then r >= base. */
  lemma FloorAtLeast(base: nat, p: int, q: int, r: int)
    requires p >= q >= 1
    requires base * p < (r + 1) * q
    ensures r >= base
  {
    MulMonotone(q, p, base);
    assert base * q <= base * p;
    if r < base {
      MulMonotone(r + 1, base, q);
    }
  }

  /**
   * One tier further along the curve, from a base cost of at least 2 to a base
   * no smaller, the cost strictly rises: floor(1.5 x) > floor(x) once x >= 2.
   */
  lemma GrowthCostStep(base: nat, base': nat, tier: nat)
    requires 2 <= base <= base'
    ensures GrowthCost(base, tier) < GrowthCost(base', tier + 1)
  {
    PowThreeAtLeastPowTwo(tier);
    var p, q := Pow(3, tier), Pow(2, tier);
    assert Pow(3, tier + 1) == 3 * p && Pow(2, tier + 1) == q * 2;
    FloorStep(base, base', p, q, GrowthCost(base, tier), GrowthCost(base', tier + 1));
  }

  /**
   * The arithmetic behind GrowthCostStep: with c = floor(b p / q) and
   * c' = floor(b' 3p / 2q), b * p >= 2q gives 3 b p >= 2q (c + 1), so c' > c.
   */
  lemma FloorStep(b: int, b': int, p: int, q: int, c: int, c': int)
    requires 2 <= b <= b' && p >= q >= 1
    requires c * q <= b * p
    requires b' * (3 * p) < (c' + 1) * (q * 2)
    ensures c < c'
  {
    MulMonotone(2, b, p);
    MulMonotone(q, p, 2);
    assert b * p >= 2 * q;
    MulMonotone(b, b', 3 * p);
    assert b' * (3 * p) >= 3 * (b * p);
    assert 3 * (b * p) >= 2 * (c * q) + 2 * q;
    assert (c' + 1) * (q * 2) > (c + 1) * (q * 2);
    if c' < c {
      MulMonotone(c' + 1, c + 1, q * 2);
    }
  }

  lemma BaseCostTablesAscending()
    ensures Ascending(MultiplierBaseCosts) && Ascending(AutoClickerBaseCosts)
    ensures forall i :: 0 <= i < |MultiplierBaseCosts| ==> MultiplierBaseCosts[i] >= 2
    ensures forall i :: 0 <= i < |AutoClickerBaseCosts| ==> AutoClickerBaseCosts[i] >= 2
  {
  }

  /** Each multiplier costs strictly more than the one before, past the end of the table too. */
  lemma MultiplierCostIncreasing(multiplier: int)
    requires multiplier >= 1
    ensures MultiplierCost(multiplier) < MultiplierCost(multiplier + 1)
  {
    BaseCostTablesAscending();
    var n := |MultiplierBaseCosts|;
    GrowthCostStep(MultiplierBaseCosts[TierIndex(multiplier - 1, n)],
                   MultiplierBaseCosts[TierIndex(multiplier, n)], multiplier - 1);
  }

  /** Each auto clicker costs strictly more than the one before, past the end of the table too. */
  lemma AutoClickerCostIncreasing(autoClickerLevel: int)
    requires autoClickerLevel >= 0
    ensures AutoClickerCost(autoClickerLevel) < AutoClickerCost(autoClickerLevel + 1)
  {
    BaseCostTablesAscending();
    var n := |AutoClickerBaseCosts|;
    GrowthCostStep(AutoClickerBaseCosts[TierIndex(autoClickerLevel, n)],
                   AutoClickerBaseCosts[TierIndex(autoClickerLevel + 1, n)], autoClickerLevel);
  }

  /** Every purchase costs something: at least 15 for a multiplier, 20 for an auto clicker. */
  lemma CostsPositive(multiplier: int, autoClickerLevel: int)
    requires multiplier >= 1 && autoClickerLevel >= 0
    ensures MultiplierCost(multiplier) >= 15 && AutoClickerCost(autoClickerLevel) >= 20
  {
    var n, k := |MultiplierBaseCosts|, |AutoClickerBaseCosts|;
    GrowthCostAtLeastBase(MultiplierBaseCosts[TierIndex(multiplier - 1, n)], multiplier - 1);
    GrowthCostAtLeastBase(AutoClickerBaseCosts[TierIndex(autoClickerLevel, k)], autoClickerLevel);
  }

  /** The first costs on each track: 15 and 112 for multipliers, 20 and 225 for auto clickers. */
  lemma FirstCosts()
    ensures MultiplierCost(1) == 15 && MultiplierCost(2) == 112
    ensures AutoClickerCost(0) == 20 && AutoClickerCost(1) == 225
  {
    assert Pow(3, 1) == 3 && Pow(2, 1) == 2;
  }

  // ---------------------------------------------------------------------
  // The actions on the counters
  // ---------------------------------------------------------------------

  /** `click`: earn `multiplier`. */
  function AfterClick(c: Counters): (r: Counters)
    ensures r.clicks - c.clicks == c.multiplier
    ensures r.multiplier == c.multiplier && r.autoClickerLevel == c.autoClickerLevel
    ensures CountersInv(c) ==> CountersInv(r) && r.clicks > c.clicks
  {
    c.(clicks := c.clicks + c.multiplier)
  }

  /** `auto_click`: earn `autoClickerLevel`, and nothing at all without an auto clicker. */
  function AfterAutoClick(c: Counters): (r: Counters)
    ensures c.autoClickerLevel > 0 ==> r.clicks - c.clicks == c.autoClickerLevel
    ensures c.autoClickerLevel <= 0 ==> r == c
    ensures r.multiplier == c.multiplier && r.autoClickerLevel == c.autoClickerLevel
    ensures CountersInv(c) ==> CountersInv(r)
  {
    if c.autoClickerLevel > 0 then c.(clicks := c.clicks + c.autoClickerLevel) else c
  }

  /** `buy_multiplier`: bought exactly when affordable (`>=`); paid for in clicks. */
  function PurchaseMultiplier(c: Counters): (p: Purchase)
    requires c.multiplier >= 1
    ensures p.cost == MultiplierCost(c.multiplier)
    ensures p.bought <==> c.clicks >= p.cost
    ensures p.bought ==> (p.counters.clicks == c.clicks - p.cost
                          && p.counters.multiplier == c.multiplier + 1
                          && p.counters.autoClickerLevel == c.autoClickerLevel)
    ensures !p.bought ==> p.counters == c
    ensures CountersInv(c) ==> CountersInv(p.counters)
  {
    var cost := MultiplierCost(c.multiplier);
    if c.clicks >= cost then
      Purchase(c.(clicks := c.clicks - cost, multiplier := c.multiplier + 1), true, cost)
    else
      Purchase(c, false, cost)
  }

  /** `buy_auto_clicker`: bought exactly when affordable (`>=`); paid for in clicks. */
  function PurchaseAutoClicker(c: Counters): (p: Purchase)
    requires c.autoClickerLevel >= 0
    ensures p.cost == AutoClickerCost(c.autoClickerLevel)
    ensures p.bought <==> c.clicks >= p.cost
    ensures p.bought ==> (p.counters.clicks == c.clicks - p.cost
                          && p.counters.autoClickerLevel == c.autoClickerLevel + 1
                          && p.counters.multiplier == c.multiplier)
    ensures !p.bought ==> p.counters == c
    ensures CountersInv(c) ==> CountersInv(p.counters)
  {
    var cost := AutoClickerCost(c.autoClickerLevel);
    if c.clicks >= cost then
      Purchase(c.(clicks := c.clicks - cost, autoClickerLevel := c.autoClickerLevel + 1), true, cost)
    else
      Purchase(c, false, cost)
  }

  /**
   * A purchase either changes nothing or both spends clicks and raises its
   * level; never one without the other.
   */
  lemma PurchaseAllOrNothing(c: Counters)
    requires CountersInv(c)
    ensures var p := PurchaseMultiplier(c);
      (p.counters.clicks == c.clicks) <==> (p.counters.multiplier == c.multiplier)
    ensures var p := PurchaseAutoClicker(c);
      (p.counters.clicks == c.clicks) <==> (p.counters.autoClickerLevel == c.autoClickerLevel)
  {
    CostsPositive(c.multiplier, c.autoClickerLevel);
  }

  // ---------------------------------------------------------------------
  // The actions on a stored game state
  // ---------------------------------------------------------------------

  /**
   * What one action does to one user's stored state at time `now`. Every
   * action that changes the counters stamps `now`; an `auto_click` without
   * auto clickers and a failed purchase leave the state, timestamp included,
   * as it was; a reset restores the defaults, stamped with the load time.
   */
  function Step(s: GameState, a: Action, now: int, loadTime: int): (r: GameState)
    requires Inv(s)
    ensures Inv(r)
    ensures a == GetGameState ==> r == s
    ensures a == ResetGame ==> r == Default(loadTime)
    ensures a != ResetGame ==> r.multiplier >= s.multiplier && r.autoClickerLevel >= s.autoClickerLevel
    ensures a != ResetGame && r != s ==> r.lastUpdated == now
    ensures a == Click ==> r == Stamped(AfterClick(CountersOf(s)), now)
  {
    match a
    case Click => Stamped(AfterClick(CountersOf(s)), now)
    case AutoClick =>
      if s.autoClickerLevel > 0 then Stamped(AfterAutoClick(CountersOf(s)), now) else s
    case BuyMultiplier =>
      var p := PurchaseMultiplier(CountersOf(s));
      if p.bought then Stamped(p.counters, now) else s
    case BuyAutoClicker =>
      var p := PurchaseAutoClicker(CountersOf(s));
      if p.bought then Stamped(p.counters, now) else s
    case GetGameState => s
    case ResetGame => Default(loadTime)
  }

  /** The state reached from `s` by a sequence of events. */
  function Run(s: GameState, events: seq<Event>, loadTime: int): (r: GameState)
    requires Inv(s)
    ensures Inv(r)
    decreases |events|
  {
    if events == [] then s
    else Run(Step(s, events[0].action, events[0].now, loadTime), events[1..], loadTime)
  }

  /** Every state reachable from the default state keeps the invariant. */
  lemma ReachableInv(loadTime: int, events: seq<Event>)
    ensures Inv(Run(Default(loadTime), events, loadTime))
  {
  }

  /** Without a reset, neither level ever decreases. */
  lemma {:induction false} LevelsNeverDecrease(s: GameState, events: seq<Event>, loadTime: int)
    requires Inv(s)
    requires forall i :: 0 <= i < |events| ==> events[i].action != ResetGame
    ensures Run(s, events, loadTime).multiplier >= s.multiplier
    ensures Run(s, events, loadTime).autoClickerLevel >= s.autoClickerLevel
    decreases |events|
  {
    if events != [] {
      var s' := Step(s, events[0].action, events[0].now, loadTime);
      assert events[1..][0..] == events[1..];
      forall i | 0 <= i < |events[1..]| ensures events[1..][i].action != ResetGame {
        assert events[1..][i] == events[i + 1];
      }
      LevelsNeverDecrease(s', events[1..], loadTime);
    }
  }

  /** Resetting twice is resetting once, whatever happened before. */
  lemma {:induction false} ResetIdempotent(s: GameState, now: int, now': int, loadTime: int)
    requires Inv(s)
    ensures Run(s, [Event(ResetGame, now), Event(ResetGame, now')], loadTime)
         == Run(s, [Event(ResetGame, now)], loadTime)
  {
    var once := Step(s, ResetGame, now, loadTime);
    var twice := Step(once, ResetGame, now', loadTime);
    assert [Event(ResetGame, now), Event(ResetGame, now')][1..] == [Event(ResetGame, now')];
    assert [Event(ResetGame, now')][1..] == [];
    assert [Event(ResetGame, now)][1..] == [];
    assert Run(s, [Event(ResetGame, now)], loadTime) == Run(once, [], loadTime) == once;
    assert Run(once, [Event(ResetGame, now')], loadTime) == Run(twice, [], loadTime) == twice;
  }
}
