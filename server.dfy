/**
 * The server side: the process-wide map from user id to game state, its lazy
 * lookup, and the bodies of the six tool handlers. Each handler answers with a
 * narrative text and the full post-action state.
 */
module Server {
  import Economy
  import Decimal

  /** The id every handler uses; the source never threads a real caller identity through. */
  const DefaultUser: string := "default"

  datatype Content = Text(text: string)

  /** `{ content: [{ type: "text", text }], structuredContent }`. */
  datatype ToolResult = ToolResult(content: seq<Content>, structuredContent: Economy.GameState)

  /** The reply envelope: one text item holding the narrative, and the whole state. */
  function Narrated(text: string, s: Economy.GameState): (r: ToolResult)
    ensures |r.content| == 1 && r.content[0].text == text
    ensures r.structuredContent == s
  {
    ToolResult([Text(text)], s)
  }

  const ResetText: string := "Pivoted! Starting a new venture from the garage."

  class GameServer {
    /** When the module was loaded: the timestamp `defaultState` was built with. */
    const loadTime: int
    /** The shared `defaultState` object. */
    const defaultState: Economy.GameState
    /** `gameStates`: every user's state. */
    var gameStates: map<string, Economy.GameState>

    ghost predicate Valid()
      reads this
    {
      && defaultState == Economy.Default(loadTime)
      && forall u :: u in gameStates ==> Economy.Inv(gameStates[u])
    }

    /** The state `getState(userId)` yields: the stored one, or a fresh copy of the default. */
    function Current(userId: string): Economy.GameState
      reads this
    {
      if userId in gameStates then gameStates[userId] else defaultState
    }

    /** Loading the module: the default state is stamped with the load time; no user is known. */
    constructor (loadTime: int)
      ensures Valid()
      ensures this.loadTime == loadTime && defaultState == Economy.Default(loadTime)
      ensures gameStates == map[]
    {
      this.loadTime := loadTime;
      defaultState := Economy.Default(loadTime);
      gameStates := map[];
    }

    /**
     * `getState`: a known user's entry is returned as it is; an unknown user
     * gets a copy of the default state, which is stored. No other entry changes.
     */
    method GetState(userId: string) returns (s: Economy.GameState)
      requires Valid()
      modifies this
      ensures Valid()
      ensures userId in old(gameStates) ==> gameStates == old(gameStates) && s == old(gameStates)[userId]
      ensures userId !in old(gameStates) ==>
                gameStates == old(gameStates)[userId := defaultState] && s == defaultState
      ensures s == old(Current(userId)) && gameStates == old(gameStates)[userId := s]
    {
      if userId !in gameStates {
        gameStates := gameStates[userId := defaultState];
      }
      s := gameStates[userId];
    }

    /** The `click` tool: earn `multiplier` and stamp the time. */
    method Click(now: int) returns (r: ToolResult)
      requires Valid()
      modifies this
      ensures Valid()
      ensures gameStates == old(gameStates)[DefaultUser :=
                Economy.Step(old(Current(DefaultUser)), Economy.Click, now, loadTime)]
      ensures var s := gameStates[DefaultUser];
        r == Narrated("Hustled! Total: $" + Decimal.IntToString(s.clicks), s)
    {
      var state := GetState(DefaultUser);
      state := state.(clicks := state.clicks + state.multiplier);
      state := state.(lastUpdated := now);
      gameStates := gameStates[DefaultUser := state];
      r := Narrated("Hustled! Total: $" + Decimal.IntToString(state.clicks), state);
    }

    /** The `auto_click` tool: earn `autoClickerLevel`; without auto clickers, touch nothing. */
    method AutoClick(now: int) returns (r: ToolResult)
      requires Valid()
      modifies this
      ensures Valid()
      ensures gameStates == old(gameStates)[DefaultUser :=
                Economy.Step(old(Current(DefaultUser)), Economy.AutoClick, now, loadTime)]
      ensures old(Current(DefaultUser)).autoClickerLevel == 0 ==>
                gameStates[DefaultUser] == old(Current(DefaultUser))
      ensures var s := gameStates[DefaultUser];
        r == Narrated("Team earned! Total: $" + Decimal.IntToString(s.clicks), s)
    {
      var state := GetState(DefaultUser);
      if state.autoClickerLevel > 0 {
        state := state.(clicks := state.clicks + state.autoClickerLevel);
        state := state.(lastUpdated := now);
        gameStates := gameStates[DefaultUser := state];
      }
      r := Narrated("Team earned! Total: $" + Decimal.IntToString(state.clicks), state);
    }

    /**
     * The `buy_multiplier` tool: when `clicks` covers the cost, pay it, raise
     * the multiplier and stamp the time; otherwise change nothing and say how
     * much is needed.
     */
    method BuyMultiplier(now: int) returns (r: ToolResult)
      requires Valid()
      modifies this
      ensures Valid()
      ensures gameStates == old(gameStates)[DefaultUser :=
                Economy.Step(old(Current(DefaultUser)), Economy.BuyMultiplier, now, loadTime)]
      ensures var s, cost := gameStates[DefaultUser], Economy.MultiplierCost(old(Current(DefaultUser)).multiplier);
        if old(Current(DefaultUser)).clicks >= cost then
          s.clicks == old(Current(DefaultUser)).clicks - cost
          && r == Narrated("Upgraded! Multiplier is now " + Decimal.IntToString(s.multiplier) + "x", s)
        else
          s == old(Current(DefaultUser))
          && r == Narrated("Not enough funding! Need $" + Decimal.IntToString(cost), s)
    {
      var state := GetState(DefaultUser);
      var baseCosts := Economy.MultiplierBaseCosts;
      var idx := Economy.TierIndex(state.multiplier - 1, |baseCosts|);
      var cost := Economy.GrowthCost(baseCosts[idx], state.multiplier - 1);
      if state.clicks >= cost {
        state := state.(clicks := state.clicks - cost);
        state := state.(multiplier := state.multiplier + 1);
        state := state.(lastUpdated := now);
        gameStates := gameStates[DefaultUser := state];
        return Narrated("Upgraded! Multiplier is now " + Decimal.IntToString(state.multiplier) + "x", state);
      }
      r := Narrated("Not enough funding! Need $" + Decimal.IntToString(cost), state);
    }

    /**
     * The `buy_auto_clicker` tool: when `clicks` covers the cost, pay it, raise
     * the level and stamp the time; otherwise change nothing and say how much
     * is needed.
     */
    method BuyAutoClicker(now: int) returns (r: ToolResult)
      requires Valid()
      modifies this
      ensures Valid()
      ensures gameStates == old(gameStates)[DefaultUser :=
                Economy.Step(old(Current(DefaultUser)), Economy.BuyAutoClicker, now, loadTime)]
      ensures var s, cost := gameStates[DefaultUser], Economy.AutoClickerCost(old(Current(DefaultUser)).autoClickerLevel);
        if old(Current(DefaultUser)).clicks >= cost then
          s.clicks == old(Current(DefaultUser)).clicks - cost
          && r == Narrated("New hire! Team size: " + Decimal.IntToString(s.autoClickerLevel), s)
        else
          s == old(Current(DefaultUser))
          && r == Narrated("Not enough funding! Need $" + Decimal.IntToString(cost), s)
    {
      var state := GetState(DefaultUser);
      var baseCosts := Economy.AutoClickerBaseCosts;
      var idx := Economy.TierIndex(state.autoClickerLevel, |baseCosts|);
      var cost := Economy.GrowthCost(baseCosts[idx], state.autoClickerLevel);
      if state.clicks >= cost {
        state := state.(clicks := state.clicks - cost);
        state := state.(autoClickerLevel := state.autoClickerLevel + 1);
        state := state.(lastUpdated := now);
        gameStates := gameStates[DefaultUser := state];
        return Narrated("New hire! Team size: " + Decimal.IntToString(state.autoClickerLevel), state);
      }
      r := Narrated("Not enough funding! Need $" + Decimal.IntToString(cost), state);
    }

    /** The `get_game_state` tool: read only, apart from creating a missing entry. */
    method GetGameState() returns (r: ToolResult)
      requires Valid()
      modifies this
      ensures Valid()
      ensures gameStates == old(gameStates)[DefaultUser := old(Current(DefaultUser))]
      ensures DefaultUser in old(gameStates) ==> gameStates == old(gameStates)
      ensures var s := gameStates[DefaultUser];
        r == Narrated("Funding: $" + Decimal.IntToString(s.clicks)
                      + ", Multiplier: " + Decimal.IntToString(s.multiplier)
                      + "x, Team: " + Decimal.IntToString(s.autoClickerLevel), s)
    {
      var state := GetState(DefaultUser);
      r := Narrated("Funding: $" + Decimal.IntToString(state.clicks)
                    + ", Multiplier: " + Decimal.IntToString(state.multiplier)
                    + "x, Team: " + Decimal.IntToString(state.autoClickerLevel), state);
    }

    /**
     * The `reset_game` tool: the entry becomes a copy of `defaultState`, whose
     * timestamp is the load time, not `now`; the reply carries the shared
     * default itself. A second reset finds the default and leaves it.
     */
    method ResetGame(now: int) returns (r: ToolResult)
      requires Valid()
      modifies this
      ensures Valid()
      ensures gameStates == old(gameStates)[DefaultUser := defaultState]
      ensures gameStates[DefaultUser] == Economy.Step(old(Current(DefaultUser)), Economy.ResetGame, now, loadTime)
      ensures gameStates[DefaultUser].lastUpdated == loadTime
      ensures r == Narrated(ResetText, defaultState)
    {
      gameStates := gameStates[DefaultUser := defaultState];
      r := Narrated(ResetText, defaultState);
    }
  }
}
