/**
 * The tool protocol's fixed parts: the name of each tool, the `tools/list`
 * reply, and the switch `handleMCP` applies to a parsed request body.
 */
module Protocol {
  import opened Economy
  import opened Wrappers

  /** `{ type: "object", properties: {} }`, listing the properties a tool accepts. */
  datatype InputSchema = ObjectSchema(properties: seq<string>)

  datatype ToolInfo = ToolInfo(name: string, description: string, inputSchema: InputSchema)

  datatype McpResponse = ToolsList(tools: seq<ToolInfo>) | PlainOk(text: string)

  /** The name under which each action is exposed; it reads back as that action. */
  function ToolName(a: Action): (name: string)
    ensures ParseToolName(name) == Some(a)
  {
    match a
    case Click => "click"
    case AutoClick => "auto_click"
    case BuyMultiplier => "buy_multiplier"
    case BuyAutoClicker => "buy_auto_clicker"
    case GetGameState => "get_game_state"
    case ResetGame => "reset_game"
  }

  /** The action a tool name stands for: one of the six registered names, or none. */
  function ParseToolName(name: string): (r: Option<Action>)
    ensures r.Some? <==>
      name in {"click", "auto_click", "buy_multiplier", "buy_auto_clicker", "get_game_state", "reset_game"}
  {
    if name == "click" then Some(Click)
    else if name == "auto_click" then Some(AutoClick)
    else if name == "buy_multiplier" then Some(BuyMultiplier)
    else if name == "buy_auto_clicker" then Some(BuyAutoClicker)
    else if name == "get_game_state" then Some(GetGameState)
    else if name == "reset_game" then Some(ResetGame)
    else None
  }

  /** A name that reads as an action is that action's name, so names and actions correspond one to one. */
  lemma ParseToolNameSound(name: string, a: Action)
    requires ParseToolName(name) == Some(a)
    ensures ToolName(a) == name
  {
  }

  function NoParameters(): InputSchema {
    ObjectSchema([])
  }

  /** The `tools/list` reply, in the order the source lists the tools. */
  function ToolList(): (tools: seq<ToolInfo>)
    ensures |tools| == 6
    ensures forall i :: 0 <= i < |tools| ==> tools[i].inputSchema.properties == []
  {
    [
      ToolInfo(ToolName(Click), "Hustle to earn startup dollars", NoParameters()),
      ToolInfo(ToolName(AutoClick), "Passive income from team members", NoParameters()),
      ToolInfo(ToolName(BuyMultiplier), "Purchase startup upgrades", NoParameters()),
      ToolInfo(ToolName(BuyAutoClicker), "Hire team members", NoParameters()),
      ToolInfo(ToolName(GetGameState), "Check startup status", NoParameters()),
      ToolInfo(ToolName(ResetGame), "Pivot and start over", NoParameters())
    ]
  }

  /**
   * The listed names are exactly the six actions' names, each once: every
   * listed name stands for an action, and every action is listed.
   */
  lemma ToolListNamesActions()
    ensures forall i, j :: 0 <= i < j < |ToolList()| ==> ToolList()[i].name != ToolList()[j].name
    ensures forall i :: 0 <= i < |ToolList()| ==> ParseToolName(ToolList()[i].name).Some?
    ensures forall a: Action :: exists i :: 0 <= i < |ToolList()| && ToolList()[i].name == ToolName(a)
  {
    var t := ToolList();
    forall a: Action ensures exists i :: 0 <= i < |t| && t[i].name == ToolName(a) {
      match a
      case Click => assert t[0].name == ToolName(a);
      case AutoClick => assert t[1].name == ToolName(a);
      case BuyMultiplier => assert t[2].name == ToolName(a);
      case BuyAutoClicker => assert t[3].name == ToolName(a);
      case GetGameState => assert t[4].name == ToolName(a);
      case ResetGame => assert t[5].name == ToolName(a);
    }
  }

  /**
   * `handleMCP` after parsing the body: a `tools/list` request gets the list;
   * any other body, with or without a `method`, gets a plain `OK`.
   */
  function HandleMcp(requestMethod: Option<string>): (r: McpResponse)
    ensures r.ToolsList? <==> requestMethod == Some("tools/list")
    ensures r.ToolsList? ==> r.tools == ToolList()
    ensures r.PlainOk? ==> r.text == "OK"
  {
    if requestMethod == Some("tools/list") then ToolsList(ToolList()) else PlainOk("OK")
  }
}
