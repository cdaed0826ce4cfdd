/** The three specialised agents, each a fixed subset of the registry's tools,
    and the gateway that holds no tools and hands off to the three. Every agent
    destructures an `initializeBrowser` the registry does not have, so its first
    slot is empty; no agent holds anything that closes the engine. */
module SpecializedAgents {
  import opened Common
  import opened BrowserTools
  import opened BrowserAutomation
  import opened Agents

  const NavigationSlots := ["initializeBrowser", "takeScreenshot", "navigateToUrl", "clickElement", "waitForElement", "scrollPage"]
  const FormSlots := ["initializeBrowser", "takeScreenshot", "fillInput", "selectOption", "clickElement", "findFormFields", "findButtons"]
  const ExtractionSlots := ["initializeBrowser", "takeScreenshot", "extractText", "extractLinks", "waitForElement", "scrollPage"]

  function NavigationAgent(engine: Engine): (a: Agent)
    ensures a.name == "Browser Navigation Agent" && a.handoffs == []
    ensures a.tools == Destructure(CreateBrowserTools(engine), NavigationSlots)
  {
    Agent("Browser Navigation Agent", Destructure(CreateBrowserTools(engine), NavigationSlots), NavigationBrief, [])
  }

  function FormAgent(engine: Engine): (a: Agent)
    ensures a.name == "Form Automation Agent" && a.handoffs == []
    ensures a.tools == Destructure(CreateBrowserTools(engine), FormSlots)
  {
    Agent("Form Automation Agent", Destructure(CreateBrowserTools(engine), FormSlots), FormBrief, [])
  }

  function ExtractionAgent(engine: Engine): (a: Agent)
    ensures a.name == "Data Extraction Agent" && a.handoffs == []
    ensures a.tools == Destructure(CreateBrowserTools(engine), ExtractionSlots)
  {
    Agent("Data Extraction Agent", Destructure(CreateBrowserTools(engine), ExtractionSlots), ExtractionBrief, [])
  }

  function GatewayAgent(engine: Engine): (a: Agent)
    ensures a.name == "Browser Automation Gateway" && a.tools == []
    ensures a.handoffs == [NavigationAgent(engine), FormAgent(engine), ExtractionAgent(engine)]
  {
    Agent("Browser Automation Gateway", [], GatewayBrief,
          [NavigationAgent(engine), FormAgent(engine), ExtractionAgent(engine)])
  }

  /** The navigation agent: six slots, the first (`initializeBrowser`) empty,
      then screenshot, navigate, click, wait and scroll. */
  lemma NavigationAgentTools(engine: Engine)
    ensures NavigationAgent(engine).tools
         == [None, Some(MakeTool(TakeScreenshot, engine)), Some(MakeTool(NavigateToUrl, engine)),
             Some(MakeTool(ClickElement, engine)), Some(MakeTool(WaitForElement, engine)),
             Some(MakeTool(ScrollPage, engine))]
  {
    DestructureKnown(engine, NavigationSlots, [None, Some(TakeScreenshot), Some(NavigateToUrl), Some(ClickElement), Some(WaitForElement), Some(ScrollPage)]);
  }

  /** The form agent: seven slots, the first (`initializeBrowser`) empty, then
      screenshot, fill, select, click and the two scans. */
  lemma FormAgentTools(engine: Engine)
    ensures FormAgent(engine).tools
         == [None, Some(MakeTool(TakeScreenshot, engine)), Some(MakeTool(FillInput, engine)),
             Some(MakeTool(SelectOption, engine)), Some(MakeTool(ClickElement, engine)),
             Some(MakeTool(FindFormFields, engine)), Some(MakeTool(FindButtons, engine))]
  {
    DestructureKnown(engine, FormSlots, [None, Some(TakeScreenshot), Some(FillInput), Some(SelectOption), Some(ClickElement), Some(FindFormFields), Some(FindButtons)]);
  }

  /** The form agent can neither navigate nor extract. */
  lemma FormAgentStaysOnPage(engine: Engine, t: Tool)
    requires Some(t) in FormAgent(engine).tools
    ensures t.op != NavigateToUrl && t.op != ExtractText && t.op != ExtractLinks
  {
    FormAgentTools(engine);
  }

  /** The extraction agent: six slots, the first (`initializeBrowser`) empty,
      then screenshot, text, links, wait and scroll. */
  lemma ExtractionAgentTools(engine: Engine)
    ensures ExtractionAgent(engine).tools
         == [None, Some(MakeTool(TakeScreenshot, engine)), Some(MakeTool(ExtractText, engine)),
             Some(MakeTool(ExtractLinks, engine)), Some(MakeTool(WaitForElement, engine)),
             Some(MakeTool(ScrollPage, engine))]
  {
    DestructureKnown(engine, ExtractionSlots, [None, Some(TakeScreenshot), Some(ExtractText), Some(ExtractLinks), Some(WaitForElement), Some(ScrollPage)]);
  }

  /** Every tool an agent behind the gateway holds is a registry tool on the one
      shared engine, and each of them only reads the engine (`Execute`), so
      nothing reachable through the gateway initialises or closes it. */
  lemma GatewayToolsShareTheEngine(engine: Engine, a: Agent, t: Tool)
    requires a in GatewayAgent(engine).handoffs
    requires Some(t) in a.tools
    ensures t.engine == engine
    ensures KeyOf(t.op) in CreateBrowserTools(engine)
  {
    var i :| 0 <= i < |a.tools| && a.tools[i] == Some(t);
    RegistryCoversEveryOp(engine, t.op);
  }

  /** `chatWithAgent`: run the gateway on the query and project the result. */
  function ChatWithAgent<H, F>(engine: Engine, run: (Agent, string) -> RunResult<H, F>, userQuery: string): (c: ChatResponse<H, F>)
    ensures c == Project(run(GatewayAgent(engine), userQuery))
  {
    Project(run(GatewayAgent(engine), userQuery))
  }
}
