/** The capability registry: twelve named tools, each a thin wrapper around one
    engine action of the one engine the module creates. A tool fills in its
    argument defaults, calls the engine, and either hands back the engine's
    `AutomationResult` unchanged or echoes its own arguments. No tool initialises
    or closes the engine. */
module BrowserTools {
  import opened Common
  import opened BrowserAutomation

  /** The twelve tools, in the order of the record `createBrowserTools` returns. */
  datatype Op =
    | TakeScreenshot | NavigateToUrl | ClickElement | FillInput | ExtractText | WaitForElement
    | FindFormFields | FindButtons | GetCurrentPageInfo | ScrollPage | SelectOption | ExtractLinks

  /** The key of each tool in the returned record (the name agents destructure). */
  function KeyOf(op: Op): string {
    match op
    case TakeScreenshot => "takeScreenshot"
    case NavigateToUrl => "navigateToUrl"
    case ClickElement => "clickElement"
    case FillInput => "fillInput"
    case ExtractText => "extractText"
    case WaitForElement => "waitForElement"
    case FindFormFields => "findFormFields"
    case FindButtons => "findButtons"
    case GetCurrentPageInfo => "getCurrentPageInfo"
    case ScrollPage => "scrollPage"
    case SelectOption => "selectOption"
    case ExtractLinks => "extractLinks"
  }

  /** The name each tool is registered under with the agent runtime. */
  function ToolName(op: Op): string {
    match op
    case TakeScreenshot => "take_screenshot"
    case NavigateToUrl => "navigate_to_url"
    case ClickElement => "click_element"
    case FillInput => "fill_input"
    case ExtractText => "extract_text"
    case WaitForElement => "wait_for_element"
    case FindFormFields => "find_form_fields"
    case FindButtons => "find_buttons"
    case GetCurrentPageInfo => "get_current_page_info"
    case ScrollPage => "scroll_page"
    case SelectOption => "select_option"
    case ExtractLinks => "extract_links"
  }

  /** The agent runtime tells tools apart by name: no two tools share one. */
  lemma ToolNamesDistinct(a: Op, b: Op)
    requires a != b
    ensures ToolName(a) != ToolName(b)
  {
  }

  /** The tool a key of the record names, if any: destructuring a key the record
      lacks gives `undefined`. */
  function OpOfKey(key: string): (r: Option<Op>)
  {
    match key
    case "takeScreenshot" => Some(TakeScreenshot)
    case "navigateToUrl" => Some(NavigateToUrl)
    case "clickElement" => Some(ClickElement)
    case "fillInput" => Some(FillInput)
    case "extractText" => Some(ExtractText)
    case "waitForElement" => Some(WaitForElement)
    case "findFormFields" => Some(FindFormFields)
    case "findButtons" => Some(FindButtons)
    case "getCurrentPageInfo" => Some(GetCurrentPageInfo)
    case "scrollPage" => Some(ScrollPage)
    case "selectOption" => Some(SelectOption)
    case "extractLinks" => Some(ExtractLinks)
    case _ => None
  }

  /** Keys and tools are in one-to-one correspondence. */
  lemma KeyRoundTrip(op: Op, key: string)
    ensures OpOfKey(KeyOf(op)) == Some(op)
    ensures OpOfKey(key).Some? ==> KeyOf(OpOfKey(key).value) == key
  {
  }

  const AllOps: seq<Op> := [TakeScreenshot, NavigateToUrl, ClickElement, FillInput, ExtractText, WaitForElement,
                            FindFormFields, FindButtons, GetCurrentPageInfo, ScrollPage, SelectOption, ExtractLinks]

  /** The keys of the record, in order. */
  function RegistryKeys(): (keys: seq<string>)
    ensures |keys| == 12
    ensures forall i :: 0 <= i < 12 ==> keys[i] == KeyOf(AllOps[i])
  {
    seq(12, i requires 0 <= i < 12 => KeyOf(AllOps[i]))
  }

  /** Where each tool stands in `AllOps`. */
  lemma IndexOf(op: Op) returns (i: nat)
    ensures i < 12 && AllOps[i] == op
  {
    i := match op
      case TakeScreenshot => 0 case NavigateToUrl => 1 case ClickElement => 2 case FillInput => 3
      case ExtractText => 4 case WaitForElement => 5 case FindFormFields => 6 case FindButtons => 7
      case GetCurrentPageInfo => 8 case ScrollPage => 9 case SelectOption => 10 case ExtractLinks => 11;
  }

  /** Every key that names a tool is one of the record's keys. */
  lemma KeysListed(key: string)
    requires OpOfKey(key).Some?
    ensures key in RegistryKeys()
  {
    var op := OpOfKey(key).value;
    KeyRoundTrip(op, key);
    var i := IndexOf(op);
    assert RegistryKeys()[i] == key;
  }

  /** A tool: its registered name, what it does, and the engine it acts on. */
  datatype Tool = Tool(name: string, op: Op, engine: Engine)

  function MakeTool(op: Op, engine: Engine): Tool {
    Tool(ToolName(op), op, engine)
  }

  /** `createBrowserTools()`. Every tool it returns acts on `engine`, the one
      module-level engine, so tools from different calls share one browser. */
  function CreateBrowserTools(engine: Engine): (r: map<string, Tool>)
    ensures forall k :: k in r <==> OpOfKey(k).Some?
    ensures forall k :: k in r ==> r[k] == MakeTool(OpOfKey(k).value, engine) && KeyOf(r[k].op) == k
  {
    var r := map k | k in RegistryKeys() && OpOfKey(k).Some? :: MakeTool(OpOfKey(k).value, engine);
    assert forall k :: OpOfKey(k).Some? ==> k in r by {
      forall k | OpOfKey(k).Some? ensures k in r {
        KeysListed(k);
      }
    }
    assert forall k :: k in r ==> KeyOf(r[k].op) == k by {
      forall k | k in r ensures KeyOf(r[k].op) == k {
        KeyRoundTrip(r[k].op, k);
      }
    }
    r
  }

  /** Every one of the twelve operations has exactly one entry, under its key. */
  lemma RegistryCoversEveryOp(engine: Engine, op: Op)
    ensures KeyOf(op) in CreateBrowserTools(engine)
    ensures CreateBrowserTools(engine)[KeyOf(op)] == MakeTool(op, engine)
  {
    KeyRoundTrip(op, KeyOf(op));
  }

  /** No two keys of the record are equal. */
  lemma RegistryKeysDistinct()
    ensures forall i, j :: 0 <= i < j < 12 ==> RegistryKeys()[i] != RegistryKeys()[j]
  {
    var keys := RegistryKeys();
    forall i, j | 0 <= i < j < 12
      ensures keys[i] != keys[j]
    {
      KeyRoundTrip(AllOps[i], keys[i]);
      KeyRoundTrip(AllOps[j], keys[j]);
    }
  }

  lemma {:induction false} DistinctSeqCardinality(s: seq<string>)
    requires forall i, j :: 0 <= i < j < |s| ==> s[i] != s[j]
    ensures |set k | k in s| == |s|
  {
    if s != [] {
      var rest := s[1..];
      DistinctSeqCardinality(rest);
      assert (set k | k in s) == {s[0]} + (set k | k in rest);
      assert s[0] !in rest;
    }
  }

  /** `createBrowserTools()` returns exactly twelve tools. */
  lemma RegistryHasTwelveTools(engine: Engine)
    ensures |CreateBrowserTools(engine)| == 12
  {
    var r := CreateBrowserTools(engine);
    var keys := RegistryKeys();
    assert r.Keys == set k | k in keys by {
      forall k | k in r ensures k in keys {
        KeysListed(k);
      }
      forall k | k in keys ensures k in r {
        var i :| 0 <= i < 12 && keys[i] == k;
        KeyRoundTrip(AllOps[i], k);
      }
    }
    RegistryKeysDistinct();
    DistinctSeqCardinality(keys);
  }

  // ---------------------------------------------------------------------------
  // Arguments and outputs

  /** Tool arguments after the runtime has parsed them against each tool's schema;
      `WaitArgs.timeout` is `None` when the caller left it out. */
  datatype ToolArgs =
    | NoArgs
    | UrlArgs(url: string)
    | SelectorArgs(selector: string)
    | SelectorValueArgs(selector: string, value: string)
    | WaitArgs(selector: string, timeout: Option<real>)
    | PointArgs(x: real, y: real)

  /** The argument shape each tool's schema declares. */
  predicate ArgsFit(op: Op, args: ToolArgs) {
    match op
    case TakeScreenshot | FindFormFields | FindButtons | GetCurrentPageInfo => args.NoArgs?
    case NavigateToUrl => args.UrlArgs?
    case ClickElement | ExtractText | ExtractLinks => args.SelectorArgs?
    case FillInput | SelectOption => args.SelectorValueArgs?
    case WaitForElement => args.WaitArgs?
    case ScrollPage => args.PointArgs?
  }

  datatype ToolOutput =
    | ScreenshotOut(screenshot: string)
    | ResultOut(result: AutomationResult)
    | PageInfoOut(url: string, title: string)
    | PointOut(x: real, y: real)
    | SelectedOut(selector: string, value: string)
    | LinksOut(links: seq<string>)

  /** The zod default of `wait_for_element`'s timeout. */
  const ToolWaitTimeout := 10000.0

  function AsResult(c: Completion<AutomationResult>): (r: Completion<ToolOutput>)
    ensures c.Returned? <==> r.Returned?
    ensures c.Returned? ==> r.value == ResultOut(c.value)
    ensures c.Threw? ==> r == Threw(c.thrown)
  {
    match c
    case Returned(v) => Returned(ResultOut(v))
    case Threw(e) => Threw(e)
  }

  /** The seven tools that return the engine's own result. */
  predicate ReturnsEngineResult(op: Op) {
    op in {NavigateToUrl, ClickElement, FillInput, ExtractText, WaitForElement, FindFormFields, FindButtons}
  }

  /** The engine result a result-returning tool hands back unchanged. */
  function EngineResult(tool: Tool, args: ToolArgs, io: DriverIO): Completion<AutomationResult>
    requires ReturnsEngineResult(tool.op) && ArgsFit(tool.op, args)
    reads tool.engine
  {
    var e := tool.engine;
    match tool.op
    case NavigateToUrl => e.Navigate(args.url, io)
    case ClickElement => e.ClickElement(args.selector, io)
    case FillInput => e.FillInput(args.selector, args.value, io)
    case ExtractText => e.ExtractText(args.selector, io)
    case WaitForElement => e.WaitForElement(args.selector, Some(args.timeout.GetOr(ToolWaitTimeout)), io)
    case FindFormFields => e.FindFormFields(io)
    case FindButtons => e.FindButtons(io)
  }

  /** A tool's `execute`. It only reads the engine: no tool changes the engine's
      handles. */
  function Execute(tool: Tool, args: ToolArgs, io: DriverIO): (r: Completion<ToolOutput>)
    requires ArgsFit(tool.op, args)
    reads tool.engine
    ensures tool.engine.page.None? ==> r == Threw(NotInitialized)
    ensures ReturnsEngineResult(tool.op) ==> r == AsResult(EngineResult(tool, args, io))
    ensures tool.op == ScrollPage && r.Returned? ==> r.value == PointOut(args.x, args.y)
    ensures tool.op == SelectOption && r.Returned? ==> r.value == SelectedOut(args.selector, args.value)
    ensures tool.op == TakeScreenshot && r.Returned? ==>
              tool.engine.TakeScreenshot(io).Returned? && r.value == ScreenshotOut(tool.engine.TakeScreenshot(io).value)
    ensures tool.op == GetCurrentPageInfo && r.Returned? ==>
              tool.engine.page.Some? && io.title.Returned? && r.value == PageInfoOut(io.url, io.title.value)
    ensures tool.op == ExtractLinks && r.Returned? ==>
              tool.engine.ExtractLinks(args.selector, io).Returned?
              && r.value == LinksOut(tool.engine.ExtractLinks(args.selector, io).value)
    ensures tool.op == TakeScreenshot ==>
              (r.Returned? <==> tool.engine.TakeScreenshot(io).Returned?)
              && (r.Threw? ==> r == Threw(tool.engine.TakeScreenshot(io).thrown))
    ensures tool.op == GetCurrentPageInfo ==> (r.Returned? <==> tool.engine.page.Some? && io.title.Returned?)
    ensures tool.op == GetCurrentPageInfo && tool.engine.page.Some? && io.title.Threw? ==> r == Threw(io.title.thrown)
    ensures tool.op == ScrollPage ==>
              (r.Returned? <==> tool.engine.ScrollPage(args.x, args.y, io).Returned?)
              && (r.Threw? ==> r == Threw(tool.engine.ScrollPage(args.x, args.y, io).thrown))
    ensures tool.op == SelectOption ==>
              (r.Returned? <==> tool.engine.SelectOption(args.selector, args.value, io).Returned?)
              && (r.Threw? ==> r == Threw(tool.engine.SelectOption(args.selector, args.value, io).thrown))
    ensures tool.op == ExtractLinks ==>
              (r.Returned? <==> tool.engine.ExtractLinks(args.selector, io).Returned?)
              && (r.Threw? ==> r == Threw(tool.engine.ExtractLinks(args.selector, io).thrown))
  {
    var e := tool.engine;
    match tool.op
    case TakeScreenshot =>
      (match e.TakeScreenshot(io)
       case Returned(s) => Returned(ScreenshotOut(s))
       case Threw(x) => Threw(x))
    case NavigateToUrl | ClickElement | FillInput | ExtractText | WaitForElement | FindFormFields | FindButtons =>
      AsResult(EngineResult(tool, args, io))
    case GetCurrentPageInfo =>
      (match e.GetCurrentUrl(io)
       case Threw(x) => Threw(x)
       case Returned(url) =>
         match e.GetPageTitle(io)
         case Threw(x) => Threw(x)
         case Returned(title) => Returned(PageInfoOut(url, title)))
    case ScrollPage =>
      (match e.ScrollPage(args.x, args.y, io)
       case Returned(_) => Returned(PointOut(args.x, args.y))
       case Threw(x) => Threw(x))
    case SelectOption =>
      (match e.SelectOption(args.selector, args.value, io)
       case Returned(_) => Returned(SelectedOut(args.selector, args.value))
       case Threw(x) => Threw(x))
    case ExtractLinks =>
      (match e.ExtractLinks(args.selector, io)
       case Returned(links) => Returned(LinksOut(links))
       case Threw(x) => Threw(x))
  }

  /** Leaving out `wait_for_element`'s timeout is passing 10000 to the engine. */
  lemma WaitTimeoutDefault(tool: Tool, selector: string, io: DriverIO)
    requires tool.op == WaitForElement
    ensures Execute(tool, WaitArgs(selector, None), io) == Execute(tool, WaitArgs(selector, Some(10000.0)), io)
    ensures Execute(tool, WaitArgs(selector, None), io) == AsResult(tool.engine.WaitForElement(selector, Some(10000.0), io))
  {
  }

  /** Built on a fresh engine, every tool of the registry fails with "Browser not
      initialized": nothing in the registry can initialise the engine. */
  method ToolOnFreshEngine(overrides: OptionOverrides, op: Op, args: ToolArgs, io: DriverIO)
    returns (r: Completion<ToolOutput>)
    requires ArgsFit(op, args)
    ensures r == Threw(NotInitialized)
  {
    var engine := new Engine(overrides);
    var tools := CreateBrowserTools(engine);
    RegistryCoversEveryOp(engine, op);
    r := Execute(tools[KeyOf(op)], args, io);
  }
}
