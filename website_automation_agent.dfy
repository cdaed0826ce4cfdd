/** The unified agent: one agent declaring fifteen tool slots, three of which
    (`initializeBrowser`, `closeBrowser`, `findContactForm`) name nothing in the
    registry, with its instructions taken from the system-prompt table and no
    handoffs. */
module WebsiteAutomationAgent {
  import opened Common
  import opened BrowserTools
  import opened BrowserAutomation
  import opened Agents

  const UnifiedSlots := ["initializeBrowser", "takeScreenshot", "navigateToUrl", "clickElement", "fillInput",
                         "extractText", "waitForElement", "findFormFields", "findButtons", "getCurrentPageInfo",
                         "scrollPage", "selectOption", "extractLinks", "closeBrowser", "findContactForm"]

  function UnifiedAgent(engine: Engine): (a: Agent)
    ensures a.name == "Website Automation Agent" && a.handoffs == []
    ensures a.instructions == SystemPrompt("WEBSITE_AUTOMATION_AGENT")
    ensures a.tools == Destructure(CreateBrowserTools(engine), UnifiedSlots)
  {
    Agent("Website Automation Agent", Destructure(CreateBrowserTools(engine), UnifiedSlots),
          SystemPrompt("WEBSITE_AUTOMATION_AGENT"), [])
  }

  /** The twelve tools of the registry in its own order, each as a filled slot. */
  function RegistrySlots(engine: Engine): (slots: seq<Option<Tool>>)
    ensures |slots| == 12
    ensures forall i :: 0 <= i < 12 ==> slots[i] == Some(MakeTool(AllOps[i], engine))
  {
    seq(12, i requires 0 <= i < 12 => Some(MakeTool(AllOps[i], engine)))
  }

  /** Fifteen slots are declared: the first (`initializeBrowser`) and the last two
      (`closeBrowser`, `findContactForm`) are empty, and the twelve in between are
      the whole registry in its own order. */
  lemma UnifiedAgentTools(engine: Engine)
    ensures UnifiedAgent(engine).tools == [None] + RegistrySlots(engine) + [None, None]
  {
    var registry := CreateBrowserTools(engine);
    UnifiedSlotsSplit();
    DestructureAppend(registry, ["initializeBrowser"] + RegistryKeys(), ["closeBrowser", "findContactForm"]);
    DestructureAppend(registry, ["initializeBrowser"], RegistryKeys());
    UnresolvedSlots(engine);
    RegistryDestructures(engine);
  }

  /** The twelve middle names are the registry's keys, in the registry's order. */
  lemma UnifiedSlotsSplit()
    ensures UnifiedSlots == ["initializeBrowser"] + RegistryKeys() + ["closeBrowser", "findContactForm"]
  {
  }

  lemma UnresolvedSlots(engine: Engine)
    ensures Destructure(CreateBrowserTools(engine), ["initializeBrowser"]) == [None]
    ensures Destructure(CreateBrowserTools(engine), ["closeBrowser", "findContactForm"]) == [None, None]
  {
    NotRegistryKeys();
    DestructureKnown(engine, ["initializeBrowser"], [None]);
    DestructureKnown(engine, ["closeBrowser", "findContactForm"], [None, None]);
  }

  /** Three declared names denote no tool of the registry. */
  lemma NotRegistryKeys()
    ensures OpOfKey("initializeBrowser") == None
    ensures OpOfKey("closeBrowser") == None
    ensures OpOfKey("findContactForm") == None
  {
  }

  lemma RegistryDestructures(engine: Engine)
    ensures Destructure(CreateBrowserTools(engine), RegistryKeys()) == RegistrySlots(engine)
  {
    forall i | 0 <= i < 12 ensures Destructure(CreateBrowserTools(engine), RegistryKeys())[i] == RegistrySlots(engine)[i] {
      SlotHolds(engine, RegistryKeys(), i, AllOps[i]);
    }
  }

  lemma DestructureAppend(registry: map<string, Tool>, a: seq<string>, b: seq<string>)
    ensures Destructure(registry, a + b) == Destructure(registry, a) + Destructure(registry, b)
  {
  }

  /** The unified agent resolves exactly the twelve registry tools, in order. */
  lemma UnifiedAgentResolves(engine: Engine)
    ensures OpsOf(UnifiedAgent(engine).tools) == AllOps
    ensures |Resolved(UnifiedAgent(engine).tools)| == 12
  {
    var middle := RegistrySlots(engine);
    UnifiedAgentTools(engine);
    OpsOfFilled(middle, AllOps);
    OpsOfAppend([None], middle);
    OpsOfAppend([None] + middle, [None, None]);
    ResolvedLength(UnifiedAgent(engine).tools);
  }

  lemma {:induction false} OpsOfAppend(a: seq<Option<Tool>>, b: seq<Option<Tool>>)
    ensures OpsOf(a + b) == OpsOf(a) + OpsOf(b)
  {
    if a == [] {
      assert a + b == b;
    } else {
      assert (a + b)[0] == a[0];
      assert (a + b)[1..] == a[1..] + b;
      OpsOfAppend(a[1..], b);
    }
  }

  /** Slots that all hold a tool list exactly those tools' operations. */
  lemma {:induction false} OpsOfFilled(slots: seq<Option<Tool>>, ops: seq<Op>)
    requires |slots| == |ops|
    requires forall i :: 0 <= i < |slots| ==> slots[i].Some? && slots[i].value.op == ops[i]
    ensures OpsOf(slots) == ops
  {
    if slots != [] {
      OpsOfFilled(slots[1..], ops[1..]);
    }
  }

  lemma {:induction false} ResolvedLength(slots: seq<Option<Tool>>)
    ensures |Resolved(slots)| == |OpsOf(slots)|
  {
    if slots != [] {
      ResolvedLength(slots[1..]);
    }
  }

  /** `chatWithAgent`: a single-agent run, projected. */
  function ChatWithAgent<H, F>(engine: Engine, run: (Agent, string) -> RunResult<H, F>, userQuery: string): (c: ChatResponse<H, F>)
    ensures c == Project(run(UnifiedAgent(engine), userQuery))
  {
    Project(run(UnifiedAgent(engine), userQuery))
  }
}
