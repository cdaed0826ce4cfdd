/** The shape of an agent as the agent runtime receives it (a name, a tool list,
    instructions and handoffs) and the projection both `chatWithAgent` functions
    apply to a run's result. The runtime itself is not modelled: a run is an
    oracle from an agent and a query to a `RunResult`. */
module Agents {
  import opened Common
  import opened BrowserAutomation
  import opened BrowserTools

  /** Where an agent's instructions come from: a template literal written inline
      in the agent's factory, or a named entry of the system-prompt table. */
  datatype Instructions =
    | NavigationBrief | FormBrief | ExtractionBrief | GatewayBrief
    | SystemPrompt(key: string)

  /** A tool slot holding `None` is a destructured name the registry lacks, which
      the runtime receives as `undefined`. */
  datatype Agent = Agent(name: string, tools: seq<Option<Tool>>, instructions: Instructions, handoffs: seq<Agent>)

  /** `const { a, b, ... } = registry` followed by `[a, b, ...]`. */
  function Destructure(registry: map<string, Tool>, names: seq<string>): (slots: seq<Option<Tool>>)
    ensures |slots| == |names|
    ensures forall i :: 0 <= i < |names| ==> (slots[i].Some? <==> names[i] in registry)
    ensures forall i :: 0 <= i < |names| && names[i] in registry ==> slots[i] == Some(registry[names[i]])
  {
    seq(|names|, i requires 0 <= i < |names| => if names[i] in registry then Some(registry[names[i]]) else None)
  }

  /** A destructured name that is one of the registry's keys holds that tool. */
  lemma SlotHolds(engine: Engine, names: seq<string>, i: nat, op: Op)
    requires i < |names| && names[i] == KeyOf(op)
    ensures Destructure(CreateBrowserTools(engine), names)[i] == Some(MakeTool(op, engine))
  {
    RegistryCoversEveryOp(engine, op);
  }

  /** A destructured name the registry lacks holds nothing. */
  lemma SlotEmpty(engine: Engine, names: seq<string>, i: nat)
    requires i < |names| && OpOfKey(names[i]).None?
    ensures Destructure(CreateBrowserTools(engine), names)[i] == None
  {
  }

  /** The slots a list of names gives when what each name denotes is known:
      a tool on `engine` where the name is a key, nothing where it is not. */
  function Filled(ops: seq<Option<Op>>, engine: Engine): seq<Option<Tool>> {
    seq(|ops|, i requires 0 <= i < |ops| => if ops[i].Some? then Some(MakeTool(ops[i].value, engine)) else None)
  }

  /** Destructuring names whose meaning is known fills exactly the slots of the
      names that are keys, each with its own tool. */
  lemma DestructureKnown(engine: Engine, names: seq<string>, ops: seq<Option<Op>>)
    requires |names| == |ops|
    requires forall i :: 0 <= i < |names| ==> OpOfKey(names[i]) == ops[i]
    ensures Destructure(CreateBrowserTools(engine), names) == Filled(ops, engine)
  {
    forall i | 0 <= i < |names|
      ensures Destructure(CreateBrowserTools(engine), names)[i] == Filled(ops, engine)[i]
    {
      if ops[i].Some? {
        KeyRoundTrip(ops[i].value, names[i]);
        SlotHolds(engine, names, i, ops[i].value);
      } else {
        SlotEmpty(engine, names, i);
      }
    }
  }

  /** The tools of the slots that hold one, in slot order. */
  function Resolved(slots: seq<Option<Tool>>): (tools: seq<Tool>)
    ensures |tools| <= |slots|
    ensures forall i :: 0 <= i < |slots| && slots[i].Some? ==> slots[i].value in tools
    ensures forall k :: 0 <= k < |tools| ==> Some(tools[k]) in slots
  {
    if slots == [] then []
    else if slots[0].Some? then [slots[0].value] + Resolved(slots[1..])
    else Resolved(slots[1..])
  }

  /** What each resolved slot does, in slot order. */
  function OpsOf(slots: seq<Option<Tool>>): seq<Op> {
    if slots == [] then []
    else if slots[0].Some? then [slots[0].value.op] + OpsOf(slots[1..])
    else OpsOf(slots[1..])
  }

  /** The runner's result: the transcript, the agent that produced the final
      output (if the runtime reports one) and the final output. */
  datatype RunResult<H, F> = RunResult(history: H, lastAgent: Option<Agent>, finalOutput: F)

  /** `{ history, lastAgent: lastAgent?.name, finalOutput }`. */
  datatype ChatResponse<H, F> = ChatResponse(history: H, lastAgent: Option<string>, finalOutput: F)

  /** The projection both `chatWithAgent` functions return. */
  function Project<H, F>(run: RunResult<H, F>): (c: ChatResponse<H, F>)
    ensures c.history == run.history && c.finalOutput == run.finalOutput
    ensures c.lastAgent.None? <==> run.lastAgent.None?
    ensures run.lastAgent.Some? ==> c.lastAgent == Some(run.lastAgent.value.name)
  {
    ChatResponse(run.history, if run.lastAgent.Some? then Some(run.lastAgent.value.name) else None, run.finalOutput)
  }
}
