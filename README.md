# Browser automation tool — a Dafny model of its core

This project models the deterministic core of an AI browser-automation tool.
A language-model agent drives a Playwright browser through a fixed set of
tools, and a web client streams the run's events into a log. The model covers
the parts of that system that are logic rather than I/O:

- **The browser engine** (`browser_automation.dfy`, module `BrowserAutomation`).
  The engine is a class with three nullable handles: browser, context and page.
  `initialize` fills them one at a time and `close` empties them in order.
  Every page action refuses to run without a page. The result-returning actions
  turn driver failures into `success: false` results; `scrollPage`,
  `selectOption`, `extractLinks` and `getPageTitle` let the failure propagate.
  The Playwright driver is an oracle value, `DriverIO`, that says how each call
  the engine makes would settle. The pure parts are modelled as functions:
  option defaults, selector synthesis for discovered fields and buttons, and
  the link filter.
- **The tool registry** (`browser_tools.dfy`, module `BrowserTools`). There are
  twelve tools, all on one shared engine, with their argument defaults and
  their pass-through or echo results.
- **The agents** (`agents.dfy`, `specialized_agents.dfy`,
  `website_automation_agent.dfy`). Each agent is a fixed list of tool slots
  looked up in the registry. A slot whose name is not a registry key stays
  empty. The gateway hands off to three agents. `chatWithAgent` projects the
  runner's result.
- **The client hook** (`use_automation.dfy`, module `UseAutomation`). It is a
  class with the hook's state: `isRunning`, `isConnected`, `sessionId`, the log,
  `currentUrl`, the event-source ref and the reconnect-timer ref. Its methods
  are the hook's handlers.
- **Error classification and request validation** (`error_handler.dfy`,
  `validation.dfy`). These are pure functions over closed datatypes.

`common.dfy` holds the values shared by all modules:
- `Option`;
- what JavaScript code can throw;
- `Completion`, which says how an asynchronous call settles;
- `String.prototype.trim`;
- decimal rendering of a count.

Facts about the code that shape the model:
- All tools and all agents share one module-level engine (`lib/browser-tools.ts:12`).
- `close` stops at its first failing step and leaves the remaining handles set.
- The reconnect guard reads a stale running flag (see Findings).
- `connectToStream` closes the previous event source but not a pending reconnect timer.
- No code implements a contact-form discovery strategy or a step ceiling for the
  tool-call loop; the first exists only as prompt text, the second only as a
  runtime default.

## Model

| member | source | states |
|---|---|---|
| Common.MessageOf | lib/browser-automation.ts:120 | an `Error` contributes its message, any other thrown value "Unknown error" |
| Common.Shown | lib/browser-automation.ts:98 | an interpolated `Error` reads `name: message`, only the name when the message is empty, only the message when the name is empty; another value its own text |
| Common.Trim | lib/browser-automation.ts:309 | the result is an infix of the input with only whitespace cut on either side and no whitespace at either end |
| Common.TrimEmptyIffBlank | hooks/use-automation.ts:106 | a string trims to empty exactly when every character is whitespace |
| Common.NatToString | lib/browser-automation.ts:282 | a count renders as a non-empty string of digits without a leading zero (except for 0) |
| Common.DecimalRoundTrip | lib/browser-automation.ts:282 | reading the rendered count back gives the count |
| Common.NatToStringInjective | lib/browser-automation.ts:320 | different counts render differently, so the "Found n …" message determines n |
| BrowserAutomation.Spread | lib/browser-automation.ts:60-66 | one field of the spread: an omitted field takes the default, an own property wins even when `undefined` |
| BrowserAutomation.NoOverridesGiveDefaults | lib/browser-automation.ts:60-67 | an empty options object gives exactly the defaults |
| BrowserAutomation.ResolveOptions | lib/browser-automation.ts:60-67 | headless false, timeout 30000 and a 1280×720 viewport; a field the caller gives replaces its default, and a field given as `undefined` leaves the option undefined |
| BrowserAutomation.Succeeded | lib/browser-automation.ts:111-115 | a successful result carries no error |
| BrowserAutomation.Failed | lib/browser-automation.ts:116-121 | a failed result carries the caught value's message as its error |
| BrowserAutomation.AndThen | lib/browser-automation.ts:107-109 | two awaited calls in one `try`: a failing first call is the one caught, and after a successful first call the outcome is the second call's |
| BrowserAutomation.AttrOr | lib/browser-automation.ts:266 | `attr \|\| default`: an absent or empty attribute gives the default |
| BrowserAutomation.LowerAscii | lib/browser-automation.ts:265 | same length; each upper-case ASCII letter becomes its lower-case counterpart and every other character is unchanged |
| BrowserAutomation.FieldSelector | lib/browser-automation.ts:271-275 | the field selector is empty exactly when the element has neither id nor name |
| BrowserAutomation.ButtonSelector | lib/browser-automation.ts:312-314 | a button always gets a non-empty selector |
| BrowserAutomation.FieldSelectorTargets | lib/browser-automation.ts:271-275 | a field selector addresses the id when there is one, else the name, and is empty exactly when both are empty |
| BrowserAutomation.ButtonSelectorTargets | lib/browser-automation.ts:312-314 | a button selector addresses the id when there is one, else the trimmed text, and is never empty |
| BrowserAutomation.DescribeField | lib/browser-automation.ts:259-276 | type defaults to "text" and is never empty; name, id and required are copied; the selector is the field selector |
| BrowserAutomation.DescribeButton | lib/browser-automation.ts:306-315 | type defaults to "button"; the text is trimmed; id and class default to empty; the selector is the button selector |
| BrowserAutomation.DescribeFields | lib/browser-automation.ts:255-278 | one description per scanned element, in scan order |
| BrowserAutomation.DescribeButtons | lib/browser-automation.ts:300-316 | one description per scanned element, in scan order |
| BrowserAutomation.NonEmptyHrefs | lib/browser-automation.ts:388-392 | no link is empty and no more links than matches |
| BrowserAutomation.NonEmptyHrefsAppend | lib/browser-automation.ts:388-392 | the filter distributes over concatenation, so links keep match order |
| BrowserAutomation.NonEmptyHrefsCount | lib/browser-automation.ts:388-392 | every non-empty href occurs among the links exactly as often as it was matched |
| BrowserAutomation.InitializeSpec | lib/browser-automation.ts:69-100 | succeeds exactly when launch, context and page all succeed, and then holds exactly those three handles; a failing launch changes nothing, a failing context keeps the new browser, a failing page keeps the new browser and context; each failure throws "Failed to initialize browser: " followed by the driver's error |
| BrowserAutomation.CloseSpec | lib/browser-automation.ts:346-363 | page, then context, then browser are nulled; a failing page close changes nothing, a failing context close leaves only the page nulled, a failing browser close leaves only the browser set; everything is null exactly when every needed step succeeds |
| BrowserAutomation.CloseEmptyIsNoOp | lib/browser-automation.ts:346-363 | closing an engine that holds nothing changes nothing |
| BrowserAutomation.CloseIdempotent | lib/browser-automation.ts:346-363 | closing twice equals closing once |
| BrowserAutomation.CloseSucceeds | lib/browser-automation.ts:346-363 | when the driver closes everything, no handle is left and `isInitialized()` is false |
| BrowserAutomation.InitializeReplaces | lib/browser-automation.ts:69-85 | with no double-init guard, a second `initialize` behaves exactly as on a fresh engine: it succeeds and holds only the three new handles |
| BrowserAutomation.Slots.Initialized | lib/browser-automation.ts:395-397 | initialised means a browser and a page are held; the context is not consulted |
| BrowserAutomation.Engine.IsInitialized | lib/browser-automation.ts:395-397 | `isInitialized()` of the engine's current handles |
| BrowserAutomation.Engine.constructor | lib/browser-automation.ts:60-67 | the options are the resolved options and all three handles are null |
| BrowserAutomation.Engine.Initialize | lib/browser-automation.ts:69-100 | the new handles and the outcome are those of `InitializeSpec` |
| BrowserAutomation.Engine.Close | lib/browser-automation.ts:346-363 | never throws; the new handles are those of `CloseSpec` |
| BrowserAutomation.Engine.Navigate | lib/browser-automation.ts:102-123 | throws "Browser not initialized" exactly without a page; otherwise succeeds exactly when `goto` and `title` do, with `{url, title}` and the success message; a failure carries the failure message, no data, and as error the message of whichever call threw |
| BrowserAutomation.Engine.TakeScreenshot | lib/browser-automation.ts:125-156 | throws "Browser not initialized" exactly without a page; a capture is `data:image/png;base64,` followed by the driver's text; a failed capture is rethrown as "Failed to take screenshot: …" |
| BrowserAutomation.Engine.ClickElement | lib/browser-automation.ts:158-178 | throws "Browser not initialized" exactly without a page; succeeds exactly when waiting (10000 ms) and clicking succeed, with "Successfully clicked element: " and the selector; a failure is a result carrying the failure message and the thrown call's message as error |
| BrowserAutomation.Engine.FillInput | lib/browser-automation.ts:180-200 | as click, with the fill call and the fill messages; no data either way; a failure carries the thrown call's message as error |
| BrowserAutomation.Engine.ExtractText | lib/browser-automation.ts:202-223 | as click, with `textContent`: a success carries the text and "Successfully extracted text from: " and the selector; a failure carries "Failed to extract text from: " and the selector, no data, and the thrown call's message as error |
| BrowserAutomation.Engine.WaitForElement | lib/browser-automation.ts:225-247 | waits with the given timeout or 10000; success exactly when the wait succeeds, with "Element appeared: "; a failure carries "Element did not appear: ", no data and the wait's error message |
| BrowserAutomation.Engine.FindFormFields | lib/browser-automation.ts:249-292 | the described fields in scan order and "Found n form fields" with n their count; a failed scan is a failed result with no data and the scan's error message |
| BrowserAutomation.Engine.FindButtons | lib/browser-automation.ts:294-330 | the described buttons in scan order and "Found n buttons"; a failed scan is a failed result with no data and the scan's error message |
| BrowserAutomation.Engine.GetCurrentUrl | lib/browser-automation.ts:332-337 | throws "Browser not initialized" exactly without a page, else the page's URL |
| BrowserAutomation.Engine.GetPageTitle | lib/browser-automation.ts:339-344 | without a page it throws "Browser not initialized"; otherwise the driver's outcome, a failure propagating |
| BrowserAutomation.Engine.ScrollPage | lib/browser-automation.ts:365-375 | without a page it throws "Browser not initialized"; otherwise the driver's outcome, a failure propagating |
| BrowserAutomation.Engine.SelectOption | lib/browser-automation.ts:377-382 | without a page it throws "Browser not initialized"; otherwise the driver's outcome, a failure propagating |
| BrowserAutomation.Engine.ExtractLinks | lib/browser-automation.ts:384-393 | without a page it throws "Browser not initialized"; a driver failure propagates; a driver success gives exactly the non-empty hrefs in match order, each with its multiplicity |
| BrowserTools.ToolNamesDistinct | lib/browser-tools.ts:14-160 | different tools are registered under different names |
| BrowserTools.KeyRoundTrip | lib/browser-tools.ts:162-175 | keys and tools correspond one to one |
| BrowserTools.RegistryKeys | lib/browser-tools.ts:162-175 | twelve keys, the i-th naming the i-th tool of the record |
| BrowserTools.CreateBrowserTools | lib/browser-tools.ts:162-175 | a key is present exactly when it names one of the twelve tools, and it maps to that tool on the shared engine |
| BrowserTools.RegistryCoversEveryOp | lib/browser-tools.ts:162-175 | every tool is in the record under its own key |
| BrowserTools.RegistryKeysDistinct | lib/browser-tools.ts:162-175 | no two keys of the record are equal |
| BrowserTools.RegistryHasTwelveTools | lib/browser-tools.ts:162-175 | the record holds exactly twelve tools |
| BrowserTools.Execute | lib/browser-tools.ts:14-160 | without a page every tool throws "Browser not initialized"; seven tools return the engine's result unchanged; screenshot, page info, scroll, select and links succeed exactly when their engine calls return, throw exactly the engine call's error otherwise, and wrap or echo as `{screenshot}`, `{url, title}`, `{x, y}`, `{selector, value}`, `{links}` |
| BrowserTools.WaitTimeoutDefault | lib/browser-tools.ts:78-86 | an omitted timeout is the same call as a timeout of 10000 |
| BrowserTools.ToolOnFreshEngine | lib/browser-tools.ts:12 | every tool built on a fresh engine fails with "Browser not initialized" |
| Agents.Destructure | lib/specialized-agents.ts:17-24 | a slot holds the registry's tool exactly when its name is a key, else nothing |
| Agents.DestructureKnown | lib/specialized-agents.ts:17-24 | names whose registry meaning is known destructure to exactly the tools they denote on the shared engine, and to nothing where they denote none |
| Agents.Resolved | lib/specialized-agents.ts:28-35 | the tools of the filled slots, no more and no others |
| Agents.Project | lib/specialized-agents.ts:195-199 | history and final output pass unchanged; `lastAgent` is the last agent's name, absent exactly when the runner reports none |
| SpecializedAgents.NavigationAgent | lib/specialized-agents.ts:15-56 | named "Browser Navigation Agent", no handoffs, its slots destructured from the registry |
| SpecializedAgents.FormAgent | lib/specialized-agents.ts:59-103 | named "Form Automation Agent", no handoffs, its slots destructured from the registry |
| SpecializedAgents.ExtractionAgent | lib/specialized-agents.ts:106-148 | named "Data Extraction Agent", no handoffs, its slots destructured from the registry |
| SpecializedAgents.GatewayAgent | lib/specialized-agents.ts:151-181 | no tools of its own; hands off to exactly the navigation, form and extraction agents, in that order |
| SpecializedAgents.NavigationAgentTools | lib/specialized-agents.ts:28-35 | six slots: an empty `initializeBrowser`, then screenshot, navigate, click, wait, scroll |
| SpecializedAgents.FormAgentTools | lib/specialized-agents.ts:73-81 | seven slots: an empty `initializeBrowser`, then screenshot, fill, select, click, find fields, find buttons |
| SpecializedAgents.FormAgentStaysOnPage | lib/specialized-agents.ts:73-81 | the form agent holds no navigate, extract-text or extract-links tool |
| SpecializedAgents.ExtractionAgentTools | lib/specialized-agents.ts:119-126 | six slots: an empty `initializeBrowser`, then screenshot, extract text, extract links, wait, scroll |
| SpecializedAgents.GatewayToolsShareTheEngine | lib/browser-tools.ts:12 | every tool reachable through the gateway is a registry tool on the one shared engine, which tools only read |
| SpecializedAgents.ChatWithAgent | lib/specialized-agents.ts:188-201 | the projection of a run of the gateway on the query |
| WebsiteAutomationAgent.UnifiedAgent | lib/website-automation-agent.ts:5-46 | named "Website Automation Agent", instructions the `WEBSITE_AUTOMATION_AGENT` prompt, no handoffs |
| WebsiteAutomationAgent.UnifiedSlotsSplit | lib/website-automation-agent.ts:7-23 | the fifteen names are `initializeBrowser`, the twelve registry keys in order, then `closeBrowser` and `findContactForm` |
| WebsiteAutomationAgent.UnresolvedSlots | lib/website-automation-agent.ts:7-23 | `initializeBrowser`, `closeBrowser` and `findContactForm` resolve to nothing |
| WebsiteAutomationAgent.UnifiedAgentTools | lib/website-automation-agent.ts:27-43 | fifteen slots: an empty one, the whole registry in order, two empty ones |
| WebsiteAutomationAgent.UnifiedAgentResolves | lib/website-automation-agent.ts:27-43 | exactly twelve slots resolve, and they are the twelve tools in registry order |
| WebsiteAutomationAgent.ChatWithAgent | lib/website-automation-agent.ts:52-65 | the projection of a single-agent run on the query |
| UseAutomation.LogOf | hooks/use-automation.ts:69-75 | a message's entry keeps its id, rendered time, type, message and data, and its screenshot is `data.screenshot` (absent without data) |
| UseAutomation.Deliver | hooks/use-automation.ts:61-83 | heartbeats and unparseable frames change nothing; any other frame appends exactly one entry at the end; `currentUrl` moves only to a carried non-empty `data.url` |
| UseAutomation.Kept | hooks/use-automation.ts:65-75 | at most one entry per frame |
| UseAutomation.DeliverAll | hooks/use-automation.ts:61-83 | frames are handled one at a time in arrival order; the log never shrinks and grows by at most one entry per frame |
| UseAutomation.DeliverAllAppends | hooks/use-automation.ts:40 | after any run of frames the log is the old log followed by the kept frames' entries in arrival order |
| UseAutomation.DeliverAllUrl | hooks/use-automation.ts:77-79 | after any run of frames `currentUrl` is unchanged or the URL some delivered message carried |
| UseAutomation.StartFailure | hooks/use-automation.ts:129-131 | a refusal throws `response.error`, or "Failed to start automation" when that is missing or empty; a thrown value is caught as is |
| UseAutomation.ReconnectDue | hooks/use-automation.ts:88 | the intended guard: automatic reconnection on, a session, and a run in progress now |
| UseAutomation.ReconnectDueAsWritten | hooks/use-automation.ts:88 | the guard as written: it reads the running flag the closure captured |
| UseAutomation.AutomationHook.constructor | hooks/use-automation.ts:22-32 | all flags false, empty session, log and URL, no event source or timer; `autoReconnect` defaults to true |
| UseAutomation.AutomationHook.AddLog | hooks/use-automation.ts:34-45 | appends exactly the new entry at the end and changes nothing else |
| UseAutomation.AutomationHook.ConnectToStream | hooks/use-automation.ts:47-54 | the previous event source is closed and exactly one, fresh, is open and referenced |
| UseAutomation.AutomationHook.OnOpen | hooks/use-automation.ts:56-59 | only `isConnected` changes, to true |
| UseAutomation.AutomationHook.OnMessage | hooks/use-automation.ts:61-83 | log and URL change as `Deliver` says; nothing else changes |
| UseAutomation.AutomationHook.OnError | hooks/use-automation.ts:85-94 | `isConnected` becomes false; a 3000 ms reconnect for the subscription's session is scheduled exactly when `autoReconnect`, the session is non-empty and a run is in progress |
| UseAutomation.AutomationHook.OnClose | hooks/use-automation.ts:96-99 | only `isConnected` changes, to false (a browser `EventSource` never fires `close`, so this handler never runs) |
| UseAutomation.AutomationHook.FireTimer | hooks/use-automation.ts:90-92 | the timer is spent and the stream reopens for the captured session |
| UseAutomation.AutomationHook.BeginRun | hooks/use-automation.ts:110-112 | running, empty log, empty URL, nothing else changed |
| UseAutomation.AutomationHook.StartAutomation | hooks/use-automation.ts:104-143 | a blank prompt throws "Prompt is required" and changes nothing; an accepted start stores the session, opens its stream and leaves exactly the server's message in the log; any other outcome leaves exactly one "Error: …" entry, clears `isRunning` and rethrows |
| UseAutomation.AutomationHook.AcceptStart | hooks/use-automation.ts:117-128 | the session is stored, a fresh stream opened for it and the server's message appended; nothing else changes |
| UseAutomation.AutomationHook.FailStart | hooks/use-automation.ts:132-139 | one "Error: …" entry is appended and `isRunning` cleared; nothing else changes |
| UseAutomation.AutomationHook.StopAutomation | hooks/use-automation.ts:145-176 | without a session nothing changes; on success the stream is closed and the ref cleared, the latest timer cleared, both flags false, "Automation stopped by user" appended; on failure "Error stopping automation: …" appended and rethrown |
| UseAutomation.AutomationHook.ClearLogs | hooks/use-automation.ts:178-180 | only the log changes, to empty |
| UseAutomation.AutomationHook.Unmount | hooks/use-automation.ts:183-192 | the current event source is closed and the latest timer cleared; nothing else changes |
| UseAutomation.AtMostOneSubscription | hooks/use-automation.ts:49-54 | in every valid state at most one event source is open |
| UseAutomation.StartFromIdleScenario | hooks/use-automation.ts:88 | after a start from idle, the guard as written refuses to reconnect while the guard on the current flag accepts |
| ErrorHandler.NewAutomationError | lib/error-handler.ts:20-29 | code defaults to "AUTOMATION_ERROR" and status to 500 |
| ErrorHandler.NewValidationError | lib/error-handler.ts:31-40 | status defaults to 400 |
| ErrorHandler.NewSessionError | lib/error-handler.ts:42-51 | status defaults to 404 |
| ErrorHandler.HandleApiError | lib/error-handler.ts:53-129 | throws exactly when one of the three classes chose a status that cannot carry a JSON body; otherwise a failure body: 400 for a `ZodError`, the error's own status for the three classes, 500 otherwise, with codes, messages and details per class |
| ErrorHandler.Json | lib/error-handler.ts:142 | `NextResponse.json` answers exactly for a status in 200..599 other than 204, 205 and 304, with the body unchanged; out of range is a `RangeError` |
| ErrorHandler.WireStatus | lib/error-handler.ts:142 | the status is reduced modulo 2^16, so a status in range is kept as given |
| ErrorHandler.UnusableStatusThrows | lib/error-handler.ts:20-29 | an automation error with status 600 makes `handleApiError` throw a `RangeError`, a session error with 204 a `TypeError` |
| ErrorHandler.SpecificClassesWin | lib/error-handler.ts:57-118 | the three classes are `Error`s yet are reported under their own class: "Internal server error" exactly for other `Error`s |
| ErrorHandler.DefaultsReachTheResponse | lib/error-handler.ts:20-51 | default-constructed errors are answered, with 400, 404 with "SESSION_ERROR", and 500 with "AUTOMATION_ERROR" |
| ErrorHandler.CreateSuccessResponse | lib/error-handler.ts:131-144 | status 200 unless given; a given status is answered exactly when it can carry a JSON body, and then the reply holds it and the data unchanged |
| ErrorHandler.WithErrorHandler | lib/error-handler.ts:147-157 | a completed handler's reply passes unchanged; a throw becomes exactly `handleApiError` of it, which itself may throw |
| ErrorHandler.WrappedSuccessIsHandlers | lib/error-handler.ts:147-157 | a success from the wrapped handler is the handler's own reply |
| ErrorHandler.WrappedRejectsOnlyOnUnusableStatus | lib/error-handler.ts:147-157 | the wrapped handler rejects exactly when the handler threw one of the three classes with a status that cannot carry a JSON body |
| Validation.ValidConfig | lib/validation.ts:5-13 | the config schema: an object whose present fields have the declared type and range |
| Validation.ValidRequest | lib/validation.ts:3-14 | the request schema: an object with a string prompt of at least ten characters and an optional valid config |
| Validation.ConfigOf | lib/validation.ts:5-13 | each present, well-typed config field is carried with its value; each absent one is left out |
| Validation.Parse | lib/validation.ts:3-14 | a valid parse carries the body's prompt, and a config exactly when one was sent, holding the sent values; an invalid one has at least one issue |
| Validation.ConfigIssuesExactly | lib/validation.ts:5-13 | a config has no issues exactly when it is an object whose present fields are typed and in range |
| Validation.ParseAcceptsExactlyValid | lib/validation.ts:3-14 | the parse succeeds exactly on the requests the schema describes |
| Validation.ShortPromptRefused | lib/validation.ts:4 | a prompt shorter than ten characters is refused with "Prompt must be at least 10 characters long" |
| Validation.LongPromptAccepted | lib/validation.ts:4 | every prompt of at least ten characters, whitespace or not, is accepted unchanged |
| Validation.TenSpacesAccepted | lib/validation.ts:4 | ten spaces are a valid prompt: nothing is trimmed |
| Validation.NumericBounds | lib/validation.ts:8-11 | temperature bounds are inclusive; `maxTokens` and `timeout` refuse zero; `headless` must be a boolean |

## Left out

- Playwright itself: launching, navigation and network idle, selector waits, the DOM scans run by `page.evaluate`, the form screenshot and base64 encoding. Each driver call is an oracle outcome in `DriverIO`.
- `setDefaultTimeout`, the console and page-error listeners and the launch arguments of `initialize`. They change nothing the engine's own methods read.
- `console.error` logging in `close`, in the hook's message handler and in `handleApiError`.
- The agent runtime (`Agent`, `Runner`), the language model, handoff decisions and the instruction texts. A run is a function parameter, and instructions are tags.
- The contact-form discovery rules. They exist only as prompt text in `lib/system-prompts.ts`, which is not part of this model.
- The hook's `onUpdate`, `onConnect` and `onDisconnect` callbacks, which are caller code.
- Log ids (`Date.now`, `Math.random`) and `toLocaleTimeString`. Both are inputs, and a frame's raw timestamp is not kept.
- The 3000 ms delay is recorded on each pending timer, but time itself is not modelled: a timer fires when `FireTimer` is called.
- The API client and the start route: `lib/api-client.ts` and `app/api/automation/start/route.ts` are not part of this model. `apiClient` defines neither `createEventSource` nor `stopAutomation`, so the event source and the stop call are modelled as capabilities that exist. Their outcomes are inputs.
- `UseAutomation.AutomationHook.StartAutomation`: a handler runs to completion before the next one starts. Stream messages that could arrive while the start request is awaited are not interleaved, and the unused `existingSessionId` argument is left out.
- React rendering: state updates take effect immediately in the model. The one place where render timing changes behaviour, the captured running flag, is modelled explicitly (see Findings).
- `Validation.ParseAcceptsExactlyValid`: numbers are exact reals, so `NaN`, infinities and floating-point rounding are not modelled. Zod's default issue messages are not modelled; only the prompt's own message is.
- `Validation.ShortPromptRefused`: the prompt's length counts Unicode characters, where JavaScript counts UTF-16 code units.
- `BrowserAutomation.LowerAscii`: only ASCII letters are lowered. Tag names are ASCII.
- `ErrorHandler.HandleApiError`: a status code is an integer. A non-integer or `NaN` status, which WebIDL truncates or turns into 0, is not modelled.
- `BrowserAutomation.DescribeButton`: `textContent` is taken to be a string. It is never null for an element.
- The UI components and the system-prompt tables. They only render or hold text.
- `BrowserTools.Execute`: scroll coordinates and the wait timeout are JavaScript numbers, modelled as exact reals. `NaN`, infinities and floating-point rounding are not modelled. The same holds for the engine's `timeout` and `viewport` options.
- `UseAutomation.Deliver`: a frame that parses to a value other than `null` but has no string `type` or `message` is not represented. Examples are `5` and `{}`. The source logs such a frame with those fields undefined or holding that value. The model's `Frame` carries only string `type` and `message` fields and an optional `data` object.

## Findings

| source | as written | input that shows it | evidently intended | confidence | as-written member | corrected member |
|---|---|---|---|---|---|---|
| hooks/use-automation.ts:88 | the error handler tests the `isRunning` captured when the `connectToStream` in use was created, which for a start from idle is the render before `setIsRunning(true)` took effect | a fresh hook with the default `autoReconnect`; `startAutomation("Open the pricing page")` is accepted with session "s1"; then the transport fails: no reconnect is scheduled although the run is in progress | reconnect when the run is in progress at the time of the error, that is, read the current flag | medium, not executed | UseAutomation.StartFromIdleScenario | UseAutomation.AutomationHook.OnError |
