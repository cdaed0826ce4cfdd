/** The browser automation engine: one browser, one context and one page held in
    three nullable slots, a lifecycle that fills them (`initialize`) and empties
    them (`close`), and the page actions, each of which refuses to run without a
    page and turns driver failures into an `AutomationResult` or lets them
    propagate, as the source does action by action.

    The browser driver is an oracle: `DriverIO` says how each driver call the
    engine makes would settle. Nothing about the browser itself is modelled. */
module BrowserAutomation {
  import opened Common

  // ---------------------------------------------------------------------------
  // Options

  /** A JavaScript number is modelled as a `real`. */
  datatype Viewport = Viewport(width: real, height: real)

  /** One field of the caller's `BrowserAutomationOptions`: left out, present
      with the value `undefined`, or given. */
  datatype Supplied<T> = Omitted | Undefined | Given(value: T)

  datatype OptionOverrides = OptionOverrides(headless: Supplied<bool>, timeout: Supplied<real>, viewport: Supplied<Viewport>)

  /** The engine's options after the spread; `None` is a field that is `undefined`. */
  datatype Options = Options(headless: Option<bool>, timeout: Option<real>, viewport: Option<Viewport>)

  const DefaultOptions := Options(Some(false), Some(30000.0), Some(Viewport(1280.0, 720.0)))

  /** One field of `{ ...defaults, ...options }`: an own property of `options`
      wins, even when its value is `undefined`. */
  function Spread<T>(o: Supplied<T>, d: T): (r: Option<T>)
    ensures o.Omitted? ==> r == Some(d)
    ensures o.Undefined? ==> r == None
    ensures o.Given? ==> r == Some(o.value)
  {
    match o
    case Omitted => Some(d)
    case Undefined => None
    case Given(v) => Some(v)
  }

  /** `{ headless: false, timeout: 30000, viewport: {1280, 720}, ...options }`:
      every field the caller supplies replaces the default as a whole, and a
      field supplied as `undefined` leaves the option undefined. */
  function ResolveOptions(o: OptionOverrides): (r: Options)
    ensures o.headless.Omitted? ==> r.headless == Some(false)
    ensures o.headless.Undefined? ==> r.headless == None
    ensures o.headless.Given? ==> r.headless == Some(o.headless.value)
    ensures o.timeout.Omitted? ==> r.timeout == Some(30000.0)
    ensures o.timeout.Undefined? ==> r.timeout == None
    ensures o.timeout.Given? ==> r.timeout == Some(o.timeout.value)
    ensures o.viewport.Omitted? ==> r.viewport == Some(Viewport(1280.0, 720.0))
    ensures o.viewport.Undefined? ==> r.viewport == None
    ensures o.viewport.Given? ==> r.viewport == Some(o.viewport.value)
  {
    Options(Spread(o.headless, false), Spread(o.timeout, 30000.0), Spread(o.viewport, Viewport(1280.0, 720.0)))
  }

  /** An empty options object gives exactly the defaults. */
  lemma NoOverridesGiveDefaults()
    ensures ResolveOptions(OptionOverrides(Omitted, Omitted, Omitted)) == DefaultOptions
  {
  }

  // ---------------------------------------------------------------------------
  // Results

  /** What an engine action puts into `data`. */
  datatype Payload =
    | NoData
    | NavigatedTo(url: string, title: string)
    | TextOf(text: Option<string>)
    | FieldsOf(formFields: seq<FormField>)
    | ButtonsOf(buttons: seq<ButtonInfo>)

  /** `AutomationResult`; the engine never sets its optional `screenshot`. */
  datatype AutomationResult = AutomationResult(success: bool, message: string, data: Payload, error: Option<string>)

  /** The result discipline: a successful result carries no error, a failed one does. */
  predicate Disciplined(r: AutomationResult) {
    r.success <==> r.error.None?
  }

  function Succeeded(message: string, data: Payload): (r: AutomationResult)
    ensures Disciplined(r) && r.success
  {
    AutomationResult(true, message, data, None)
  }

  /** The catch branch every result-returning action shares. */
  function Failed(message: string, e: Thrown): (r: AutomationResult)
    ensures Disciplined(r) && !r.success && r.error == Some(MessageOf(e))
  {
    AutomationResult(false, message, NoData, Some(MessageOf(e)))
  }

  /** Two awaited driver calls in one `try`: the first failure is the one caught. */
  function AndThen<T>(first: Completion<()>, second: Completion<T>): (r: Completion<T>)
    ensures r.Returned? <==> first.Returned? && second.Returned?
    ensures first.Threw? ==> r == Threw(first.thrown)
    ensures first.Returned? ==> r == second
  {
    match first
    case Threw(e) => Threw(e)
    case Returned(_) => second
  }

  // ---------------------------------------------------------------------------
  // Selector synthesis for discovered fields and buttons

  /** What a synthesised selector points at. */
  datatype Target = ById(id: string) | ByName(name: string) | ByText(text: string) | Unaddressed

  const NamePrefix := "[name=\""
  const NameSuffix := "\"]"
  const TextPrefix := "button:has-text(\""
  const TextSuffix := "\")"

  /** `getAttribute(a) || d`: an absent or empty attribute falls back to `d`. */
  function AttrOr(a: Option<string>, d: string): (r: string)
    ensures a.Some? && a.value != "" ==> r == a.value
    ensures a.None? || a.value == "" ==> r == d
  {
    if a.Some? && a.value != "" then a.value else d
  }

  /** The field selector: `#id`, else `[name="name"]`, else empty. */
  function FieldSelector(id: string, name: string): (r: string)
    ensures r == "" <==> id == "" && name == ""
  {
    if id != "" then "#" + id
    else if name != "" then NamePrefix + name + NameSuffix
    else ""
  }

  /** The button selector: `#id`, else a text selector on the trimmed text. */
  function ButtonSelector(id: string, trimmedText: string): (r: string)
    ensures r != ""
  {
    if id != "" then "#" + id else TextPrefix + trimmedText + TextSuffix
  }

  /** Reads a synthesised selector back: the reference point for the two
      synthesis functions above. */
  function TargetOf(selector: string): Target {
    if selector == "" then Unaddressed
    else if selector[0] == '#' then ById(selector[1..])
    else if StartsWith(selector, NamePrefix) && |selector| >= |NamePrefix| + |NameSuffix| && EndsWith(selector, NameSuffix)
    then ByName(selector[|NamePrefix|..|selector| - |NameSuffix|])
    else if StartsWith(selector, TextPrefix) && |selector| >= |TextPrefix| + |TextSuffix| && EndsWith(selector, TextSuffix)
    then ByText(selector[|TextPrefix|..|selector| - |TextSuffix|])
    else Unaddressed
  }

  /** A field selector names the id when there is one, else the name, and is
      empty exactly when the element has neither. */
  lemma FieldSelectorTargets(id: string, name: string)
    ensures id != "" ==> TargetOf(FieldSelector(id, name)) == ById(id)
    ensures id == "" && name != "" ==> TargetOf(FieldSelector(id, name)) == ByName(name)
    ensures FieldSelector(id, name) == "" <==> id == "" && name == ""
  {
    var s := FieldSelector(id, name);
    if id == "" && name != "" {
      assert s[0] == '[';
      assert s[..|NamePrefix|] == NamePrefix;
      assert s[|s| - |NameSuffix|..] == NameSuffix;
      assert s[|NamePrefix|..|s| - |NameSuffix|] == name;
    }
  }

  /** A button selector names the id when there is one, else the trimmed text,
      which may be empty: a button is always addressed. */
  lemma ButtonSelectorTargets(id: string, trimmedText: string)
    ensures id != "" ==> TargetOf(ButtonSelector(id, trimmedText)) == ById(id)
    ensures id == "" ==> TargetOf(ButtonSelector(id, trimmedText)) == ByText(trimmedText)
    ensures ButtonSelector(id, trimmedText) != ""
  {
    var s := ButtonSelector(id, trimmedText);
    if id == "" {
      assert s[0] == 'b';
      assert s[..|NamePrefix|] != NamePrefix by { assert s[0] != NamePrefix[0]; }
      assert s[..|TextPrefix|] == TextPrefix;
      assert s[|s| - |TextSuffix|..] == TextSuffix;
      assert s[|TextPrefix|..|s| - |TextSuffix|] == trimmedText;
    }
  }

  /** `tagName.toLowerCase()` on the ASCII letters a tag name is made of. */
  function LowerAscii(s: string): (r: string)
    ensures |r| == |s|
    ensures forall k :: 0 <= k < |s| ==> !('A' <= r[k] <= 'Z')
    ensures forall k :: 0 <= k < |s| && !('A' <= s[k] <= 'Z') ==> r[k] == s[k]
    ensures forall k :: 0 <= k < |s| && 'A' <= s[k] <= 'Z' ==> r[k] == (s[k] as int + 32) as char
  {
    if s == [] then []
    else [if 'A' <= s[0] <= 'Z' then (s[0] as int + 32) as char else s[0]] + LowerAscii(s[1..])
  }

  /** What the page scan reads from one `input`, `textarea` or `select`. */
  datatype RawField = RawField(tagName: string, typeAttr: Option<string>, name: string, id: string,
                               placeholderAttr: Option<string>, hasRequired: bool)

  datatype FormField = FormField(tagName: string, fieldType: string, name: string, id: string,
                                 placeholder: string, required: bool, selector: string)

  /** The map callback of `findFormFields`. */
  function DescribeField(f: RawField): (d: FormField)
    ensures d.fieldType == AttrOr(f.typeAttr, "text") && d.fieldType != ""
    ensures d.name == f.name && d.id == f.id && d.required == f.hasRequired
    ensures d.placeholder == AttrOr(f.placeholderAttr, "")
    ensures d.tagName == LowerAscii(f.tagName)
    ensures d.selector == FieldSelector(f.id, f.name)
  {
    FormField(LowerAscii(f.tagName), AttrOr(f.typeAttr, "text"), f.name, f.id,
              AttrOr(f.placeholderAttr, ""), f.hasRequired, FieldSelector(f.id, f.name))
  }

  /** What the page scan reads from one button or submit/button input. */
  datatype RawButton = RawButton(tagName: string, typeAttr: Option<string>, textContent: string,
                                 idAttr: Option<string>, classAttr: Option<string>)

  datatype ButtonInfo = ButtonInfo(tagName: string, buttonType: string, text: string, id: string,
                                   className: string, selector: string)

  /** The map callback of `findButtons`. */
  function DescribeButton(b: RawButton): (d: ButtonInfo)
    ensures d.buttonType == AttrOr(b.typeAttr, "button") && d.buttonType != ""
    ensures d.text == Trim(b.textContent)
    ensures d.id == AttrOr(b.idAttr, "") && d.className == AttrOr(b.classAttr, "")
    ensures d.tagName == LowerAscii(b.tagName)
    ensures d.selector == ButtonSelector(d.id, d.text)
  {
    var id := AttrOr(b.idAttr, "");
    var text := Trim(b.textContent);
    ButtonInfo(LowerAscii(b.tagName), AttrOr(b.typeAttr, "button"), text, id,
               AttrOr(b.classAttr, ""), ButtonSelector(id, text))
  }

  function DescribeFields(raw: seq<RawField>): (fs: seq<FormField>)
    ensures |fs| == |raw|
    ensures forall k :: 0 <= k < |raw| ==> fs[k] == DescribeField(raw[k])
  {
    seq(|raw|, k requires 0 <= k < |raw| => DescribeField(raw[k]))
  }

  function DescribeButtons(raw: seq<RawButton>): (bs: seq<ButtonInfo>)
    ensures |bs| == |raw|
    ensures forall k :: 0 <= k < |raw| ==> bs[k] == DescribeButton(raw[k])
  {
    seq(|raw|, k requires 0 <= k < |raw| => DescribeButton(raw[k]))
  }

  /** The `map(el => el.href).filter(href => href)` of `extractLinks`: a missing
      `href` (an element that is not an anchor) is `None`. */
  function NonEmptyHrefs(hrefs: seq<Option<string>>): (links: seq<string>)
    ensures |links| <= |hrefs|
    ensures forall k :: 0 <= k < |links| ==> links[k] != ""
  {
    if hrefs == [] then []
    else
      var rest := NonEmptyHrefs(hrefs[1..]);
      if hrefs[0].Some? && hrefs[0].value != "" then [hrefs[0].value] + rest else rest
  }

  /** Filtering distributes over concatenation: links keep their match order. */
  lemma {:induction false} NonEmptyHrefsAppend(a: seq<Option<string>>, b: seq<Option<string>>)
    ensures NonEmptyHrefs(a + b) == NonEmptyHrefs(a) + NonEmptyHrefs(b)
  {
    if a == [] {
      assert a + b == b;
    } else {
      assert (a + b)[0] == a[0];
      assert (a + b)[1..] == a[1..] + b;
      NonEmptyHrefsAppend(a[1..], b);
    }
  }

  /** Nothing is invented or lost: every non-empty href occurs in the links as
      often as it was matched. */
  lemma {:induction false} NonEmptyHrefsCount(hrefs: seq<Option<string>>, h: string)
    requires h != ""
    ensures multiset(NonEmptyHrefs(hrefs))[h] == multiset(hrefs)[Some(h)]
  {
    if hrefs != [] {
      assert hrefs == [hrefs[0]] + hrefs[1..];
      NonEmptyHrefsCount(hrefs[1..], h);
    }
  }

  // ---------------------------------------------------------------------------
  // The driver oracle

  /** An opaque driver object (browser, context or page). */
  datatype Handle = Handle(id: nat)

  /** How each driver call the engine makes would settle. Calls whose arguments
      matter are functions of those arguments. `title` is the page's title at
      the time it is asked, `url` its address; `formScreenshot` is the base64
      text of the scroll-then-capture sequence of `takeScreenshot`; `hrefs`
      gives the `href` of every element matching a selector, in match order. */
  datatype DriverIO = DriverIO(
    launch: Option<bool> -> Completion<Handle>,
    newContext: Option<Viewport> -> Completion<Handle>,
    newPage: Completion<Handle>,
    goto: string -> Completion<()>,
    title: Completion<string>,
    url: string,
    waitForSelector: (string, real) -> Completion<()>,
    click: string -> Completion<()>,
    fill: (string, string) -> Completion<()>,
    textContent: string -> Completion<Option<string>>,
    scanFields: Completion<seq<RawField>>,
    scanButtons: Completion<seq<RawButton>>,
    formScreenshot: Completion<string>,
    scrollBy: (real, real) -> Completion<()>,
    selectOption: (string, string) -> Completion<()>,
    hrefs: string -> Completion<seq<Option<string>>>,
    closePage: Completion<()>,
    closeContext: Completion<()>,
    closeBrowser: Completion<()>)

  // ---------------------------------------------------------------------------
  // Lifecycle as values

  /** The three nullable handles of the engine. */
  datatype Slots = Slots(browser: Option<Handle>, context: Option<Handle>, page: Option<Handle>) {
    /** `isInitialized()`. */
    predicate Initialized() {
      browser.Some? && page.Some?
    }
  }

  const Empty := Slots(None, None, None)

  /** The error every page action throws without a page. */
  const NotInitialized := NewError("Browser not initialized")

  /** The error `initialize` wraps any driver failure in. */
  function InitFailure(e: Thrown): Thrown {
    NewError("Failed to initialize browser: " + Shown(e))
  }

  /** `initialize()`: launch, open a context, open a page, storing each handle as
      soon as it exists. There is no guard against a second call. */
  function InitializeSpec(s: Slots, options: Options, io: DriverIO): (r: (Slots, Completion<()>))
    ensures r.1.Returned? <==> io.launch(options.headless).Returned? && io.newContext(options.viewport).Returned? && io.newPage.Returned?
    ensures r.1.Returned? ==> r.0 == Slots(Some(io.launch(options.headless).value), Some(io.newContext(options.viewport).value), Some(io.newPage.value))
    ensures r.1.Returned? ==> r.0.Initialized()
    ensures r.1.Threw? ==> exists e :: r.1 == Threw(InitFailure(e))
    ensures io.launch(options.headless).Threw? ==>
              r == (s, Threw(InitFailure(io.launch(options.headless).thrown)))
    ensures io.launch(options.headless).Returned? && io.newContext(options.viewport).Threw? ==>
              r == (s.(browser := Some(io.launch(options.headless).value)),
                    Threw(InitFailure(io.newContext(options.viewport).thrown)))
    ensures io.launch(options.headless).Returned? && io.newContext(options.viewport).Returned? && io.newPage.Threw? ==>
              r == (s.(browser := Some(io.launch(options.headless).value), context := Some(io.newContext(options.viewport).value)),
                    Threw(InitFailure(io.newPage.thrown)))
  {
    match io.launch(options.headless)
    case Threw(e) => (s, Threw(InitFailure(e)))
    case Returned(b) =>
      match io.newContext(options.viewport)
      case Threw(e) => (s.(browser := Some(b)), Threw(InitFailure(e)))
      case Returned(c) =>
        match io.newPage
        case Threw(e) => (s.(browser := Some(b), context := Some(c)), Threw(InitFailure(e)))
        case Returned(p) => (Slots(Some(b), Some(c), Some(p)), Returned(()))
  }

  /** `close()`: close and null the page, then the context, then the browser; the
      one `catch` around all three stops at the first driver failure. */
  function CloseSpec(s: Slots, io: DriverIO): (r: Slots)
    ensures s.page.Some? && io.closePage.Threw? ==> r == s
    ensures r.page.Some? ==> r == s
    ensures r.context.Some? ==> r.browser == s.browser && r.context == s.context
    ensures r.page.None? && r.context.None? && r.browser.None? <==>
              (s.page.None? || io.closePage.Returned?) && (s.context.None? || io.closeContext.Returned?)
              && (s.browser.None? || io.closeBrowser.Returned?)
    ensures (s.page.None? || io.closePage.Returned?) ==> r.page.None?
    ensures (s.page.None? || io.closePage.Returned?) && s.context.Some? && io.closeContext.Threw? ==>
              r == s.(page := None)
    ensures (s.page.None? || io.closePage.Returned?) && (s.context.None? || io.closeContext.Returned?)
            && s.browser.Some? && io.closeBrowser.Threw? ==>
              r == s.(page := None, context := None)
  {
    if s.page.Some? && io.closePage.Threw? then s
    else
      var s1 := s.(page := None);
      if s1.context.Some? && io.closeContext.Threw? then s1
      else
        var s2 := s1.(context := None);
        if s2.browser.Some? && io.closeBrowser.Threw? then s2
        else s2.(browser := None)
  }

  /** Closing an engine that holds nothing does nothing. */
  lemma CloseEmptyIsNoOp(io: DriverIO)
    ensures CloseSpec(Empty, io) == Empty
  {
  }

  /** Closing twice is closing once, whatever the driver does. */
  lemma CloseIdempotent(s: Slots, io: DriverIO)
    ensures CloseSpec(CloseSpec(s, io), io) == CloseSpec(s, io)
  {
  }

  /** When the driver closes everything, nothing is held afterwards and the
      engine no longer counts as initialised. */
  lemma CloseSucceeds(s: Slots, io: DriverIO)
    requires io.closePage.Returned? && io.closeContext.Returned? && io.closeBrowser.Returned?
    ensures CloseSpec(s, io) == Empty && !CloseSpec(s, io).Initialized()
  {
  }

  /** No guard refuses a second `initialize`: on an engine that already holds
      handles it behaves exactly as on a fresh one, so a successful second call
      holds only the three new handles and the earlier browser is dropped
      without being closed. */
  lemma InitializeReplaces(s: Slots, options: Options, io: DriverIO)
    requires s.Initialized()
    requires io.launch(options.headless).Returned? && io.newContext(options.viewport).Returned? && io.newPage.Returned?
    ensures InitializeSpec(s, options, io) == InitializeSpec(Empty, options, io)
    ensures InitializeSpec(s, options, io) ==
              (Slots(Some(io.launch(options.headless).value), Some(io.newContext(options.viewport).value), Some(io.newPage.value)),
               Returned(()))
    ensures io.launch(options.headless).value != s.browser.value ==> InitializeSpec(s, options, io).0.browser != s.browser
  {
  }

  // ---------------------------------------------------------------------------
  // The engine

  const ScreenshotPrefix := "data:image/png;base64,"
  const ElementTimeout := 10000.0

  class Engine {
    var browser: Option<Handle>
    var context: Option<Handle>
    var page: Option<Handle>
    const options: Options

    /** `new BrowserAutomationEngine(options)`. */
    constructor (overrides: OptionOverrides)
      ensures options == ResolveOptions(overrides)
      ensures browser == None && context == None && page == None
    {
      options := ResolveOptions(overrides);
      browser, context, page := None, None, None;
    }

    /** The three handles as a value. */
    function Held(): Slots
      reads this
    {
      Slots(browser, context, page)
    }

    /** `isInitialized()`. */
    predicate IsInitialized()
      reads this
    {
      Held().Initialized()
    }

    method Initialize(io: DriverIO) returns (r: Completion<()>)
      modifies this
      ensures Held() == InitializeSpec(old(Held()), options, io).0
      ensures r == InitializeSpec(old(Held()), options, io).1
    {
      match io.launch(options.headless)
      case Threw(e) =>
        return Threw(InitFailure(e));
      case Returned(b) =>
        browser := Some(b);
      match io.newContext(options.viewport)
      case Threw(e) =>
        return Threw(InitFailure(e));
      case Returned(c) =>
        context := Some(c);
      match io.newPage
      case Threw(e) =>
        return Threw(InitFailure(e));
      case Returned(p) =>
        page := Some(p);
      r := Returned(());
    }

    /** `close()` never throws. */
    method Close(io: DriverIO) returns (r: Completion<()>)
      modifies this
      ensures r == Returned(())
      ensures Held() == CloseSpec(old(Held()), io)
    {
      r := Returned(());
      if page.Some? {
        if io.closePage.Threw? { return; }
        page := None;
      }
      if context.Some? {
        if io.closeContext.Threw? { return; }
        context := None;
      }
      if browser.Some? {
        if io.closeBrowser.Threw? { return; }
        browser := None;
      }
    }

    function Navigate(url: string, io: DriverIO): (r: Completion<AutomationResult>)
      reads this
      ensures page.None? <==> r == Threw(NotInitialized)
      ensures r.Returned? ==> Disciplined(r.value)
      ensures r.Returned? ==> (r.value.success <==> io.goto(url).Returned? && io.title.Returned?)
      ensures r.Returned? && r.value.success ==> r.value.data == NavigatedTo(url, io.title.value)
                                                 && r.value.message == "Successfully navigated to " + url
      ensures r.Returned? && !r.value.success ==> r.value.message == "Failed to navigate to " + url
      ensures r.Returned? && !r.value.success ==>
                r.value.error == Some(MessageOf(AndThen(io.goto(url), io.title).thrown)) && r.value.data == NoData
    {
      if page.None? then Threw(NotInitialized)
      else
        match AndThen(io.goto(url), io.title)
        case Returned(title) => Returned(Succeeded("Successfully navigated to " + url, NavigatedTo(url, title)))
        case Threw(e) => Returned(Failed("Failed to navigate to " + url, e))
    }

    /** A failed capture is rethrown, wrapped; a capture is always a PNG data URL. */
    function TakeScreenshot(io: DriverIO): (r: Completion<string>)
      reads this
      ensures page.None? <==> r == Threw(NotInitialized)
      ensures r.Returned? <==> page.Some? && io.formScreenshot.Returned?
      ensures r.Returned? ==> StartsWith(r.value, ScreenshotPrefix) && r.value[|ScreenshotPrefix|..] == io.formScreenshot.value
      ensures page.Some? && io.formScreenshot.Threw? ==> r == Threw(NewError("Failed to take screenshot: " + Shown(io.formScreenshot.thrown)))
    {
      if page.None? then Threw(NotInitialized)
      else
        match io.formScreenshot
        case Returned(b64) =>
          var s := ScreenshotPrefix + b64;
          assert s[..|ScreenshotPrefix|] == ScreenshotPrefix;
          Returned(s)
        case Threw(e) => Threw(NewError("Failed to take screenshot: " + Shown(e)))
    }

    function ClickElement(selector: string, io: DriverIO): (r: Completion<AutomationResult>)
      reads this
      ensures page.None? <==> r == Threw(NotInitialized)
      ensures r.Returned? ==> Disciplined(r.value)
      ensures r.Returned? ==> (r.value.success <==> io.waitForSelector(selector, ElementTimeout).Returned? && io.click(selector).Returned?)
      ensures r.Returned? ==> r.value.data == NoData
      ensures r.Returned? && r.value.success ==> r.value.message == "Successfully clicked element: " + selector
      ensures r.Returned? && !r.value.success ==> r.value.message == "Failed to click element: " + selector
      ensures r.Returned? && !r.value.success ==>
                r.value.error == Some(MessageOf(AndThen(io.waitForSelector(selector, ElementTimeout), io.click(selector)).thrown))
    {
      if page.None? then Threw(NotInitialized)
      else
        match AndThen(io.waitForSelector(selector, ElementTimeout), io.click(selector))
        case Returned(_) => Returned(Succeeded("Successfully clicked element: " + selector, NoData))
        case Threw(e) => Returned(Failed("Failed to click element: " + selector, e))
    }

    function FillInput(selector: string, value: string, io: DriverIO): (r: Completion<AutomationResult>)
      reads this
      ensures page.None? <==> r == Threw(NotInitialized)
      ensures r.Returned? ==> Disciplined(r.value)
      ensures r.Returned? ==> (r.value.success <==> io.waitForSelector(selector, ElementTimeout).Returned? && io.fill(selector, value).Returned?)
      ensures r.Returned? && r.value.success ==> r.value.message == "Successfully filled input " + selector + " with: " + value
      ensures r.Returned? && r.value.success ==> r.value.data == NoData
      ensures r.Returned? && !r.value.success ==> r.value.message == "Failed to fill input: " + selector
      ensures r.Returned? && !r.value.success ==>
                r.value.error == Some(MessageOf(AndThen(io.waitForSelector(selector, ElementTimeout), io.fill(selector, value)).thrown))
                && r.value.data == NoData
    {
      if page.None? then Threw(NotInitialized)
      else
        match AndThen(io.waitForSelector(selector, ElementTimeout), io.fill(selector, value))
        case Returned(_) => Returned(Succeeded("Successfully filled input " + selector + " with: " + value, NoData))
        case Threw(e) => Returned(Failed("Failed to fill input: " + selector, e))
    }

    function ExtractText(selector: string, io: DriverIO): (r: Completion<AutomationResult>)
      reads this
      ensures page.None? <==> r == Threw(NotInitialized)
      ensures r.Returned? ==> Disciplined(r.value)
      ensures r.Returned? ==> (r.value.success <==> io.waitForSelector(selector, ElementTimeout).Returned? && io.textContent(selector).Returned?)
      ensures r.Returned? && r.value.success ==> r.value.data == TextOf(io.textContent(selector).value)
                                                 && r.value.message == "Successfully extracted text from: " + selector
      ensures r.Returned? && !r.value.success ==> r.value.message == "Failed to extract text from: " + selector
      ensures r.Returned? && !r.value.success ==>
                r.value.error == Some(MessageOf(AndThen(io.waitForSelector(selector, ElementTimeout), io.textContent(selector)).thrown))
                && r.value.data == NoData
    {
      if page.None? then Threw(NotInitialized)
      else
        match AndThen(io.waitForSelector(selector, ElementTimeout), io.textContent(selector))
        case Returned(text) => Returned(Succeeded("Successfully extracted text from: " + selector, TextOf(text)))
        case Threw(e) => Returned(Failed("Failed to extract text from: " + selector, e))
    }

    /** `waitForElement(selector, timeout = 10000)`; `None` is the omitted argument. */
    function WaitForElement(selector: string, timeout: Option<real>, io: DriverIO): (r: Completion<AutomationResult>)
      reads this
      ensures page.None? <==> r == Threw(NotInitialized)
      ensures r.Returned? ==> Disciplined(r.value)
      ensures r.Returned? ==> (r.value.success <==> io.waitForSelector(selector, timeout.GetOr(ElementTimeout)).Returned?)
      ensures r.Returned? && r.value.success ==> r.value.message == "Element appeared: " + selector
      ensures r.Returned? && r.value.success ==> r.value.data == NoData
      ensures r.Returned? && !r.value.success ==> r.value.message == "Element did not appear: " + selector
      ensures r.Returned? && !r.value.success ==>
                r.value.error == Some(MessageOf(io.waitForSelector(selector, timeout.GetOr(ElementTimeout)).thrown))
                && r.value.data == NoData
    {
      if page.None? then Threw(NotInitialized)
      else
        match io.waitForSelector(selector, timeout.GetOr(ElementTimeout))
        case Returned(_) => Returned(Succeeded("Element appeared: " + selector, NoData))
        case Threw(e) => Returned(Failed("Element did not appear: " + selector, e))
    }

    function FindFormFields(io: DriverIO): (r: Completion<AutomationResult>)
      reads this
      ensures page.None? <==> r == Threw(NotInitialized)
      ensures r.Returned? ==> Disciplined(r.value)
      ensures r.Returned? ==> (r.value.success <==> io.scanFields.Returned?)
      ensures r.Returned? && r.value.success ==>
                r.value.data == FieldsOf(DescribeFields(io.scanFields.value))
                && r.value.message == "Found " + NatToString(|io.scanFields.value|) + " form fields"
      ensures r.Returned? && !r.value.success ==> r.value.message == "Failed to find form fields"
      ensures r.Returned? && !r.value.success ==>
                r.value.error == Some(MessageOf(io.scanFields.thrown)) && r.value.data == NoData
    {
      if page.None? then Threw(NotInitialized)
      else
        match io.scanFields
        case Returned(raw) =>
          var fields := DescribeFields(raw);
          Returned(Succeeded("Found " + NatToString(|fields|) + " form fields", FieldsOf(fields)))
        case Threw(e) => Returned(Failed("Failed to find form fields", e))
    }

    function FindButtons(io: DriverIO): (r: Completion<AutomationResult>)
      reads this
      ensures page.None? <==> r == Threw(NotInitialized)
      ensures r.Returned? ==> Disciplined(r.value)
      ensures r.Returned? ==> (r.value.success <==> io.scanButtons.Returned?)
      ensures r.Returned? && r.value.success ==>
                r.value.data == ButtonsOf(DescribeButtons(io.scanButtons.value))
                && r.value.message == "Found " + NatToString(|io.scanButtons.value|) + " buttons"
      ensures r.Returned? && !r.value.success ==> r.value.message == "Failed to find buttons"
      ensures r.Returned? && !r.value.success ==>
                r.value.error == Some(MessageOf(io.scanButtons.thrown)) && r.value.data == NoData
    {
      if page.None? then Threw(NotInitialized)
      else
        match io.scanButtons
        case Returned(raw) =>
          var buttons := DescribeButtons(raw);
          Returned(Succeeded("Found " + NatToString(|buttons|) + " buttons", ButtonsOf(buttons)))
        case Threw(e) => Returned(Failed("Failed to find buttons", e))
    }

    function GetCurrentUrl(io: DriverIO): (r: Completion<string>)
      reads this
      ensures page.None? <==> r == Threw(NotInitialized)
      ensures page.Some? ==> r == Returned(io.url)
    {
      if page.None? then Threw(NotInitialized) else Returned(io.url)
    }

    /** The driver's failure is not caught. */
    function GetPageTitle(io: DriverIO): (r: Completion<string>)
      reads this
      ensures page.None? ==> r == Threw(NotInitialized)
      ensures page.Some? ==> r == io.title
    {
      if page.None? then Threw(NotInitialized) else io.title
    }

    /** The driver's failure is not caught. */
    function ScrollPage(x: real, y: real, io: DriverIO): (r: Completion<()>)
      reads this
      ensures page.None? ==> r == Threw(NotInitialized)
      ensures page.Some? ==> r == io.scrollBy(x, y)
    {
      if page.None? then Threw(NotInitialized) else io.scrollBy(x, y)
    }

    /** The driver's failure is not caught. */
    function SelectOption(selector: string, value: string, io: DriverIO): (r: Completion<()>)
      reads this
      ensures page.None? ==> r == Threw(NotInitialized)
      ensures page.Some? ==> r == io.selectOption(selector, value)
    {
      if page.None? then Threw(NotInitialized) else io.selectOption(selector, value)
    }

    /** The driver's failure is not caught; the links are the non-empty hrefs in
        match order. */
    function ExtractLinks(selector: string, io: DriverIO): (r: Completion<seq<string>>)
      reads this
      ensures page.None? ==> r == Threw(NotInitialized)
      ensures page.Some? && io.hrefs(selector).Threw? ==> r == Threw(io.hrefs(selector).thrown)
      ensures r.Returned? ==> page.Some? && io.hrefs(selector).Returned?
      ensures r.Returned? ==> forall k :: 0 <= k < |r.value| ==> r.value[k] != ""
      ensures page.Some? && io.hrefs(selector).Returned? ==> r == Returned(NonEmptyHrefs(io.hrefs(selector).value))
      ensures r.Returned? ==> forall h :: h != "" ==> multiset(r.value)[h] == multiset(io.hrefs(selector).value)[Some(h)]
    {
      if page.None? then Threw(NotInitialized)
      else
        match io.hrefs(selector)
        case Threw(e) => Threw(e)
        case Returned(hs) =>
          var links := NonEmptyHrefs(hs);
          assert forall h :: h != "" ==> multiset(links)[h] == multiset(hs)[Some(h)] by {
            forall h | h != "" ensures multiset(links)[h] == multiset(hs)[Some(h)] {
              NonEmptyHrefsCount(hs, h);
            }
          }
          Returned(links)
    }
  }
}
