/** The request schema of the start route: a `prompt` of at least ten
    characters and an optional `config` whose fields are each optional and
    typed, the numeric ones bounded. A request body is a JSON value; a key that
    is absent from an object is `undefined`, which every optional field accepts
    (an explicit `null` is not `undefined` and is refused). */
module Validation {
  import opened Common

  /** A parsed JSON value; numbers are taken as exact reals. */
  datatype Json =
    | JNull
    | JBool(b: bool)
    | JNumber(n: real)
    | JString(s: string)
    | JArray(items: seq<Json>)
    | JObject(fields: map<string, Json>)

  /** The type a schema node expects. */
  datatype JsonType = StringType | NumberType | BooleanType | ObjectType

  /** Why a value fails its schema node. Only the length check on `prompt`
      carries a message of the schema's own. */
  datatype IssueCode =
    | WrongType(expected: JsonType)
    | TooShort(minLength: nat, message: string)
    | BelowMinimum(minimum: real, inclusive: bool)
    | AboveMaximum(maximum: real, inclusive: bool)

  datatype Issue = Issue(path: seq<string>, code: IssueCode)

  const PromptMessage := "Prompt must be at least 10 characters long"
  const PromptMinimum: nat := 10

  /** The typed result of a successful parse; unknown keys are dropped. */
  datatype Config = Config(model: Option<string>, temperature: Option<real>, maxTokens: Option<real>,
                           headless: Option<bool>, timeout: Option<real>)
  datatype AutomationRequest = AutomationRequest(prompt: string, config: Option<Config>)

  datatype Parsed = Valid(request: AutomationRequest) | Invalid(issues: seq<Issue>)

  // ---------------------------------------------------------------------------
  // The constraints, stated as one predicate

  /** `key` is absent, or holds a value `ok` accepts. */
  predicate Optional(fields: map<string, Json>, key: string, ok: Json -> bool) {
    key !in fields || ok(fields[key])
  }

  predicate IsString(j: Json) { j.JString? }
  predicate IsBoolean(j: Json) { j.JBool? }
  predicate InTemperatureRange(j: Json) { j.JNumber? && 0.0 <= j.n <= 2.0 }
  predicate IsPositive(j: Json) { j.JNumber? && j.n > 0.0 }

  predicate ValidConfig(j: Json) {
    j.JObject?
    && Optional(j.fields, "model", IsString)
    && Optional(j.fields, "temperature", InTemperatureRange)
    && Optional(j.fields, "maxTokens", IsPositive)
    && Optional(j.fields, "headless", IsBoolean)
    && Optional(j.fields, "timeout", IsPositive)
  }

  /** What `AutomationRequestSchema` accepts. The prompt's length counts every
      character, whitespace included: nothing is trimmed. */
  predicate ValidRequest(body: Json) {
    body.JObject?
    && "prompt" in body.fields && body.fields["prompt"].JString? && |body.fields["prompt"].s| >= PromptMinimum
    && Optional(body.fields, "config", ValidConfig)
  }

  // ---------------------------------------------------------------------------
  // The parse, collecting every issue

  function StringIssues(path: seq<string>, j: Json): seq<Issue> {
    if j.JString? then [] else [Issue(path, WrongType(StringType))]
  }

  function BooleanIssues(path: seq<string>, j: Json): seq<Issue> {
    if j.JBool? then [] else [Issue(path, WrongType(BooleanType))]
  }

  /** `z.number().min(0).max(2)`: both bounds are checked and inclusive. */
  function TemperatureIssues(path: seq<string>, j: Json): seq<Issue> {
    if !j.JNumber? then [Issue(path, WrongType(NumberType))]
    else (if j.n < 0.0 then [Issue(path, BelowMinimum(0.0, true))] else [])
         + (if j.n > 2.0 then [Issue(path, AboveMaximum(2.0, true))] else [])
  }

  /** `z.number().positive()`: zero is refused. */
  function PositiveIssues(path: seq<string>, j: Json): seq<Issue> {
    if !j.JNumber? then [Issue(path, WrongType(NumberType))]
    else if j.n <= 0.0 then [Issue(path, BelowMinimum(0.0, false))]
    else []
  }

  /** The issues of an optional key: none when it is absent. */
  function OptionalIssues(fields: map<string, Json>, path: seq<string>, key: string,
                          check: (seq<string>, Json) -> seq<Issue>): seq<Issue> {
    if key in fields then check(path + [key], fields[key]) else []
  }

  function ConfigIssues(j: Json): seq<Issue> {
    if !j.JObject? then [Issue(["config"], WrongType(ObjectType))]
    else
      OptionalIssues(j.fields, ["config"], "model", StringIssues)
      + OptionalIssues(j.fields, ["config"], "temperature", TemperatureIssues)
      + OptionalIssues(j.fields, ["config"], "maxTokens", PositiveIssues)
      + OptionalIssues(j.fields, ["config"], "headless", BooleanIssues)
      + OptionalIssues(j.fields, ["config"], "timeout", PositiveIssues)
  }

  /** `z.string().min(10, message)`; a missing prompt is a wrong type. */
  function PromptIssues(fields: map<string, Json>): seq<Issue> {
    if "prompt" !in fields || !fields["prompt"].JString? then [Issue(["prompt"], WrongType(StringType))]
    else if |fields["prompt"].s| < PromptMinimum then [Issue(["prompt"], TooShort(PromptMinimum, PromptMessage))]
    else []
  }

  function NumberOf(fields: map<string, Json>, key: string): Option<real> {
    if key in fields && fields[key].JNumber? then Some(fields[key].n) else None
  }

  /** The typed config of a config object: a present, well-typed field is
      carried with its value, an absent one is left out. */
  function ConfigOf(j: Json): (c: Config)
    requires j.JObject?
    ensures "model" in j.fields && j.fields["model"].JString? ==> c.model == Some(j.fields["model"].s)
    ensures "temperature" in j.fields && j.fields["temperature"].JNumber? ==> c.temperature == Some(j.fields["temperature"].n)
    ensures "maxTokens" in j.fields && j.fields["maxTokens"].JNumber? ==> c.maxTokens == Some(j.fields["maxTokens"].n)
    ensures "headless" in j.fields && j.fields["headless"].JBool? ==> c.headless == Some(j.fields["headless"].b)
    ensures "timeout" in j.fields && j.fields["timeout"].JNumber? ==> c.timeout == Some(j.fields["timeout"].n)
    ensures "model" !in j.fields ==> c.model == None
    ensures "temperature" !in j.fields ==> c.temperature == None
    ensures "maxTokens" !in j.fields ==> c.maxTokens == None
    ensures "headless" !in j.fields ==> c.headless == None
    ensures "timeout" !in j.fields ==> c.timeout == None
  {
    Config(if "model" in j.fields && j.fields["model"].JString? then Some(j.fields["model"].s) else None,
           NumberOf(j.fields, "temperature"), NumberOf(j.fields, "maxTokens"),
           if "headless" in j.fields && j.fields["headless"].JBool? then Some(j.fields["headless"].b) else None,
           NumberOf(j.fields, "timeout"))
  }

  /** `AutomationRequestSchema.safeParse(body)`: every issue of the prompt and
      of the config, in the schema's key order, or the typed request. */
  function Parse(body: Json): (r: Parsed)
    ensures r.Valid? ==> body.JObject? && "prompt" in body.fields && body.fields["prompt"] == JString(r.request.prompt)
    ensures r.Valid? ==> (r.request.config.Some? <==> "config" in body.fields)
    ensures r.Valid? && "config" in body.fields ==>
              body.fields["config"].JObject? && r.request.config == Some(ConfigOf(body.fields["config"]))
    ensures r.Invalid? ==> r.issues != []
  {
    if !body.JObject? then Invalid([Issue([], WrongType(ObjectType))])
    else
      var issues := PromptIssues(body.fields)
                    + (if "config" in body.fields then ConfigIssues(body.fields["config"]) else []);
      if issues != [] then Invalid(issues)
      else
        Valid(AutomationRequest(body.fields["prompt"].s,
                                if "config" in body.fields then Some(ConfigOf(body.fields["config"])) else None))
  }

  // ---------------------------------------------------------------------------
  // What the parse promises

  lemma ConfigIssuesExactly(j: Json)
    ensures ConfigIssues(j) == [] <==> ValidConfig(j)
  {
  }

  /** The parse succeeds exactly on the requests the schema describes. */
  lemma ParseAcceptsExactlyValid(body: Json)
    ensures Parse(body).Valid? <==> ValidRequest(body)
  {
    if body.JObject? && "config" in body.fields {
      ConfigIssuesExactly(body.fields["config"]);
    }
  }

  /** A prompt shorter than ten characters is refused with the schema's own
      message, whatever else the body holds. */
  lemma ShortPromptRefused(body: Json)
    requires body.JObject? && "prompt" in body.fields && body.fields["prompt"].JString?
    requires |body.fields["prompt"].s| < PromptMinimum
    ensures Parse(body).Invalid?
    ensures Issue(["prompt"], TooShort(10, "Prompt must be at least 10 characters long")) in Parse(body).issues
  {
  }

  /** Only the length counts, whitespace included: any prompt of at least ten
      characters, with no config, is accepted as it is. */
  lemma LongPromptAccepted(p: string)
    requires |p| >= PromptMinimum
    ensures Parse(JObject(map["prompt" := JString(p)])) == Valid(AutomationRequest(p, None))
  {
  }

  /** In particular ten spaces make a valid prompt: nothing is trimmed. */
  lemma TenSpacesAccepted()
    ensures Parse(JObject(map["prompt" := JString("          ")])).Valid?
  {
    LongPromptAccepted("          ");
  }

  /** The temperature bounds are inclusive at both ends; `maxTokens` and
      `timeout` refuse zero. */
  lemma NumericBounds(t: real, n: real)
    ensures ValidConfig(JObject(map["temperature" := JNumber(t)])) <==> 0.0 <= t <= 2.0
    ensures ValidConfig(JObject(map["maxTokens" := JNumber(n)])) <==> n > 0.0
    ensures ValidConfig(JObject(map["timeout" := JNumber(n)])) <==> n > 0.0
    ensures !ValidConfig(JObject(map["headless" := JString("true")]))
  {
  }
}
