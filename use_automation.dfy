/** The client hook that starts an automation run, subscribes to its event
    stream and keeps the log the page shows. The hook is a state machine: every
    handler below runs to completion before the next one starts. Log ids,
    rendered timestamps, the server's replies and the stream's frames are inputs;
    the event source and the timers are handles the hook opens, closes and
    clears. */
module UseAutomation {
  import opened Common

  // ---------------------------------------------------------------------------
  // Logs and stream frames

  /** The `data` object a stream message may carry; only the two fields the hook
      reads are kept. */
  datatype EventData = EventData(url: Option<string>, screenshot: Option<string>)

  /** One entry of the log list. `timestamp` is the rendered time text. */
  datatype Log = Log(id: string, timestamp: string, kind: string, message: string,
                     screenshot: Option<string>, data: Option<EventData>)

  /** A stream frame after `JSON.parse`: either it does not parse, or it parses
      to `null` (reading `type` of `null` throws inside the same `try`), or it is
      a message with a string `type`, a string `message` and an optional
      `data`. */
  datatype Frame =
    | Unparseable
    | Message(kind: string, message: string, data: Option<EventData>)

  /** A frame as it reaches `onmessage`, with the id `addLog` would give it and
      its timestamp as `toLocaleTimeString` renders it. */
  datatype Arrival = Arrival(frame: Frame, id: string, shown: string)

  /** Frames that leave no trace: unparseable ones and heartbeats. */
  predicate Dropped(f: Frame) {
    f.Unparseable? || f.kind == "heartbeat"
  }

  /** `data.data?.url` when it is a non-empty string. */
  function CarriedUrl(f: Frame): Option<string> {
    if f.Message? && f.data.Some? && f.data.value.url.Some? && f.data.value.url.value != "" then f.data.value.url
    else None
  }

  /** The log entry a message becomes. */
  function LogOf(a: Arrival): (log: Log)
    requires a.frame.Message?
    ensures log.id == a.id && log.timestamp == a.shown
    ensures log.kind == a.frame.kind && log.message == a.frame.message && log.data == a.frame.data
    ensures log.screenshot.Some? <==> a.frame.data.Some? && a.frame.data.value.screenshot.Some?
    ensures log.screenshot == (if a.frame.data.Some? then a.frame.data.value.screenshot else None)
  {
    Log(a.id, a.shown, a.frame.kind, a.frame.message,
        if a.frame.data.Some? then a.frame.data.value.screenshot else None, a.frame.data)
  }

  /** The part of the hook's state a stream message can change. */
  datatype Feed = Feed(logs: seq<Log>, currentUrl: string)

  /** `onmessage` on one frame: a dropped frame changes nothing; any other frame
      appends exactly one entry at the end and moves `currentUrl` only when it
      carries a non-empty `data.url`. */
  function Deliver(feed: Feed, a: Arrival): (r: Feed)
    ensures Dropped(a.frame) ==> r == feed
    ensures !Dropped(a.frame) ==> r.logs == feed.logs + [LogOf(a)]
    ensures !Dropped(a.frame) && CarriedUrl(a.frame).Some? ==> r.currentUrl == CarriedUrl(a.frame).value
    ensures CarriedUrl(a.frame).None? ==> r.currentUrl == feed.currentUrl
  {
    if Dropped(a.frame) then feed
    else
      var url := CarriedUrl(a.frame);
      Feed(feed.logs + [LogOf(a)], if url.Some? then url.value else feed.currentUrl)
  }

  /** A run of frames delivered in arrival order: each adds at most one entry. */
  function DeliverAll(feed: Feed, arrivals: seq<Arrival>): (r: Feed)
    ensures |feed.logs| <= |r.logs| <= |feed.logs| + |arrivals|
    decreases |arrivals|
  {
    if arrivals == [] then feed else DeliverAll(Deliver(feed, arrivals[0]), arrivals[1..])
  }

  /** The entries the frames that are not dropped become, in arrival order. */
  function Kept(arrivals: seq<Arrival>): (logs: seq<Log>)
    ensures |logs| <= |arrivals|
  {
    if arrivals == [] then []
    else (if Dropped(arrivals[0].frame) then [] else [LogOf(arrivals[0])]) + Kept(arrivals[1..])
  }

  /** The log is append-only and keeps arrival order: after any run of frames it
      is the old log followed by one entry per frame that is not dropped. */
  lemma {:induction false} DeliverAllAppends(feed: Feed, arrivals: seq<Arrival>)
    ensures DeliverAll(feed, arrivals).logs == feed.logs + Kept(arrivals)
    decreases |arrivals|
  {
    if arrivals != [] {
      DeliverAllAppends(Deliver(feed, arrivals[0]), arrivals[1..]);
    }
  }

  /** After any run of frames, `currentUrl` is either what it was or the
      `data.url` some delivered message carried. */
  lemma {:induction false} DeliverAllUrl(feed: Feed, arrivals: seq<Arrival>)
    ensures DeliverAll(feed, arrivals).currentUrl == feed.currentUrl
            || exists i :: 0 <= i < |arrivals| && !Dropped(arrivals[i].frame)
                           && CarriedUrl(arrivals[i].frame) == Some(DeliverAll(feed, arrivals).currentUrl)
    decreases |arrivals|
  {
    if arrivals != [] {
      var next := Deliver(feed, arrivals[0]);
      var rest := arrivals[1..];
      DeliverAllUrl(next, rest);
      var url := DeliverAll(feed, arrivals).currentUrl;
      if url != feed.currentUrl {
        if url == next.currentUrl {
          assert !Dropped(arrivals[0].frame) && CarriedUrl(arrivals[0].frame) == Some(url);
        } else {
          var i :| 0 <= i < |rest| && !Dropped(rest[i].frame) && CarriedUrl(rest[i].frame) == Some(url);
          assert arrivals[i + 1] == rest[i];
        }
      }
    }
  }

  // ---------------------------------------------------------------------------
  // Server replies

  /** How `apiClient.startAutomation` settles: a reply with `success: true` and
      the session's id and message, a reply with `success: false` and an
      optional `error`, or a thrown value. */
  datatype StartReply =
    | Accepted(sessionId: string, message: string)
    | Refused(error: Option<string>)
    | Rejected(thrown: Thrown)

  /** What `startAutomation` catches when the start does not succeed:
      `new Error(response.error || "Failed to start automation")` for a refusal
      (an empty `error` counts as missing), the thrown value otherwise. */
  function StartFailure(reply: StartReply): (e: Thrown)
    requires !reply.Accepted?
    ensures reply.Refused? ==> e.ErrorObject? && e.name == "Error"
    ensures reply.Refused? && reply.error.Some? && reply.error.value != "" ==> MessageOf(e) == reply.error.value
    ensures reply.Refused? && (reply.error.None? || reply.error.value == "") ==> MessageOf(e) == "Failed to start automation"
    ensures reply.Rejected? ==> e == reply.thrown
  {
    match reply
    case Refused(error) =>
      NewError(if error.Some? && error.value != "" then error.value else "Failed to start automation")
    case Rejected(t) => t
  }

  // ---------------------------------------------------------------------------
  // Reconnection

  /** What a subscription's handlers captured when `connectToStream` made them:
      the session they stream, and the `isRunning` of the render that created
      the `connectToStream` in use. */
  datatype Closure = Closure(sessionId: string, runningSeen: bool)

  /** A pending `setTimeout` that will call `connectToStream` again. */
  datatype Reconnect = Reconnect(closure: Closure, delayMs: nat)

  const ReconnectDelay: nat := 3000

  /** The reconnect guard as the running flag is meant to be read: automatic
      reconnection is on, the subscription has a session, and a run is in
      progress now. */
  predicate ReconnectDue(autoReconnect: bool, sessionId: string, isRunning: bool) {
    autoReconnect && sessionId != "" && isRunning
  }

  /** The reconnect guard as `onerror` evaluates it: `isRunning` is the value the
      handler's closure captured, not the current one. */
  predicate ReconnectDueAsWritten(autoReconnect: bool, c: Closure) {
    autoReconnect && c.sessionId != "" && c.runningSeen
  }

  // ---------------------------------------------------------------------------
  // The hook

  /** Every field of the hook, as a value. */
  datatype HookState = HookState(
    isRunning: bool, isConnected: bool, sessionId: string, logs: seq<Log>, currentUrl: string,
    source: Option<nat>, open: set<nat>, subscriptions: map<nat, Closure>,
    timerRef: Option<nat>, timers: map<nat, Reconnect>, nextHandle: nat)

  class AutomationHook {
    var isRunning: bool
    var isConnected: bool
    var sessionId: string
    var logs: seq<Log>
    var currentUrl: string
    /** `eventSourceRef.current`. */
    var source: Option<nat>
    /** The event sources opened and not yet closed. */
    var open: set<nat>
    /** What each event source's handlers captured. */
    var subscriptions: map<nat, Closure>
    /** `reconnectTimeoutRef.current`. */
    var timerRef: Option<nat>
    /** The reconnect timers scheduled and neither fired nor cleared. */
    var timers: map<nat, Reconnect>
    /** The next handle for an event source or a timer. */
    var nextHandle: nat
    const autoReconnect: bool

    /** The hook's first render: `autoReconnect` defaults to true. */
    constructor (autoReconnectOption: Option<bool>)
      ensures autoReconnect == autoReconnectOption.GetOr(true)
      ensures State() == HookState(false, false, "", [], "", None, {}, map[], None, map[], 0)
      ensures Valid()
    {
      autoReconnect := autoReconnectOption.GetOr(true);
      isRunning, isConnected, sessionId, logs, currentUrl := false, false, "", [], "";
      source, open, subscriptions := None, {}, map[];
      timerRef, timers, nextHandle := None, map[], 0;
    }

    function State(): HookState
      reads this
    {
      HookState(isRunning, isConnected, sessionId, logs, currentUrl, source, open, subscriptions,
                timerRef, timers, nextHandle)
    }

    /** At most one event source is open, and it is the one the ref holds; every
        handle in use was handed out before. */
    predicate Valid()
      reads this
    {
      (forall h :: h in open ==> source == Some(h))
      && open <= subscriptions.Keys
      && (forall h :: h in subscriptions ==> h < nextHandle)
      && (forall t :: t in timers ==> t < nextHandle)
    }

    /** `addLog`: append one entry at the end. */
    method AddLog(id: string, timestamp: string, kind: string, message: string,
                  screenshot: Option<string>, data: Option<EventData>) returns (log: Log)
      modifies this
      ensures log == Log(id, timestamp, kind, message, screenshot, data)
      ensures State() == old(State()).(logs := old(logs) + [log])
    {
      log := Log(id, timestamp, kind, message, screenshot, data);
      logs := logs + [log];
    }

    /** `connectToStream(sessionId)`: close the current event source, if any,
        then open a new one and keep it in the ref. */
    method ConnectToStream(sid: string, runningSeen: bool)
      requires Valid()
      modifies this
      ensures Valid()
      ensures State() == old(State()).(source := Some(old(nextHandle)), open := {old(nextHandle)},
                                       subscriptions := old(subscriptions)[old(nextHandle) := Closure(sid, runningSeen)],
                                       nextHandle := old(nextHandle) + 1)
    {
      if source.Some? {
        open := open - {source.value};
      }
      assert open == {};
      var h := nextHandle;
      nextHandle := nextHandle + 1;
      subscriptions := subscriptions[h := Closure(sid, runningSeen)];
      open := {h};
      source := Some(h);
    }

    /** `onopen`. */
    method OnOpen(h: nat)
      requires Valid() && h in open
      modifies this
      ensures Valid()
      ensures State() == old(State()).(isConnected := true)
    {
      isConnected := true;
    }

    /** `onmessage`: the log and `currentUrl` change as `Deliver` says, and
        nothing else changes. */
    method OnMessage(h: nat, frame: Frame, id: string, shown: string)
      requires Valid() && h in open
      modifies this
      ensures Valid()
      ensures Feed(logs, currentUrl) == Deliver(old(Feed(logs, currentUrl)), Arrival(frame, id, shown))
      ensures State() == old(State()).(logs := logs, currentUrl := currentUrl)
    {
      if frame.Unparseable? || frame.kind == "heartbeat" {
        return;
      }
      var screenshot := if frame.data.Some? then frame.data.value.screenshot else None;
      var log := AddLog(id, shown, frame.kind, frame.message, screenshot, frame.data);
      if frame.data.Some? && frame.data.value.url.Some? && frame.data.value.url.value != "" {
        currentUrl := frame.data.value.url.value;
      }
    }

    /** `onerror`: the hook counts itself disconnected, and schedules a
        reconnect in 3000 ms exactly when `ReconnectDue` holds for the
        subscription's session and the current `isRunning`. */
    method OnError(h: nat)
      requires Valid() && h in open
      modifies this
      ensures Valid()
      ensures !isConnected
      ensures timers != old(timers) <==> ReconnectDue(autoReconnect, old(subscriptions)[h].sessionId, old(isRunning))
      ensures ReconnectDue(autoReconnect, old(subscriptions)[h].sessionId, old(isRunning)) ==>
                State() == old(State()).(isConnected := false, timerRef := Some(old(nextHandle)),
                                         timers := old(timers)[old(nextHandle) := Reconnect(old(subscriptions)[h], ReconnectDelay)],
                                         nextHandle := old(nextHandle) + 1)
      ensures !ReconnectDue(autoReconnect, old(subscriptions)[h].sessionId, old(isRunning)) ==>
                State() == old(State()).(isConnected := false)
    {
      isConnected := false;
      var c := subscriptions[h];
      if ReconnectDue(autoReconnect, c.sessionId, isRunning) {
        var t := nextHandle;
        assert t !in timers;
        nextHandle := nextHandle + 1;
        timers := timers[t := Reconnect(c, ReconnectDelay)];
        timerRef := Some(t);
      }
    }

    /** `onclose`. A browser `EventSource` never dispatches a `close` event, so
        this handler is unreachable in practice; it is kept as the source
        registers it. */
    method OnClose(h: nat)
      requires Valid() && h in open
      modifies this
      ensures Valid()
      ensures State() == old(State()).(isConnected := false)
    {
      isConnected := false;
    }

    /** A reconnect timer fires: it is no longer pending, and the stream is
        reopened for the session its closure captured. */
    method FireTimer(t: nat)
      requires Valid() && t in timers
      modifies this
      ensures Valid()
      ensures State() == old(State()).(timers := old(timers) - {t}, source := Some(old(nextHandle)),
                                       open := {old(nextHandle)},
                                       subscriptions := old(subscriptions)[old(nextHandle) := old(timers)[t].closure],
                                       nextHandle := old(nextHandle) + 1)
    {
      var c := timers[t].closure;
      timers := timers - {t};
      ConnectToStream(c.sessionId, c.runningSeen);
    }

    /** `startAutomation(prompt)`. A blank prompt throws before anything changes.
        Otherwise the run is marked running with an empty log and no URL; an
        accepted start stores the session, opens its stream and logs the
        server's message; any other outcome logs `Error: <message>`, clears
        `isRunning` and rethrows. */
    method StartAutomation(prompt: string, reply: StartReply, id: string, stamp: string) returns (r: Completion<string>)
      requires Valid()
      modifies this
      ensures Valid()
      ensures Trim(prompt) == [] ==> r == Threw(NewError("Prompt is required")) && State() == old(State())
      ensures Trim(prompt) != [] && reply.Accepted? ==>
                r == Returned(reply.sessionId)
                && State() == old(State()).(isRunning := true, sessionId := reply.sessionId,
                                            logs := [Log(id, stamp, "info", reply.message, None, None)], currentUrl := "",
                                            source := Some(old(nextHandle)), open := {old(nextHandle)},
                                            subscriptions := old(subscriptions)[old(nextHandle) := Closure(reply.sessionId, old(isRunning))],
                                            nextHandle := old(nextHandle) + 1)
      ensures Trim(prompt) != [] && !reply.Accepted? ==>
                r == Threw(StartFailure(reply))
                && State() == old(State()).(isRunning := false, currentUrl := "",
                                            logs := [Log(id, stamp, "error", "Error: " + MessageOf(StartFailure(reply)), None, None)])
    {
      if Trim(prompt) == [] {
        return Threw(NewError("Prompt is required"));
      }
      var runningSeen := BeginRun();
      match reply
      case Accepted(newSessionId, message) =>
        AcceptStart(newSessionId, message, runningSeen, id, stamp);
        r := Returned(newSessionId);
      case _ =>
        var e := StartFailure(reply);
        FailStart(e, id, stamp);
        r := Threw(e);
    }

    /** The accepted branch of a start: keep the session, open its stream and
        log the server's message. */
    method AcceptStart(sid: string, message: string, runningSeen: bool, id: string, stamp: string)
      requires Valid()
      modifies this
      ensures Valid()
      ensures State() == old(State()).(sessionId := sid, logs := old(logs) + [Log(id, stamp, "info", message, None, None)],
                                       source := Some(old(nextHandle)), open := {old(nextHandle)},
                                       subscriptions := old(subscriptions)[old(nextHandle) := Closure(sid, runningSeen)],
                                       nextHandle := old(nextHandle) + 1)
    {
      sessionId := sid;
      ConnectToStream(sid, runningSeen);
      var log := AddLog(id, stamp, "info", message, None, None);
    }

    /** The catch branch of a start: log the failure and drop the running flag. */
    method FailStart(e: Thrown, id: string, stamp: string)
      requires Valid()
      modifies this
      ensures Valid()
      ensures State() == old(State()).(isRunning := false,
                                       logs := old(logs) + [Log(id, stamp, "error", "Error: " + MessageOf(e), None, None)])
    {
      var log := AddLog(id, stamp, "error", "Error: " + MessageOf(e), None, None);
      isRunning := false;
    }

    /** The first half of a start: mark the run, clear the log and the URL. */
    method BeginRun() returns (runningSeen: bool)
      requires Valid()
      modifies this
      ensures Valid()
      ensures runningSeen == old(isRunning)
      ensures State() == old(State()).(isRunning := true, logs := [], currentUrl := "")
    {
      runningSeen := isRunning;
      isRunning := true;
      logs := [];
      currentUrl := "";
    }

    /** `stopAutomation()`. Without a session it does nothing. When the server
        call succeeds, the event source is closed and the ref cleared, the most
        recent reconnect timer is cleared, both flags drop and one entry is
        logged; when it fails, one error entry is logged and the failure
        rethrown. */
    method StopAutomation(outcome: Completion<()>, id: string, stamp: string) returns (r: Completion<()>)
      requires Valid()
      modifies this
      ensures Valid()
      ensures old(sessionId) == "" ==> r == Returned(()) && State() == old(State())
      ensures old(sessionId) != "" && outcome.Returned? ==>
                r == Returned(())
                && State() == old(State()).(isRunning := false, isConnected := false, source := None, open := {},
                                            timers := if old(timerRef).Some? then old(timers) - {old(timerRef).value} else old(timers),
                                            logs := old(logs) + [Log(id, stamp, "info", "Automation stopped by user", None, None)])
      ensures old(sessionId) != "" && outcome.Threw? ==>
                r == outcome
                && State() == old(State()).(logs := old(logs) + [Log(id, stamp, "error",
                                              "Error stopping automation: " + MessageOf(outcome.thrown), None, None)])
    {
      if sessionId == "" {
        return Returned(());
      }
      match outcome
      case Threw(e) =>
        var log := AddLog(id, stamp, "error", "Error stopping automation: " + MessageOf(e), None, None);
        r := Threw(e);
      case Returned(_) =>
        if source.Some? {
          open := open - {source.value};
          source := None;
        }
        assert open == {};
        if timerRef.Some? {
          timers := timers - {timerRef.value};
        }
        isRunning := false;
        isConnected := false;
        var log := AddLog(id, stamp, "info", "Automation stopped by user", None, None);
        r := Returned(());
    }

    /** `clearLogs()`. */
    method ClearLogs()
      modifies this
      ensures State() == old(State()).(logs := [])
    {
      logs := [];
    }

    /** The unmount cleanup: close the current event source and clear the most
        recent reconnect timer; the refs themselves are left as they are. */
    method Unmount()
      requires Valid()
      modifies this
      ensures Valid()
      ensures State() == old(State()).(open := {},
                                       timers := if old(timerRef).Some? then old(timers) - {old(timerRef).value} else old(timers))
    {
      if source.Some? {
        open := open - {source.value};
      }
      assert open == {};
      if timerRef.Some? {
        timers := timers - {timerRef.value};
      }
    }
  }

  /** However the hook got to a valid state, at most one event source is open. */
  lemma AtMostOneSubscription(hook: AutomationHook)
    requires hook.Valid()
    ensures |hook.open| <= 1
  {
    if hook.open != {} {
      var h :| h in hook.open;
      assert hook.open == {h};
    }
  }

  /** The reconnect guard as written, on the first start from an idle hook: the
      new subscription's closure saw `isRunning == false`, so `onerror` as
      written would not reconnect, while the guard read against the current
      flag would. */
  method StartFromIdleScenario() returns (asWritten: bool, corrected: bool)
    ensures !asWritten && corrected
  {
    var hook := new AutomationHook(None);
    var prompt := "Open the pricing page";
    assert !IsWhitespace(prompt[0]);
    TrimEmptyIffBlank(prompt);
    var r := hook.StartAutomation(prompt, Accepted("s1", "Automation started"), "1", "10:00:00");
    var c := hook.subscriptions[hook.source.value];
    asWritten := ReconnectDueAsWritten(hook.autoReconnect, c);
    corrected := ReconnectDue(hook.autoReconnect, c.sessionId, hook.isRunning);
  }
}
