/** A model of the script-side logging shim RCTLog: a fixed table from
    severity names to console channels, the routing rule that depends on
    whether the host installed a native logging hook, and the single
    mutable slot holding the warning handler.

    The console, the handler functions and the host hook are not run: every
    console call and every handler call becomes an event appended to a
    trace, and the argument values are opaque tokens passed through as they
    are. */
module RCTLog {

  datatype Option<T> = None | Some(value: T)

  /** The four console methods a level can reach. */
  datatype Channel = Log | Info | Warn | Error

  /** A logging argument; the shim never looks inside one. */
  datatype Value = Value(token: nat)

  /** The identity of a warning-handler function object. */
  type HandlerId = nat

  /** One observable side effect of the shim. */
  datatype Event =
    | Console(channel: Channel, args: seq<Value>)
    | Handler(id: HandlerId, args: seq<Value>)

  /** What a logging call can throw. */
  datatype Failure =
    | InvariantViolation(message: string)
    /** `console[logFn]` is not a method: the TypeError of calling undefined. */
    | NotAFunction(level: string)

  datatype Outcome = Returned | Threw(failure: Failure)

  /** The events one call emits and how it ends. */
  datatype Effect = Effect(events: seq<Event>, outcome: Outcome)

  // ---------------------------------------------------------------------
  // The level table
  // ---------------------------------------------------------------------

  /** The keys of `levelsMap`, in the order `Object.keys` lists them. */
  const LevelNames: seq<string> := ["log", "info", "warn", "error", "fatal"]

  /** The name of the console method behind a channel. */
  function ChannelName(c: Channel): string
  {
    match c
    case Log => "log"
    case Info => "info"
    case Warn => "warn"
    case Error => "error"
  }

  /** The own properties of `levelsMap`: every accepted level reaches the
      console method of the same name, except `fatal`, which reaches
      `error`. */
  function LevelsMap(level: string): (r: Option<Channel>)
    ensures r.Some? <==> level in LevelNames
    ensures r.Some? ==> ChannelName(r.value) == (if level == "fatal" then "error" else level)
  {
    if level == "log" then Some(Log)
    else if level == "info" then Some(Info)
    else if level == "warn" then Some(Warn)
    else if level == "error" then Some(Error)
    else if level == "fatal" then Some(Error)
    else None
  }

  /** Which levels reach a given channel: its own name, and for `Error`
      also `fatal`. Every channel is reached. */
  lemma LevelsReachingChannel(level: string, c: Channel)
    ensures LevelsMap(level) == Some(c) <==> level == ChannelName(c) || (c == Error && level == "fatal")
    ensures LevelsMap(ChannelName(c)) == Some(c)
  {
  }

  /** `Array.prototype.toString` on an array of strings: the elements
      joined by commas. */
  function Join(parts: seq<string>, sep: string): string
  {
    if |parts| == 0 then ""
    else if |parts| == 1 then parts[0]
    else parts[0] + sep + Join(parts[1..], sep)
  }

  /** The message handed to `invariant` for an unaccepted level: it quotes
      the level and lists the five keys in table order, comma-separated. */
  function InvariantMessage(level: string): (r: string)
    ensures r == "Level \"" + level + "\" not one of log,info,warn,error,fatal"
    ensures r[7..7 + |level|] == level
  {
    "Level \"" + level + "\" not one of " + Join(LevelNames, ",")
  }

  // ---------------------------------------------------------------------
  // One call in isolation
  // ---------------------------------------------------------------------

  /** What `logToConsole(level, ...args)` does: look the level up, fail the
      invariant if it is not a key, otherwise call the mapped console
      method once with the arguments as they were given. */
  function ConsoleEffect(level: string, args: seq<Value>): (e: Effect)
    ensures e.outcome == Returned <==> level in LevelNames
    ensures e.outcome == Returned ==>
      exists c :: LevelsMap(level) == Some(c) && e.events == [Console(c, args)]
    ensures level !in LevelNames ==>
      e.events == [] && e.outcome == Threw(InvariantViolation(InvariantMessage(level)))
  {
    match LevelsMap(level)
    case None => Effect([], Threw(InvariantViolation(InvariantMessage(level))))
    case Some(c) => Effect([Console(c, args)], Returned)
  }

  /** What `logIfNoNativeHook(level, ...args)` does: without the hook it is
      `logToConsole`; with it, only a `warn` call reaches the registered
      handler, with no lookup and no invariant. */
  function RouteEffect(hookDefined: bool, handler: Option<HandlerId>, level: string, args: seq<Value>): (e: Effect)
    ensures |e.events| <= 1
    ensures e.outcome.Threw? <==> !hookDefined && level !in LevelNames
    ensures |e.events| == 1 <==>
      (hookDefined && handler.Some? && level == "warn") || (!hookDefined && level in LevelNames)
    ensures forall ev | ev in e.events :: ev.Handler? <==> hookDefined
  {
    if !hookDefined then ConsoleEffect(level, args)
    else if handler.Some? && level == "warn" then Effect([Handler(handler.value, args)], Returned)
    else Effect([], Returned)
  }

  /** Without the hook, routing is exactly `logToConsole`, failure included. */
  lemma NoHookRoutesToConsole(handler: Option<HandlerId>, level: string, args: seq<Value>)
    ensures RouteEffect(false, handler, level, args) == ConsoleEffect(level, args)
    ensures level !in LevelNames ==>
      RouteEffect(false, handler, level, args) == Effect([], Threw(InvariantViolation(InvariantMessage(level))))
  {
  }

  /** With the hook, routing never writes to the console and never throws,
      whatever the level; the handler fires, once and with the original
      arguments, exactly when one is set and the level is `warn`. */
  lemma HookRoutesOnlyWarnings(handler: Option<HandlerId>, level: string, args: seq<Value>)
    ensures RouteEffect(true, handler, level, args).outcome == Returned
    ensures forall e | e in RouteEffect(true, handler, level, args).events :: e.Handler?
    ensures |RouteEffect(true, handler, level, args).events| == 1 <==> handler.Some? && level == "warn"
    ensures handler.Some? && level == "warn" ==>
      RouteEffect(true, handler, level, args).events == [Handler(handler.value, args)]
    ensures !(handler.Some? && level == "warn") ==>
      RouteEffect(true, handler, level, args).events == []
  {
  }

  // ---------------------------------------------------------------------
  // The module as a state machine
  // ---------------------------------------------------------------------

  /** The three entry points of the RCTLog object. */
  datatype Call =
    | IfNoNativeHook(level: string, args: seq<Value>)
    | ToConsole(level: string, args: seq<Value>)
    | SetHandler(handler: Option<HandlerId>)

  /** Whether `global.nativeLoggingHook` is defined, the `warningHandler`
      slot, and everything emitted so far. */
  datatype LogState = LogState(hookDefined: bool, handler: Option<HandlerId>, trace: seq<Event>)

  /** On module load the handler slot is `null` and nothing is emitted. */
  function Initial(hookDefined: bool): LogState
  {
    LogState(hookDefined, None, [])
  }

  /** The effect of one call in a state. */
  function CallEffect(s: LogState, c: Call): Effect
  {
    match c
    case IfNoNativeHook(level, args) => RouteEffect(s.hookDefined, s.handler, level, args)
    case ToConsole(level, args) => ConsoleEffect(level, args)
    case SetHandler(_) => Effect([], Returned)
  }

  /** The state after one call; a thrown failure leaves the state as it was,
      since nothing is emitted before the invariant fires. */
  function Next(s: LogState, c: Call): LogState
  {
    LogState(s.hookDefined,
             if c.SetHandler? then c.handler else s.handler,
             s.trace + CallEffect(s, c).events)
  }

  /** The state after a sequence of calls, each thrown failure caught by
      the caller before the next call. */
  function Run(s: LogState, calls: seq<Call>): LogState
    decreases |calls|
  {
    if calls == [] then s else Run(Next(s, calls[0]), calls[1..])
  }

  /** Every call emits at most one event. */
  lemma AtMostOneEventPerCall(s: LogState, c: Call)
    ensures |CallEffect(s, c).events| <= 1
    ensures CallEffect(s, c).outcome.Threw? ==> CallEffect(s, c).events == []
  {
  }

  /** `setWarningHandler(h)` stores `h` and changes nothing else; the two
      logging calls leave the slot as it was. */
  lemma OnlySetterWritesHandler(s: LogState, c: Call)
    ensures Next(s, c).hookDefined == s.hookDefined
    ensures c.SetHandler? ==> Next(s, c) == LogState(s.hookDefined, c.handler, s.trace)
    ensures !c.SetHandler? ==> Next(s, c).handler == s.handler
  {
  }


  lemma {:induction false} RunAppend(s: LogState, calls: seq<Call>, c: Call)
    ensures Run(s, calls + [c]) == Next(Run(s, calls), c)
    decreases |calls|
  {
    if calls == [] {
      assert calls + [c] == [c];
    } else {
      assert (calls + [c])[1..] == calls[1..] + [c];
      RunAppend(Next(s, calls[0]), calls[1..], c);
    }
  }

  /** The trace only grows, and the hook flag is never written. */
  lemma {:induction false} RunExtendsTrace(s: LogState, calls: seq<Call>)
    ensures Run(s, calls).hookDefined == s.hookDefined
    ensures s.trace <= Run(s, calls).trace
    decreases |calls|
  {
    if calls != [] {
      RunExtendsTrace(Next(s, calls[0]), calls[1..]);
    }
  }

  /** The handler most recently passed to `setWarningHandler`, reading the
      calls from the end, or `start` when none of them sets one. */
  function LastSet(start: Option<HandlerId>, calls: seq<Call>): Option<HandlerId>
    decreases |calls|
  {
    if calls == [] then start
    else if calls[|calls| - 1].SetHandler? then calls[|calls| - 1].handler
    else LastSet(start, calls[..|calls| - 1])
  }

  /** After any sequence of calls the slot holds the most recently set
      handler. */
  lemma {:induction false} RunHandlerIsLastSet(s: LogState, calls: seq<Call>)
    ensures Run(s, calls).handler == LastSet(s.handler, calls)
    decreases |calls|
  {
    if calls != [] {
      var front, last := calls[..|calls| - 1], calls[|calls| - 1];
      assert calls == front + [last];
      RunAppend(s, front, last);
      RunHandlerIsLastSet(s, front);
    }
  }

  /** With the hook, a `warn` call after any history reaches the most
      recently set handler, and nothing when that was `null`. */
  lemma ForwardingUsesLatestHandler(s: LogState, calls: seq<Call>, args: seq<Value>)
    requires s.hookDefined
    ensures CallEffect(Run(s, calls), IfNoNativeHook("warn", args)) ==
      match LastSet(s.handler, calls)
      case None => Effect([], Returned)
      case Some(h) => Effect([Handler(h, args)], Returned)
  {
    RunHandlerIsLastSet(s, calls);
    RunExtendsTrace(s, calls);
  }

  /** No call in `calls` is `setWarningHandler`. */
  predicate NoSetter(calls: seq<Call>)
  {
    forall i :: 0 <= i < |calls| ==> !calls[i].SetHandler?
  }

  /** Calls that do not set the handler do not change the last one set. */
  lemma {:induction false} LastSetIgnoresNonSetters(start: Option<HandlerId>, calls: seq<Call>, rest: seq<Call>)
    requires NoSetter(rest)
    ensures LastSet(start, calls + rest) == LastSet(start, calls)
    decreases |rest|
  {
    if rest == [] {
      assert calls + rest == calls;
    } else {
      var front := rest[..|rest| - 1];
      assert !rest[|rest| - 1].SetHandler?;
      assert NoSetter(front) by {
        forall i | 0 <= i < |front| ensures !front[i].SetHandler? {
          assert front[i] == rest[i];
        }
      }
      assert (calls + rest)[..|calls + rest| - 1] == calls + front;
      assert (calls + rest)[|calls + rest| - 1] == rest[|rest| - 1];
      LastSetIgnoresNonSetters(start, calls, front);
    }
  }

  /** Setting `null` turns forwarding off: with the hook, no later call of
      `logIfNoNativeHook` emits anything, at any level, until a handler is
      set again. */
  lemma NullHandlerDisablesForwarding(s: LogState, pre: seq<Call>, rest: seq<Call>, level: string, args: seq<Value>)
    requires s.hookDefined
    requires NoSetter(rest)
    ensures CallEffect(Run(s, pre + [SetHandler(None)] + rest), IfNoNativeHook(level, args)) == Effect([], Returned)
  {
    var calls := pre + [SetHandler(None)] + rest;
    RunHandlerIsLastSet(s, calls);
    RunExtendsTrace(s, calls);
    LastSetIgnoresNonSetters(s.handler, pre + [SetHandler(None)], rest);
    assert (pre + [SetHandler(None)])[..|pre|] == pre;
  }

  /** No call in `calls` passes a non-null handler to the setter. */
  predicate NeverRegisters(calls: seq<Call>)
  {
    forall i :: 0 <= i < |calls| ==> !(calls[i].SetHandler? && calls[i].handler.Some?)
  }

  /** The slot starts as `null`: from module load, until some handler is
      set, no handler is ever invoked and a `warn` call forwards nothing. */
  lemma {:induction false} SilentUntilHandlerSet(hookDefined: bool, calls: seq<Call>, args: seq<Value>)
    requires NeverRegisters(calls)
    ensures HandlerCount(Run(Initial(hookDefined), calls).trace) == 0
    ensures CallEffect(Run(Initial(hookDefined), calls), IfNoNativeHook("warn", args)) ==
      if hookDefined then Effect([], Returned) else ConsoleEffect("warn", args)
  {
    NoHandlerStaysSilent(Initial(hookDefined), calls);
    RunExtendsTrace(Initial(hookDefined), calls);
  }

  lemma {:induction false} NoHandlerStaysSilent(s: LogState, calls: seq<Call>)
    requires s.handler == None
    requires NeverRegisters(calls)
    ensures Run(s, calls).handler == None
    ensures HandlerCount(Run(s, calls).trace) == HandlerCount(s.trace)
    decreases |calls|
  {
    if calls != [] {
      var n := Next(s, calls[0]);
      CountsAppend(s.trace, CallEffect(s, calls[0]).events);
      var ev := CallEffect(s, calls[0]).events;
      assert HandlerCount(ev) == 0 by {
        assert ev == [] || (|ev| == 1 && ev[0].Console?);
      }
      assert NeverRegisters(calls[1..]) by {
        forall i | 0 <= i < |calls[1..]| ensures !(calls[1..][i].SetHandler? && calls[1..][i].handler.Some?) {
          assert calls[1..][i] == calls[i + 1];
        }
      }
      NoHandlerStaysSilent(n, calls[1..]);
    }
  }

  /** The number of handler invocations in a trace. */
  function HandlerCount(t: seq<Event>): nat
    decreases |t|
  {
    if t == [] then 0 else (if t[0].Handler? then 1 else 0) + HandlerCount(t[1..])
  }

  /** The number of console calls in a trace. */
  function ConsoleCount(t: seq<Event>): nat
    decreases |t|
  {
    if t == [] then 0 else (if t[0].Console? then 1 else 0) + ConsoleCount(t[1..])
  }

  lemma {:induction false} CountsAppend(a: seq<Event>, b: seq<Event>)
    ensures HandlerCount(a + b) == HandlerCount(a) + HandlerCount(b)
    ensures ConsoleCount(a + b) == ConsoleCount(a) + ConsoleCount(b)
    decreases |a|
  {
    if a == [] {
      assert a + b == b;
    } else {
      assert (a + b)[1..] == a[1..] + b;
      CountsAppend(a[1..], b);
    }
  }

  /** The number of `logIfNoNativeHook` calls whose level is `warn`. */
  function WarnRoutes(calls: seq<Call>): nat
    decreases |calls|
  {
    if calls == [] then 0
    else (if calls[0].IfNoNativeHook? && calls[0].level == "warn" then 1 else 0) + WarnRoutes(calls[1..])
  }

  /** The number of `logToConsole` calls. */
  function ConsoleCalls(calls: seq<Call>): nat
    decreases |calls|
  {
    if calls == [] then 0 else (if calls[0].ToConsole? then 1 else 0) + ConsoleCalls(calls[1..])
  }

  /** Over any history the handler fires at most once per `warn` routing
      call, and never without the hook. */
  lemma {:induction false} HandlerFiresAtMostOncePerWarn(s: LogState, calls: seq<Call>)
    ensures HandlerCount(Run(s, calls).trace) <= HandlerCount(s.trace) + WarnRoutes(calls)
    ensures !s.hookDefined ==> HandlerCount(Run(s, calls).trace) == HandlerCount(s.trace)
    decreases |calls|
  {
    if calls != [] {
      var n := Next(s, calls[0]);
      CountsAppend(s.trace, CallEffect(s, calls[0]).events);
      var ev := CallEffect(s, calls[0]).events;
      assert HandlerCount(ev) == if ev == [] then 0 else HandlerCount([ev[0]]);
      HandlerFiresAtMostOncePerWarn(n, calls[1..]);
    }
  }

  /** With the hook, only `logToConsole` writes to the console: the
      routing calls never do. */
  lemma {:induction false} HookKeepsConsoleQuiet(s: LogState, calls: seq<Call>)
    requires s.hookDefined
    ensures ConsoleCount(Run(s, calls).trace) <= ConsoleCount(s.trace) + ConsoleCalls(calls)
    ensures ConsoleCalls(calls) == 0 ==> ConsoleCount(Run(s, calls).trace) == ConsoleCount(s.trace)
    decreases |calls|
  {
    RunExtendsTrace(s, calls);
    if calls != [] {
      var n := Next(s, calls[0]);
      CountsAppend(s.trace, CallEffect(s, calls[0]).events);
      var ev := CallEffect(s, calls[0]).events;
      assert ConsoleCount(ev) == if ev == [] then 0 else ConsoleCount([ev[0]]);
      HookKeepsConsoleQuiet(n, calls[1..]);
    }
  }

  /** The handlers ever stored in the slot: the starting one and every one
      passed to the setter. */
  function Registered(start: Option<HandlerId>, calls: seq<Call>): set<HandlerId>
    decreases |calls|
  {
    (if start.Some? then {start.value} else {})
    + (if calls == [] then {} else Registered(if calls[0].SetHandler? then calls[0].handler else start, calls[1..]))
  }

  /** Every handler invocation in a run is of a handler that was in the slot
      at some point. */
  lemma {:induction false} InvokedHandlersWereRegistered(s: LogState, calls: seq<Call>, i: nat)
    requires |s.trace| <= i < |Run(s, calls).trace|
    requires Run(s, calls).trace[i].Handler?
    ensures Run(s, calls).trace[i].id in Registered(s.handler, calls)
    decreases |calls|
  {
    if calls == [] {
      assert false;
    }
    var n := Next(s, calls[0]);
    RunExtendsTrace(n, calls[1..]);
    if i < |n.trace| {
      assert Run(s, calls).trace[i] == n.trace[i];
      assert n.trace[i] in CallEffect(s, calls[0]).events;
    } else {
      InvokedHandlersWereRegistered(n, calls[1..], i);
    }
  }

  // ---------------------------------------------------------------------
  // The level lookup as JavaScript evaluates it
  // ---------------------------------------------------------------------

  /** The properties every object literal inherits from `Object.prototype`. */
  const InheritedNames: set<string> := {
    "constructor", "hasOwnProperty", "isPrototypeOf", "propertyIsEnumerable",
    "toLocaleString", "toString", "valueOf", "__proto__",
    "__defineGetter__", "__defineSetter__", "__lookupGetter__", "__lookupSetter__"
  }

  /** What `levelsMap[level]` yields: an own key's channel name, an inherited
      member (always truthy), or `undefined`. */
  datatype Property = Undefined | OwnChannel(channel: Channel) | InheritedMember(name: string)

  /** Property lookup follows the prototype chain, so an inherited member is
      found for every name of `Object.prototype`. */
  function LookupAsWritten(level: string): (p: Property)
    ensures p.Undefined? <==> level !in LevelNames && level !in InheritedNames
    ensures p.OwnChannel? <==> LevelsMap(level).Some?
    ensures p.OwnChannel? ==> LevelsMap(level) == Some(p.channel)
  {
    match LevelsMap(level)
    case Some(c) => OwnChannel(c)
    case None => if level in InheritedNames then InheritedMember(level) else Undefined
  }

  /** `logToConsole` as written: the invariant only rejects a falsy lookup,
      so an inherited name passes it and the call `console[logFn](...)`
      then throws, since no console method is named after a function's
      source text. */
  function ConsoleEffectAsWritten(level: string, args: seq<Value>): (e: Effect)
    ensures e.outcome == Returned <==> level in LevelNames
    ensures e.outcome.Threw? ==> e.events == []
    ensures e.outcome == Threw(NotAFunction(level)) <==> level in InheritedNames
    ensures e.outcome == Threw(InvariantViolation(InvariantMessage(level))) <==>
      level !in LevelNames && level !in InheritedNames
  {
    match LookupAsWritten(level)
    case Undefined => Effect([], Threw(InvariantViolation(InvariantMessage(level))))
    case OwnChannel(c) => Effect([Console(c, args)], Returned)
    case InheritedMember(_) => Effect([], Threw(NotAFunction(level)))
  }

  /** `toString` is not one of the five levels, yet it passes the invariant
      as written and fails later with a TypeError; the corrected lookup
      reports the invariant violation. */
  lemma InheritedLevelPassesInvariant()
    ensures "toString" !in LevelNames
    ensures LookupAsWritten("toString") != Undefined
    ensures ConsoleEffectAsWritten("toString", []).outcome == Threw(NotAFunction("toString"))
    ensures ConsoleEffect("toString", []).outcome == Threw(InvariantViolation(InvariantMessage("toString")))
  {
    assert "toString" in InheritedNames;
  }

  /** The two lookups differ only on inherited names, and even there neither
      writes to the console. */
  lemma AsWrittenDiffersOnlyOnInherited(level: string, args: seq<Value>)
    ensures level !in InheritedNames ==> ConsoleEffectAsWritten(level, args) == ConsoleEffect(level, args)
    ensures level !in LevelNames ==>
      ConsoleEffectAsWritten(level, args).events == [] && ConsoleEffect(level, args).events == []
  {
  }

  // ---------------------------------------------------------------------
  // The module object
  // ---------------------------------------------------------------------

  /** The RCTLog module: the `warningHandler` slot it owns, the host's hook
      flag it only reads, and the trace of what it has emitted. */
  class Logger {
    var nativeHookDefined: bool
    var warningHandler: Option<HandlerId>
    var trace: seq<Event>

    function State(): LogState
      reads this
    {
      LogState(nativeHookDefined, warningHandler, trace)
    }

    /** Module load: the slot starts as `null`. */
    constructor (hookDefined: bool)
      ensures State() == Initial(hookDefined)
    {
      nativeHookDefined := hookDefined;
      warningHandler := None;
      trace := [];
    }

    /** `RCTLog.logToConsole`, with the corrected lookup of `ConsoleEffect`:
        every level outside the five keys, inherited names included, fails
        the invariant. */
    method LogToConsole(level: string, args: seq<Value>) returns (outcome: Outcome)
      modifies this`trace
      ensures State() == Next(old(State()), ToConsole(level, args))
      ensures outcome == ConsoleEffect(level, args).outcome
      ensures warningHandler == old(warningHandler)
      ensures level in LevelNames ==> trace == old(trace) + [Console(LevelsMap(level).value, args)]
      ensures level !in LevelNames ==>
        trace == old(trace) && outcome == Threw(InvariantViolation(InvariantMessage(level)))
    {
      var logFn := LevelsMap(level);
      if logFn.None? {
        return Threw(InvariantViolation(InvariantMessage(level)));
      }
      trace := trace + [Console(logFn.value, args)];
      return Returned;
    }

    /** `RCTLog.logIfNoNativeHook`. */
    method LogIfNoNativeHook(level: string, args: seq<Value>) returns (outcome: Outcome)
      modifies this`trace
      ensures State() == Next(old(State()), IfNoNativeHook(level, args))
      ensures outcome == RouteEffect(nativeHookDefined, warningHandler, level, args).outcome
      ensures warningHandler == old(warningHandler)
      ensures nativeHookDefined ==> outcome == Returned
      ensures nativeHookDefined && warningHandler.Some? && level == "warn" ==>
        trace == old(trace) + [Handler(warningHandler.value, args)]
      ensures nativeHookDefined && !(warningHandler.Some? && level == "warn") ==> trace == old(trace)
    {
      if !nativeHookDefined {
        outcome := LogToConsole(level, args);
      } else {
        if warningHandler.Some? && level == "warn" {
          trace := trace + [Handler(warningHandler.value, args)];
        }
        outcome := Returned;
      }
    }

    /** `RCTLog.setWarningHandler`. */
    method SetWarningHandler(handler: Option<HandlerId>)
      modifies this`warningHandler
      ensures State() == Next(old(State()), SetHandler(handler))
      ensures warningHandler == handler && trace == old(trace)
    {
      warningHandler := handler;
    }
  }
}
