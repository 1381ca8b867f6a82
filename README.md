# RCTLog: a verified model of the script-side logging shim

`RCTLog` bridges script-level logging to the host. It has three parts:

- a fixed table, `levelsMap`, that maps the five accepted severity names onto four console methods;
- `logToConsole(level, ...args)`, which looks the level up and calls that console method with the arguments;
- `logIfNoNativeHook(level, ...args)`, which calls `logToConsole` only when the host has installed no `global.nativeLoggingHook`. When the hook is present, it forwards only `warn` calls, and only to the warning handler if one is registered.

The fourth part is the module-level `warningHandler` slot. It starts as `null`, and `setWarningHandler` replaces it.

The model is in `rctlog.dfy`, module `RCTLog`. It has four layers:

- **Level table.** `LevelsMap` is a pure function. `Join` and `InvariantMessage` build the text passed to `invariant`.
- **One call.** `ConsoleEffect` and `RouteEffect` give the events a single call emits and whether it returns or throws.
- **State machine.** `LogState` holds the hook flag, the handler slot and the trace of emitted events. `CallEffect`, `Next` and `Run` apply calls to it. Lemmas cover whole call histories: which handler is used, how often it fires, what was registered, and that the console stays quiet.
- **Class.** `Logger` is the module object. Its methods `LogToConsole`, `LogIfNoNativeHook` and `SetWarningHandler` update the `warningHandler` and `trace` fields in place, and each method is proved to match `Next` and `CallEffect`.

Nothing external is run:

- A console call becomes a `Console(channel, args)` event, and a handler call becomes a `Handler(id, args)` event. Both are appended to the trace.
- Arguments are opaque `Value` tokens, passed on unchanged and in order.
- A handler is known only by its identity (`HandlerId`).
- A thrown exception is an `Outcome` (`Threw(failure)`). Nothing is emitted before the throw, so the state stays as it was. `Run` treats each throw as caught by the caller before the next call.
- The host hook is a boolean, `nativeHookDefined`, which is true when `typeof global.nativeLoggingHook !== 'undefined'`. A hook set to `null` therefore counts as present. This module only reads the flag and never writes it.

## Model

| member | source | states |
|---|---|---|
| `RCTLog.LevelsMap` | Libraries/Utilities/RCTLog.js:15-21 | A level is accepted exactly when it is one of `log`, `info`, `warn`, `error`, `fatal`. It then reaches the console method of the same name, except `fatal`, which reaches `error`. |
| `RCTLog.LevelsReachingChannel` | Libraries/Utilities/RCTLog.js:15-21 | A level reaches a channel if and only if it is that channel's own name, or the channel is `error` and the level is `fatal`. Every channel is reachable by its own name. |
| `RCTLog.InvariantMessage` | Libraries/Utilities/RCTLog.js:44 | The invariant message is `Level "<level>" not one of log,info,warn,error,fatal`: it quotes the level, which can be read back from the message, and then lists the keys in table order, joined by commas. |
| `RCTLog.ConsoleEffect` | Libraries/Utilities/RCTLog.js:40-48 | `logToConsole` with the corrected lookup (see Findings). It returns exactly when the level is accepted, and then emits one console event on the mapped channel with the arguments unchanged. Every other level, including a name inherited from `Object.prototype`, throws the invariant violation with its message and emits nothing. |
| `RCTLog.RouteEffect` | Libraries/Utilities/RCTLog.js:27-37 | `logIfNoNativeHook` emits at most one event. It throws exactly when there is no hook and the level is not accepted. It emits one event exactly when either the hook is present, a handler is set and the level is `warn`, or there is no hook and the level is accepted. Every event it emits is a handler call if and only if the hook is present. |
| `RCTLog.NoHookRoutesToConsole` | Libraries/Utilities/RCTLog.js:29-30 | Without the native hook, `logIfNoNativeHook` has exactly the effect of `logToConsole`, including the failure on an unknown level. |
| `RCTLog.HookRoutesOnlyWarnings` | Libraries/Utilities/RCTLog.js:31-36 | With the hook, routing never throws and never emits a console event, whatever the level. It emits exactly one event, `Handler(h, args)`, if and only if a handler `h` is set and the level is exactly `warn`. Otherwise it emits nothing. |
| `RCTLog.SilentUntilHandlerSet` | Libraries/Utilities/RCTLog.js:23-35 | Starting from module load, in any history that never passes a non-null handler to the setter, no handler is invoked. A `warn` call then forwards nothing when the hook is present, and goes to the console when it is not. |
| `RCTLog.AtMostOneEventPerCall` | Libraries/Utilities/RCTLog.js:27-48 | Every call emits at most one event, and a call that throws emits none. |
| `RCTLog.OnlySetterWritesHandler` | Libraries/Utilities/RCTLog.js:27-52 | The setter stores the given handler and changes nothing else. Both logging calls leave the handler slot unchanged. No call changes the hook flag. |
| `RCTLog.NullHandlerDisablesForwarding` | Libraries/Utilities/RCTLog.js:27-52 | With the hook, after any history in which `null` was set and no setter call followed, `logIfNoNativeHook` emits nothing and returns, for every level. |
| `RCTLog.RunExtendsTrace` | Libraries/Utilities/RCTLog.js:27-52 | Over any sequence of calls the trace only grows: the old trace is a prefix of the new one. The hook flag is unchanged. |
| `RCTLog.RunHandlerIsLastSet` | Libraries/Utilities/RCTLog.js:50-52 | After any sequence of calls, the slot holds the handler most recently passed to `setWarningHandler`. If there was none, it holds the starting handler. |
| `RCTLog.ForwardingUsesLatestHandler` | Libraries/Utilities/RCTLog.js:33-35 | With the hook, a `warn` call after any history invokes the most recently set handler with the original arguments. It emits nothing when that handler is `null`. |
| `RCTLog.HandlerFiresAtMostOncePerWarn` | Libraries/Utilities/RCTLog.js:33-35 | Over any history, the handler invocations added are at most the number of `logIfNoNativeHook` calls with level `warn`. Without the hook, none are added. |
| `RCTLog.HookKeepsConsoleQuiet` | Libraries/Utilities/RCTLog.js:29-36 | With the hook, console events added over any history are at most the number of `logToConsole` calls. A history with no `logToConsole` call adds no console event. |
| `RCTLog.InvokedHandlersWereRegistered` | Libraries/Utilities/RCTLog.js:33-34 | Every handler invocation in a run is of the starting handler or of one passed to the setter during that run. |
| `RCTLog.LookupAsWritten` | Libraries/Utilities/RCTLog.js:41 | `levelsMap[level]` is undefined exactly when the level is neither a key of the table nor a name inherited from `Object.prototype`. Otherwise it is an own channel, or an inherited member, which is truthy. |
| `RCTLog.InheritedLevelPassesInvariant` | Libraries/Utilities/RCTLog.js:41-47 | The level `toString` is not accepted, yet it passes the invariant as written and then throws a TypeError at the console call. The corrected lookup reports the invariant violation instead. |
| `RCTLog.ConsoleEffectAsWritten` | Libraries/Utilities/RCTLog.js:40-48 | `logToConsole` exactly as written. It returns exactly on the five keys. It throws a TypeError exactly on a name inherited from `Object.prototype`, and the invariant violation exactly on every other level. A call that throws emits nothing. |
| `RCTLog.AsWrittenDiffersOnlyOnInherited` | Libraries/Utilities/RCTLog.js:41-47 | On every level that is not an inherited name, the as-written `logToConsole` equals the corrected one. On every unaccepted level, neither emits anything. |
| `RCTLog.Logger.constructor` | Libraries/Utilities/RCTLog.js:23 | The module starts in state `Initial`: the handler slot is `null` and the trace is empty. |
| `RCTLog.Logger.LogToConsole` | Libraries/Utilities/RCTLog.js:40-48 | This uses the corrected lookup (see Findings). The new state is `Next` of the old one, and the outcome is that of `ConsoleEffect`. The handler slot is not touched. An accepted level appends exactly `Console(mapped channel, args)`. Every other level, inherited names included, appends nothing and throws the invariant violation. |
| `RCTLog.Logger.LogIfNoNativeHook` | Libraries/Utilities/RCTLog.js:27-37 | The new state is `Next` of the old one, and the outcome is that of `RouteEffect`. The handler slot is unchanged. With the hook, the method always returns, and it appends `Handler(h, args)` exactly when handler `h` is set and the level is `warn`. Otherwise it appends nothing. |
| `RCTLog.Logger.SetWarningHandler` | Libraries/Utilities/RCTLog.js:50-52 | The slot holds the given handler, and the trace and hook flag are unchanged. |

## Findings

| source | as written | input that shows it | evidently intended | confidence | as-written member | corrected member |
|---|---|---|---|---|---|---|
| Libraries/Utilities/RCTLog.js:41-47 | `levelsMap[level]` follows the prototype chain. A name inherited from `Object.prototype` (`toString`, `constructor`, `__proto__`, …) yields a truthy member, so `invariant(logFn, …)` passes. The following `console[logFn](...)` then calls `undefined` and throws a TypeError. | `logToConsole("toString")` | Every level outside the five keys fails the invariant with its "not one of" message. | low to medium, not executed; the console still receives nothing, and only the error differs | `RCTLog.ConsoleEffectAsWritten`, with the lemma `RCTLog.InheritedLevelPassesInvariant` | `RCTLog.ConsoleEffect` (used by `RCTLog.Logger.LogToConsole`) |

## Left out

- The real `console` object, the handler functions and their own side effects, and any exception they throw. Each call to one of them is an event in the trace.
- What the `invariant` library does with the message it is given. That library is not part of this model. It formats the message before throwing and can replace placeholders such as `%s` inside it. A level containing `%s` can therefore produce a thrown text that differs from `InvariantMessage(level)`. The model keeps only the message argument built on line 44.
- The exact text of the TypeError from the as-written path. That text depends on the script engine, so the model only records that the error happened (`NotAFunction(level)`).
- What `global.nativeLoggingHook` contains, and when the host installs it. The module only reads whether it is defined. `Logger.nativeHookDefined` is a field that no method of the module writes.
- The handler's declared parameter type disagrees with how it is called. The type says it takes one `Array<any>`, but line 34 calls it with the arguments spread. The model follows the call: the handler receives the argument list itself.
- The other files of the repository are not part of this model: the example-list and block screens, the switch component's codegen metadata, and the V8 executor patch. They hold UI composition, declarative metadata or native runtime plumbing, with no logging-shim behaviour.
