# xlog, modelled in Dafny

xlog is a thin context-scoped façade over the zap logger for Go. A caller
binds a `*zap.Logger` into a `context.Context`. Code further down the call
chain logs through that context. When no logger is bound, xlog falls back to
a process-wide global logger, which starts out as zap's no-op logger and can
be swapped with `ReplaceGlobal`. Two helpers, `WithOperation` and
`WithFields`, derive a named or field-carrying logger and bind it into a
child context. Twelve entry points (`Debug`/`Debugf` … `Panic`/`Panicf`)
resolve the logger and forward one call to it.

The project models this core and proves its contracts:

- `zap.dfy` (module `Zap`) is the backend, seen from xlog.
  - A `*zap.Logger` is a `Handle`: either `Nil` or `Ptr(Logger(core, names, fields))`.
  - `Named` and `With` are zap's derivations.
  - The backend is a class whose only state is a trace of events: `Write(record)`, `Exit(1)` or `Unwind(cause)`. The trace gives the sink (`Records`, or `Observed` for one core), the termination flag (`Exited`, or an `Unwind` event) and the order between them.
- `gocontext.dfy` (module `GoContext`) is Go's context: a `seq` of key/value bindings, oldest first, generic in the stored value (Go's `any`). `Lookup` is `ctx.Value(key)` and searches from the newest binding. It knows nothing of zap; `Xlog` instantiates it with `Value`, a `*zap.Logger` or a value of any other type.
- `xlog.dfy` (module `Xlog`) is `xlog.go`:
  - the private key `LoggerCtxKey`;
  - `ContextWithLogger` and `FromContext`;
  - the class `Global`, which holds the `globalLogger` slot and has `LoggerFromContext`, `ReplaceGlobal`, and `Invoke` for the restore closure.
- `xlog_advance.dfy` (module `Advance`) is `xlog_advance.go`.
- `logger.dfy` (module `Dispatch`) is `logger.go`: twelve methods that extend the backend's trace. It also has client methods that replay `logger_test.go`.

Modelling choices:

- **The global slot is read at call time.** Go's `fromContext` reads the package variable `globalLogger`. The pure functions (`FromContext`, `WithOperation`, `WithFields`) therefore take that value as a parameter, `global`. The methods and the `Global` class read the field `g.logger` when they are called.
- **zap's own behaviour is stated explicitly**, as zap v1 implements it:
  - `Named("")` and `With()` with no fields return the receiver itself, even a nil one.
  - For any other argument, `Named` and `With` clone the receiver, which panics on nil (`NilDereference`).
  - A leveled call on a nil logger panics before anything is written (`Unwind(NilPointer)`).
  - A Fatal entry is written and then the process exits with status 1. A Panic entry is written and then the call panics with the message.
- **`fmt.Sprintf` is a parameter.** The templated entry points take a function argument `sprintf`, and nothing is assumed about it.
- **Contexts are values.** Binding cannot change the parent context. The lemmas also show that the parent's bindings are the unchanged prefix of the child, and that the parent still resolves to the same logger.

Facts about the code that shape the model:

- `fromContext` (xlog.go:59) reads `globalLogger` without taking `globalMu`, so the model claims no exclusion of reads.
- zap's `With()` with no fields returns the receiver itself, so `WithFields(ctx)` with no fields binds the parent's own logger.

Definitions and proved properties:

- The contracts of `NameSegment`, `Named`, `With`, `NewNop`, `EntryContext`, `Termination` and `Emission` restate their bodies: they define the Go and zap abstraction and are not proved properties. Their rows below say what zap does.
- `WithValue` is stated the way Go documents `context.WithValue`, through `Lookup`: the new key finds the new value, and any other key finds what it found in the parent.
- The properties of xlog itself are the lemmas and the contracts of the `Xlog`, `Advance` and `Dispatch` members.

## Model

| member | source | states |
|---|---|---|
| `GoContext.WithValue` | xlog.go:32 | the child context keeps every binding of the parent, unchanged, as its prefix and adds exactly one binding, the newest; a lookup of the new key finds the new value and a lookup of any other key finds what it found in the parent |
| `GoContext.Lookup` | xlog.go:57 | `ctx.Value(k)` yields nothing exactly when no binding is under `k`, and otherwise the value of the newest binding under `k` |
| `GoContext.LookupOnly` | xlog.go:57 | bindings under other keys never change what a lookup of `k` finds |
| `Xlog.ContextWithLogger` | xlog.go:31-33 | the child keeps the parent's bindings and the logger key now looks up to exactly the given `*zap.Logger`, nil included |
| `Xlog.FromContext` | xlog.go:56-63 | resolves to the handle of the newest binding under the logger key when it holds a `*zap.Logger` (nil too); to the global logger when that value has another type or when nothing is bound under the key |
| `Xlog.ResolveBound` | xlog.go:31-33 | binding then resolving returns exactly the bound handle, nil included, whatever the global logger is |
| `Xlog.NewestShadows` | xlog.go:57 | of two bindings, the newer one is resolved |
| `Xlog.BindingLeavesParent` | xlog.go:31-33 | binding leaves the parent context and what it resolves to unchanged; the child's resolution no longer depends on the global logger |
| `Xlog.ForeignKeysIgnored` | xlog.go:19-23 | dropping every binding under a key other than the private `ctxKey("xLoggerKey")` resolves to the same logger |
| `Xlog.KeyIsTyped` | xlog.go:19-23 | `loggerCtxKey` is the value "xLoggerKey" of the unexported type `ctxKey`: a binding under a key of any other type with the same value does not change the resolved logger |
| `Xlog.ForeignBindingIgnored` | xlog.go:57 | adding a binding under any other key, however its name is spelled, does not change the resolved logger |
| `Zap.NewNop` | xlog.go:16 | `zap.NewNop()`: a non-nil logger on the discarding core with no name and no fields |
| `Xlog.Global.constructor` | xlog.go:14-17 | the global slot starts out holding `zap.NewNop()` |
| `Xlog.Global.LoggerFromContext` | xlog.go:42-44 | returns what `fromContext` returns for every context, with the slot read at the time of the call |
| `Xlog.Global.ReplaceGlobal` | xlog.go:46-53 | after the call the slot holds the new logger; the returned closure captures the logger held immediately before |
| `Xlog.Global.Invoke` | xlog.go:53 | calling a restore closure sets the slot to the logger it captured |
| `Xlog.ResolveSeesCurrentGlobal` | xlog.go:56-60 | an unbound context resolves to the no-op logger first and then to the replacement: the slot is read at each call, not captured once |
| `Xlog.RestoresOutOfOrder` | xlog.go:50-53 | each restore closure re-installs its own captured logger despite intervening replacements, so out-of-order invocation does not unwind like a stack |
| `Zap.Named` | xlog_advance.go:13 | the empty name returns the receiver; any other name appends one segment to the names of a non-nil receiver, keeping its core and fields, and fails on nil |
| `Zap.With` | xlog_advance.go:14 | no fields returns the receiver; otherwise the fields are appended after the receiver's, with core and names kept, and a nil receiver fails |
| `Advance.WithOperation` | xlog_advance.go:11-17 | a successful result only extends the input context by one binding; it panics exactly when the resolved logger is nil and there is a name or a field to add |
| `Advance.WithFields` | xlog_advance.go:21-26 | a successful result only extends the input context by one binding; it panics exactly when the resolved logger is nil and there are fields to add |
| `Advance.WithOperationDerives` | xlog_advance.go:12-16 | on a non-nil parent logger, the derived context resolves to it with the operation name appended to its names and the fields appended after its own, in order |
| `Advance.WithOperationOnNil` | xlog_advance.go:12-14 | on a nil parent logger, `WithOperation` rebinds nil when there is nothing to add and panics otherwise |
| `Advance.WithFieldsOnNil` | xlog_advance.go:22-25 | on a nil parent logger, `WithFields` rebinds nil when there are no fields and panics otherwise |
| `Advance.WithFieldsDerives` | xlog_advance.go:22-25 | on a non-nil parent logger, the derived context resolves to it with the same names and the fields appended after its own, in order |
| `Advance.HelpersLeaveParent` | xlog_advance.go:16-25 | neither helper changes what the original context resolves to |
| `Advance.UnboundDerivesFromGlobal` | xlog_advance.go:12-23 | on a context without a logger binding, both helpers derive from the current global logger |
| `Advance.OperationThenFields` | xlog_advance.go:12-23 | `WithOperation(c, op, fs)` resolves to the same logger as `WithFields(WithOperation(c, op), fs)`, and the two panic on the same inputs |
| `Advance.NestedOperations` | xlog_advance.go:13 | nested operations accumulate their names in call order |
| `Zap.Emission` | logger.go:16-19 | the effect of one leveled call on a logger (`logger.Debug` and its siblings): a nil logger panics with nothing written; otherwise the entry with that level, message, logger and call fields is written first and the level's termination follows |
| `Zap.EmissionExits` | logger.go:100 | a leveled call exits the process exactly when it is a Fatal call on a non-nil logger |
| `Zap.RecordsOf` | main_test.go:26 | an entry is among the entries of a trace exactly when the trace writes it |
| `Zap.RecordsOfOne` | main_test.go:26 | a single event contributes its entry when it is a write, and nothing otherwise |
| `Zap.RecordsOfAppend` | main_test.go:26 | the entries of a trace split along any cut; with `RecordsOfOne`, this fixes the entries of every trace to be its writes, in order and with their number |
| `Zap.Observed` | main_test.go:26 | what an observer on a core reports (`logs.All()`): an entry is reported exactly when the trace writes it through a logger on that core |
| `Zap.ObservedOne` | main_test.go:26 | a single event reaches the observer exactly when it writes an entry through a logger on that core |
| `Zap.Termination` | logger.go:98-100 | a Fatal entry is followed by exit with status 1, a Panic entry by a panic carrying the message, and the other levels by nothing |
| `Zap.EmissionWritesOnce` | logger.go:38-41 | a leveled call on a non-nil logger writes exactly one entry with that level, the message verbatim, that logger and the call fields in order; on a nil logger it writes nothing and panics |
| `Zap.EmissionObserved` | logger_test.go:46-47 | the entry reaches the observer of the logger's own core and no other |
| `Zap.EmissionOrder` | logger.go:122-131 | the entry is written first; Fatal then exits, Panic then panics, and the other levels do nothing more |
| `Zap.ObservedAppend` | logger_test.go:46-47 | what an observer reports splits along any cut of the trace; with `ObservedOne`, this fixes the report to be the writes to that core, in order and with their number |
| `Zap.EntryContext` | logger_test.go:50-52 | the field list an observer reports is the logger's attached fields followed by the call's fields |
| `Zap.Backend.Log` | logger.go:38-41 | the trace grows by exactly one call's events; on a non-nil logger the records grow by one entry; only a Fatal entry makes the process exit |
| `Dispatch.Debug` | logger.go:16-19 | one Debug entry with the message and fields, through the logger resolved at call time; the global slot is unchanged |
| `Dispatch.Debugf` | logger.go:27-30 | one Debug entry whose message is `Sprintf(template, args)` and whose fields are empty; the global slot is unchanged |
| `Dispatch.Info` | logger.go:38-41 | one Info entry with the message and fields, through the logger resolved at call time; the global slot is unchanged |
| `Dispatch.Infof` | logger.go:49-52 | one Info entry whose message is `Sprintf(template, args)` and whose fields are empty; the global slot is unchanged |
| `Dispatch.Warn` | logger.go:60-63 | one Warn entry with the message and fields; the global slot is unchanged |
| `Dispatch.Warnf` | logger.go:71-74 | one Warn entry with the formatted message and no fields; the global slot is unchanged |
| `Dispatch.Error` | logger.go:82-85 | one Error entry with the message and fields; the global slot is unchanged |
| `Dispatch.Errorf` | logger.go:93-96 | one Error entry with the formatted message and no fields; the global slot is unchanged |
| `Dispatch.Fatal` | logger.go:105-108 | one Fatal entry with the message and fields, then exit with status 1 |
| `Dispatch.Fatalf` | logger.go:117-120 | one Fatal entry with the formatted message and no fields, then exit with status 1 |
| `Dispatch.Panic` | logger.go:128-131 | one Panic entry with the message and fields, then a panic carrying the message |
| `Dispatch.Panicf` | logger.go:139-142 | one Panic entry with the formatted message and no fields, then a panic carrying it |
| `Dispatch.LogAt` | logger_test.go:18-25 | each structured entry point logs at its own severity |
| `Dispatch.LogfAt` | logger_test.go:18-25 | each templated entry point logs at its own severity |
| `Dispatch.ObservedAfterCall` | logger_test.go:46 | after one call on a logger whose observer saw nothing yet, the observer holds exactly that call's entry |
| `Dispatch.StructuredScenario` | logger_test.go:38-53 | at every level, one structured call on a bound observer yields exactly one entry with that level, that message and the single field `key`=`value` |
| `Dispatch.TemplatedScenario` | logger_test.go:54-67 | at every level, one templated call yields exactly one entry with that level, the formatted message and no fields |
| `Dispatch.GlobalScenario` | logger_test.go:71-81 | with any observing logger installed globally, an Info call on any context without a logger binding reaches it exactly once, with the call's message and fields; the restore closure puts the no-op logger back |
| `Dispatch.TerminalScenario` | logger.go:98-108 | the entry is written before Fatal exits or Panic panics; other levels add only the entry |

## Left out

- Concurrency: the mutex in `ReplaceGlobal` (xlog.go:47-48) is not modelled, and no atomicity or mutual exclusion is claimed. The model is sequential.
- The restore closure is a value, `Restore(previous)`, invoked with `Global.Invoke`; Go function values are not modelled.
- Field constructors (`xlog_field.go`, `field/field.go`) are pure re-exports of zap: a field is an opaque key and payload.
- zap internals are not modelled: encoding, level filtering, sampling, hooks, caller information, and how names are joined with dots. A logger's names are a sequence. Entries sent to the no-op core appear in the trace like any other; zap discards them.
- `fmt.Sprintf` is an arbitrary function parameter; placeholder semantics, mismatched arguments, and float or complex payloads are not modelled.
- `os.Exit` and Go's `panic` are trace events. After an `Exit` or an `Unwind` event, `Backend.Log` and the `Dispatch` methods return normally, and the trace accepts later calls. So the model does not capture that nothing runs after an exit, or that a panic unwinds the caller unless it is recovered.
- Pointer identity of `*zap.Logger` is not modelled: handles compare by value. Two `zap.NewNop()` calls give equal handles, and a clone with the same contents equals its receiver. So "returns the receiver itself" and "exactly the bound handle" are stated as equality of contents, not of pointers.
- A nil parent context (which `context.WithValue` rejects with a panic) and context types other than value bindings are not modelled.
- The fatal and panic hooks installed by the tests (main_test.go), the parallel benchmarks (logger_bench_test.go) and the HTTP example (example/http/main.go) are not modelled.
