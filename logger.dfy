/**
 The level-dispatch entry points of xlog: six severities, each with a
 structured form (message and fields) and a templated form (a template
 formatted with its arguments, and no fields). Every entry point resolves the
 context's logger, reading the global logger at the time of the call, and
 forwards exactly one call to it.

 `fmt.Sprintf` is a parameter, `sprintf`: nothing is assumed of it.
 */
module Dispatch {
  import opened Zap
  import opened GoContext
  import opened Xlog

  /** An argument of any Go type passed to a templated entry point. */
  datatype Arg = Arg(id: nat)

  /** `Debug`: one DebugLevel entry with the message and the fields in call-site
      order. */
  method Debug(g: Global, b: Backend, ctx: Context<Value>, msg: string, fields: seq<Field>)
    modifies b
    ensures b.events == old(b.events) + Emission(FromContext(ctx, g.logger), DebugLevel, msg, fields)
    ensures g.logger == old(g.logger)
  {
    var logger := FromContext(ctx, g.logger);
    b.Log(logger, DebugLevel, msg, fields);
  }

  /** `Debugf`: one DebugLevel entry whose message is the formatted template and
      whose field list is empty. */
  method Debugf(g: Global, b: Backend, ctx: Context<Value>, sprintf: (string, seq<Arg>) -> string, template: string, args: seq<Arg>)
    modifies b
    ensures b.events == old(b.events) + Emission(FromContext(ctx, g.logger), DebugLevel, sprintf(template, args), [])
    ensures g.logger == old(g.logger)
  {
    var logger := FromContext(ctx, g.logger);
    b.Log(logger, DebugLevel, sprintf(template, args), []);
  }

  /** `Info`: one InfoLevel entry with the message and the fields in call-site
      order. */
  method Info(g: Global, b: Backend, ctx: Context<Value>, msg: string, fields: seq<Field>)
    modifies b
    ensures b.events == old(b.events) + Emission(FromContext(ctx, g.logger), InfoLevel, msg, fields)
    ensures g.logger == old(g.logger)
  {
    var logger := FromContext(ctx, g.logger);
    b.Log(logger, InfoLevel, msg, fields);
  }

  /** `Infof`: one InfoLevel entry whose message is the formatted template and
      whose field list is empty. */
  method Infof(g: Global, b: Backend, ctx: Context<Value>, sprintf: (string, seq<Arg>) -> string, template: string, args: seq<Arg>)
    modifies b
    ensures b.events == old(b.events) + Emission(FromContext(ctx, g.logger), InfoLevel, sprintf(template, args), [])
    ensures g.logger == old(g.logger)
  {
    var logger := FromContext(ctx, g.logger);
    b.Log(logger, InfoLevel, sprintf(template, args), []);
  }

  /** `Warn`: one WarnLevel entry with the message and the fields in call-site
      order. */
  method Warn(g: Global, b: Backend, ctx: Context<Value>, msg: string, fields: seq<Field>)
    modifies b
    ensures b.events == old(b.events) + Emission(FromContext(ctx, g.logger), WarnLevel, msg, fields)
    ensures g.logger == old(g.logger)
  {
    var logger := FromContext(ctx, g.logger);
    b.Log(logger, WarnLevel, msg, fields);
  }

  /** `Warnf`: one WarnLevel entry whose message is the formatted template and
      whose field list is empty. */
  method Warnf(g: Global, b: Backend, ctx: Context<Value>, sprintf: (string, seq<Arg>) -> string, template: string, args: seq<Arg>)
    modifies b
    ensures b.events == old(b.events) + Emission(FromContext(ctx, g.logger), WarnLevel, sprintf(template, args), [])
    ensures g.logger == old(g.logger)
  {
    var logger := FromContext(ctx, g.logger);
    b.Log(logger, WarnLevel, sprintf(template, args), []);
  }

  /** `Error`: one ErrorLevel entry with the message and the fields in call-site
      order. */
  method Error(g: Global, b: Backend, ctx: Context<Value>, msg: string, fields: seq<Field>)
    modifies b
    ensures b.events == old(b.events) + Emission(FromContext(ctx, g.logger), ErrorLevel, msg, fields)
    ensures g.logger == old(g.logger)
  {
    var logger := FromContext(ctx, g.logger);
    b.Log(logger, ErrorLevel, msg, fields);
  }

  /** `Errorf`: one ErrorLevel entry whose message is the formatted template and
      whose field list is empty. */
  method Errorf(g: Global, b: Backend, ctx: Context<Value>, sprintf: (string, seq<Arg>) -> string, template: string, args: seq<Arg>)
    modifies b
    ensures b.events == old(b.events) + Emission(FromContext(ctx, g.logger), ErrorLevel, sprintf(template, args), [])
    ensures g.logger == old(g.logger)
  {
    var logger := FromContext(ctx, g.logger);
    b.Log(logger, ErrorLevel, sprintf(template, args), []);
  }

  /** `Fatal`: one FatalLevel entry with the message and the fields in call-site
      order and then exits the process. */
  method Fatal(g: Global, b: Backend, ctx: Context<Value>, msg: string, fields: seq<Field>)
    modifies b
    ensures b.events == old(b.events) + Emission(FromContext(ctx, g.logger), FatalLevel, msg, fields)
    ensures g.logger == old(g.logger)
  {
    var logger := FromContext(ctx, g.logger);
    b.Log(logger, FatalLevel, msg, fields);
  }

  /** `Fatalf`: one FatalLevel entry whose message is the formatted template and
      whose field list is empty and then exits the process. */
  method Fatalf(g: Global, b: Backend, ctx: Context<Value>, sprintf: (string, seq<Arg>) -> string, template: string, args: seq<Arg>)
    modifies b
    ensures b.events == old(b.events) + Emission(FromContext(ctx, g.logger), FatalLevel, sprintf(template, args), [])
    ensures g.logger == old(g.logger)
  {
    var logger := FromContext(ctx, g.logger);
    b.Log(logger, FatalLevel, sprintf(template, args), []);
  }

  /** `Panic`: one PanicLevel entry with the message and the fields in call-site
      order and then panics with the message. */
  method Panic(g: Global, b: Backend, ctx: Context<Value>, msg: string, fields: seq<Field>)
    modifies b
    ensures b.events == old(b.events) + Emission(FromContext(ctx, g.logger), PanicLevel, msg, fields)
    ensures g.logger == old(g.logger)
  {
    var logger := FromContext(ctx, g.logger);
    b.Log(logger, PanicLevel, msg, fields);
  }

  /** `Panicf`: one PanicLevel entry whose message is the formatted template and
      whose field list is empty and then panics with the message. */
  method Panicf(g: Global, b: Backend, ctx: Context<Value>, sprintf: (string, seq<Arg>) -> string, template: string, args: seq<Arg>)
    modifies b
    ensures b.events == old(b.events) + Emission(FromContext(ctx, g.logger), PanicLevel, sprintf(template, args), [])
    ensures g.logger == old(g.logger)
  {
    var logger := FromContext(ctx, g.logger);
    b.Log(logger, PanicLevel, sprintf(template, args), []);
  }

  /** The structured entry point of each level, as the tests pair them. */
  method LogAt(level: Level, g: Global, b: Backend, ctx: Context<Value>, msg: string, fields: seq<Field>)
    modifies b
    ensures b.events == old(b.events) + Emission(FromContext(ctx, g.logger), level, msg, fields)
    ensures g.logger == old(g.logger)
  {
    match level
    case DebugLevel => Debug(g, b, ctx, msg, fields);
    case InfoLevel => Info(g, b, ctx, msg, fields);
    case WarnLevel => Warn(g, b, ctx, msg, fields);
    case ErrorLevel => Error(g, b, ctx, msg, fields);
    case FatalLevel => Fatal(g, b, ctx, msg, fields);
    case PanicLevel => Panic(g, b, ctx, msg, fields);
  }

  /** The templated entry point of each level, as the tests pair them. */
  method LogfAt(level: Level, g: Global, b: Backend, ctx: Context<Value>, sprintf: (string, seq<Arg>) -> string, template: string, args: seq<Arg>)
    modifies b
    ensures b.events == old(b.events) + Emission(FromContext(ctx, g.logger), level, sprintf(template, args), [])
    ensures g.logger == old(g.logger)
  {
    match level
    case DebugLevel => Debugf(g, b, ctx, sprintf, template, args);
    case InfoLevel => Infof(g, b, ctx, sprintf, template, args);
    case WarnLevel => Warnf(g, b, ctx, sprintf, template, args);
    case ErrorLevel => Errorf(g, b, ctx, sprintf, template, args);
    case FatalLevel => Fatalf(g, b, ctx, sprintf, template, args);
    case PanicLevel => Panicf(g, b, ctx, sprintf, template, args);
  }

  /** The entries an observer sees after one call on an unobserved trace,
      from a context whose logger writes to that observer's core. */
  lemma ObservedAfterCall(before: seq<Event>, logger: Logger, lvl: Level, msg: string, fs: seq<Field>)
    requires Observed(before, logger.core) == []
    ensures Observed(before + Emission(Ptr(logger), lvl, msg, fs), logger.core) == [Record(lvl, msg, logger, fs)]
  {
    ObservedAppend(before, Emission(Ptr(logger), lvl, msg, fs), logger.core);
    EmissionObserved(Ptr(logger), lvl, msg, fs, logger.core);
  }

  /** Structured form, at every level: bind an observing logger into any
      context and log a message with one string field; the observer holds
      exactly one entry, at that level, with that message and that single
      field. */
  method StructuredScenario(level: Level, parent: Context<Value>, message: string) returns (logs: seq<Record>)
    ensures |logs| == 1
    ensures logs[0].level == level && logs[0].message == message
    ensures EntryContext(logs[0]) == [Field("key", StringValue("value"))]
  {
    var g := new Global();
    var b := new Backend();
    var observer := Logger(ObserverCore(0), [], []);
    var ctx := ContextWithLogger(parent, Ptr(observer));
    ResolveBound(parent, Ptr(observer), g.logger);
    LogAt(level, g, b, ctx, message, [Field("key", StringValue("value"))]);
    ObservedAfterCall([], observer, level, message, [Field("key", StringValue("value"))]);
    logs := Observed(b.events, observer.core);
  }

  /** Templated form, at every level: the observer holds exactly one entry,
      at that level, whose message is the formatted template and whose field
      list is empty. */
  method TemplatedScenario(level: Level, parent: Context<Value>, sprintf: (string, seq<Arg>) -> string, template: string, args: seq<Arg>)
    returns (logs: seq<Record>)
    ensures |logs| == 1
    ensures logs[0].level == level && logs[0].message == sprintf(template, args)
    ensures EntryContext(logs[0]) == []
  {
    var g := new Global();
    var b := new Backend();
    var observer := Logger(ObserverCore(0), [], []);
    var ctx := ContextWithLogger(parent, Ptr(observer));
    ResolveBound(parent, Ptr(observer), g.logger);
    LogfAt(level, g, b, ctx, sprintf, template, args);
    ObservedAfterCall([], observer, level, sprintf(template, args), []);
    logs := Observed(b.events, observer.core);
  }

  /** Global fallback: after an observing logger replaces the global one, an
      Info call on any context without a logger binding reaches it exactly
      once, with the call's message and fields; the restore closure then puts
      the no-op logger back. */
  method GlobalScenario(ctx: Context<Value>, observer: Logger, message: string, fields: seq<Field>)
    returns (logs: seq<Record>, restored: Handle)
    requires !Bound(ctx)
    ensures logs == [Record(InfoLevel, message, observer, fields)]
    ensures restored == NewNop()
  {
    var g := new Global();
    var b := new Backend();
    var returnToPrev := g.ReplaceGlobal(Ptr(observer));
    Info(g, b, ctx, message, fields);
    ObservedAfterCall([], observer, InfoLevel, message, fields);
    logs := Observed(b.events, observer.core);
    g.Invoke(returnToPrev);
    restored := g.logger;
  }

  /** A Fatal or Panic call writes its entry before it terminates, and a
      call at any other level does not terminate: the trace gains the entry
      first, then at most the termination. */
  method TerminalScenario(level: Level, parent: Context<Value>, logger: Logger, message: string, fields: seq<Field>)
    returns (added: seq<Event>)
    ensures |added| >= 1
    ensures added[0] == Write(Record(level, message, logger, fields))
    ensures level == FatalLevel ==> added[1..] == [Exit(FatalExitCode)]
    ensures level == PanicLevel ==> added[1..] == [Unwind(LoggedPanic(message))]
    ensures level != FatalLevel && level != PanicLevel ==> |added| == 1
  {
    var g := new Global();
    var b := new Backend();
    var ctx := ContextWithLogger(parent, Ptr(logger));
    ResolveBound(parent, Ptr(logger), g.logger);
    LogAt(level, g, b, ctx, message, fields);
    added := b.events;
    EmissionOrder(Ptr(logger), level, message, fields);
  }
}
