/**
 The context carrier and the process-wide fallback logger of xlog.

 A logger is bound into a context under a key of the package's unexported
 type `ctxKey`; resolving a context yields the newest such binding, or the
 global logger when there is none. The global logger lives in a `Global`
 object whose field is replaced by `ReplaceGlobal`.
 */
module Xlog {
  import opened Zap
  import opened GoContext

  /** `loggerCtxKey`: the value "xLoggerKey" of the unexported type
      `ctxKey`; no code outside the package can build an equal key. */
  const LoggerCtxKey: Key := Key("xlog.ctxKey", "xLoggerKey")

  /** What xlog finds stored in a context: a `*zap.Logger` (possibly nil), or
      a value of any other type. */
  datatype Value = LoggerPointer(handle: Handle) | Other(id: nat)

  /** Whether some binding of the context is under the logger key. */
  ghost predicate Bound(ctx: Context<Value>)
  {
    exists i :: 0 <= i < |ctx| && ctx[i].key == LoggerCtxKey
  }

  /** `ContextWithLogger`: a child context with `logger` bound under the
      logger key; the parent's bindings are unchanged. */
  function ContextWithLogger(ctx: Context<Value>, logger: Handle): (r: Context<Value>)
    ensures |r| == |ctx| + 1 && r[..|ctx|] == ctx
    ensures Lookup(r, LoggerCtxKey) == Some(LoggerPointer(logger))
  {
    var r := WithValue(ctx, LoggerCtxKey, LoggerPointer(logger));
    assert NewestAt(r, LoggerCtxKey, |ctx|);
    r
  }

  /** `fromContext`, given the value of `globalLogger` at the time of the
      call: the logger of the newest binding under the logger key when the
      type assertion to `*zap.Logger` succeeds (also for a nil pointer), and
      the global logger otherwise. */
  function FromContext(ctx: Context<Value>, global: Handle): (r: Handle)
    ensures forall i :: NewestAt(ctx, LoggerCtxKey, i) && ctx[i].value.LoggerPointer? ==> r == ctx[i].value.handle
    ensures forall i :: NewestAt(ctx, LoggerCtxKey, i) && !ctx[i].value.LoggerPointer? ==> r == global
    ensures !Bound(ctx) ==> r == global
  {
    match Lookup<Value>(ctx, LoggerCtxKey)
    case Some(LoggerPointer(h)) => h
    case _ => global
  }

  /** Binding then resolving gives back exactly the bound handle, nil
      included, whatever the global logger is. */
  lemma ResolveBound(ctx: Context<Value>, logger: Handle, global: Handle)
    ensures FromContext(ContextWithLogger(ctx, logger), global) == logger
  {
  }

  /** The newest binding shadows the older ones. */
  lemma NewestShadows(ctx: Context<Value>, older: Handle, newer: Handle, global: Handle)
    ensures FromContext(ContextWithLogger(ContextWithLogger(ctx, older), newer), global) == newer
  {
    ResolveBound(ContextWithLogger(ctx, older), newer, global);
  }

  /** Binding a logger into a child leaves what the parent resolves to as it
      was (with contexts as values, a consequence of the child keeping the
      parent's bindings as its prefix), and the child no longer depends on
      the global logger. */
  lemma BindingLeavesParent(ctx: Context<Value>, logger: Handle, global: Handle, global': Handle)
    ensures ContextWithLogger(ctx, logger)[..|ctx|] == ctx
    ensures FromContext(ContextWithLogger(ctx, logger)[..|ctx|], global) == FromContext(ctx, global)
    ensures FromContext(ContextWithLogger(ctx, logger), global) == FromContext(ContextWithLogger(ctx, logger), global')
  {
  }

  /** Only the bindings under the logger key matter: dropping every binding
      under another key resolves to the same logger. */
  lemma ForeignKeysIgnored(ctx: Context<Value>, global: Handle)
    ensures FromContext(ctx, global) == FromContext(Only(ctx, LoggerCtxKey), global)
  {
    LookupOnly(ctx, LoggerCtxKey);
  }

  /** In particular, a binding under any other key, however its name is
      spelled, does not change the resolved logger. */
  lemma ForeignBindingIgnored(ctx: Context<Value>, k: Key, v: Value, global: Handle)
    requires k != LoggerCtxKey
    ensures FromContext(WithValue(ctx, k, v), global) == FromContext(ctx, global)
  {
    var child := WithValue(ctx, k, v);
    LookupOnly(ctx, LoggerCtxKey);
    LookupOnly(child, LoggerCtxKey);
    assert child[..|child| - 1] == ctx;
  }

  /** The key compares by type as well as by value: a binding under a key of
      any other type is ignored, even when its value is "xLoggerKey". */
  lemma KeyIsTyped(ctx: Context<Value>, typeName: string, v: Value, global: Handle)
    requires typeName != LoggerCtxKey.typeName
    ensures FromContext(WithValue(ctx, Key(typeName, "xLoggerKey"), v), global) == FromContext(ctx, global)
  {
    ForeignBindingIgnored(ctx, Key(typeName, "xLoggerKey"), v, global);
  }

  /** What `ReplaceGlobal` hands back: the closure that re-installs the
      logger that was global when it was called. */
  datatype Restore = Restore(previous: Handle)

  /** The package-level `globalLogger` slot. */
  class Global {
    var logger: Handle

    /** The slot starts out holding `zap.NewNop()`. */
    constructor ()
      ensures logger == NewNop()
    {
      logger := NewNop();
    }

    /** `LoggerFromContext`: the same logger `fromContext` resolves, reading
        the slot at the time of the call. */
    function LoggerFromContext(ctx: Context<Value>): (r: Handle)
      reads this
      ensures r == FromContext(ctx, logger)
      ensures !Bound(ctx) ==> r == logger
      ensures forall i :: NewestAt(ctx, LoggerCtxKey, i) && ctx[i].value.LoggerPointer? ==> r == ctx[i].value.handle
    {
      FromContext(ctx, logger)
    }

    /** `ReplaceGlobal`: installs `next` and returns the closure that restores
        the logger held immediately before. */
    method ReplaceGlobal(next: Handle) returns (restore: Restore)
      modifies this
      ensures logger == next
      ensures restore == Restore(old(logger))
    {
      var prev := logger;
      logger := next;
      restore := Restore(prev);
    }

    /** Calling a restore closure: `ReplaceGlobal(prev)`, whose own restore
        closure is discarded. */
    method Invoke(restore: Restore)
      modifies this
      ensures logger == restore.previous
    {
      var discarded := ReplaceGlobal(restore.previous);
    }
  }

  /** An unbound context sees the slot as it is at each call: the initial
      no-op logger first, then the replacement. */
  method ResolveSeesCurrentGlobal(next: Handle) returns (before: Handle, after: Handle)
    ensures before == NewNop()
    ensures after == next
  {
    var g := new Global();
    before := g.LoggerFromContext(Background());
    var restore := g.ReplaceGlobal(next);
    after := g.LoggerFromContext(Background());
  }

  /** A restore closure re-installs the logger it captured, whatever
      replacements happened in between: invoked out of order, two closures
      do not unwind like a stack. */
  method RestoresOutOfOrder(first: Handle, second: Handle) returns (afterFirst: Handle, afterSecond: Handle)
    ensures afterFirst == NewNop()
    ensures afterSecond == first
  {
    var g := new Global();
    var restoreFirst := g.ReplaceGlobal(first);
    var restoreSecond := g.ReplaceGlobal(second);
    g.Invoke(restoreFirst);
    afterFirst := g.logger;
    g.Invoke(restoreSecond);
    afterSecond := g.logger;
  }
}
