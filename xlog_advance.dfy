/**
 The derivation helpers of xlog: each resolves the context's logger, derives
 a new logger from it and binds that into a child context. Derivation goes
 through `Named` and `With`, which dereference the logger, so a context that
 resolves to a nil logger can make a helper panic.
 */
module Advance {
  import opened Zap
  import opened GoContext
  import opened Xlog

  /** `WithOperation`, given the global logger at the time of the call:
      `fromContext(ctx).Named(operation).With(fields...)`, rebound into a
      child of `ctx`. */
  function WithOperation(ctx: Context<Value>, operation: string, fields: seq<Field>, global: Handle): (r: Result<Context<Value>>)
    ensures r.Ok? ==> |r.value| == |ctx| + 1 && r.value[..|ctx|] == ctx
    ensures r.NilDereference? <==> FromContext(ctx, global).Nil? && (operation != "" || fields != [])
  {
    match Named(FromContext(ctx, global), operation)
    case NilDereference => NilDereference
    case Ok(named) =>
      match With(named, fields)
      case NilDereference => NilDereference
      case Ok(logger) => Ok(ContextWithLogger(ctx, logger))
  }

  /** `WithFields`, given the global logger at the time of the call:
      `fromContext(ctx).With(fields...)`, rebound into a child of `ctx`. */
  function WithFields(ctx: Context<Value>, fields: seq<Field>, global: Handle): (r: Result<Context<Value>>)
    ensures r.Ok? ==> |r.value| == |ctx| + 1 && r.value[..|ctx|] == ctx
    ensures r.NilDereference? <==> FromContext(ctx, global).Nil? && fields != []
  {
    match With(FromContext(ctx, global), fields)
    case NilDereference => NilDereference
    case Ok(logger) => Ok(ContextWithLogger(ctx, logger))
  }

  /** The logger a derived context resolves to (the global logger no longer
      matters once a helper has bound one). */
  function ResolveDerived(r: Result<Context<Value>>, global: Handle): (h: Result<Handle>)
    ensures h.Ok? <==> r.Ok?
  {
    match r
    case NilDereference => NilDereference
    case Ok(c) => Ok(FromContext(c, global))
  }

  /** On a non-nil parent logger, `WithOperation` succeeds and its context
      resolves, whatever the global logger then is, to the parent logger on
      the same core with the operation name appended to its names (an empty
      name adds none) and the fields appended after its own, in order. */
  lemma WithOperationDerives(ctx: Context<Value>, operation: string, fields: seq<Field>, global: Handle, later: Handle)
    requires FromContext(ctx, global).Ptr?
    ensures WithOperation(ctx, operation, fields, global).Ok?
    ensures
      var parent := FromContext(ctx, global).logger;
      FromContext(WithOperation(ctx, operation, fields, global).value, later) ==
        Ptr(Logger(parent.core, parent.names + NameSegment(operation), parent.fields + fields))
  {
    var parent := FromContext(ctx, global).logger;
    var named := Named(FromContext(ctx, global), operation);
    var derived := With(named.value, fields);
    ResolveBound(ctx, derived.value, later);
  }

  /** On a nil parent logger, `WithOperation` panics unless it has neither a
      name nor fields to add, when it binds the nil logger again. */
  lemma WithOperationOnNil(ctx: Context<Value>, operation: string, fields: seq<Field>, global: Handle)
    requires FromContext(ctx, global).Nil?
    ensures operation == "" && fields == [] ==>
      WithOperation(ctx, operation, fields, global) == Ok(ContextWithLogger(ctx, Nil))
    ensures operation != "" || fields != [] ==>
      WithOperation(ctx, operation, fields, global) == NilDereference
  {
  }

  /** On a non-nil parent logger, `WithFields` succeeds and its context
      resolves to the parent logger with the same core and names and the
      fields appended after its own, in order. */
  lemma WithFieldsDerives(ctx: Context<Value>, fields: seq<Field>, global: Handle, later: Handle)
    requires FromContext(ctx, global).Ptr?
    ensures WithFields(ctx, fields, global).Ok?
    ensures
      var parent := FromContext(ctx, global).logger;
      FromContext(WithFields(ctx, fields, global).value, later) ==
        Ptr(Logger(parent.core, parent.names, parent.fields + fields))
  {
    var derived := With(FromContext(ctx, global), fields);
    ResolveBound(ctx, derived.value, later);
  }

  /** On a nil parent logger, `WithFields` rebinds nil when there are no
      fields and panics otherwise. */
  lemma WithFieldsOnNil(ctx: Context<Value>, fields: seq<Field>, global: Handle)
    requires FromContext(ctx, global).Nil?
    ensures fields == [] ==> WithFields(ctx, fields, global) == Ok(ContextWithLogger(ctx, Nil))
    ensures fields != [] ==> WithFields(ctx, fields, global) == NilDereference
  {
  }

  /** Neither helper changes what the original context resolves to. With
      contexts as values this is a consequence of the prefix property in the
      helpers' contracts: the derived context keeps the parent's bindings as
      its prefix, so that prefix resolves as the parent does. */
  lemma HelpersLeaveParent(ctx: Context<Value>, operation: string, fields: seq<Field>, global: Handle)
    ensures WithOperation(ctx, operation, fields, global).Ok? ==>
      FromContext(WithOperation(ctx, operation, fields, global).value[..|ctx|], global) == FromContext(ctx, global)
    ensures WithFields(ctx, fields, global).Ok? ==>
      FromContext(WithFields(ctx, fields, global).value[..|ctx|], global) == FromContext(ctx, global)
  {
  }

  /** On a context without a logger binding, both helpers derive from the
      global logger (a nil global is the case of `WithOperationOnNil` and
      `WithFieldsOnNil`). */
  lemma UnboundDerivesFromGlobal(ctx: Context<Value>, operation: string, fields: seq<Field>, global: Logger)
    requires !Bound(ctx)
    ensures ResolveDerived(WithOperation(ctx, operation, fields, Ptr(global)), NewNop()) ==
      Ok(Ptr(Logger(global.core, global.names + NameSegment(operation), global.fields + fields)))
    ensures ResolveDerived(WithFields(ctx, fields, Ptr(global)), NewNop()) ==
      Ok(Ptr(Logger(global.core, global.names, global.fields + fields)))
  {
    WithOperationDerives(ctx, operation, fields, Ptr(global), NewNop());
    WithFieldsDerives(ctx, fields, Ptr(global), NewNop());
  }

  /** `WithOperation` with fields resolves to the same logger as naming the
      operation first and adding the fields with `WithFields` afterwards;
      the two also panic on exactly the same inputs. */
  lemma OperationThenFields(ctx: Context<Value>, operation: string, fields: seq<Field>, global: Handle)
    ensures ResolveDerived(WithOperation(ctx, operation, fields, global), global) ==
      ResolveDerived(
        match WithOperation(ctx, operation, [], global)
        case NilDereference => NilDereference
        case Ok(named) => WithFields(named, fields, global),
        global)
  {
    var parent := FromContext(ctx, global);
    if parent.Ptr? {
      WithOperationDerives(ctx, operation, fields, global, global);
      WithOperationDerives(ctx, operation, [], global, global);
      var named := WithOperation(ctx, operation, [], global).value;
      WithFieldsDerives(named, fields, global, global);
    } else if operation == "" {
      var named := ContextWithLogger(ctx, Nil);
      ResolveBound(ctx, Nil, global);
      ResolveBound(named, Nil, global);
    }
  }

  /** Nested operations accumulate their names in call order. */
  lemma NestedOperations(ctx: Context<Value>, outer: string, inner: string, global: Handle)
    requires FromContext(ctx, global).Ptr?
    ensures WithOperation(ctx, outer, [], global).Ok?
    ensures WithOperation(WithOperation(ctx, outer, [], global).value, inner, [], global).Ok?
    ensures
      var parent := FromContext(ctx, global).logger;
      var nested := WithOperation(WithOperation(ctx, outer, [], global).value, inner, [], global).value;
      FromContext(nested, global) ==
        Ptr(Logger(parent.core, parent.names + NameSegment(outer) + NameSegment(inner), parent.fields))
  {
    var parent := FromContext(ctx, global).logger;
    WithOperationDerives(ctx, outer, [], global, global);
    var first := WithOperation(ctx, outer, [], global).value;
    WithOperationDerives(first, inner, [], global, global);
    assert parent.fields + [] + [] == parent.fields;
  }
}
