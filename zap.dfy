/**
 An abstraction of the zap logging backend that xlog forwards to.

 A `*zap.Logger` is a `Handle`: either the nil pointer or a pointer to a
 `Logger` value that records which core it writes to, its chain of names and
 the fields attached to it so far. Encoding, level filtering and sampling are
 the backend's business and are not modelled; what is modelled is what a call
 leaves in the backend's trace of events.
 */
module Zap {

  /** The core a logger writes to: the discarding core of `zap.NewNop`, or a
      capturing core (as `zaptest/observer` builds) told apart by a number. */
  datatype Core = NopCore | ObserverCore(id: nat)

  /** The payload of a structured field; only strings are told apart, every
      other kind of payload is opaque. */
  datatype FieldValue = StringValue(s: string) | OtherValue(id: nat)

  /** One structured key/value attribute (`zap.Field`). */
  datatype Field = Field(key: string, value: FieldValue)

  /** The state of a non-nil `*zap.Logger` that xlog can observe. */
  datatype Logger = Logger(core: Core, names: seq<string>, fields: seq<Field>)

  /** A `*zap.Logger`, which may be nil. */
  datatype Handle = Nil | Ptr(logger: Logger)

  /** `zap.NewNop()`: a fresh non-nil logger on the discarding core, with no
      name and no fields. */
  function NewNop(): (h: Handle)
    ensures h.Ptr? && h.logger.core == NopCore
    ensures h.logger.names == [] && h.logger.fields == []
  {
    Ptr(Logger(NopCore, [], []))
  }

  /** A derivation either yields a value or dereferences a nil logger, which
      is a Go runtime panic. */
  datatype Result<T> = Ok(value: T) | NilDereference

  /** The name segment that `Named(s)` adds: none for the empty name. */
  function NameSegment(s: string): (r: seq<string>)
    ensures |r| <= 1
    ensures r == [] <==> s == ""
    ensures r != [] ==> r[0] == s
  {
    if s == "" then [] else [s]
  }

  /** `(*zap.Logger).Named`: the empty name returns the receiver itself (even a
      nil one); any other name clones the receiver, which fails on nil. */
  function Named(h: Handle, s: string): (r: Result<Handle>)
    ensures r.NilDereference? <==> h.Nil? && s != ""
    ensures r.Ok? ==> r.value.Nil? == h.Nil?
    ensures r.Ok? && h.Ptr? ==>
      r.value.logger.core == h.logger.core &&
      r.value.logger.names == h.logger.names + NameSegment(s) &&
      r.value.logger.fields == h.logger.fields
  {
    if s == "" then Ok(h)
    else if h.Nil? then NilDereference
    else Ok(Ptr(h.logger.(names := h.logger.names + [s])))
  }

  /** `(*zap.Logger).With`: no fields returns the receiver itself (even a nil
      one); otherwise the receiver is cloned, which fails on nil, and the
      fields are attached after the existing ones. */
  function With(h: Handle, fs: seq<Field>): (r: Result<Handle>)
    ensures r.NilDereference? <==> h.Nil? && fs != []
    ensures r.Ok? ==> r.value.Nil? == h.Nil?
    ensures r.Ok? && h.Ptr? ==>
      r.value.logger.core == h.logger.core &&
      r.value.logger.names == h.logger.names &&
      r.value.logger.fields == h.logger.fields + fs
  {
    if |fs| == 0 then
      assert h.Ptr? ==> h.logger.fields + fs == h.logger.fields;
      Ok(h)
    else if h.Nil? then NilDereference
    else Ok(Ptr(h.logger.(fields := h.logger.fields + fs)))
  }

  /** The severities xlog exposes, named as in `zapcore`. */
  datatype Level = DebugLevel | InfoLevel | WarnLevel | ErrorLevel | PanicLevel | FatalLevel

  /** One log entry as the core receives it: severity, message, the logger
      that wrote it (names and attached fields) and the call's own fields. */
  datatype Record = Record(level: Level, message: string, logger: Logger, fields: seq<Field>)

  /** The field list an observer reports for an entry: the logger's attached
      fields followed by the call's fields. */
  function EntryContext(r: Record): (fs: seq<Field>)
    ensures |fs| == |r.logger.fields| + |r.fields|
    ensures fs[..|r.logger.fields|] == r.logger.fields
    ensures fs[|r.logger.fields|..] == r.fields
  {
    r.logger.fields + r.fields
  }

  /** Why control unwinds: a Panic-level entry panics with its message; a nil
      logger panics with a nil pointer dereference. */
  datatype Cause = LoggedPanic(message: string) | NilPointer

  /** What the backend observably does: write an entry, exit the process, or
      start a panic. */
  datatype Event = Write(record: Record) | Exit(code: int) | Unwind(cause: Cause)

  /** The status a Fatal-level entry exits the process with (`os.Exit(1)`). */
  const FatalExitCode: int := 1

  /** What follows the write of an entry at the given level. */
  function Termination(lvl: Level, msg: string): (es: seq<Event>)
    ensures lvl == FatalLevel ==> es == [Exit(FatalExitCode)]
    ensures lvl == PanicLevel ==> es == [Unwind(LoggedPanic(msg))]
    ensures lvl != FatalLevel && lvl != PanicLevel ==> es == []
  {
    match lvl
    case FatalLevel => [Exit(FatalExitCode)]
    case PanicLevel => [Unwind(LoggedPanic(msg))]
    case _ => []
  }

  /** The events one leveled call (`Debug`, `Info`, ..., `Fatal`) on a logger
      adds to the trace. */
  function Emission(h: Handle, lvl: Level, msg: string, fs: seq<Field>): (es: seq<Event>)
    ensures h.Nil? ==> es == [Unwind(NilPointer)]
    ensures h.Ptr? ==> |es| >= 1 && es[0] == Write(Record(lvl, msg, h.logger, fs)) && es[1..] == Termination(lvl, msg)
  {
    match h
    case Nil => [Unwind(NilPointer)]
    case Ptr(l) => [Write(Record(lvl, msg, l, fs))] + Termination(lvl, msg)
  }

  /** The entries written in a trace, in order. */
  function RecordsOf(es: seq<Event>): (rs: seq<Record>)
    ensures |rs| <= |es|
    ensures forall r :: r in rs <==> Write(r) in es
    decreases |es|
  {
    if es == [] then []
    else
      var last := es[|es| - 1];
      RecordsOf(es[..|es| - 1]) + (if last.Write? then [last.record] else [])
  }

  /** The entries of a trace that reached the given core, in order: what an
      observer on that core reports. */
  function Observed(es: seq<Event>, c: Core): (rs: seq<Record>)
    ensures |rs| <= |es|
    ensures forall r :: r in rs <==> Write(r) in es && r.logger.core == c
    decreases |es|
  {
    if es == [] then []
    else
      var last := es[|es| - 1];
      Observed(es[..|es| - 1], c) + (if last.Write? && last.record.logger.core == c then [last.record] else [])
  }

  /** The entries of a trace split along any cut into the trace. */
  lemma {:induction false} RecordsOfAppend(a: seq<Event>, b: seq<Event>)
    ensures RecordsOf(a + b) == RecordsOf(a) + RecordsOf(b)
    decreases |b|
  {
    if b == [] {
      assert a + b == a;
    } else {
      var b' := b[..|b| - 1];
      assert (a + b)[..|a + b| - 1] == a + b';
      RecordsOfAppend(a, b');
    }
  }

  /** An observer's entries split along any cut into the trace. */
  lemma {:induction false} ObservedAppend(a: seq<Event>, b: seq<Event>, c: Core)
    ensures Observed(a + b, c) == Observed(a, c) + Observed(b, c)
    decreases |b|
  {
    if b == [] {
      assert a + b == a;
    } else {
      var b' := b[..|b| - 1];
      assert (a + b)[..|a + b| - 1] == a + b';
      ObservedAppend(a, b', c);
    }
  }

  /** A one-event trace holds its entry when the event is a write, and no
      entry otherwise; with `RecordsOfAppend` this fixes the order and the
      number of the entries of every trace. */
  lemma RecordsOfOne(e: Event)
    ensures RecordsOf([e]) == if e.Write? then [e.record] else []
  {
    assert [e][..0] == [];
  }

  /** A one-event trace reaches a core's observer exactly when it writes an
      entry through a logger on that core; with `ObservedAppend` this fixes
      the order and the number of the entries an observer reports. */
  lemma ObservedOne(e: Event, c: Core)
    ensures Observed([e], c) == if e.Write? && e.record.logger.core == c then [e.record] else []
  {
    assert [e][..0] == [];
  }

  /** A leveled call on a non-nil logger writes exactly one entry, with that
      level, that message verbatim, that logger and the call fields in order;
      on a nil logger it writes nothing and panics. */
  lemma EmissionWritesOnce(h: Handle, lvl: Level, msg: string, fs: seq<Field>)
    ensures h.Ptr? ==> RecordsOf(Emission(h, lvl, msg, fs)) == [Record(lvl, msg, h.logger, fs)]
    ensures h.Nil? ==> RecordsOf(Emission(h, lvl, msg, fs)) == [] && Emission(h, lvl, msg, fs) == [Unwind(NilPointer)]
  {
    var es := Emission(h, lvl, msg, fs);
    if h.Ptr? {
      var w := Write(Record(lvl, msg, h.logger, fs));
      RecordsOfAppend([w], Termination(lvl, msg));
      assert [w][..0] == [];
    } else {
      assert es[..0] == [];
    }
  }

  /** The entry reaches the observer of the logger's own core and no other. */
  lemma EmissionObserved(h: Handle, lvl: Level, msg: string, fs: seq<Field>, c: Core)
    ensures Observed(Emission(h, lvl, msg, fs), c) ==
      if h.Ptr? && h.logger.core == c then [Record(lvl, msg, h.logger, fs)] else []
  {
    var es := Emission(h, lvl, msg, fs);
    if h.Ptr? {
      var w := Write(Record(lvl, msg, h.logger, fs));
      ObservedAppend([w], Termination(lvl, msg), c);
      assert [w][..0] == [];
    } else {
      assert es[..0] == [];
    }
  }

  /** The entry comes first; Fatal and Panic then terminate (exit with status
      1, or panic with the message), and the other levels do nothing more. */
  lemma EmissionOrder(h: Handle, lvl: Level, msg: string, fs: seq<Field>)
    requires h.Ptr?
    ensures Emission(h, lvl, msg, fs)[0] == Write(Record(lvl, msg, h.logger, fs))
    ensures lvl == FatalLevel ==> Emission(h, lvl, msg, fs)[1..] == [Exit(FatalExitCode)]
    ensures lvl == PanicLevel ==> Emission(h, lvl, msg, fs)[1..] == [Unwind(LoggedPanic(msg))]
    ensures lvl != FatalLevel && lvl != PanicLevel ==> Emission(h, lvl, msg, fs) == [Write(Record(lvl, msg, h.logger, fs))]
  {
  }

  /** Whether a trace holds an exit. */
  ghost predicate HasExit(es: seq<Event>)
  {
    exists i :: 0 <= i < |es| && es[i].Exit?
  }

  /** A trace holds an exit when one of its two parts does. */
  lemma ExitsAppend(a: seq<Event>, b: seq<Event>)
    ensures HasExit(a + b) <==> HasExit(a) || HasExit(b)
  {
    if HasExit(a + b) {
      var i :| 0 <= i < |a + b| && (a + b)[i].Exit?;
      if i >= |a| { assert b[i - |a|].Exit?; }
    }
    if HasExit(a) {
      var i :| 0 <= i < |a| && a[i].Exit?;
      assert (a + b)[i].Exit?;
    }
    if HasExit(b) {
      var i :| 0 <= i < |b| && b[i].Exit?;
      assert (a + b)[|a| + i].Exit?;
    }
  }

  /** Only a Fatal entry on a non-nil logger exits the process. */
  lemma EmissionExits(h: Handle, lvl: Level, msg: string, fs: seq<Field>)
    ensures HasExit(Emission(h, lvl, msg, fs)) <==> h.Ptr? && lvl == FatalLevel
  {
    var es := Emission(h, lvl, msg, fs);
    if h.Ptr? && lvl == FatalLevel {
      assert es[1].Exit?;
    }
  }

  /** The backend as a trace of what it has done. */
  class Backend {
    var events: seq<Event>

    constructor ()
      ensures events == []
    {
      events := [];
    }

    /** The entries written so far, in order. */
    function Records(): (rs: seq<Record>)
      reads this
    {
      RecordsOf(events)
    }

    /** Whether the process has been terminated by a Fatal-level entry. */
    ghost predicate Exited()
      reads this
    {
      HasExit(events)
    }

    /** A leveled method of a logger: check the level (which dereferences the
        logger), write the entry, then perform the level's termination. */
    method Log(h: Handle, lvl: Level, msg: string, fs: seq<Field>)
      modifies this
      ensures events == old(events) + Emission(h, lvl, msg, fs)
      ensures h.Ptr? ==> Records() == old(Records()) + [Record(lvl, msg, h.logger, fs)]
      ensures h.Nil? ==> Records() == old(Records())
      ensures Exited() <==> old(Exited()) || (h.Ptr? && lvl == FatalLevel)
    {
      ghost var before := events;
      if h.Nil? {
        events := events + [Unwind(NilPointer)];
      } else {
        events := events + [Write(Record(lvl, msg, h.logger, fs))];
        if lvl == FatalLevel {
          events := events + [Exit(FatalExitCode)];
        } else if lvl == PanicLevel {
          events := events + [Unwind(LoggedPanic(msg))];
        }
      }
      var added := Emission(h, lvl, msg, fs);
      assert events == before + added;
      RecordsOfAppend(before, added);
      EmissionWritesOnce(h, lvl, msg, fs);
      ExitsAppend(before, added);
      EmissionExits(h, lvl, msg, fs);
    }
  }
}
