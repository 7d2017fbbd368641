/**
 * A logging proxy. It drops messages below a minimum level, and it creates the real writer through a factory only
 * when the first message passes that filter.
 */
module LogWriterProxy {
  import opened Wrappers

  /** A `LogLevel`, by its ordinal. LogLevel.java is not part of this model. */
  type LogLevel = nat

  /** One call of the three `log` overloads: a message, a message with a throwable, or a throwable alone. */
  datatype Entry =
    | Message(level: LogLevel, message: string)
    | MessageWithThrowable(level: LogLevel, message: string, throwable: Exception)
    | ThrowableOnly(level: LogLevel, throwable: Exception)

  /** The real writer: what it has been asked to log, and how often it has been disposed. */
  class LogWriter {
    var entries: seq<Entry>
    var disposals: nat

    constructor ()
      ensures entries == [] && disposals == 0
    {
      entries := [];
      disposals := 0;
    }

    method Log(e: Entry)
      modifies this
      ensures entries == old(entries) + [e] && disposals == old(disposals)
    {
      entries := entries + [e];
    }

    method Dispose()
      modifies this
      ensures entries == old(entries) && disposals == old(disposals) + 1
    {
      disposals := disposals + 1;
    }
  }

  /** A `LogWriterFactory`; `created` counts its `create` calls. */
  class LogWriterFactory {
    var created: nat

    constructor ()
      ensures created == 0
    {
      created := 0;
    }

    method Create() returns (w: LogWriter)
      modifies this
      ensures fresh(w) && w.entries == [] && w.disposals == 0
      ensures created == old(created) + 1
    {
      created := created + 1;
      w := new LogWriter();
    }
  }

  /** `checkAccess`: a level passes exactly when its ordinal is at least the minimum's. */
  predicate CheckAccess(level: LogLevel, minLogLevel: LogLevel) {
    level >= minLogLevel
  }

  /** The entries among `entries` that pass the filter, in order. */
  function Passed(entries: seq<Entry>, minLogLevel: LogLevel): (r: seq<Entry>)
    ensures |r| <= |entries|
    ensures forall e :: e in r <==> e in entries && CheckAccess(e.level, minLogLevel)
  {
    if |entries| == 0 then []
    else
      var rest := Passed(entries[..|entries| - 1], minLogLevel);
      var last := entries[|entries| - 1];
      assert entries == entries[..|entries| - 1] + [last];
      if CheckAccess(last.level, minLogLevel) then rest + [last] else rest
  }

  class LogWriterProxy {
    var realWriter: LogWriter?
    const factory: LogWriterFactory
    const minLogLevel: LogLevel
    /** How many writers the factory had made before this proxy was built. */
    ghost const createdBefore: nat
    /** Every call of `log` so far, filtered or not. */
    ghost var calls: seq<Entry>

    /**
     * This proxy has made at most one writer, and exactly one once it holds a writer. That writer has received
     * the calls that passed the filter, in order.
     */
    ghost predicate Valid()
      reads this, factory, realWriter
    {
      && realWriter != factory as object
      && factory.created == createdBefore + (if realWriter == null then 0 else 1)
      && (realWriter == null ==> Passed(calls, minLogLevel) == [])
      && (realWriter != null ==> realWriter.entries == Passed(calls, minLogLevel))
    }

    constructor (factory: LogWriterFactory, minLogLevel: LogLevel)
      ensures Valid() && realWriter == null && calls == []
      ensures this.factory == factory && this.minLogLevel == minLogLevel
    {
      this.factory := factory;
      this.minLogLevel := minLogLevel;
      realWriter := null;
      createdBefore := factory.created;
      calls := [];
    }

    /** `getRealWriter`: the writer, created through the factory on first use and kept afterwards. */
    method GetRealWriter() returns (w: LogWriter)
      requires Valid()
      modifies this, factory
      ensures realWriter == w && calls == old(calls)
      ensures old(realWriter) != null ==> w == old(realWriter) && unchanged(factory)
      ensures old(realWriter) == null ==>
                fresh(w) && w.entries == [] && factory.created == old(factory.created) + 1
      ensures w.entries == Passed(calls, minLogLevel) && w.disposals == old(if realWriter == null then 0 else realWriter.disposals)
      ensures factory.created == createdBefore + 1
    {
      if realWriter == null {
        realWriter := factory.Create();
      }
      w := realWriter;
    }

    /**
     * The three `log` overloads. A call below the minimum level returns at once: it neither creates nor reaches
     * the real writer. Otherwise the writer, created if need be, receives the entry.
     */
    method Log(e: Entry)
      requires Valid()
      modifies this, factory, realWriter
      ensures Valid() && calls == old(calls) + [e]
      ensures !CheckAccess(e.level, minLogLevel) ==> realWriter == old(realWriter) && unchanged(factory)
      ensures !CheckAccess(e.level, minLogLevel) && realWriter != null ==> unchanged(realWriter)
      ensures CheckAccess(e.level, minLogLevel) ==> realWriter != null
      ensures old(realWriter) != null ==> realWriter == old(realWriter)
      ensures factory.created <= createdBefore + 1
    {
      PassedAppend(calls, e, minLogLevel);
      if !CheckAccess(e.level, minLogLevel) {
        calls := calls + [e];
        return;
      }
      var w := GetRealWriter();
      w.Log(e);
      calls := calls + [e];
    }

    /** `dispose`: disposes the real writer if one was ever created, and nothing otherwise. */
    method Dispose()
      requires Valid()
      modifies realWriter
      ensures Valid()
      ensures realWriter != null ==> realWriter.disposals == old(realWriter.disposals) + 1
      ensures realWriter != null ==> realWriter.entries == old(realWriter.entries)
    {
      if realWriter != null {
        realWriter.Dispose();
      }
    }
  }

  /** Filtering a longer call sequence keeps what passed before, and adds the new call only if it passes. */
  lemma PassedAppend(entries: seq<Entry>, e: Entry, minLogLevel: LogLevel)
    ensures Passed(entries + [e], minLogLevel)
         == Passed(entries, minLogLevel) + (if CheckAccess(e.level, minLogLevel) then [e] else [])
  {
    assert (entries + [e])[..|entries|] == entries;
  }
}
