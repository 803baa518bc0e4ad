/**
 * The log/slog boundary: a handler that keeps every record handed to it,
 * and loggers that carry groups and attributes. Level filtering and text
 * formatting are not modelled.
 */
module Logging {
  import opened Wire

  datatype Level = Debug | Info | Error

  /** An attribute value: a string, or a dump whose bytes httputil would produce. */
  datatype AttrValue =
    | Str(s: string)
    | RequestDump(request: WireRequest)
    | ResponseDump(status: int, content: string)

  datatype Attr = Attr(key: string, value: AttrValue)

  datatype LogRecord = LogRecord(level: Level, groups: seq<string>, message: string, attrs: seq<Attr>)

  /** An slog.Handler: the records it has been given, oldest first. */
  class Handler {
    var records: seq<LogRecord>

    constructor ()
      ensures records == []
    {
      records := [];
    }
  }

  /** An *slog.Logger: a handler plus the groups and attributes every record gets. */
  datatype Logger = Logger(handler: Handler, groups: seq<string>, attrs: seq<Attr>) {

    /** logger.With(a). */
    function With(a: Attr): Logger
    {
      this.(attrs := attrs + [a])
    }

    /** logger.WithGroup(g). */
    function WithGroup(g: string): Logger
    {
      this.(groups := groups + [g])
    }

    /** The record that logging `message` with `extra` through this logger hands to the handler. */
    function Record(level: Level, message: string, extra: seq<Attr>): LogRecord
    {
      LogRecord(level, groups, message, attrs + extra)
    }
  }

  /** logger.Log(level, message, extra...). */
  method Log(l: Logger, level: Level, message: string, extra: seq<Attr>)
    modifies l.handler
    ensures l.handler.records == old(l.handler.records) + [l.Record(level, message, extra)]
  {
    l.handler.records := l.handler.records + [l.Record(level, message, extra)];
  }
}
