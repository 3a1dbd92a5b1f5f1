/**
 * The logger: `debug`, `info`, `warn` and `error` queue a log record, and a
 * batcher drains the queue to the ingestion endpoint in requests of at most
 * `MaxBatchSize` records. Unlike the other two handlers the logger has no
 * `noop` mode. The network is replaced by the ghost log `sent` of the
 * requests issued; `captured` is the ghost log of every record ever queued.
 */
module Logging {
  import opened Common
  import opened Wire
  import opened Batching

  /** The body's `type` field for this handler. */
  const Kind: string := "logs"

  /** The attribute key under which `error` records the message of the error passed in. */
  const ErrorKey: string := "error"

  /** `LoggerOptions`: every field may be left out. */
  datatype LoggerOptions = LoggerOptions(
    name: Option<string>, endpoint: Option<string>, token: Option<string>,
    insecure: Option<bool>, passthrough: Option<bool>)

  /** `logLevel`; each level is sent as its own name. */
  datatype LogLevel = DEBUG | INFO | WARNING | ERROR

  /** `log` */
  datatype LogRecord = LogRecord(timestamp: string, body: string, level: LogLevel, attributes: Attributes)

  /**
   * `{ ...attrs, ...(error ? { error: error.message } : {}), 'service.name': name }`:
   * later keys win, so `service.name` overrides everything and `error`
   * overrides a caller attribute of that name.
   */
  function LogAttributes(attrs: Attributes, error: Option<JsError>, name: string): (r: Attributes)
    ensures r.Keys == attrs.Keys + {ServiceNameKey} + (if error.Some? then {ErrorKey} else {})
    ensures r[ServiceNameKey] == Str(name)
    ensures error.Some? ==> r[ErrorKey] == Str(error.value.message)
    ensures forall k :: k in attrs && k != ServiceNameKey && (error.Some? ==> k != ErrorKey) ==> r[k] == attrs[k]
  {
    var withError := if error.Some? then attrs[ErrorKey := Str(error.value.message)] else attrs;
    WithServiceName(withError, name)
  }

  /** Without an error the logger merges attributes exactly as the other two handlers do. */
  lemma LogAttributesWithoutError(attrs: Attributes, name: string)
    ensures LogAttributes(attrs, None, name) == WithServiceName(attrs, name)
  {
  }

  class Logger {
    const name: string
    const endpoint: string
    const token: string
    const insecure: bool
    /** Whether each message is also written to the original console; the console is not part of this model. */
    const passthrough: bool

    var logsQueue: seq<LogRecord>
    var batchStop: bool
    /** Every request `sendBatch` handed to the network, in order. */
    ghost var sent: seq<Request<LogRecord>>
    /** Every record ever pushed onto the queue, in order. */
    ghost var captured: seq<LogRecord>

    /** `formatEndpoint(this.endpoint, this.insecure)` */
    function Url(): string {
      FormatEndpoint(endpoint, insecure)
    }

    /**
     * Nothing is lost or reordered: what was sent followed by what is queued
     * is what was captured, and each request is well formed.
     */
    ghost predicate Valid()
      reads this
    {
      && Sent(sent) + logsQueue == captured
      && WellFormed(sent, Url(), token, Kind, MaxBatchSize)
    }

    /** `new Logger(options)`: missing options take their defaults and the batcher starts. */
    constructor(options: LoggerOptions)
      ensures passthrough == options.passthrough.GetOr(true)
      ensures name == options.name.GetOr(DefaultName) && token == options.token.GetOr(DefaultToken)
      ensures endpoint == options.endpoint.GetOr(DefaultEndpoint)
      ensures insecure == options.insecure.GetOr(false)
      ensures logsQueue == [] && !batchStop && sent == [] && captured == []
      ensures Valid()
    {
      passthrough := options.passthrough.GetOr(true);
      name := options.name.GetOr(DefaultName);
      token := options.token.GetOr(DefaultToken);
      endpoint := options.endpoint.GetOr(DefaultEndpoint);
      insecure := options.insecure.GetOr(false);
      logsQueue := [];
      batchStop := false;
      sent := [];
      captured := [];
    }

    /** `debug(message, attrs)`: queues one DEBUG record. */
    method Debug(message: string, attrs: Attributes, now: string)
      requires Valid()
      modifies this
      ensures Valid()
      ensures var r := LogRecord(PadTimestamp(now), message, DEBUG, LogAttributes(attrs, None, name));
        logsQueue == old(logsQueue) + [r] && captured == old(captured) + [r]
      ensures sent == old(sent) && batchStop == old(batchStop)
    {
      Log(DEBUG, message, attrs, None, now);
    }

    /** `info(message, attrs)`: queues one INFO record. */
    method Info(message: string, attrs: Attributes, now: string)
      requires Valid()
      modifies this
      ensures Valid()
      ensures var r := LogRecord(PadTimestamp(now), message, INFO, LogAttributes(attrs, None, name));
        logsQueue == old(logsQueue) + [r] && captured == old(captured) + [r]
      ensures sent == old(sent) && batchStop == old(batchStop)
    {
      Log(INFO, message, attrs, None, now);
    }

    /** `warn(message, attrs)`: queues one WARNING record. */
    method Warn(message: string, attrs: Attributes, now: string)
      requires Valid()
      modifies this
      ensures Valid()
      ensures var r := LogRecord(PadTimestamp(now), message, WARNING, LogAttributes(attrs, None, name));
        logsQueue == old(logsQueue) + [r] && captured == old(captured) + [r]
      ensures sent == old(sent) && batchStop == old(batchStop)
    {
      Log(WARNING, message, attrs, None, now);
    }

    /** `error(message, error, attrs)`: queues one ERROR record, with the error's message when one is passed. */
    method Error(message: string, error: Option<JsError>, attrs: Attributes, now: string)
      requires Valid()
      modifies this
      ensures Valid()
      ensures var r := LogRecord(PadTimestamp(now), message, ERROR, LogAttributes(attrs, error, name));
        logsQueue == old(logsQueue) + [r] && captured == old(captured) + [r]
      ensures sent == old(sent) && batchStop == old(batchStop)
    {
      Log(ERROR, message, attrs, error, now);
    }

    /** `log(level, message, attrs, error)`: pushes one record. */
    method Log(level: LogLevel, message: string, attrs: Attributes, error: Option<JsError>, now: string)
      requires Valid()
      modifies this
      ensures Valid()
      ensures var r := LogRecord(PadTimestamp(now), message, level, LogAttributes(attrs, error, name));
        logsQueue == old(logsQueue) + [r] && captured == old(captured) + [r]
      ensures sent == old(sent) && batchStop == old(batchStop)
    {
      var r := LogRecord(PadTimestamp(now), message, level, LogAttributes(attrs, error, name));
      logsQueue := logsQueue + [r];
      captured := captured + [r];
    }

    /**
     * `sendBatch(batch)`: an empty batch is not sent; every other batch is.
     * Whatever the POST returns or throws is discarded, so the only effect is
     * the request itself.
     */
    method SendBatch(batch: seq<LogRecord>)
      modifies this
      ensures sent == old(sent) + if batch == [] then [] else [Request(Url(), token, Kind, batch)]
      ensures logsQueue == old(logsQueue) && captured == old(captured) && batchStop == old(batchStop)
    {
      if |batch| == 0 {
        return;
      }
      sent := sent + [Request(Url(), token, Kind, batch)];
    }

    /**
     * `flushBatch(force)`: splices chunks of at most `MaxBatchSize` records
     * off the front of the queue and sends each, stopping after the first
     * unless `force` is set.
     */
    method FlushBatch(force: bool)
      modifies this
      ensures logsQueue == Left(old(logsQueue), MaxBatchSize, force)
      ensures sent == old(sent) + Posts(Url(), token, Kind, Flushed(old(logsQueue), MaxBatchSize, force))
      ensures captured == old(captured) && batchStop == old(batchStop)
    {
      if |logsQueue| == 0 {
        return;
      }
      ghost var done: seq<seq<LogRecord>> := [];
      while |logsQueue| > 0
        invariant force ==> Chunks(old(logsQueue), MaxBatchSize) == done + Chunks(logsQueue, MaxBatchSize)
        invariant !force ==> done == [] && logsQueue == old(logsQueue)
        invariant sent == old(sent) + Posts(Url(), token, Kind, done)
        invariant captured == old(captured) && batchStop == old(batchStop)
        decreases |logsQueue|
      {
        if force {
          ChunksStep(old(logsQueue), done, logsQueue, MaxBatchSize);
        }
        PostsStep(old(sent), Url(), token, Kind, done, Take(logsQueue, MaxBatchSize));
        var batch := Take(logsQueue, MaxBatchSize);
        logsQueue := Drop(logsQueue, MaxBatchSize);
        SendBatch(batch);
        done := done + [batch];
        if !force {
          break;
        }
      }
      assert done == Flushed(old(logsQueue), MaxBatchSize, force);
    }

    /** One turn of the batcher loop: while `batchStop` is unset, a flush that sends at most one chunk. */
    method Tick()
      requires Valid()
      modifies this
      ensures Valid()
      ensures batchStop ==> logsQueue == old(logsQueue) && sent == old(sent)
      ensures !batchStop ==> logsQueue == Left(old(logsQueue), MaxBatchSize, false)
      ensures !batchStop ==>
        sent == old(sent) + Posts(Url(), token, Kind, Flushed(old(logsQueue), MaxBatchSize, false))
      ensures captured == old(captured) && batchStop == old(batchStop)
    {
      if !batchStop {
        FlushKeepsRecords(sent, logsQueue, Url(), token, Kind, MaxBatchSize, false);
        FlushBatch(false);
      }
    }

    /**
     * `shutdown()`, run to completion: sets `batchStop`; the batcher leaves its
     * loop and does one forced flush, after which every captured record has
     * been sent. A second shutdown finds the batcher finished and does nothing.
     */
    method Shutdown()
      requires Valid()
      modifies this
      ensures Valid() && batchStop
      ensures old(batchStop) ==> logsQueue == old(logsQueue) && sent == old(sent)
      ensures !old(batchStop) ==> logsQueue == [] && Sent(sent) == captured
      ensures !old(batchStop) ==>
        sent == old(sent) + Posts(Url(), token, Kind, Chunks(old(logsQueue), MaxBatchSize))
      ensures captured == old(captured)
    {
      var running := !batchStop;
      batchStop := true;
      if running {
        FlushKeepsRecords(sent, logsQueue, Url(), token, Kind, MaxBatchSize, true);
        FlushBatch(true);
      }
    }
  }

  /** The module-level `globalLogger` and the functions that go through it. */
  class LoggingModule {
    var globalLogger: Logger?

    ghost predicate Valid()
      reads this, globalLogger
    {
      globalLogger != null ==> globalLogger.Valid()
    }

    constructor()
      ensures globalLogger == null && Valid()
    {
      globalLogger := null;
    }

    /** `initLogger(options)`: replaces the global logger with a new one. */
    method InitLogger(options: LoggerOptions)
      modifies this
      ensures Valid() && globalLogger != null && fresh(globalLogger)
      ensures globalLogger.name == options.name.GetOr(DefaultName) && globalLogger.token == options.token.GetOr(DefaultToken)
      ensures globalLogger.endpoint == options.endpoint.GetOr(DefaultEndpoint)
      ensures globalLogger.insecure == options.insecure.GetOr(false) && globalLogger.passthrough == options.passthrough.GetOr(true)
      ensures globalLogger.logsQueue == [] && !globalLogger.batchStop && globalLogger.sent == [] && globalLogger.captured == []
    {
      globalLogger := new Logger(options);
    }

    /** `shutdownLogger()`: nothing without a logger. */
    method ShutdownLogger()
      requires Valid()
      modifies globalLogger
      ensures Valid()
      ensures globalLogger != null ==> globalLogger.batchStop && globalLogger.captured == old(globalLogger.captured)
      ensures globalLogger != null && old(globalLogger.batchStop) ==>
        globalLogger.logsQueue == old(globalLogger.logsQueue) && globalLogger.sent == old(globalLogger.sent)
      ensures globalLogger != null && !old(globalLogger.batchStop) ==>
        globalLogger.logsQueue == [] && Sent(globalLogger.sent) == globalLogger.captured
      ensures globalLogger != null && !old(globalLogger.batchStop) ==>
        globalLogger.sent == old(globalLogger.sent) + Posts(globalLogger.Url(), globalLogger.token, Kind, Chunks(old(globalLogger.logsQueue), MaxBatchSize))
    {
      if globalLogger == null {
        return;
      }
      globalLogger.Shutdown();
    }

    /** `logDebug(message, attrs)`: nothing without a logger. */
    method LogDebug(message: string, attrs: Attributes, now: string)
      requires Valid()
      modifies globalLogger
      ensures Valid()
      ensures globalLogger != null ==>
        var r := LogRecord(PadTimestamp(now), message, DEBUG, LogAttributes(attrs, None, globalLogger.name));
        globalLogger.logsQueue == old(globalLogger.logsQueue) + [r] && globalLogger.captured == old(globalLogger.captured) + [r]
      ensures globalLogger != null ==> globalLogger.sent == old(globalLogger.sent) && globalLogger.batchStop == old(globalLogger.batchStop)
    {
      if globalLogger == null {
        return;
      }
      globalLogger.Debug(message, attrs, now);
    }

    /** `logInfo(message, attrs)`: nothing without a logger. */
    method LogInfo(message: string, attrs: Attributes, now: string)
      requires Valid()
      modifies globalLogger
      ensures Valid()
      ensures globalLogger != null ==>
        var r := LogRecord(PadTimestamp(now), message, INFO, LogAttributes(attrs, None, globalLogger.name));
        globalLogger.logsQueue == old(globalLogger.logsQueue) + [r] && globalLogger.captured == old(globalLogger.captured) + [r]
      ensures globalLogger != null ==> globalLogger.sent == old(globalLogger.sent) && globalLogger.batchStop == old(globalLogger.batchStop)
    {
      if globalLogger == null {
        return;
      }
      globalLogger.Info(message, attrs, now);
    }

    /** `logWarn(message, attrs)`: nothing without a logger. */
    method LogWarn(message: string, attrs: Attributes, now: string)
      requires Valid()
      modifies globalLogger
      ensures Valid()
      ensures globalLogger != null ==>
        var r := LogRecord(PadTimestamp(now), message, WARNING, LogAttributes(attrs, None, globalLogger.name));
        globalLogger.logsQueue == old(globalLogger.logsQueue) + [r] && globalLogger.captured == old(globalLogger.captured) + [r]
      ensures globalLogger != null ==> globalLogger.sent == old(globalLogger.sent) && globalLogger.batchStop == old(globalLogger.batchStop)
    {
      if globalLogger == null {
        return;
      }
      globalLogger.Warn(message, attrs, now);
    }

    /** `logError(message, error, attrs)`: nothing without a logger. */
    method LogError(message: string, error: Option<JsError>, attrs: Attributes, now: string)
      requires Valid()
      modifies globalLogger
      ensures Valid()
      ensures globalLogger != null ==>
        var r := LogRecord(PadTimestamp(now), message, ERROR, LogAttributes(attrs, error, globalLogger.name));
        globalLogger.logsQueue == old(globalLogger.logsQueue) + [r] && globalLogger.captured == old(globalLogger.captured) + [r]
      ensures globalLogger != null ==> globalLogger.sent == old(globalLogger.sent) && globalLogger.batchStop == old(globalLogger.batchStop)
    {
      if globalLogger == null {
        return;
      }
      globalLogger.Error(message, error, attrs, now);
    }
  }
}
