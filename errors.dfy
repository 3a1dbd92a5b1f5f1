/**
 * The error handler: `captureError` queues a record describing a JavaScript
 * `Error`, and a batcher drains the queue to the ingestion endpoint in
 * requests of at most `MaxBatchSize` records. A `noop` handler queues and
 * sends nothing. The network is replaced by the ghost log `sent` of the
 * requests issued; `captured` is the ghost log of every record ever queued.
 */
module Errors {
  import opened Common
  import opened Wire
  import opened Batching
  import opened StackTrace

  /** The body's `type` field for this handler. */
  const Kind: string := "errors"

  /** `ErrorHandlerOptions`: every field may be left out. */
  datatype ErrorHandlerOptions = ErrorHandlerOptions(
    name: Option<string>, token: Option<string>, endpoint: Option<string>,
    insecure: Option<bool>, noop: Option<bool>)

  /** `ErrorDetails`; `errorType` is the JSON field `type`. */
  datatype ErrorDetails = ErrorDetails(errorType: string, message: string, stacktrace: string)

  datatype CapturedError = CapturedError(
    timestamp: string, details: ErrorDetails, location: ErrorLocation, attributes: Attributes)

  /** `getErrorDetails(error)`: a missing stack is recorded as the empty string. */
  function GetErrorDetails(error: JsError): (d: ErrorDetails)
    ensures d.errorType == error.name && d.message == error.message
    ensures error.stack.Some? ==> d.stacktrace == error.stack.value
    ensures error.stack.None? ==> d.stacktrace == ""
  {
    ErrorDetails(error.name, error.message, error.stack.GetOr(""))
  }

  /** The location recorded for an error is the one read from the stack trace its details carry. */
  lemma DetailsLocationAgree(error: JsError)
    ensures GetErrorLocation(error) == LocationOf(GetErrorDetails(error).stacktrace)
  {
  }

  class ErrorHandler {
    const name: string
    const endpoint: string
    const token: string
    const insecure: bool
    const noop: bool

    var errorsQueue: seq<CapturedError>
    var batchStop: bool
    /** Every request `sendBatch` handed to the network, in order. */
    ghost var sent: seq<Request<CapturedError>>
    /** Every record ever pushed onto the queue, in order. */
    ghost var captured: seq<CapturedError>

    /** `formatEndpoint(this.endpoint, this.insecure)` */
    function Url(): string {
      FormatEndpoint(endpoint, insecure)
    }

    /**
     * Nothing is lost or reordered: what was sent followed by what is queued
     * is what was captured. Each request is well formed, and a `noop`
     * handler never captured anything.
     */
    ghost predicate Valid()
      reads this
    {
      && Sent(sent) + errorsQueue == captured
      && WellFormed(sent, Url(), token, Kind, MaxBatchSize)
      && (noop ==> captured == [])
    }

    /** `new ErrorHandler(options)`: missing options take their defaults and the batcher starts. */
    constructor(options: ErrorHandlerOptions)
      ensures name == options.name.GetOr(DefaultName) && token == options.token.GetOr(DefaultToken)
      ensures endpoint == options.endpoint.GetOr(DefaultEndpoint)
      ensures insecure == options.insecure.GetOr(false) && noop == options.noop.GetOr(false)
      ensures errorsQueue == [] && !batchStop && sent == [] && captured == []
      ensures Valid()
    {
      name := options.name.GetOr(DefaultName);
      token := options.token.GetOr(DefaultToken);
      endpoint := options.endpoint.GetOr(DefaultEndpoint);
      insecure := options.insecure.GetOr(false);
      noop := options.noop.GetOr(false);
      errorsQueue := [];
      batchStop := false;
      sent := [];
      captured := [];
    }

    /**
     * `captureError(error, attrs)` at the moment whose `toISOString()` is `now`:
     * nothing for a `noop` handler, otherwise one record at the end of the
     * queue, with the handler's name as `service.name`.
     */
    method CaptureError(error: JsError, attrs: Attributes, now: string)
      requires Valid()
      modifies this
      ensures Valid()
      ensures noop ==> errorsQueue == old(errorsQueue) && captured == old(captured)
      ensures !noop ==>
        var r := CapturedError(PadTimestamp(now), GetErrorDetails(error), GetErrorLocation(error),
                               WithServiceName(attrs, name));
        errorsQueue == old(errorsQueue) + [r] && captured == old(captured) + [r]
      ensures sent == old(sent) && batchStop == old(batchStop)
    {
      if noop {
        return;
      }
      Capture(error, WithServiceName(attrs, name), now);
    }

    /** `capture(error, attrs)`: pushes the record built from the error. */
    method Capture(error: JsError, attrs: Attributes, now: string)
      requires Valid() && !noop
      modifies this
      ensures Valid()
      ensures var r := CapturedError(PadTimestamp(now), GetErrorDetails(error), GetErrorLocation(error), attrs);
        errorsQueue == old(errorsQueue) + [r] && captured == old(captured) + [r]
      ensures sent == old(sent) && batchStop == old(batchStop)
    {
      var r := CapturedError(PadTimestamp(now), GetErrorDetails(error), GetErrorLocation(error), attrs);
      errorsQueue := errorsQueue + [r];
      captured := captured + [r];
    }

    /**
     * `sendBatch(batch)`: an empty batch, or any batch of a `noop` handler,
     * is not sent. Whatever the POST returns or throws is discarded, so the
     * only effect is the request itself.
     */
    method SendBatch(batch: seq<CapturedError>)
      modifies this
      ensures sent == old(sent) + if batch == [] || noop then [] else [Request(Url(), token, Kind, batch)]
      ensures errorsQueue == old(errorsQueue) && captured == old(captured) && batchStop == old(batchStop)
    {
      if |batch| == 0 || noop {
        return;
      }
      sent := sent + [Request(Url(), token, Kind, batch)];
    }

    /**
     * `flushBatch(force)`: splices chunks of at most `MaxBatchSize` records
     * off the front of the queue and sends each, stopping after the first
     * unless `force` is set.
     */
    method FlushBatch(force: bool)
      requires noop ==> errorsQueue == []
      modifies this
      ensures errorsQueue == Left(old(errorsQueue), MaxBatchSize, force)
      ensures sent == old(sent) + Posts(Url(), token, Kind, Flushed(old(errorsQueue), MaxBatchSize, force))
      ensures captured == old(captured) && batchStop == old(batchStop)
    {
      if |errorsQueue| == 0 {
        return;
      }
      assert !noop;
      ghost var done: seq<seq<CapturedError>> := [];
      while |errorsQueue| > 0
        invariant force ==> Chunks(old(errorsQueue), MaxBatchSize) == done + Chunks(errorsQueue, MaxBatchSize)
        invariant !force ==> done == [] && errorsQueue == old(errorsQueue)
        invariant sent == old(sent) + Posts(Url(), token, Kind, done)
        invariant captured == old(captured) && batchStop == old(batchStop)
        decreases |errorsQueue|
      {
        if force {
          ChunksStep(old(errorsQueue), done, errorsQueue, MaxBatchSize);
        }
        PostsStep(old(sent), Url(), token, Kind, done, Take(errorsQueue, MaxBatchSize));
        var batch := Take(errorsQueue, MaxBatchSize);
        errorsQueue := Drop(errorsQueue, MaxBatchSize);
        SendBatch(batch);
        done := done + [batch];
        if !force {
          break;
        }
      }
      assert done == Flushed(old(errorsQueue), MaxBatchSize, force);
    }

    /** One turn of the batcher loop: while `batchStop` is unset, a flush that sends at most one chunk. */
    method Tick()
      requires Valid()
      modifies this
      ensures Valid()
      ensures batchStop ==> errorsQueue == old(errorsQueue) && sent == old(sent)
      ensures !batchStop ==> errorsQueue == Left(old(errorsQueue), MaxBatchSize, false)
      ensures !batchStop ==>
        sent == old(sent) + Posts(Url(), token, Kind, Flushed(old(errorsQueue), MaxBatchSize, false))
      ensures captured == old(captured) && batchStop == old(batchStop)
    {
      if !batchStop {
        FlushKeepsRecords(sent, errorsQueue, Url(), token, Kind, MaxBatchSize, false);
        FlushBatch(false);
      }
    }

    /**
     * `shutdown()`, run to completion: sets `batchStop`; the batcher leaves its
     * loop and does one forced flush, after which every captured record has
     * been sent. A second shutdown finds the batcher finished and does nothing.
     */
    method Shutdown()
      requires Valid()
      modifies this
      ensures Valid() && batchStop
      ensures old(batchStop) ==> errorsQueue == old(errorsQueue) && sent == old(sent)
      ensures !old(batchStop) ==> errorsQueue == [] && Sent(sent) == captured
      ensures !old(batchStop) ==>
        sent == old(sent) + Posts(Url(), token, Kind, Chunks(old(errorsQueue), MaxBatchSize))
      ensures captured == old(captured)
    {
      var running := !batchStop;
      batchStop := true;
      if running {
        FlushKeepsRecords(sent, errorsQueue, Url(), token, Kind, MaxBatchSize, true);
        FlushBatch(true);
      }
    }
  }

  /** The module-level `globalErrorHandler` and the functions that go through it. */
  class ErrorsModule {
    var globalErrorHandler: ErrorHandler?

    ghost predicate Valid()
      reads this, globalErrorHandler
    {
      globalErrorHandler != null ==> globalErrorHandler.Valid()
    }

    constructor()
      ensures globalErrorHandler == null && Valid()
    {
      globalErrorHandler := null;
    }

    /** `initErrorHandler(options)`: replaces the global handler with a new one. */
    method InitErrorHandler(options: ErrorHandlerOptions)
      modifies this
      ensures Valid() && globalErrorHandler != null && fresh(globalErrorHandler)
      ensures globalErrorHandler.name == options.name.GetOr(DefaultName) && globalErrorHandler.token == options.token.GetOr(DefaultToken)
      ensures globalErrorHandler.endpoint == options.endpoint.GetOr(DefaultEndpoint)
      ensures globalErrorHandler.insecure == options.insecure.GetOr(false) && globalErrorHandler.noop == options.noop.GetOr(false)
      ensures globalErrorHandler.errorsQueue == [] && !globalErrorHandler.batchStop && globalErrorHandler.sent == [] && globalErrorHandler.captured == []
    {
      globalErrorHandler := new ErrorHandler(options);
    }

    /** `shutdownErrorHandler()`: nothing without a handler. */
    method ShutdownErrorHandler()
      requires Valid()
      modifies globalErrorHandler
      ensures Valid()
      ensures globalErrorHandler != null ==> globalErrorHandler.batchStop && globalErrorHandler.captured == old(globalErrorHandler.captured)
      ensures globalErrorHandler != null && old(globalErrorHandler.batchStop) ==>
        globalErrorHandler.errorsQueue == old(globalErrorHandler.errorsQueue) && globalErrorHandler.sent == old(globalErrorHandler.sent)
      ensures globalErrorHandler != null && !old(globalErrorHandler.batchStop) ==>
        globalErrorHandler.errorsQueue == [] && Sent(globalErrorHandler.sent) == globalErrorHandler.captured
      ensures globalErrorHandler != null && !old(globalErrorHandler.batchStop) ==>
        globalErrorHandler.sent == old(globalErrorHandler.sent) + Posts(globalErrorHandler.Url(), globalErrorHandler.token, Kind, Chunks(old(globalErrorHandler.errorsQueue), MaxBatchSize))
    {
      if globalErrorHandler == null {
        return;
      }
      globalErrorHandler.Shutdown();
    }

    /** `captureError(error, attrs)`: nothing without a handler. */
    method CaptureError(error: JsError, attrs: Attributes, now: string)
      requires Valid()
      modifies globalErrorHandler
      ensures Valid()
      ensures globalErrorHandler != null && !globalErrorHandler.noop ==>
        var r := CapturedError(PadTimestamp(now), GetErrorDetails(error), GetErrorLocation(error),
                               WithServiceName(attrs, globalErrorHandler.name));
        globalErrorHandler.errorsQueue == old(globalErrorHandler.errorsQueue) + [r]
        && globalErrorHandler.captured == old(globalErrorHandler.captured) + [r]
      ensures globalErrorHandler != null ==> globalErrorHandler.sent == old(globalErrorHandler.sent) && globalErrorHandler.batchStop == old(globalErrorHandler.batchStop)
      ensures globalErrorHandler != null && globalErrorHandler.noop ==>
        globalErrorHandler.errorsQueue == old(globalErrorHandler.errorsQueue)
    {
      if globalErrorHandler == null {
        return;
      }
      globalErrorHandler.CaptureError(error, attrs, now);
    }
  }
}
