/**
 * The metrics handler: `emitMetric` queues a named value, and a batcher
 * drains the queue to the ingestion endpoint in requests of at most
 * `MaxBatchSize` records. A `noop` handler queues and sends nothing. The
 * network is replaced by the ghost log `sent` of the requests issued;
 * `captured` is the ghost log of every record ever queued.
 */
module Metrics {
  import opened Common
  import opened Wire
  import opened Batching

  /** The body's `type` field for this handler. */
  const Kind: string := "metrics"

  /** `MetricsHandlerOptions`: every field may be left out. */
  datatype MetricsHandlerOptions = MetricsHandlerOptions(
    name: Option<string>, token: Option<string>, endpoint: Option<string>,
    insecure: Option<bool>, noop: Option<bool>)

  /** `CapturedMetric`; the value is the number passed in, copied as is. */
  datatype CapturedMetric = CapturedMetric(timestamp: string, name: string, value: Number, attributes: Attributes)

  class MetricsHandler {
    const name: string
    const endpoint: string
    const token: string
    const insecure: bool
    const noop: bool

    var metricsQueue: seq<CapturedMetric>
    var batchStop: bool
    /** Every request `sendBatch` handed to the network, in order. */
    ghost var sent: seq<Request<CapturedMetric>>
    /** Every record ever pushed onto the queue, in order. */
    ghost var captured: seq<CapturedMetric>

    /** `formatEndpoint(this.endpoint, this.insecure)` */
    function Url(): string {
      FormatEndpoint(endpoint, insecure)
    }

    /**
     * Nothing is lost or reordered: what was sent followed by what is queued
     * is what was captured. Each request is well formed, and a `noop`
     * handler never captured anything.
     */
    ghost predicate Valid()
      reads this
    {
      && Sent(sent) + metricsQueue == captured
      && WellFormed(sent, Url(), token, Kind, MaxBatchSize)
      && (noop ==> captured == [])
    }

    /** `new MetricsHandler(options)`: missing options take their defaults and the batcher starts. */
    constructor(options: MetricsHandlerOptions)
      ensures name == options.name.GetOr(DefaultName) && token == options.token.GetOr(DefaultToken)
      ensures endpoint == options.endpoint.GetOr(DefaultEndpoint)
      ensures insecure == options.insecure.GetOr(false) && noop == options.noop.GetOr(false)
      ensures metricsQueue == [] && !batchStop && sent == [] && captured == []
      ensures Valid()
    {
      name := options.name.GetOr(DefaultName);
      token := options.token.GetOr(DefaultToken);
      endpoint := options.endpoint.GetOr(DefaultEndpoint);
      insecure := options.insecure.GetOr(false);
      noop := options.noop.GetOr(false);
      metricsQueue := [];
      batchStop := false;
      sent := [];
      captured := [];
    }

    /**
     * `emitMetric(name, value, attrs)` at the moment whose `toISOString()` is
     * `now`: nothing for a `noop` handler, otherwise one record at the end of
     * the queue carrying `metricName` and `value` unchanged, with the
     * handler's name as `service.name`.
     */
    method EmitMetric(metricName: string, value: Number, attrs: Attributes, now: string)
      requires Valid()
      modifies this
      ensures Valid()
      ensures noop ==> metricsQueue == old(metricsQueue) && captured == old(captured)
      ensures !noop ==>
        var r := CapturedMetric(PadTimestamp(now), metricName, value, WithServiceName(attrs, name));
        metricsQueue == old(metricsQueue) + [r] && captured == old(captured) + [r]
      ensures sent == old(sent) && batchStop == old(batchStop)
    {
      if noop {
        return;
      }
      Capture(metricName, value, WithServiceName(attrs, name), now);
    }

    /** `capture(name, value, attrs)`: pushes one record. */
    method Capture(metricName: string, value: Number, attrs: Attributes, now: string)
      requires Valid() && !noop
      modifies this
      ensures Valid()
      ensures var r := CapturedMetric(PadTimestamp(now), metricName, value, attrs);
        metricsQueue == old(metricsQueue) + [r] && captured == old(captured) + [r]
      ensures sent == old(sent) && batchStop == old(batchStop)
    {
      var r := CapturedMetric(PadTimestamp(now), metricName, value, attrs);
      metricsQueue := metricsQueue + [r];
      captured := captured + [r];
    }

    /**
     * `sendBatch(batch)`: an empty batch, or any batch of a `noop` handler,
     * is not sent. Whatever the POST returns or throws is discarded, so the
     * only effect is the request itself.
     */
    method SendBatch(batch: seq<CapturedMetric>)
      modifies this
      ensures sent == old(sent) + if batch == [] || noop then [] else [Request(Url(), token, Kind, batch)]
      ensures metricsQueue == old(metricsQueue) && captured == old(captured) && batchStop == old(batchStop)
    {
      if |batch| == 0 || noop {
        return;
      }
      sent := sent + [Request(Url(), token, Kind, batch)];
    }

    /**
     * `flushBatch(force)`: splices chunks of at most `MaxBatchSize` records
     * off the front of the queue and sends each, stopping after the first
     * unless `force` is set.
     */
    method FlushBatch(force: bool)
      requires noop ==> metricsQueue == []
      modifies this
      ensures metricsQueue == Left(old(metricsQueue), MaxBatchSize, force)
      ensures sent == old(sent) + Posts(Url(), token, Kind, Flushed(old(metricsQueue), MaxBatchSize, force))
      ensures captured == old(captured) && batchStop == old(batchStop)
    {
      if |metricsQueue| == 0 {
        return;
      }
      assert !noop;
      ghost var done: seq<seq<CapturedMetric>> := [];
      while |metricsQueue| > 0
        invariant force ==> Chunks(old(metricsQueue), MaxBatchSize) == done + Chunks(metricsQueue, MaxBatchSize)
        invariant !force ==> done == [] && metricsQueue == old(metricsQueue)
        invariant sent == old(sent) + Posts(Url(), token, Kind, done)
        invariant captured == old(captured) && batchStop == old(batchStop)
        decreases |metricsQueue|
      {
        if force {
          ChunksStep(old(metricsQueue), done, metricsQueue, MaxBatchSize);
        }
        PostsStep(old(sent), Url(), token, Kind, done, Take(metricsQueue, MaxBatchSize));
        var batch := Take(metricsQueue, MaxBatchSize);
        metricsQueue := Drop(metricsQueue, MaxBatchSize);
        SendBatch(batch);
        done := done + [batch];
        if !force {
          break;
        }
      }
      assert done == Flushed(old(metricsQueue), MaxBatchSize, force);
    }

    /** One turn of the batcher loop: while `batchStop` is unset, a flush that sends at most one chunk. */
    method Tick()
      requires Valid()
      modifies this
      ensures Valid()
      ensures batchStop ==> metricsQueue == old(metricsQueue) && sent == old(sent)
      ensures !batchStop ==> metricsQueue == Left(old(metricsQueue), MaxBatchSize, false)
      ensures !batchStop ==>
        sent == old(sent) + Posts(Url(), token, Kind, Flushed(old(metricsQueue), MaxBatchSize, false))
      ensures captured == old(captured) && batchStop == old(batchStop)
    {
      if !batchStop {
        FlushKeepsRecords(sent, metricsQueue, Url(), token, Kind, MaxBatchSize, false);
        FlushBatch(false);
      }
    }

    /**
     * `shutdown()`, run to completion: sets `batchStop`; the batcher leaves its
     * loop and does one forced flush, after which every captured record has
     * been sent. A second shutdown finds the batcher finished and does nothing.
     */
    method Shutdown()
      requires Valid()
      modifies this
      ensures Valid() && batchStop
      ensures old(batchStop) ==> metricsQueue == old(metricsQueue) && sent == old(sent)
      ensures !old(batchStop) ==> metricsQueue == [] && Sent(sent) == captured
      ensures !old(batchStop) ==>
        sent == old(sent) + Posts(Url(), token, Kind, Chunks(old(metricsQueue), MaxBatchSize))
      ensures captured == old(captured)
    {
      var running := !batchStop;
      batchStop := true;
      if running {
        FlushKeepsRecords(sent, metricsQueue, Url(), token, Kind, MaxBatchSize, true);
        FlushBatch(true);
      }
    }
  }

  /** The module-level `globalMetricsHandler` and the functions that go through it. */
  class MetricsModule {
    var globalMetricsHandler: MetricsHandler?

    ghost predicate Valid()
      reads this, globalMetricsHandler
    {
      globalMetricsHandler != null ==> globalMetricsHandler.Valid()
    }

    constructor()
      ensures globalMetricsHandler == null && Valid()
    {
      globalMetricsHandler := null;
    }

    /** `initMetricsHandler(options)`: replaces the global handler with a new one. */
    method InitMetricsHandler(options: MetricsHandlerOptions)
      modifies this
      ensures Valid() && globalMetricsHandler != null && fresh(globalMetricsHandler)
      ensures globalMetricsHandler.name == options.name.GetOr(DefaultName) && globalMetricsHandler.token == options.token.GetOr(DefaultToken)
      ensures globalMetricsHandler.endpoint == options.endpoint.GetOr(DefaultEndpoint)
      ensures globalMetricsHandler.insecure == options.insecure.GetOr(false) && globalMetricsHandler.noop == options.noop.GetOr(false)
      ensures globalMetricsHandler.metricsQueue == [] && !globalMetricsHandler.batchStop && globalMetricsHandler.sent == [] && globalMetricsHandler.captured == []
    {
      globalMetricsHandler := new MetricsHandler(options);
    }

    /** `shutdownMetricsHandler()`: nothing without a handler. */
    method ShutdownMetricsHandler()
      requires Valid()
      modifies globalMetricsHandler
      ensures Valid()
      ensures globalMetricsHandler != null ==> globalMetricsHandler.batchStop && globalMetricsHandler.captured == old(globalMetricsHandler.captured)
      ensures globalMetricsHandler != null && old(globalMetricsHandler.batchStop) ==>
        globalMetricsHandler.metricsQueue == old(globalMetricsHandler.metricsQueue) && globalMetricsHandler.sent == old(globalMetricsHandler.sent)
      ensures globalMetricsHandler != null && !old(globalMetricsHandler.batchStop) ==>
        globalMetricsHandler.metricsQueue == [] && Sent(globalMetricsHandler.sent) == globalMetricsHandler.captured
      ensures globalMetricsHandler != null && !old(globalMetricsHandler.batchStop) ==>
        globalMetricsHandler.sent == old(globalMetricsHandler.sent) + Posts(globalMetricsHandler.Url(), globalMetricsHandler.token, Kind, Chunks(old(globalMetricsHandler.metricsQueue), MaxBatchSize))
    {
      if globalMetricsHandler == null {
        return;
      }
      globalMetricsHandler.Shutdown();
    }

    /** `emitMetric(name, value, attrs)`: nothing without a handler. */
    method EmitMetric(metricName: string, value: Number, attrs: Attributes, now: string)
      requires Valid()
      modifies globalMetricsHandler
      ensures Valid()
      ensures globalMetricsHandler != null && !globalMetricsHandler.noop ==>
        var r := CapturedMetric(PadTimestamp(now), metricName, value, WithServiceName(attrs, globalMetricsHandler.name));
        globalMetricsHandler.metricsQueue == old(globalMetricsHandler.metricsQueue) + [r]
        && globalMetricsHandler.captured == old(globalMetricsHandler.captured) + [r]
      ensures globalMetricsHandler != null ==> globalMetricsHandler.sent == old(globalMetricsHandler.sent) && globalMetricsHandler.batchStop == old(globalMetricsHandler.batchStop)
      ensures globalMetricsHandler != null && globalMetricsHandler.noop ==>
        globalMetricsHandler.metricsQueue == old(globalMetricsHandler.metricsQueue)
    {
      if globalMetricsHandler == null {
        return;
      }
      globalMetricsHandler.EmitMetric(metricName, value, attrs, now);
    }
  }
}
