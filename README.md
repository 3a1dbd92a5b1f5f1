# Vigilant telemetry client, modelled in Dafny

This project models the core of a small telemetry client for JavaScript applications. It has three handlers:

- the **logger** (`src/logger.ts`);
- the **error handler** (`src/errors.ts`);
- the **metrics handler** (`src/metrics.ts`).

Each handler keeps an in-memory FIFO queue of records. A capture call (`debug`/`info`/`warn`/`error`, `captureError`, `emitMetric`) appends one record. The exception is an error or metrics handler built with `noop: true`, which queues and sends nothing. The record carries:

- a timestamp widened from milliseconds to microseconds;
- the caller's attributes, with `service.name` set to the handler's name;
- for the logger's `error` called with an error, `error` set to that error's message.

A batcher loop drains the queue to `formatEndpoint(endpoint, insecure)`. While the handler runs, each loop turn sends at most one chunk of up to 100 records. On `shutdown`, the loop stops and one forced flush sends everything left.

The error handler also parses the JavaScript stack trace of the error it records (`getErrorLocation`). It finds the first frame line after the header, then reads the function name, file and line number from it.

Files:

- `common.dfy` (module `Common`): optional values, attribute maps, the `service.name` merge, the JavaScript `Error` fields the client reads, and the shared defaults.
- `text.dfy` (module `Text`): the JavaScript string operations the parser uses, written out:
  - `trim` with the ECMAScript whitespace set;
  - `split` on one character, and its inverse `join`;
  - the regular-expression classes `\d` and `.`;
  - `parseInt` on digit strings.
- `wire.dfy` (module `Wire`): `formatEndpoint` and the timestamp rewrite of `getNowTimestamp`.
- `batching.dfy` (module `Batching`): what one flush means on values.
  - `Flushed` is the chunks handed to `sendBatch`; `Left` is the queue left behind.
  - `Posts` is the requests issued.
  - It also holds the lemmas about chunking that the three handler classes are proved against.
- `stack_trace.dfy` (module `StackTrace`): `getErrorLocation`. Its two anchored regular expressions are written as explicit matchers.
  - The lazy function-name group `(.+?)` is a search over name lengths, shortest first.
  - The position groups are the last two colon-separated digit fields.
- `errors.dfy`, `metrics.dfy`, `logger.dfy` (modules `Errors`, `Metrics`, `Logging`): one class per handler and one class per module-level global handler.
  - Each handler class has:
    - its queue as a `seq` field;
    - a `batchStop` flag;
    - two ghost logs: `sent`, the requests handed to the network, and `captured`, every record ever queued.
  - Each handler's invariant `Valid()` says that what was sent, followed by what is queued, is exactly what was captured. So a flush loses, duplicates and reorders nothing.

The batcher runs as explicit steps on one thread:

- `Tick` is one turn of the `while (!batchStop)` loop.
- `Shutdown` sets the flag and runs the batcher's final forced flush to completion. This is the state `await shutdown()` resumes in.

Each capture method takes the value of `new Date().toISOString()` as a parameter, `now`.

## Model

| member | source | states |
|---|---|---|
| Common.WithServiceName | src/errors.ts:53-56 | the record's attributes are the caller's keys plus `service.name`; `service.name` is the handler name even when the caller supplied one; every other caller key keeps its value |
| Wire.FormatEndpoint | src/errors.ts:117-125 | an empty host gives `ingress.vigilant.run/api/message`, with no scheme; a non-empty host gives a URL ending in `/api/message`; the URL starts with `http://` exactly when the host is non-empty and `insecure` is set, and with `https://` exactly when the host is non-empty and `insecure` is unset |
| Wire.ParseFormatEndpoint | src/errors.ts:120-124 | for a non-empty host, the host and the `insecure` flag can be read back from the URL |
| Wire.FormatEndpointInjective | src/metrics.ts:118-126 | two configurations with non-empty hosts give the same URL only if they are equal |
| Wire.DefaultUrlHasNoHost | src/logger.ts:287-288 | the default URL is not the URL of any configured host |
| Wire.PadTimestamp | src/errors.ts:127-129 | a string ending in `.dddZ` gets `000` inserted before the `Z`: it keeps its prefix, grows by three and ends in `.` plus six digits plus `Z`; any other string is unchanged |
| Wire.PadTimestampIdempotent | src/logger.ts:296-298 | rewriting a timestamp twice gives the same result as rewriting it once |
| Wire.PadTimestampReversible | src/metrics.ts:128-130 | removing the three inserted zeros gives back the millisecond timestamp |
| Text.Trim | src/errors.ts:150 | `trim()` is no longer than its input; it is empty exactly when the input is all whitespace; otherwise it neither starts nor ends with whitespace |
| Text.TrimExact | src/errors.ts:145 | trimming removes exactly the surrounding whitespace of a text that neither starts nor ends with whitespace |
| Text.TrimIdempotent | src/errors.ts:150 | trimming twice gives the same result as trimming once |
| Text.Split | src/errors.ts:141 | `split('\n')` gives at least one piece, and no piece holds the separator |
| Text.SplitJoin | src/errors.ts:141 | joining the pieces of a split with the separator gives back the text |
| Text.JoinSplit | src/errors.ts:141 | splitting lines joined by the separator gives back the lines, when no line holds the separator |
| Text.SplitLine | src/errors.ts:141-144 | a first line free of the separator is split off as the first piece, whatever follows it |
| Text.DigitsValue | src/errors.ts:157 | `parseInt` of a digit string, read most significant digit first; the value is 0 exactly when every digit is `0` |
| Text.DecimalValue | src/errors.ts:157 | `parseInt` gives back `n` from its decimal rendering, for every `n` |
| Batching.Take | src/errors.ts:93 | `splice(0, size)` returns the first `min(size, n)` records |
| Batching.Drop | src/errors.ts:93 | what `splice` returns, followed by what it leaves, is the original queue |
| Batching.ChunksConcat | src/errors.ts:92-96 | the chunks of a forced flush, concatenated, are the original queue |
| Batching.ChunksShape | src/errors.ts:92-96 | every chunk holds between 1 and 100 records, and every chunk but the last holds exactly 100 |
| Batching.ChunksCount | src/errors.ts:92-96 | a forced flush sends one request per started 100 records |
| Batching.Chunks250 | src/errors.ts:92-96 | 250 queued records go out as chunks of 100, 100 and 50, in order |
| Batching.FlushPartition | src/errors.ts:89-97 | what a flush sends, followed by what it leaves queued, is the original queue, forced or not |
| Batching.UnforcedFlushSendsOneChunk | src/errors.ts:92-95 | an unforced flush sends nothing for an empty queue; otherwise it sends exactly one chunk, the first `min(n, 100)` records, and keeps the rest in order |
| Batching.ForcedFlushDrains | src/errors.ts:90-96 | a forced flush leaves the queue empty, and sends nothing exactly when the queue was empty |
| Batching.UnforcedFlushIsFirstChunk | src/errors.ts:78-83 | an unforced flush sends the first chunk a forced flush would send; the rest of the forced chunks are the chunks of the queue it leaves |
| Batching.FlushedShape | src/errors.ts:92-96 | every chunk a flush sends, forced or not, holds between 1 and 100 records |
| Batching.PostsWellFormed | src/errors.ts:99-106 | sending chunks of 1 to 100 records issues well-formed requests: the handler's URL, token and type, with 1 to 100 records each |
| Batching.WellFormedEach | src/errors.ts:100-106 | the request log is well formed exactly when each request in it is |
| Batching.SentPosts | src/errors.ts:94 | the records carried by the requests for a list of chunks are those chunks concatenated |
| Batching.FlushKeepsRecords | src/errors.ts:89-97 | a flush keeps "sent followed by queued" unchanged, and keeps the request log well formed |
| StackTrace.FindFrame | src/errors.ts:143-145 | finds the first line whose trimmed form starts with `at`: the found line is one, and no earlier line is; nothing is found only when no line is one |
| StackTrace.LastField | src/errors.ts:161 | a split of `a:d` where `d` is the trailing digit run puts back together to the input |
| StackTrace.LastFieldJoin | src/errors.ts:161 | `a:d`, with `d` digits, splits back into exactly `a` and `d` |
| StackTrace.MatchPosition | src/errors.ts:161 | a match of `(.*?):(\d+):(\d+)` against the whole text renders back to it; its file has no line terminator, and its line and column are non-empty digit strings |
| StackTrace.MatchPositionRender | src/errors.ts:161 | every well-formed `P:L:C` is matched, with exactly P, L and C as its captures |
| StackTrace.MatchFuncFrame | src/errors.ts:151-152 | `^at (.+?) \((.*?):(\d+):(\d+)\)$` matches exactly when some non-empty one-line name and well-formed position render to the whole line; the captures returned render back to the line, and their name is the shortest such name, as the lazy group takes |
| StackTrace.FuncFrameFrom | src/errors.ts:151 | the lazy name search from a candidate length returns a true match whose name is the shortest among the matches at least that long; it returns nothing only when every match has a shorter name |
| StackTrace.FuncFrameSkips | src/errors.ts:151 | the lazy search passes over every shorter name, because none is followed by ` (`, and stops at the real function name |
| StackTrace.MatchFileFrame | src/errors.ts:161-162 | a match of `^at (.*?):(\d+):(\d+)$` is `at ` followed by a well-formed position |
| StackTrace.StripAt | src/errors.ts:173 | `replace(/^at\s+/, '')` changes the text exactly when it starts with `at` followed by whitespace; it then removes `at` and the whole whitespace run, leaving a suffix that does not start with whitespace |
| StackTrace.StripAtExact | src/errors.ts:171-175 | the fallback file is the text after `at` and its whitespace run |
| StackTrace.ParseFrame | src/errors.ts:150-175 | the function name of the location read from a frame is never empty |
| StackTrace.LocationIn | src/errors.ts:143-148 | the location found in the lines after the header has a non-empty function name |
| StackTrace.GetErrorLocation | src/errors.ts:139-176 | the function name of an error's location is never empty |
| StackTrace.FuncFrameLocation | src/errors.ts:151-159 | `at F (P:L:C)` yields function F, file P and line `parseInt(L)` |
| StackTrace.FileFrameLocation | src/errors.ts:161-169 | `at P:L:C` yields `anonymous`, file P and line `parseInt(L)` |
| StackTrace.FallbackLocation | src/errors.ts:171-175 | a frame line that matches neither pattern, colons or not (`at x:y`, `at file:///a.js:10`), yields `anonymous`, the line with `at` and whitespace stripped, and line 0 |
| StackTrace.NoColonNoPattern | src/errors.ts:150-162 | a line without a colon, such as `at <anonymous>`, matches neither pattern |
| StackTrace.HeaderIgnored | src/errors.ts:143-144 | the first line of the stack plays no part: any two headers give the same location |
| StackTrace.LocationOfLines | src/errors.ts:141-144 | for a stack given as its lines, only the lines after the first are searched |
| StackTrace.FirstFrameIn | src/errors.ts:143-150 | the first frame line after the header is the one parsed, once trimmed |
| StackTrace.SelectsFirstFrame | src/errors.ts:141-150 | in a stack given as its lines, the first frame line after the header is parsed, whatever follows it |
| StackTrace.NoFrameLineNoLocation | src/errors.ts:146-148 | with no frame line after the header, the location is `{anonymous, "", 0}` |
| StackTrace.NoStackNoLocation | src/errors.ts:140-148 | a missing stack, an empty stack or a header-only stack gives `{anonymous, "", 0}` |
| StackTrace.IndentedFrame | src/errors.ts:145-150 | a header followed by a frame line indented as V8 prints it is read from that frame |
| StackTrace.IndentedFuncFrame | src/errors.ts:139-159 | a header followed by `    at F (P:L:C)` gives function F, file P and line `parseInt(L)` |
| StackTrace.IndentedFileFrame | src/errors.ts:139-169 | a header followed by `    at P:L:C` gives `anonymous`, file P and line `parseInt(L)` |
| Errors.GetErrorDetails | src/errors.ts:131-137 | the details carry the error's name as `type`, its message, and its stack, or `""` when the stack is missing |
| Errors.DetailsLocationAgree | src/errors.ts:135-140 | the location recorded is the one read from the stack trace the details carry |
| Errors.ErrorHandler.constructor | src/errors.ts:41-49 | missing options default to `sample-app`, `tk_1234567890`, `ingress.vigilant.run`, secure, not noop; the queue starts empty and the batcher running |
| Errors.ErrorHandler.CaptureError | src/errors.ts:51-57 | a noop handler leaves the queue unchanged; otherwise exactly one record is appended: the padded timestamp, the error's details and location, and the caller's attributes with `service.name` set |
| Errors.ErrorHandler.Capture | src/errors.ts:66-73 | appends exactly the record built from the error, leaving earlier entries untouched |
| Errors.ErrorHandler.SendBatch | src/errors.ts:99-114 | an empty batch or a noop handler sends nothing; otherwise one request to the formatted endpoint, with the token, type `errors` and the batch; the outcome of the POST changes nothing |
| Errors.ErrorHandler.FlushBatch | src/errors.ts:89-97 | the queue becomes `Left` and exactly the requests for `Flushed` are sent, in order: one chunk when not forced, the whole queue in chunks when forced |
| Errors.ErrorHandler.Tick | src/errors.ts:78-81 | while `batchStop` is unset, one unforced flush; once it is set, nothing |
| Errors.ErrorHandler.Shutdown | src/errors.ts:59-64 | sets `batchStop`; the first shutdown ends with an empty queue and every captured record sent, in capture order; later shutdowns change nothing |
| Errors.ErrorsModule.constructor | src/errors.ts:4 | there is no global handler at first |
| Errors.ErrorsModule.InitErrorHandler | src/errors.ts:14-16 | installs a fresh handler built from the options: name, token, endpoint, `insecure` and `noop` take the constructor's defaults when missing; its queue and logs are empty and its batcher runs |
| Errors.ErrorsModule.ShutdownErrorHandler | src/errors.ts:18-21 | nothing without a handler; otherwise the handler's shutdown: `batchStop` set and nothing captured; the first shutdown sends the whole queue in chunks, in order, leaving it empty with every captured record sent; a repeated shutdown sends nothing |
| Errors.ErrorsModule.CaptureError | src/errors.ts:23-26 | nothing without a handler; otherwise the handler's `captureError`: a noop handler's queue is unchanged, any other gets exactly the full record appended; nothing is sent and `batchStop` is unchanged, so a later shutdown still drains the queue |
| Metrics.MetricsHandler.constructor | src/metrics.ts:45-53 | missing options default to `sample-app`, `tk_1234567890`, `ingress.vigilant.run`, secure, not noop; the queue starts empty |
| Metrics.MetricsHandler.EmitMetric | src/metrics.ts:55-58 | a noop handler leaves the queue unchanged; otherwise exactly one record is appended, carrying the name and value unchanged and the caller's attributes with `service.name` set |
| Metrics.MetricsHandler.Capture | src/metrics.ts:67-74 | appends exactly one record with the padded timestamp, name, value and attributes |
| Metrics.MetricsHandler.SendBatch | src/metrics.ts:100-115 | an empty batch or a noop handler sends nothing; otherwise one request with type `metrics`; a failed POST changes nothing |
| Metrics.MetricsHandler.FlushBatch | src/metrics.ts:90-98 | the queue becomes `Left` and exactly the requests for `Flushed` are sent, in order |
| Metrics.MetricsHandler.Tick | src/metrics.ts:79-82 | while `batchStop` is unset, one unforced flush; once it is set, nothing |
| Metrics.MetricsHandler.Shutdown | src/metrics.ts:60-65 | sets `batchStop`; the first shutdown ends with an empty queue and every captured record sent |
| Metrics.MetricsModule.constructor | src/metrics.ts:4 | there is no global handler at first |
| Metrics.MetricsModule.InitMetricsHandler | src/metrics.ts:14-16 | installs a fresh handler built from the options: name, token, endpoint, `insecure` and `noop` take the constructor's defaults when missing; its queue and logs are empty and its batcher runs |
| Metrics.MetricsModule.ShutdownMetricsHandler | src/metrics.ts:18-21 | nothing without a handler; otherwise the handler's shutdown: `batchStop` set and nothing captured; the first shutdown sends the whole queue in chunks, in order, leaving it empty with every captured record sent; a repeated shutdown sends nothing |
| Metrics.MetricsModule.EmitMetric | src/metrics.ts:23-30 | nothing without a handler; otherwise the handler's `emitMetric`: a noop handler's queue is unchanged, any other gets exactly the record with name, value, padded timestamp and attributes appended; nothing is sent and `batchStop` is unchanged, so a later shutdown still drains the queue |
| Logging.LogAttributes | src/logger.ts:142-146 | the keys are the caller's, plus `error` when an error is passed, plus `service.name`; `service.name` is the logger name; `error` is the error's message; every other caller key keeps its value |
| Logging.LogAttributesWithoutError | src/logger.ts:142-146 | without an error, the logger merges attributes exactly as the other handlers do |
| Logging.Logger.constructor | src/logger.ts:75-85 | missing options default to passthrough on, `sample-app`, `ingress.vigilant.run`, `tk_1234567890`, secure; the queue starts empty |
| Logging.Logger.Debug | src/logger.ts:87-90 | appends exactly one record with body = message and level DEBUG |
| Logging.Logger.Info | src/logger.ts:92-95 | appends exactly one record with body = message and level INFO |
| Logging.Logger.Warn | src/logger.ts:97-100 | appends exactly one record with body = message and level WARNING |
| Logging.Logger.Error | src/logger.ts:102-109 | appends exactly one record with level ERROR, and the error's message under `error` when an error is passed |
| Logging.Logger.Log | src/logger.ts:132-148 | appends exactly one record: padded timestamp, body, level and the merged attributes |
| Logging.Logger.SendBatch | src/logger.ts:174-189 | an empty batch sends nothing; every other batch is sent, because there is no noop mode |
| Logging.Logger.FlushBatch | src/logger.ts:164-172 | the queue becomes `Left` and exactly the requests for `Flushed` are sent, in order |
| Logging.Logger.Tick | src/logger.ts:153-156 | while `batchStop` is unset, one unforced flush; once it is set, nothing |
| Logging.Logger.Shutdown | src/logger.ts:125-130 | sets `batchStop`; the first shutdown ends with an empty queue and every logged record sent |
| Logging.LoggingModule.constructor | src/logger.ts:4 | there is no global logger at first |
| Logging.LoggingModule.InitLogger | src/logger.ts:6-8 | installs a fresh logger built from the options: name, token, endpoint, `insecure` and `passthrough` take the constructor's defaults when missing; its queue and logs are empty and its batcher runs |
| Logging.LoggingModule.ShutdownLogger | src/logger.ts:10-13 | nothing without a logger; otherwise the logger's shutdown: `batchStop` set and nothing captured; the first shutdown sends the whole queue in chunks, in order, leaving it empty with every captured record sent; a repeated shutdown sends nothing |
| Logging.LoggingModule.LogDebug | src/logger.ts:15-18 | nothing without a logger; otherwise exactly one DEBUG record appended, with body = message, the padded timestamp and the merged attributes; nothing is sent and `batchStop` is unchanged, so a later shutdown still drains the queue |
| Logging.LoggingModule.LogInfo | src/logger.ts:20-23 | nothing without a logger; otherwise exactly one INFO record appended, with body = message, the padded timestamp and the merged attributes; nothing is sent and `batchStop` is unchanged, so a later shutdown still drains the queue |
| Logging.LoggingModule.LogWarn | src/logger.ts:25-28 | nothing without a logger; otherwise exactly one WARNING record appended, with body = message, the padded timestamp and the merged attributes; nothing is sent and `batchStop` is unchanged, so a later shutdown still drains the queue |
| Logging.LoggingModule.LogError | src/logger.ts:30-37 | nothing without a logger; otherwise exactly one ERROR record appended, with the error's message under `error` when an error is passed; nothing is sent and `batchStop` is unchanged, so a later shutdown still drains the queue |

## Left out

- The HTTP POST (`axios.post`) is replaced by appending the request to the ghost log `sent`. Its outcome is not modelled, because the `catch {}` discards it: a failed request drops its chunk, which was already spliced off the queue.
- `async`/`await`, `setTimeout` and the batcher's promise are left out. The loop is modelled as explicit `Tick` and `Shutdown` steps on one thread. Interleavings of captures with a flush suspended at `await sendBatch` are not modelled. `batchInterval` (100 ms) is not modelled.
- The clock is left out. `new Date().toISOString()` is the parameter `now` of every capture method; only the rewrite of its ending is modelled.
- Console autocapture is left out: `enableLogAutocapture`, `disableLogAutocapture`, `autocapture_enable`, `autocapture_disable` and the console redirection (src/logger.ts:111-123, 191-266). These patch the global `console` and call `JSON.stringify` and `String`.
- Passthrough to the original console is left out (src/logger.ts:268-280). The `passthrough` setting is kept and defaults as in the source, but nothing is written.
- A metric value is a JavaScript floating-point number. It is kept as its 64-bit pattern and only copied.
- The `Attributes` type comes from `src/attributes.ts`, which is not part of this model. Attributes are a map from string keys to string, number or boolean values; key order is not modelled.
- `parseInt` is modelled as the exact value of the digit string. It does not model the precision loss above 2^53 or `Infinity` for very long digit strings.
- `src/index.ts` is not part of this model: it only re-exports. `build.js` is not part of this model: it is build configuration.
- Each handler file has its own copy of `formatEndpoint` and `getNowTimestamp`. They are modelled once, in `Wire`. The copy in src/logger.ts:283-294 compares with `==` and accepts `undefined`, but the constructor always passes strings, so it behaves the same.
- `initErrorHandler`, `initMetricsHandler` and `initLogger` replace the global handler without shutting the old one down. In the source, the old handler's batcher keeps running; the model simply drops the old object.
- StackTrace.FuncFrameLocation: only states the result for function names without `(`. For a name containing `(`, the lazy group can stop at a shorter name; MatchFuncFrame states that the shortest name is the one returned.
- StackTrace.IndentedFuncFrame: states the result only for function names without `(`, for the same reason.
- After a completed shutdown, captures are still queued but are never sent, because the batcher has finished. The model keeps this behaviour: `Tick` does nothing once `batchStop` is set.
