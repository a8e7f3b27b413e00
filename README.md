# Pbg.Logging — a verified model of the delivery core

Pbg.Logging ships an ASP.NET Core application's log entries to a remote
telemetry endpoint. Producers write entries into an in-memory channel. A
background processor drains the channel into batches of at most `BatchSize`
entries and stamps each entry with the deployment metadata. It then POSTs the
batch, with up to three attempts and a doubling backoff of 2 s and then 4 s.
A batch that cannot be delivered is written to a per-project fallback
directory as one `batch_<stamp>_<guid>.json` file. After every successful
send, stored batches are replayed oldest name first. A request-logging
middleware logs one scope dictionary per HTTP transaction. The options carry
the configuration and its validation.

The model has six modules:

- `LogEntries` (`entries.dfy`): the entry record, the stamping of deployment
  metadata, and the JSON form of entries. Null properties are not written, and
  missing ones read back as null.
- `NameOrder` (`nameorder.dfy`): the ordinal order on file names used by the
  replay.
- `FileStore` (`filestore.dfy`): the fallback store as a class whose directory
  is a map from file name to content. A flag says whether the directory
  exists.
- `Options` (`options.dfy`): the defaults and `Validate` as a chain of guards
  returning a verdict.
- `Middleware` (`middleware.dfy`): `TrimToMaxLength`, the static-file bypass,
  and `InvokeAsync`. `InvokeAsync` works over `HttpContext`, `Response` and
  `Stream` objects, swaps the response stream and restores it on every path.
- `Processor` (`processor.dfy`): the background processor as a class. It
  holds the queue, the batch, the cancellation flag and the store, plus the
  observable effects: POSTs made, batches delivered, delete calls, delays
  waited and self-diagnostics reported.

The outside world is a set of parameters:

- `network(k)` says whether the k-th batch POST succeeds. This covers a 2xx
  status versus any other status or an exception.
- `removable(k)` says whether the k-th file deletion succeeds.
- A `SaveFault` says whether `File.Create` or the serializer fails.
- The file name's clock stamp and GUID are arguments.
- The invalid file-name characters, the machine name, the IP address and the
  environment enum's names are constructor arguments.
- A `Downstream` value is what the rest of the request pipeline does: the
  status, headers and body it writes, whether it throws, and the trace
  identifier and request it leaves in the context.
- `FileStore.Store.DirectoryRemoved` stands for the directory disappearing
  from outside the process. That event is why `GetPendingFiles` and the other
  store operations must handle a missing directory.

The central promises proved:

- A send makes at most three attempts with 2 s and 4 s between them. It
  succeeds exactly when one of the attempts does. Every replayed batch is
  delivered only by a POST the network accepted, and the POSTs, delays and
  errors of a whole pass are those of its sends, in order.
- A replay pass walks the stored files in strictly ascending name order. It
  delivers every readable non-empty batch it reaches, in that order. It deletes
  exactly the files it handled whose deletion succeeded, and leaves every other
  file as it was. It stops early only on cancellation or on a batch whose three
  attempts all failed.
- A batch that could not be delivered is saved, when the save does not
  throw, as exactly one new file, and that file reads back as the batch.
- No distinct entry is lost by a pass of the loop. Every entry drained from
  the queue, and every entry held before, is afterwards in the batch in
  memory, in a delivered batch, or in a stored file that reads back. A file
  whose deletion failed stays for a later pass, so delivery is at least once.
- Validation rejects with the first violated condition, and accepts only when
  all of them hold.
- The middleware puts the original response stream back on every path. On
  success it logs exactly one record whose scope holds exactly the keys the
  capture flags select.

Three behaviours of the code are easy to miss:

- After a successful send, the code replays the older stored batches after
  the batch it has just delivered. It does not replay them before.
- A save that throws is not silent. The loop reports it as an error, keeps
  the batch in memory and skips the flush-interval wait. The batch is retried
  when the channel next has an entry; if the loop exits first, it is dropped.
- A flush interval that `Task.Delay` refuses, one whose whole milliseconds
  are below -1 or above 0xFFFFFFFE, makes every pass that is not cancelled
  and whose save did not throw report an error instead of waiting.

## Model

| member | source | states |
|---|---|---|
| LogEntries.StampKeepsOnlyContent | Pbg.Logging/PbgLogProcessor.cs:46-53 | stamping sets the four deployment fields and keeps the producer's content; two entries are equal once stamped exactly when their content is equal; stamping twice is stamping once |
| LogEntries.StampAll | Pbg.Logging/PbgLogProcessor.cs:46-53 | draining keeps the number and the order of entries: position i of the result is the stamped entry i |
| LogEntries.StampAllAppend | Pbg.Logging/PbgLogProcessor.cs:46-53 | stamping entries in two drains is the same as stamping them in one |
| LogEntries.EncodeEntry | Pbg.Logging/PbgLogProcessor.cs:19 | the serialized entry always carries the timestamp, never carries a null, and carries any other property exactly when it is not null |
| LogEntries.DecodeEntryBinds | Pbg.Logging/Pbg.Logging/PbgLogFileStore.cs:44 | an object reads back as an entry exactly when its timestamp, if present, is a number and no other property is; the timestamp defaults when absent, and every other field is the object's string or null |
| LogEntries.EntryRoundTrip | Pbg.Logging/Pbg.Logging/PbgLogFileStore.cs:10-13 | an entry written with nulls ignored reads back as the same entry |
| LogEntries.EntriesRoundTrip | Pbg.Logging/Pbg.Logging/PbgLogFileStore.cs:39-50 | a JSON array of serialized entries reads back as the same list, element by element |
| NameOrder.BelowIrreflexive | Pbg.Logging/Pbg.Logging/PbgLogFileStore.cs:35-36 | no file name sorts before itself |
| NameOrder.BelowTransitive | Pbg.Logging/Pbg.Logging/PbgLogFileStore.cs:35-36 | the ordinal order of file names is transitive |
| NameOrder.BelowTotal | Pbg.Logging/Pbg.Logging/PbgLogFileStore.cs:35-36 | of two different file names, one sorts before the other |
| NameOrder.LeastExists | Pbg.Logging/Pbg.Logging/PbgLogFileStore.cs:35-36 | every non-empty set of file names has a first name, so sorting them is possible |
| FileStore.SanitizeName | Pbg.Logging/Pbg.Logging/PbgLogFileStore.cs:64-68 | the sanitized name has the same length; each invalid character is replaced by '_' and every other character is kept in place |
| FileStore.SanitizeNameIdempotent | Pbg.Logging/Pbg.Logging/PbgLogFileStore.cs:64-68 | a sanitized name holds no invalid character, and sanitizing it again changes nothing |
| FileStore.BatchFileNameMatches | Pbg.Logging/Pbg.Logging/PbgLogFileStore.cs:23 | every name a save writes matches the pattern `batch_*.json` that the replay searches |
| FileStore.EncodeBatch | Pbg.Logging/Pbg.Logging/PbgLogFileStore.cs:27 | a batch is written as a JSON array holding each entry's serialized object, in order |
| LogEntries.DecodeEntriesElements | Pbg.Logging/Pbg.Logging/PbgLogFileStore.cs:44 | a JSON array binds to a list exactly when every object in it is well typed, and then element i of the list is the entry object i binds to |
| FileStore.DecodeBatch | Pbg.Logging/Pbg.Logging/PbgLogFileStore.cs:44 | content that loads as a list is a JSON array, and the list has one entry per element |
| FileStore.DecodeBatchElements | Pbg.Logging/Pbg.Logging/PbgLogFileStore.cs:44 | content loads as a list exactly when it is an array of well-typed objects, and then element i is the entry object i binds to |
| FileStore.BatchRoundTrip | Pbg.Logging/Pbg.Logging/PbgLogFileStore.cs:21-50 | a batch written by a save loads back as the same batch |
| FileStore.Store.constructor | Pbg.Logging/Pbg.Logging/PbgLogFileStore.cs:15-19 | the directory is the temp path, "Pbg.Logging" and the sanitized project name; it exists and holds the files earlier runs left |
| FileStore.Store.Save | Pbg.Logging/Pbg.Logging/PbgLogFileStore.cs:21-28 | the save throws exactly when the directory is missing or the disk fails; a failed create leaves the directory unchanged, a failed write leaves a truncated file, and a successful save adds the serialized batch under the new name |
| FileStore.Store.GetPendingFiles | Pbg.Logging/Pbg.Logging/PbgLogFileStore.cs:30-37 | exactly the names matching `batch_*.json`, in strictly ascending ordinal order; none when the directory is missing |
| FileStore.Store.LoadBatch | Pbg.Logging/Pbg.Logging/PbgLogFileStore.cs:39-50 | null when the file or directory is missing; otherwise the deserialized content, which is null for the JSON literal null and for unreadable content |
| FileStore.Store.DeleteBatch | Pbg.Logging/Pbg.Logging/PbgLogFileStore.cs:52-62 | the file is gone when the deletion succeeds; a failed deletion changes nothing and does not throw |
| Options.Validate | Pbg.Logging/PbgLoggerOptions.cs:20-44 | an accepted configuration satisfies all seven conditions; a rejected one violates the reported condition and satisfies every condition checked before it |
| Options.ValidateFirstViolation | Pbg.Logging/PbgLoggerOptions.cs:20-44 | conversely, the first condition a configuration violates is the one reported |
| Options.ValidateAcceptsWhenAllHold | Pbg.Logging/PbgLoggerOptions.cs:20-44 | a configuration satisfying all seven conditions is accepted |
| Options.AcceptedBounds | Pbg.Logging/PbgLoggerOptions.cs:20-44 | an accepted configuration has a positive batch size, flush interval and body limit, a non-empty endpoint and a defined environment |
| Options.NatToDecimal | Pbg.Logging/PbgLogProcessor.cs:49 | the text is decimal digits without a leading zero that denote the number |
| Options.IntToDecimal | Pbg.Logging/PbgLogProcessor.cs:49 | a non-negative value is written as its digits, a negative one as '-' followed by the digits of its magnitude |
| Options.EnvironmentName | Pbg.Logging/PbgLogProcessor.cs:49 | a defined environment value is written as its declared name, an undefined one as its number |
| Options.DefaultsRejected | Pbg.Logging/PbgLoggerOptions.cs:7-18 | the defaults, having no license key, are rejected for the license key |
| Options.DefaultsAcceptedWithKeyAndEndpoint | Pbg.Logging/PbgLoggerOptions.cs:7-18 | the defaults are a batch size of 50, an interval of 3 s and a body limit of 4096; given a key and an absolute endpoint they are accepted exactly when the default environment value is defined |
| Middleware.TrimToMaxLength | Pbg.Logging/PbgLoggingMiddleware.cs:112-120 | the result is a prefix of the value; it is the value itself when the value is empty or short enough, and exactly the limit long otherwise; it throws exactly when a non-empty value meets a negative limit |
| Middleware.TrimIdempotent | Pbg.Logging/PbgLoggingMiddleware.cs:112-120 | trimming a trimmed body changes nothing |
| Middleware.GetExtension | Pbg.Logging/PbgLoggingMiddleware.cs:108 | the extension is non-empty exactly when the path's last segment has a last dot that is not its last character, and then it is the suffix from that dot |
| Middleware.ExtensionIsTheOnly | Pbg.Logging/PbgLoggingMiddleware.cs:108 | a path has at most one extension position, the one found |
| Middleware.IsStaticFileRequest | Pbg.Logging/PbgLoggingMiddleware.cs:106-110 | a request is bypassed exactly when its path has an extension and that extension is excluded; a path without an extension is never bypassed |
| Middleware.UserIdOf | Pbg.Logging/PbgLoggingMiddleware.cs:29-31 | the user id is the NameIdentifier claim when present, otherwise the "sub" claim, otherwise empty |
| Middleware.LoggingMiddleware.constructor | Pbg.Logging/PbgLoggingMiddleware.cs:13-17 | the middleware keeps the options it was given |
| Middleware.LoggingMiddleware.CallNext | Pbg.Logging/PbgLoggingMiddleware.cs:50 | the rest of the pipeline sets the status and headers, appends its output to whichever stream is the response body at the time, and leaves its own trace identifier and request in the context |
| Middleware.LoggingMiddleware.RequestScope | Pbg.Logging/PbgLoggingMiddleware.cs:58-76 | the scope holds the trace id read before the pipeline ran, the request id, method, path and status code read after it, the elapsed time, and the user id and trimmed request body exactly when their flags are set |
| Middleware.LoggingMiddleware.BuildScope | Pbg.Logging/PbgLoggingMiddleware.cs:58-91 | the scope holds exactly the keys the flags select, with their values, and request or response headers, as they are after the pipeline ran, only when there are some; building fails exactly when trimming the response body throws |
| Middleware.LoggingMiddleware.InvokeAsync | Pbg.Logging/PbgLoggingMiddleware.cs:19-104 | the original response stream is back on every path. A static file only runs the pipeline. Otherwise the call throws exactly when the pipeline or a trim throws, and then logs nothing and writes nothing to the client. The pipeline runs unless trimming the request body threw first, and the context then keeps the trace identifier and request the pipeline left; the response status and headers are exactly those the pipeline set, and are untouched when it did not run. On success it logs one "HTTP Transaction Completed" record whose scope takes the trace id and request body from before the pipeline ran and the request id, method, path and headers from after it, and it copies the pipeline's output to the client |
| Processor.FirstSuccess | Pbg.Logging/PbgLogProcessor.cs:100-110 | the attempt index found is one of the three attempts, or all three when none succeeds |
| Processor.FirstSuccessIsFirst | Pbg.Logging/PbgLogProcessor.cs:100-110 | the attempt index found is the first successful one, and every attempt before it failed |
| Processor.SendAttemptsBounded | Pbg.Logging/PbgLogProcessor.cs:95-126 | a send makes one to three attempts, succeeds exactly when one of the three POSTs would succeed, and stops at the first success |
| Processor.SendBackoffSchedule | Pbg.Logging/PbgLogProcessor.cs:118-122 | a failing send waits 2 s and then 4 s; a send that succeeds at attempt n waited the first n - 1 of those delays; one error is reported per failed attempt |
| Processor.Replayable | Pbg.Logging/PbgLogProcessor.cs:135-137 | a file yields a batch to send exactly when it exists and loads as a non-empty list, and the batch is that list |
| Processor.PassSendsOk | Pbg.Logging/PbgLogProcessor.cs:143-150 | the sends of a pass all succeed exactly when the send of each file with a non-empty batch succeeds, from the POST number it starts at |
| Processor.PassSendsBounded | Pbg.Logging/PbgLogProcessor.cs:128-152 | a pass makes at most three POSTs per replayed batch, and a pass whose sends all succeed makes at least one per replayed batch |
| Processor.DelayRange | Pbg.Logging/PbgLogProcessor.cs:72 | an interval from 0 up to the largest timer timeout is waited; one of -2 ms or less, or beyond that timeout, is refused |
| Processor.LogProcessor.constructor | Pbg.Logging/PbgLogProcessor.cs:21-33 | the store is the project's directory, and the deployment metadata is the project name, the environment's name, the machine name and the IP address |
| Processor.LogProcessor.Enqueue | Pbg.Logging/PbgLogger.cs:46 | a producer's entry goes to the end of the queue and nothing else changes |
| Processor.LogProcessor.SendLogs | Pbg.Logging/PbgLogProcessor.cs:95-126 | the outcome, the number of POSTs, the delays, the reported errors and the delivered batch are exactly those of the send's specification for the network from the current POST on |
| Processor.LogProcessor.RemoveFile | Pbg.Logging/PbgLogProcessor.cs:139-145 | one delete call is made; the file is gone exactly when the directory exists and the deletion succeeds; nothing else changes |
| Processor.LogProcessor.ReplayFile | Pbg.Logging/PbgLogProcessor.cs:135-150 | a file that does not load as a non-empty batch gets one delete call and is not sent; otherwise its batch is sent from the current POST on: on success it is delivered, with that send's POSTs, delays and errors, and the file gets one delete call; the pass stops exactly when the send fails, after three failed POSTs, leaving the directory untouched |
| Processor.LogProcessor.FlushStoredLogs | Pbg.Logging/PbgLogProcessor.cs:128-152 | the pass visits the stored batch files in ascending name order, none once cancelled; every file handled got one delete call and exactly those whose deletion succeeded are gone; delivered grows by the non-empty batches of the files handled, in order, and each of their sends succeeded; the POSTs, delays and errors are exactly those of these sends; it stops early exactly at a non-empty batch whose send failed, with that send's POSTs, or on cancellation |
| Processor.ReplayKeeps | Pbg.Logging/PbgLogProcessor.cs:137-146 | every entry of a stored file that a pass deletes was delivered by that pass |
| Processor.AddFileKeeps | Pbg.Logging/Pbg.Logging/PbgLogFileStore.cs:21-28 | a new file loses no stored entry, and a readable one adds its batch's entries |
| Processor.LogProcessor.Drain | Pbg.Logging/PbgLogProcessor.cs:46-53 | the batch grows by the stamped first entries of the queue, in order, up to the batch size; the drain stops only when the batch is full or the queue is empty |
| Processor.LogProcessor.Fallback | Pbg.Logging/PbgLogProcessor.cs:61-81 | a successful save adds one file that reads back as the batch, clears the batch and reports a warning; a failed save keeps the batch, reports an error and leaves at most a truncated file |
| Processor.EmptyPassChangesNothing | Pbg.Logging/PbgLogProcessor.cs:130-133 | a pass that handles no file and is not cut short, as one that finds cancellation requested, changes neither the store nor the deliveries, POSTs, delays or diagnostics |
| Processor.LogProcessor.Dispatch | Pbg.Logging/PbgLogProcessor.cs:55-68 | the batch is delivered exactly when its send succeeds; then the batch is cleared and a whole replay pass follows, with everything FlushStoredLogs states about it, including that it handles no file once cancellation was requested; otherwise the send's failed POSTs are followed by a save to one new file that reads back as the batch, or, when the save throws, by an error with the batch kept; no distinct entry is lost |
| Processor.LogProcessor.DrainAndDispatch | Pbg.Logging/PbgLogProcessor.cs:46-68 | the drain takes the queue's first entries in order up to the batch size; an empty batch is neither sent nor saved; a non-empty one is dispatched with everything Dispatch states; the batch is empty afterwards unless the save threw; no distinct entry is lost |
| Processor.LogProcessor.AwaitFlushInterval | Pbg.Logging/PbgLogProcessor.cs:70-81 | unless cancellation was requested, the flush interval is waited when Task.Delay accepts it, and an error is reported instead when it refuses it; nothing else changes |
| Processor.LogProcessor.LoopBody | Pbg.Logging/PbgLogProcessor.cs:44-81 | one pass drains in order up to the batch size; an empty batch is neither sent nor saved; a non-empty one is dispatched with everything Dispatch states, including the send outcome, the replay pass and the save; then the flush wait follows unless the save threw, and none is added once cancelled; every distinct entry drained or held before is still held, delivered or stored |

## Left out

- The outer `WaitToReadAsync` loop, its exit test and `StopAsync` are not modelled. They depend on the channel's blocking and completion, and on concurrency between producers and the processor. The model is one `LoopBody` call per pass. The replay at start-up is one `FlushStoredLogs` call, and `RequestStop` raises the cancellation flag. Entries still queued, or a kept batch, when the loop exits are therefore outside the no-loss statement.
- `Processor.LogProcessor.Enqueue`: the channel is unbounded and always open in the model. Writes that fail after the writer is completed are not modelled.
- Cancellation during a delay or a send is not modelled. The flag is read at the points where the code reads it, and a cancelled wait is recorded like a completed one.
- HTTP details are not modelled. These include the 15-second timeout, the license-key header, the endpoint URL and the status codes. A POST is only its success or failure, given by `network`.
- The clock, `Guid.NewGuid`, DNS, the machine name and `GetLocalIpAddress` are left out. Their values are parameters.
- Self-diagnostics are a list of reported events. The console line and the best-effort POST of a single entry are left out. Those POSTs do not count towards `network`'s index.
- `Processor.LogProcessor.LoopBody` requires the new file name to be absent from the directory. The code relies on a millisecond stamp plus a fresh GUID for that.
- `FileStore.Store.GetPendingFiles` sorts with ordinal character order. `OrderBy` on strings uses the current culture's comparer, which is not modelled. File names are used in place of full paths. All files share the directory prefix, so the order is the same.
- `Directory.EnumerateFiles` pattern quirks, such as matching of three-letter extensions on Windows, are not modelled.
- The JSON text itself, its escaping and its number formats are not modelled. A file is a list of objects, the literal null, or unreadable. `DateTime` is a tick count, and a null element inside an array is not modelled.
- `null` strings are not modelled: a request or response body, the endpoint URL and the project name are never null.
- The middleware's elapsed time is a floating-point number and is kept only as a key. The `Stopwatch` is not modelled. Request and response headers are string maps.
- `ExcludedExtensions` is not declared in `PbgLoggerOptions.cs`, so the middleware takes the set as a constructor argument with exact matching. The directory separators `GetExtension` stops at are also a parameter.
- `Options.Validate`: `Uri.IsWellFormedUriString` and `Enum.IsDefined` are parameters. The registration code in `PbgLoggerExtensions.cs` does not call `Validate`, so the middleware model keeps the error path of a negative body limit.
- The exception messages `Validate` throws are not modelled. The verdict names the violated condition instead.
- The wait bounds `Task.Delay` enforces come from the .NET runtime, not from this repository. An interval that truncates to -1 ms waits until cancellation and is recorded as a flush wait; one that truncates to 0 ms is recorded as a flush wait too.
- `PbgLogger.cs` and `PbgLoggerProvider.cs` are not part of this model. The only part used is the shape of the entry a producer writes, with fields taken from lines 32-44. The declaration of `PbgLogEntry` is not part of this model either, and its fields are inferred from those lines and `PbgLogProcessor.cs:156-165`.
- `Middleware.TrimToMaxLength`: lengths and prefixes are counted in Unicode scalar values, one per `char` of the model. C# counts UTF-16 code units. For text outside the Basic Multilingual Plane the C# code can cut at a different place, or between the two halves of a surrogate pair, leaving a lone surrogate the model cannot represent.
- `Processor.LogProcessor.LoopBody`: the no-loss statement is over sets of entries. Two equal entries count once, so the model does not promise that every copy of a duplicated entry survives.
- `Processor.LogProcessor.Dispatch`: the same holds for its no-loss statement, which is over sets of entries.
- `Processor.LogProcessor.DrainAndDispatch`: the same holds for its no-loss statement, which is over sets of entries.
- `Processor.LogProcessor.Fallback`: the same holds for its no-loss statement, which is over sets of entries.
