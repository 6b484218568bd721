# tuba, modelled in Dafny

tuba is a Go toolkit for micro-services: backoff strategies and a retry
loop, an HTTP client that retries, gRPC client and server set-up around a
circuit breaker, business error codes carried as gRPC statuses, a MySQL
handle with a write connection and round-robin read replicas, a Redis
storage that picks a cluster or single-node client, zap logging with
per-level files and a trace id in the context, a Logstash hook, and small
time types for database scanning and configuration text.

This project models that core in Dafny, one module per package:

| module | package | form |
|---|---|---|
| `Common` | Go's `error`, `nil`, `int64` and `time.Duration` | values |
| `Strconv` | the `strconv` conversions the model relies on | functions |
| `Backoff` | `backoff` | functions |
| `Retry` | `retry` | functions and one loop |
| `HttpClient` | `transport/httpclient` | a class whose setters update it |
| `GrpcClient`, `GrpcServer` | `transport/grpc` | configuration updated in place |
| `Ecode` | `ecode` | functions, and one loop |
| `XTime` | `util/xtime` | receivers updated in place |
| `Sql`, `MySql` | `database/sql`, `database/mysql` | a `DB` class with its counter |
| `Http` | `transport/http` | a class, and a loop over the header |
| `Redis` | `cache/redis` | functions |
| `Log`, `Logstash` | `log` | the installed logger as a class; the hook as a class |

Everything outside the process is a parameter: the `i`-th result of a work
function, dial, close or query is `oracle(i)`, and a sleep is recorded in a
returned log instead of waiting. A Go `panic` is an `Outcome` (or, in
`Http`, an `Ending` that also covers `log.Fatal`). Durations are integers of
nanoseconds, and `int64` wrap-around and truncating division are written
out where the code depends on them.

## Model

| member | source | states |
|---|---|---|
| Common.Wrap | transport/httpclient/context_client.go:85 | the wrapped error's text is the message, ": " and the cause's text |
| Common.Wrap64 | backoff/backoff.go:29 | the result is an int64 congruent to the exact value modulo 2^64, and an int64 is kept as it is |
| Common.Wrap32 | ecode/status.go:17 | the result is an int32 congruent to the exact value modulo 2^32, and an int32 is kept as it is |
| Common.GoDiv | backoff/backoff.go:42-43 | division truncates toward zero: the remainder has the sign of the dividend and is smaller than the divisor |
| Common.FirstFailure | database/sql/sql.go:37-58 | none of the first `n` connects fails exactly when there is no first failure; a first failure fails and every connect before it succeeds |
| Strconv.Itoa | ecode/status.go:46 | a non-empty rendering that starts with '-' exactly for a negative number and never with '+' |
| Strconv.ParseInt | util/xtime/time.go:17 | a syntax error yields 0, a range error the nearest int64 bound, the value is always an int64, and the empty string is a syntax error |
| Strconv.ParseUint | util/xtime/time.go:17 | the digits after the sign: the empty string and any non-digit are a syntax error with value 0, a value past 2^64-1 a range error with value 2^64-1, and the value is always a uint64 |
| Strconv.ParseIntItoa | util/xtime/time.go:17 | parsing the decimal rendering of any int64 gives it back with no error |
| Strconv.ParseIntValid | util/xtime/time.go:17 | an optional sign followed by digits whose value is an int64 parses to that value with no error |
| Strconv.ParseIntRejectsLetter | util/xtime/time.go:17 | digits followed by a character that is neither a digit nor a sign are a syntax error with value 0 |
| Backoff.NewExponentialBackoff | backoff/backoff.go:39-45 | both timeouts are cut to whole milliseconds toward zero (bounds for either sign), and the factor is kept |
| Backoff.NewConstantBackoff | backoff/backoff.go:18-21 | no contract of its own: the strategy keeps the interval as given, and `ConstantIsDoubling`, `ConstantExample` and `ConstantDoublesEachRetry` state the waits it yields |
| Backoff.Next | backoff/backoff.go:24-54 | a retry index up to 0 waits nothing; the constant strategy always yields an int64; the exponential one never exceeds its maximum |
| Backoff.ConstantIsDoubling | backoff/backoff.go:29 | below overflow the constant strategy waits `interval * 2^retry` |
| Backoff.ConstantExample | retry/retry_test.go:12 | 100ms at retry 3 waits 800ms |
| Backoff.ConstantDoublesEachRetry | backoff/backoff.go:29 | each retry doubles the previous wait in int64 arithmetic, exactly when the double still fits |
| Backoff.ConstantMonotone | backoff/backoff.go:29 | for a non-negative interval the waits never shrink while the larger one fits in an int64 |
| Backoff.ConstantVanishes | backoff/backoff.go:29 | from retry 64 on every bit has been shifted out and the wait is 0 |
| Backoff.ExponentialCapped | backoff/backoff.go:53 | with a factor of at least 2 the wait is the maximum from retry `max - initial` on (and from retry 1 when that is smaller) |
| Backoff.ExponentialExample | backoff/backoff_test.go:11-14 | 1s, 2s and factor 2 give 1002ms, 1004ms and, at retry 10, the 2000ms cap |
| Backoff.ExponentialMonotone | backoff/backoff.go:53 | with a factor of at least 1 the waits never shrink |
| Retry.RetryLoop | retry/retry.go:69-91 | at most `retries + 1` calls, stopping at the first success; every call but the last failed; one sleep of `NextInterval(i)` after each failure |
| Retry.NextInterval | retry/retry.go:51-67 | no contract of its own: `FirstSleepIsZero` states the first wait of both implementations, and `RetrierDo` and `NoRetrierDo` state every wait as the backoff's `Next` or 0 |
| Retry.RetrierDo | retry/retry.go:69-79 | returns nil whatever happened; the calls follow the stopping rule; the i-th sleep is the backoff's `Next(i)` |
| Retry.NoRetrierDo | retry/retry.go:81-91 | the same loop, with every sleep 0, returning nil |
| Retry.FuncDo | retry/retry.go:21-23 | calls the work once and returns its error, whatever the retry count |
| Retry.StoppedIsUnique | retry/retry.go:69-79 | the stopping rule fixes the number of calls |
| Retry.StopsAtFirstSuccess | retry/retry.go:70-76 | `k` failures then a success within the budget mean exactly `k + 1` calls and `k` sleeps |
| Retry.ExhaustsBudget | retry/retry.go:70-78 | when every call fails the whole budget is used and every call, the last included, is followed by a sleep |
| Retry.FirstSleepIsZero | retry/retry.go:52-54 | the first wait of a `retrier` and of a `noRetrier` is 0 |
| Retry.AlwaysFailingScenario | retry/retry_test.go:11-15 | 100ms constant backoff, 5 retries, always failing: 6 calls, nil, sleeps 0, 200, 400, 800, 1600, 3200 ms |
| HttpClient.Request | transport/httpclient/context_client.go:169-195 | a transport failure gives the context's error; status 500 and above gives nil without reading; the body is decoded exactly after a clean read below 500; nil exactly when nothing failed or the status was 500+ |
| HttpClient.ReqBody | transport/httpclient/context_client.go:197-214 | a form body is the string parameter, a JSON body the encoder's output, and there is a body only in those cases |
| HttpClient.BuildRequest | transport/httpclient/context_client.go:82-154 | a request-creation error is wrapped with the method's name; GET keeps the caller's header and has no body; the others set Content-Type over the caller's entries, and only DELETE has no body |
| HttpClient.HttpClient.constructor | transport/httpclient/context_client.go:47-69 | the retry count starts at 0 whatever the configuration says, and the retrier uses a constant backoff on the configured interval |
| HttpClient.HttpClient.SetRetryCount | transport/httpclient/context_client.go:72-74 | overwrites the retry count and nothing else |
| HttpClient.HttpClient.SetRetrier | transport/httpclient/context_client.go:77-79 | overwrites the retrier and nothing else |
| HttpClient.HttpClient.Do | transport/httpclient/context_client.go:157-167 | follows the retry stopping rule over `request`'s results, returns the last attempt's error and sleeps the retrier's intervals after each failure |
| HttpClient.FreshClientDo | transport/httpclient/context_client.go:157-167 | a freshly built client makes exactly one attempt and returns its error |
| GrpcClient.NormalizeRules | transport/grpc/client.go:35-59 | each field keeps a usable value and otherwise takes its default; breaker fields are compared with 0 only |
| GrpcClient.NormalizeIdempotent | transport/grpc/client.go:35-59 | after the defaults every field is usable, and applying them twice is applying them once |
| GrpcClient.NormalizedIsFixedPoint | transport/grpc/client.go:35-59 | a configuration is left unchanged by the defaults exactly when it is already usable |
| GrpcClient.Normalize | transport/grpc/client.go:37-59 | no contract of its own: `NormalizeRules`, `NormalizeIdempotent` and `NormalizedIsFixedPoint` state each field's default and its trigger |
| GrpcClient.BreakerOptionsOf | transport/grpc/client.go:60-71 | context cancellation and deadline count as failures, and the counter-reset interval, threshold, open timeout and half-open successes are the configuration's |
| GrpcClient.BreakerFromDefaults | transport/grpc/client.go:48-67 | none of the four breaker numbers is 0: each is the caller's value when not 0, else one minute, 3, 20 seconds and 10 |
| GrpcClient.NewRPCClient | transport/grpc/client.go:35-71 | the caller's configuration is replaced by its defaulted form, the breaker is built from that with both failure flags set, and none of its four numbers is 0 |
| GrpcClient.BreakerDo | transport/grpc/client.go:107-114 | the result is `ErrOpen` exactly when the breaker refuses, nil exactly when it admits a call whose invoker succeeds, and otherwise the invoker's error |
| GrpcClient.Intercept | transport/grpc/client.go:105-122 | the breaker's error is returned unchanged; the open-state handler runs exactly when the breaker refuses, and the invoker runs exactly when it admits |
| GrpcServer.NormalizeRules | transport/grpc/server.go:74-103 | each field keeps a positive or non-empty value and otherwise takes its default; the log flag is kept |
| GrpcServer.NormalizeIdempotent | transport/grpc/server.go:74-103 | after the defaults every field is usable, and applying them twice is applying them once |
| GrpcServer.Normalize | transport/grpc/server.go:74-98 | no contract of its own: `NormalizeRules` and `NormalizeIdempotent` state each field's default and its trigger |
| GrpcServer.Server.constructor | transport/grpc/server.go:34-49 | the caller's configuration is defaulted in place and shared, there are no interceptors, and the keepalive parameters are all zero |
| GrpcServer.Server.Configuration | transport/grpc/server.go:74-103 | the configuration becomes its defaulted form, is stored, and the error is nil |
| GrpcServer.Server.Use | transport/grpc/server.go:61-64 | the interceptors are appended in order and the same server is returned |
| Ecode.NewError | ecode/status.go:16-18 | the status carries the message given and the code as an `int32`: the code itself when it fits, otherwise the value congruent to it modulo 2^32 |
| Ecode.FromCode | ecode/status.go:73-75 | the status carries the code as an `int32` (itself when it fits, congruent modulo 2^32 otherwise) and no details; its message is the registered one, or the stored code in decimal when none is registered |
| Ecode.CodeTruncated | ecode/status.go:16-49 | code 2^31 reads back as -2^31, and its decimal message shows the wrapped value |
| Ecode.Message | ecode/status.go:44-49 | never empty: the stored message, or the code in decimal when it is empty |
| Ecode.ErrorText | ecode/status.go:34-36 | the error text is the message |
| Ecode.FromProtoKeepsMeaning | ecode/status.go:78-85 | the code is kept; the status is dropped for a bare code exactly when its message says nothing beyond the code; a kept status keeps its message |
| Ecode.FromProtoOther | ecode/status.go:86 | any other proto message gives a `ServerErr` status |
| Ecode.FromProto | ecode/status.go:78-87 | a status message keeps its code, and a bare code comes only from a status message; `FromProtoKeepsMeaning` and `FromProtoOther` state when the status is dropped and what other messages give |
| Ecode.Cause | ecode/status.go:98 | the cause is never itself a wrapper |
| Ecode.GRPCStatus | ecode/status.go:89-105 | nil stays nil; an ecode cause gives its own code and message; any other error the fallback code's |
| Ecode.FromStatus | ecode/status.go:108-120 | nil stays nil; a gRPC status error becomes its bare code; any other error is returned unchanged |
| Ecode.StatusRoundTrip | ecode/status.go:89-120 | a status under any number of wrappers, sent through `GRPCStatus` and back, comes back as its code, and vanishes when the code is 0 |
| Ecode.Details | ecode/status.go:51-65 | nil exactly for a nil status; otherwise one entry per detail, in order, the message or its error |
| XTime.UnixInstant | util/xtime/time.go:31 | the instant has those Unix seconds and no nanoseconds |
| XTime.ScanOutcome | util/xtime/time.go:12-22 | a time stores its Unix seconds; a string stores what `ParseInt` returns, even on error, and returns that error; anything else keeps the old value |
| XTime.Time.Scan | util/xtime/time.go:12-22 | the receiver and the error are `ScanOutcome` of the old value and the input |
| XTime.TimeOf | util/xtime/time.go:30-32 | the instant's Unix seconds are the stored value |
| XTime.Value | util/xtime/time.go:25-27 | the same instant as `Time()`, and never an error |
| XTime.ScanTimeRoundTrip | util/xtime/time.go:12-32 | scanning the instant a `Time` converts to gives that `Time` back |
| XTime.ScanTextRoundTrip | util/xtime/time.go:16-19 | scanning the decimal text of an int64 gives it back; digits followed by a letter store 0 and fail |
| XTime.Duration.UnmarshalText | util/xtime/time.go:38-44 | a parsed duration is stored; on error the receiver is unchanged and the error returned |
| XTime.Shrink | util/xtime/time.go:47-55 | the result never exceeds the duration; the caller's context is kept exactly when its deadline is sooner, and the result is then the minimum |
| XTime.ShrinkIdempotent | util/xtime/time.go:47-55 | shrinking twice against the same deadline is shrinking once |
| Sql.ParseDSN | database/sql/sql.go:73-79 | the parsed address, or "" when the DSN does not parse |
| Sql.LastFailure | database/sql/sql.go:90-100 | no contract of its own: `LastFailureMeaning` states which close's error it is |
| Sql.LastFailureMeaning | database/sql/sql.go:90-100 | no error exactly when every close succeeds; otherwise the error of a close after which none fails |
| Sql.Pick | database/sql/sql.go:81-87 | the picked replica is a valid index |
| Sql.Spread | database/sql/qurey.go:16 | one argument per value given, in order |
| Sql.QureyOutcome | database/sql/qurey.go:9-17 | with replicas the picked one is queried with the arguments packed, an error returns at once, and otherwise the write connection is queried too and its rows returned |
| Sql.QureyIntendedOutcome | database/sql/qurey.go:9-17 | one query, with spread arguments, on the picked replica or on the write connection when there is none |
| Sql.QureyRowCall | database/sql/qurey.go:20-26 | the picked replica, or the write connection when there is none, receives the arguments packed into one |
| Sql.QureyRowIntendedCall | database/sql/qurey.go:20-26 | the same connection, with the arguments spread |
| Sql.DB.Open | database/sql/sql.go:37-58 | fails exactly when some connect fails, with the first error; otherwise one connection per DSN in order, all with the write DSN's address, and a master sharing the write connection |
| Sql.DB.ReadIndex | database/sql/sql.go:81-87 | 0 and no change without replicas; otherwise the counter goes up by one and the new value modulo the replica count is returned |
| Sql.DB.Close | database/sql/sql.go:90-100 | every connection is closed, write first, whatever fails, and the last failure's error is returned |
| Sql.DB.Master | database/sql/sql.go:103-108 | panics with `ErrNoMaster` exactly when there is no master, and otherwise returns it |
| Sql.DB.Qurey | database/sql/qurey.go:9-17 | advances the counter when there are replicas and does what `QureyOutcome` describes |
| Sql.DB.QureyIntended | database/sql/qurey.go:9-17 | advances the counter likewise and issues the one query of `QureyIntendedOutcome` |
| Sql.DB.QureyRow | database/sql/qurey.go:20-26 | advances the counter likewise and issues `QureyRowCall` |
| Sql.DB.QureyRowIntended | database/sql/qurey.go:20-26 | advances the counter likewise and issues `QureyRowIntendedCall` |
| Sql.RoundRobinCovers | database/sql/sql.go:81-87 | from any counter value the next `n` reads reach every replica |
| Sql.RoundRobinDistinct | database/sql/sql.go:81-87 | and no replica twice among them |
| Sql.ReadRounds | database/sql/sql.go:81-87 | `k` reads in a row on a fresh handle leave the counter at `k`, and the `j`-th read picks replica `j mod n` |
| Sql.QureyDiscardsReplicaRows | database/sql/qurey.go:12-16 | one replica answering 7 and the write connection 9: both are queried and 9 is returned where 7 was meant |
| Sql.ArgsArrivePacked | database/sql/qurey.go:12-25 | two arguments arrive as one wherever the slice is passed without spreading, and as two once spread |
| MySql.Open | database/mysql/mysql.go:51-71 | fails exactly when some connect fails, with the first error; otherwise one connection per DSN in order and a master sharing the write connection |
| MySql.NewMySQL | database/mysql/mysql.go:40-49 | a zero timeout panics before connecting; a connect failure panics with its error; otherwise the opened handle is returned: counter at 0, the write connection from the write DSN, one replica per read DSN in order, and a master sharing the write connection with no replicas |
| Http.NonEmptyEntries | transport/http/client.go:127-131 | exactly the entries whose key and value are both non-empty, with their values |
| Http.NewRequest | transport/http/client.go:116-132 | a creation error ends the process; GET stays GET with no body, any other method becomes POST with the URL as body; the header is the non-empty entries |
| Http.ReadAll | transport/http/client.go:136-153 | a too-large panic becomes that error with no data, any other panic goes on, and a finished read is returned as it is |
| Http.Client.constructor | transport/http/client.go:46-62 | the transport comes from the configuration with verification skipped, and no `http.Client` is set |
| Http.Client.WithClient | transport/http/client.go:46-62 | the same transport, and an `http.Client` over it |
| Http.Client.Do | transport/http/client.go:85-113 | never returns an error; without a client it panics; it returns exactly after a clean round trip below 400, a clean read and a clean decode; every failure ends the process with its message |
| Http.NewClientDoPanics | transport/http/client.go:46-62 | a client made by `New` panics on its first request whatever the server answers |
| Http.WithClientDoSucceeds | transport/http/client.go:85-113 | a client that has its `http.Client` returns nil for status 200, a clean body and a clean decode |
| Redis.PoolSize | cache/redis/redis_storage.go:53-55 | a positive pool size is kept, anything else leaves go-redis's default (0) |
| Redis.Build | cache/redis/redis_storage.go:36-93 | several addresses or the cluster flag give a read-only cluster client over all addresses; otherwise a single client on the first address, refused when the ping fails; exactly one client is built |
| Redis.CreateRedisStorage | cache/redis/redis_storage.go:32-94 | a nil configuration panics; an empty address list is refused; anything else is `Build` |
| Redis.CreateRedisStorageIntended | cache/redis/redis_storage.go:32-35 | a nil configuration is refused like an empty address list, and nothing panics |
| Redis.CreateIntendedAgrees | cache/redis/redis_storage.go:32-94 | the two agree on every non-nil configuration |
| Redis.Dispatch | cache/redis/redis_storage.go:104-109 | the cluster flag chooses the client; the command panics exactly when the chosen one is nil |
| Redis.DispatchIntended | cache/redis/redis_storage.go:104-109 | the client that was built is the one used |
| Redis.DispatchReachesBuiltClient | cache/redis/redis_storage.go:36-109 | every storage built reaches its client through the intended dispatch, and through the written one exactly when the flag agrees with the mode |
| Redis.MultiAddressWithoutClusterFlag | cache/redis/redis_storage.go:36-109 | two addresses without the flag build a cluster client, yet a command panics on the nil single-node client |
| Redis.NilConfigPanics | cache/redis/redis_storage.go:33 | a nil configuration panics where the empty-address error was meant |
| Log.LevelOf | log/param.go:35-49 | each per-level filter admits its one level and no other |
| Log.PriorityFilters | log/param.go:29-34 | `highPriority` admits no more than `lowPriority`, and only debug is in one and not the other |
| Log.PerLevelFilters | log/param.go:35-49 | two different per-level filters never admit the same level, and DPanic and Panic pass none |
| Log.Enabled | log/param.go:29-49 | no contract of its own: `LevelOf`, `PriorityFilters` and `PerLevelFilters` state which levels each filter admits |
| Log.StripLogBounds | log/log.go:179 | the result is never longer, and a name without '.' is unchanged |
| Log.StripLogAppend | log/log.go:179 | two parts strip separately when no ".log" can straddle their seam |
| Log.StripLog | log/log.go:179 | no contract of its own: `StripLogBounds`, `StripLogAppend` and `RotationPattern` state what removing every ".log" does |
| Log.GetWriter | log/log.go:177-188 | the link is the file name, files are kept a week and rotated hourly |
| Log.RotationPattern | log/log.go:179 | a name ending in ".log" rotates into the name without it followed by the time stamp |
| Log.Priority | log/log.go:29-33 | the console filter is `lowPriority` exactly in debug mode |
| Log.Plan | log/log.go:26-58 | the console comes first with the mode's filter, and it is alone when there is no log path |
| Log.FilesFor | log/log.go:26-58 | never more files than cores; a single core is kept exactly when it is a file that lets the level through |
| Log.FilesForExact | log/log.go:26-58 | a core is kept exactly when it is one of the cores, writes to a file and lets the level through |
| Log.MultiFilePlan | log/log.go:35-42 | each per-level file of the multi-file plan contributes itself exactly when the level is its own, the debug file only in debug mode |
| Log.MultiFileRouting | log/log.go:35-42 | Info, Warn, Error and Fatal each reach exactly their own file, Debug its file only in debug mode, DPanic and Panic none |
| Log.SingleFileRouting | log/log.go:43-49 | the single file admits exactly what the console admits |
| Log.FileNames | log/log.go:36-47 | every file name is the log path, the application name and a suffix, concatenated |
| Log.Global.constructor | log/log.go:198-204 | before `Init` the logger is the console at debug level |
| Log.Global.Init | log/log.go:26-58 | the installed cores are `Plan` of the configuration |
| Log.Lookup | log/log.go:71 | the innermost value under the key; none in the background context |
| Log.WithTraceID | log/log.go:65-67 | the new context yields the trace id as a string under the trace-id key, and every other key looks up what it did before |
| Log.FromContext | log/log.go:70-77 | the trace id exactly when one is stored as a string, otherwise "" and false |
| Log.TraceIDRoundTrip | log/log.go:62-77 | the trace id set last is read back, and values under other keys, a plain "trace_id" string included, neither hide nor fake it |
| Log.LookupFindsKey | log/log.go:70-77 | a lookup succeeds exactly when some link carries the key, so a context that never had a trace id has none |
| Log.WithCtx | log/log.go:134-142 | the trace id is added as a field exactly when the context has one, and the logger is otherwise unchanged |
| Logstash.LevelName | log/logstash.go:39 | every level from panic to trace has a name, and anything else is "unknown" |
| Logstash.Fields | log/logstash.go:32-41 | the entry's keys plus the five reserved ones; other values kept; the reserved ones set from the entry and the hook |
| Logstash.Hook.Format | log/logstash.go:32-47 | the encoder's output of `Fields` followed by one newline, or its error wrapped |
| Logstash.Hook.Fire | log/logstash.go:49-58 | a format error is returned without writing; otherwise a hook that was never dialled panics on its nil connection, and a dialled one writes the formatted line and returns the write's error |
| Logstash.NewLogstash | log/logstash.go:23-30 | a dial error is returned with the configuration untouched; otherwise the connection is stored in the configuration, which is returned |
| Logstash.Levels | log/logstash.go:60-69 | six levels |
| Logstash.LevelsOrder | log/logstash.go:60-69 | every named level from panic to debug, most severe first, each once, and never trace |

## Left out

- The circuit breaker's own state machine (a third-party package): each call's verdict is a parameter.
- Floating point in the exponential backoff: the factor is a whole number and the timeouts are whole milliseconds.
- Real time: `time.Sleep` is a returned log, and `time.Until` of a context's deadline is a parameter of `Shrink`.
- Network, driver and library calls are parameters: `sql.Open`, `mysql.ParseDSN`, `QueryContext`, the HTTP round trip, JSON encoding and decoding, `net.Dial`, `time.ParseDuration`, `Any.UnmarshalNew`, Redis `Ping`.
- The driver pool settings `connect` applies (`SetMaxOpenConns` and the like), the `grpc.DialContext` call and its keepalive parameters, and listening and serving (`Start`, `Serve`).
- Concurrency: the atomic add on the replica counter is a sequential update, and the atomic swap of the installed logger is a field assignment.
- Sql.DB.ReadIndex: the counter is an unbounded natural number, so the int64 wrap-around after 2^63 reads is not modelled.
- Ecode.GRPCStatus: `Code.Code()` of a bare code is defined in a file that is not part of this model; a bare code is taken as its own value, without the `int32` conversion.
- Ecode.FromStatus: only an error made directly by gRPC's status package is recognised, not one wrapped around it.
- Ecode.FromCode: the message registry of `Code.Message()` lives in a file that is not part of this model and is a parameter; the value of `ServerErr` is likewise defined outside it.
- HttpClient.BuildRequest: header keys are not canonicalised, and the caller's header map is modelled as a value, so its mutation by `Post`, `Put`, `Patch` and `Delete` is not visible to the caller.
- HttpClient.Request: the body reader's panics are not modelled there (they are in `Http.ReadAll`).
- Http.NewRequest: `Header.Set` canonicalisation of keys is not modelled.
- Http: `Get` and `Post` are the composition of `NewRequest` and `Client.Do` and are not modelled separately.
- Http.ReadAll: the nil slice returned on a too-large read is the empty sequence. The too-large error is recognised by its message, since errors are values here; Go compares the `bytes.ErrTooLarge` pointer, so another error with the same text would be re-raised there and returned here.
- Log: the zap encoders, `TimeEncoder`, the level wrappers (`Debugf`, `CtxInfo` and the rest) and rotatelogs itself; a file core records its file name rather than the writer.
- Logstash.Hook.Format: the time stamp arrives already formatted as RFC 3339 in UTC.
- Retry.RetryLoop: the `log.Error` call after each failed attempt (retry/retry.go:72, 84) is not modelled; it does not affect the result, the calls or the waits.
- Redis.Storage: the storage keeps a copy of the `*Config` value, so a later write to `Cluster` through the caller's pointer, which changes where Go dispatches commands, is not seen by the model.
- HttpClient.HttpClient.constructor: the client keeps a copy of the `*Config` value, so later writes through the caller's pointer are not seen by the model, whereas the Go client shares them.
- Retry.FuncDo: the `RetriableFunc` adapter's `Do` ignores its retry count, as the code does; the `RetryFunc.Do` method is just a call.

## Findings

| source | as written | input that shows it | evidently intended | confidence | as-written member | corrected member |
|---|---|---|---|---|---|---|
| transport/http/client.go:46-62 | `New` builds a transport but never sets `client`, so `Do` calls a nil `*http.Client` | any configuration, then any request | `client: &http.Client{Transport: transport}` | high, not executed | Http.NewClientDoPanics | Http.WithClientDoSucceeds |
| cache/redis/redis_storage.go:33 | `len(option.Addrs)` is read before the `option == nil` comparison | `CreateRedisStorage(nil)` | the nil test first, returning the empty-address error | high, not executed | Redis.NilConfigPanics | Redis.CreateRedisStorageIntended |
| cache/redis/redis_storage.go:36, 105-108 | the client is chosen by address count or flag, commands by the flag alone | two addresses with `Cluster` false | commands use the client that was built | high, not executed | Redis.MultiAddressWithoutClusterFlag | Redis.DispatchReachesBuiltClient |
| database/sql/qurey.go:12-16 | a successful replica query is discarded and the write connection queried as well | one replica answering 7, the write connection 9 | return the replica's rows | medium, not executed | Sql.QureyDiscardsReplicaRows | Sql.DB.QureyIntended |
| database/sql/qurey.go:12, 23, 25 | `args` is passed as one value instead of `args...` | two arguments | each argument passed on its own | high, not executed | Sql.ArgsArrivePacked | Sql.DB.QureyRowIntended |
