# qospeedtest in Dafny

A model of the core of qospeedtest. qospeedtest is a small HTTP speed tester: a client measures download and upload throughput against a WSGI server. The model covers these parts:

- **The EWMA smoothers.**
  - The current `EWMA`, which flags its first sample (`lib/qospeedtest/__init__.py`).
  - The older one in `lib/qospeedtest/cli.py`, which takes a zero accumulator to mean "no sample yet".
- **The payload generators.**
  - `SemiRandomGenerator`, which hands out prefixes of one random pool of 1048573 bytes.
  - The server package's `RandomGenerator`, which hands out pieces of at most 1 KiB and restarts when exhausted.
- **The SI-prefix scalers** `si_number` and `pretty_number`.
- **The client's adaptive measuring loop** (`QOSpeedTest.do_test` in `client.py`):
  - a hello check, then a ramp-up phase that discards samples whose transfer time misses the band (0.9 T, 1.5 T);
  - two EWMAs (rate and time) and a sample list;
  - a stop on the sample cap, or on the minimum count plus a smoothed time inside (0.95 T, 1.25 T);
  - between requests, a resize to `int(rate * T / 8)`.
- **The older loop of `cli.py`**, which stops as soon as a sample's rate falls below the smoothed rate.
- **The two WSGI applications** (`server.py` and `server/__init__.py`):
  - dispatch on method and path;
  - the 400/404/405 answers;
  - the download size with its 10 GiB default;
  - the upload drain loop and its `size=N` confirmation;
  - the CORS preflight headers.
- **How the client reads what the servers answer.**

Files and modules:

| file | module | models |
|---|---|---|
| common.dfy | `Common` | `Option`, Python's `int()` on a real (truncation toward zero), real powers |
| decimal.dfy | `Decimal` | `str()` of an integer and the `int()` parse of a decimal string, with their round trip |
| chunking.dfy | `Chunking` | the `min(left, cap)` chunk sequence shared by every drain and generator loop |
| qospeedtest.dfy | `QoSpeedTest` | `lib/qospeedtest/__init__.py` |
| client.dfy, client_properties.dfy | `Client`, `ClientProperties` | `lib/qospeedtest/client.py` |
| wsgi.dfy | `Wsgi` | the WSGI environ and response, and the parts both servers share (download size, simple responses, OPTIONS headers, input drain) |
| server.dfy | `Server` | `lib/qospeedtest/server.py` |
| server_pkg.dfy | `ServerPackage` | `lib/qospeedtest/server/__init__.py` |
| cli.dfy | `Cli` | `lib/qospeedtest/cli.py` |
| interop.dfy | `Interop` | client against servers |

The form follows the source:
- **Objects whose fields change become classes.** These are the two `EWMA`s, `RandomGenerator`, both `ServerApplication`s, and the WSGI input stream. Each class method is proved against a function of the object's abstract value.
- **Loops become methods with loop invariants.** These are `SemiRandomGenerator`, the `si_number` loop, the upload drain, `RandomGenerator` iteration and both `do_test` loops.
- **Each `do_test` loop is also a step function with a run over a finite list of observations.** Each observation is one request's result. The imperative `DoTest` is proved to end exactly as that run does. The properties are proved about the run.

The clock, the network and the randomness are inputs:
- The time of each request and the bytes that came back are fields of an observation. So are the reply text and whether the request failed.
- A run that uses up its observations ends `Unfinished`.

Behaviour of the source worth noting:
- **Ramp-up and convergence bands.** Both are strict on both sides: (0.9 T, 1.5 T) and (0.95 T, 1.25 T).
- **Byte total and request counter.** `client.py` adds every request to `transfer_bytes_sum` and `transfer_count` before the ramp-up test, so discarded ramp-up requests are included, not only recorded samples. The counter is shown only by the TTY spinner, not in the report.
- **Raw request counter.** Only `cli.py` keeps one; `client.py` reports none.
- **Weight of zero.** It is not a caller error here: Python divides by it at the first average read, so both loops end with a `ZeroWeight` error.
- **Non-positive sizes.** A download of a non-positive size is served the 10 GiB default, so the client's size check fails. An upload of a negative size sends no bytes, so its confirmation does not match. The `cli.py` upload raises before sending.

## Model

| member | source | states |
|---|---|---|
| Common.Trunc | lib/qospeedtest/client.py:291 | `int()` of a real: the result is within one of `x` and never further from zero than `x` |
| Decimal.NatRoundTrip | lib/qospeedtest/server.py:31 | the decimal text written into Content-Length parses back to the same length |
| Decimal.IntRoundTrip | lib/qospeedtest/server.py:58-64 | `int(str(n)) == n` for every integer, negative ones included |
| Decimal.ParseInt | lib/qospeedtest/server.py:58 | a negative value is read only from text starting with `-`; `IntRoundTrip` and `ParseNatZeroPadded` give the values read |
| Decimal.ParseNatLeadingZero | lib/qospeedtest/server.py:58 | as with Python's `int`, a zero in front of a non-empty text changes neither whether it reads as a number nor the number |
| Decimal.ParseNatZeroPadded | lib/qospeedtest/server.py:58 | every decimal text of `n` with any number of leading zeros reads back as `n` |
| Chunking.ChunksSum | lib/qospeedtest/server.py:59-63 | the pieces of a drain loop add up to the length when it is positive, and to nothing otherwise |
| Chunking.ChunksBounds | lib/qospeedtest/server/__init__.py:68-71 | every piece is between 1 and the cap, and all but the last are exactly the cap |
| Chunking.ChunksCount | lib/qospeedtest/__init__.py:40-45 | there are no pieces exactly when the length is not positive; otherwise there are ceil(length / cap) of them |
| QoSpeedTest.Ewma.constructor | lib/qospeedtest/__init__.py:17-19 | a new object has the given weight and state and is in its initial mode |
| QoSpeedTest.EwmaState.Average | lib/qospeedtest/__init__.py:28-30 | the `average` property, `state / weight`; its meaning is carried by `FirstAddIsAverage`, `LaterAddMovesTowards`, `AverageIsFixedPoint`, `AddStaysBetween` and `RepeatedAddConverges` |
| QoSpeedTest.Ewma.Average | lib/qospeedtest/__init__.py:28-30 | the object's `average` is that of its abstract value, so the lemmas above apply to it |
| QoSpeedTest.Ewma.Add | lib/qospeedtest/__init__.py:21-26 | the object's new value is its old value with the sample added (the first sample seeds, later ones apply the recurrence) |
| QoSpeedTest.FirstAddIsAverage | lib/qospeedtest/__init__.py:17-30 | whatever initial state was passed, after the first `add(v)` the average is `v` and the initial mode is over |
| QoSpeedTest.LaterAddMovesTowards | lib/qospeedtest/__init__.py:25-30 | a later sample applies `state + v - state / weight`, which scales the average's distance to `v` by `1 - 1/weight` |
| QoSpeedTest.AverageIsFixedPoint | lib/qospeedtest/__init__.py:25-30 | adding the current average leaves the average unchanged |
| QoSpeedTest.AddStaysBetween | lib/qospeedtest/__init__.py:25-30 | with weight at least 1, the new average lies between the old average and the sample |
| QoSpeedTest.RepeatedAddConverges | lib/qospeedtest/__init__.py:21-30 | after `k` further samples of the same `v`, the distance to `v` is `(1 - 1/weight)^k` times the starting distance |
| QoSpeedTest.SemiRandomGenerator | lib/qospeedtest/__init__.py:39-45 | the chunk lengths are the `min(left, 1048573)` sequence of the byte count, and every chunk is a prefix of the pool |
| QoSpeedTest.SemiRandomShape | lib/qospeedtest/__init__.py:39-45 | the chunks hold exactly `max(byte_count, 0)` bytes in ceil(byte_count / 1048573) chunks; all but the last are the whole pool |
| QoSpeedTest.ScaleDown | lib/qospeedtest/__init__.py:70-79 | the loop's result is `n` divided `c` times and the prefix for `c`, where `c` is the number of divisions the stopping rule allows |
| QoSpeedTest.SiNumber | lib/qospeedtest/__init__.py:52-82 | `si_number`: divisor 1024 for binary and 1000 otherwise, threshold `divisor * rollover`, limit 8 when 0 |
| QoSpeedTest.DivisionsFromStart | lib/qospeedtest/__init__.py:66-79 | at most `limit` divisions (none for a negative limit, 8 for 0); every division is taken on a value at least the threshold; a stop before the table end and the limit leaves a value below it |
| Client.StRequestParams | lib/qospeedtest/client.py:162-166 | the sent parameters are the caller's plus `guid` and a fresh `nocache`; other keys are unchanged |
| Client.StripPadded | lib/qospeedtest/client.py:177 | `str.strip()` removes any run of Python white space around a text that neither starts nor ends with white space |
| Client.Start | lib/qospeedtest/client.py:182-189 | the first request has the initial download or upload size; the loop starts in ramp-up, with no samples, no requests, no bytes and two fresh EWMAs |
| Client.CheckSize | lib/qospeedtest/client.py:209-226 | the size check of a transfer; `Interop.DownloadChecked` and `Interop.UploadChecked` give when it passes |
| Client.Record | lib/qospeedtest/client.py:275-291 | recording never aborts; the session it stops or continues with is out of ramp-up, has the rate appended to the samples, and keeps the counters |
| Client.Step | lib/qospeedtest/client.py:191-291 | only a request that succeeded, passed its size check and took time is counted; a counted request adds one to `transfer_count` and its size to the byte total; a stop ends ramp-up; `ClientProperties.StepAborts`, `DiscardKeepsAverages` and `RecordFeedsAverages` give each case |
| Client.Summarize | lib/qospeedtest/client.py:301-321 | the reported speed is `ewma_bps.average` and the reported byte total is `transfer_bytes_sum`, discarded ramp-up requests included; the spread is shown exactly with two or more samples; it fails exactly when it would divide by a zero average |
| Client.Run | lib/qospeedtest/client.py:191-291 | a completed run used at least one more observation and no more than exist |
| Client.Test | lib/qospeedtest/client.py:170-291 | a test completes only after a successful hello whose stripped reply starts with "hello", and after at least one request |
| Client.Exchange | lib/qospeedtest/client.py:191-291 | one pass of the loop body on the two live EWMA objects gives the step function's result; the objects hold the new averages |
| Client.DoTest | lib/qospeedtest/client.py:170-291 | the imperative loop ends exactly as the run over the same observations |
| ClientProperties.StartIsSteady | lib/qospeedtest/client.py:182-189 | the starting session satisfies the loop invariant |
| ClientProperties.StepIsSteady | lib/qospeedtest/client.py:261-291 | every request keeps the invariant: fewer samples than the cap, no more samples than requests, ramp-up exactly while no sample exists; a stop has between one sample and the cap and a stop reason |
| ClientProperties.StepAborts | lib/qospeedtest/client.py:191-280 | a request aborts exactly when it failed, its size does not check, it took no time, or a recording meets a zero weight |
| ClientProperties.DiscardKeepsAverages | lib/qospeedtest/client.py:261-271 | a discarded ramp-up sample leaves both EWMAs and the samples as they were |
| ClientProperties.RecordFeedsAverages | lib/qospeedtest/client.py:275-291 | a recorded sample feeds its rate and time to the EWMAs and the list; the loop stops exactly on the cap or on convergence, and otherwise resizes from the new average |
| ClientProperties.RateTimesElapsed | lib/qospeedtest/client.py:229 | the rate times the transfer time is the bits moved |
| ClientProperties.NextSizeAimsAtTarget | lib/qospeedtest/client.py:291 | the next size is the whole number of bytes the rate moves in T seconds, at most one byte short |
| ClientProperties.RunIsSteady | lib/qospeedtest/client.py:191-291 | a completed run stopped on the cap or on convergence, holds 1 to `max(cap, 1)` samples, is out of ramp-up, counted every request it consumed, and its report is the summary of its final state: the speed `ewma_bps.average` and the byte total `transfer_bytes_sum` |
| ClientProperties.TestCompletes | lib/qospeedtest/client.py:170-321 | a completed test reports between one sample and the cap, at least the minimum unless the cap came first, and its `transfer_count` equals the observations used after the hello; the reported speed is the final `ewma_bps.average` and the byte total the final `transfer_bytes_sum` |
| ClientProperties.CapDecidesWhenMinimumReachesIt | lib/qospeedtest/client.py:284-289 | with a minimum at or above the cap, a completed test holds exactly `max(cap, 1)` samples |
| ClientProperties.RunIgnoresLater | lib/qospeedtest/client.py:191-291 | a run that ended ends the same way whatever observations follow |
| ClientProperties.RampUpNeverReturns | lib/qospeedtest/client.py:261-277 | once ramp-up is over, a request that does not end the test keeps it over, and the samples only grow |
| ClientProperties.RunStaysOutOfRampUp | lib/qospeedtest/client.py:191-291 | from a session past ramp-up, the session a run ends in is past ramp-up and its samples extend the starting ones |
| Wsgi.DownloadLength | lib/qospeedtest/server.py:40-47 | the download length is positive: the requested size when positive, otherwise 10737418240 |
| Wsgi.DownloadLengthOfText | lib/qospeedtest/server.py:41-47 | a size given as `str(n)` is served as `n` when positive, and the default otherwise |
| Wsgi.DownloadResponseSays | lib/qospeedtest/server.py:39-55 | a download answers 200 with a Content-Length that parses back to the streamed length; the pieces add up to it and are each at most the piece size |
| Wsgi.SimpleResponseLength | lib/qospeedtest/server.py:25-34 | a simple response carries the message plus a newline, and its Content-Length parses back to that length |
| Wsgi.SimpleResponse | lib/qospeedtest/server.py:25-34 | `simple_response`; `SimpleResponseLength` states its status, body and Content-Length |
| Wsgi.BuildOptionsHeaders | lib/qospeedtest/server.py:76-91 | the header list built by appending is the three base headers, then origin and Vary if an origin was sent, then Allow-Headers if requested |
| Wsgi.OptionsHeadersSay | lib/qospeedtest/server.py:76-93 | the OPTIONS headers start with the base three, declare an empty body, allow OPTIONS, GET and POST, echo the origin (with Vary) exactly when sent, and the requested headers exactly when asked |
| Wsgi.OriginHeadersSay | lib/qospeedtest/server.py:82-84 | the origin part echoes the origin and adds Vary exactly when an origin was sent |
| Wsgi.AllowHeadersSay | lib/qospeedtest/server.py:85-91 | the allow part echoes the requested headers exactly when sent |
| Wsgi.InputStream.Read | lib/qospeedtest/server.py:63 | a read of `n` bytes is appended to the reads made |
| Wsgi.Drain | lib/qospeedtest/server.py:59-63 | the drain loop reads the `min(left, cap)` chunks of the content length, in order |
| Server.StripLeadingSlashes | lib/qospeedtest/server.py:16 | the path is a suffix of `PATH_INFO` after only slashes, and it does not start with a slash |
| Server.ServerApplication.Call | lib/qospeedtest/server.py:13-23 | the object stores the environ, the stripped path and the query parameters; the answer is the dispatch function's; the input reads are those of an upload |
| Server.ServerApplication.MethodGet | lib/qospeedtest/server.py:95-101 | GET answers hello, download or 404 by path |
| Server.ServerApplication.ProcessDownload | lib/qospeedtest/server.py:39-55 | the download answer for the stored query, streamed from the pool |
| Server.ServerApplication.MethodPost | lib/qospeedtest/server.py:66-74 | POST answers 400 without a readable Content-Length, and otherwise the upload or 404; only the upload reads the input |
| Server.ServerApplication.ProcessUpload | lib/qospeedtest/server.py:57-64 | the upload reads the announced length in chunks of at most 1 MiB and confirms `size=N` |
| Server.ServerApplication.MethodOptions | lib/qospeedtest/server.py:76-93 | OPTIONS answers 200 with the CORS headers and no body |
| Server.Respond | lib/qospeedtest/server.py:13-101 | the dispatch of `__call__`; `RespondStatus` and `ContentLengthIsBodySize` give its status and its Content-Length for every request |
| Server.RespondStatus | lib/qospeedtest/server.py:13-101 | 405 exactly for a method other than GET, POST and OPTIONS; 400 exactly for a POST without a readable Content-Length; 404 exactly for an unknown path; 200 otherwise |
| Server.ContentLengthIsBodySize | lib/qospeedtest/server.py:25-93 | every answer has a Content-Length, and it is the exact size of its body |
| Server.HelloStartsWithHello | lib/qospeedtest/server.py:36-37 | the hello answer starts with "hello", whatever slashes precede the path |
| Server.UploadReadsAnnouncedLength | lib/qospeedtest/server.py:57-64 | an upload confirms `size=N` and reads exactly `max(N, 0)` bytes in chunks of 1 to 1048576 |
| ServerPackage.RandomGenerator.constructor | lib/qospeedtest/server/__init__.py:6-8 | a new generator has all its bytes left |
| ServerPackage.RandomGenerator.Next | lib/qospeedtest/server/__init__.py:16-22 | the next piece is `min(left, 1024)` and is taken off `left`; at the end the iteration stops and `left` is reset to the byte count |
| ServerPackage.RandomGenerator.Collect | lib/qospeedtest/server/__init__.py:10-22 | iterating to the end yields the 1 KiB chunks of what was left and leaves the generator reset |
| ServerPackage.RandomGenerator.IterateTwice | lib/qospeedtest/server/__init__.py:16-22 | a generator iterated twice yields the same pieces both times, adding up to `max(byte_count, 0)` |
| ServerPackage.ServerApplication.Call | lib/qospeedtest/server/__init__.py:26-40 | stores the environ and query; the answer is the dispatch function's (none when the upload raises); exactly a download returns a fresh generator of the download length |
| ServerPackage.ServerApplication.MethodGet | lib/qospeedtest/server/__init__.py:104-115 | GET answers `/hello`, `/download` or 404 by exact path |
| ServerPackage.ServerApplication.ProcessDownload | lib/qospeedtest/server/__init__.py:50-63 | the download answer for the stored query, and a fresh generator holding that many bytes |
| ServerPackage.ServerApplication.MethodPost | lib/qospeedtest/server/__init__.py:79-88 | POST answers `/upload` or 404 by exact path |
| ServerPackage.ServerApplication.ProcessUpload | lib/qospeedtest/server/__init__.py:65-77 | without a readable Content-Length it raises before reading; otherwise it reads the 1 KiB chunks of the length and confirms `size=N` |
| ServerPackage.Respond | lib/qospeedtest/server/__init__.py:26-115 | the dispatch of `__call__`, `None` where it raises; `RespondStatus` and `ContentLengthIsBodySize` give its status and its Content-Length |
| ServerPackage.RespondStatus | lib/qospeedtest/server/__init__.py:26-115 | raises exactly on an upload without a readable Content-Length; otherwise 405, 404 and 200 exactly for their cases |
| ServerPackage.ContentLengthIsBodySize | lib/qospeedtest/server/__init__.py:35-115 | every answer has a Content-Length, and it is the exact size of its body |
| ServerPackage.DownloadPayloadMatches | lib/qospeedtest/server/__init__.py:50-63 | the generator a download returns yields pieces of at most 1 KiB adding up to the announced length |
| Cli.Ewma.constructor | lib/qospeedtest/cli.py:42-47 | a new object has the given weight and a zero accumulator |
| Cli.Ewma.AddDatapoint | lib/qospeedtest/cli.py:49-53 | the new value is the old one with the sample added: a zero accumulator is seeded with `number * weight`, any other moves by `number - state / weight` |
| Cli.Ewma.GetAverage | lib/qospeedtest/cli.py:55-56 | `get_average` is the average of the object's abstract value, so the EWMA lemmas below apply to it |
| Cli.ZeroStateSeeds | lib/qospeedtest/cli.py:49-56 | whenever the accumulator is zero, not only at the start, the next sample becomes the average |
| Cli.AgreesWithFlaggedEwma | lib/qospeedtest/cli.py:49-56 | a non-zero accumulator updates exactly as the flagged EWMA after its first sample; a zero one exactly as a fresh flagged EWMA |
| Cli.ZeroFirstSampleReseeds | lib/qospeedtest/cli.py:49-53 | the two smoothers part after a first sample of 0: with weight 8, a second sample of 8 gives an average of 8 here and 1 in the flagged version |
| Cli.PrettyNumber | lib/qospeedtest/cli.py:21-39 | the `si_number` loop with any divisor, binary prefixes exactly for 1024; a zero divisor raises exactly when the loop reaches its first division |
| Cli.PrettyPrefix | lib/qospeedtest/cli.py:30-38 | no prefix exactly when nothing was divided; otherwise the prefix ends in "i" exactly when the divisor is 1024 |
| Cli.Run | lib/qospeedtest/cli.py:152-187 | a completed run used at least one more observation than it started from, and its EWMA has a non-zero weight |
| Cli.Step | lib/qospeedtest/cli.py:158-185 | one pass of the loop; `StepStopsBelowAverage` and `StepCounts` give each case |
| Cli.Test | lib/qospeedtest/cli.py:137-187 | a test completes only after a successful hello and at least one request |
| Cli.Exchange | lib/qospeedtest/cli.py:158-185 | one pass of the loop body on the live EWMA object gives the step function's result |
| Cli.DoTest | lib/qospeedtest/cli.py:143-187 | the imperative loop ends exactly as the run over the same observations |
| Cli.StepStopsBelowAverage | lib/qospeedtest/cli.py:165-185 | a measurable transfer is counted (+1 raw per download, +2 per upload), and its bytes added; the loop stops exactly when the rate is below the updated average, otherwise the next size is `int(average * target_seconds)`; it aborts exactly on a negative upload size, a zero time or a zero weight |
| Cli.NextSizeAimsAtTarget | lib/qospeedtest/cli.py:185 | the next size is the whole number of bytes the average moves in the target time, at most one byte short |
| Cli.FirstSampleNeverStops | lib/qospeedtest/cli.py:181-184 | a sample taken on a zero accumulator (the first above all) becomes the average, so the loop cannot stop on it |
| Cli.StopsBelowPreviousAverage | lib/qospeedtest/cli.py:181-184 | with weight above 1 and a seeded accumulator, the loop stops exactly when the rate is below the average before the sample |
| Cli.StepCounts | lib/qospeedtest/cli.py:165-179 | each transfer keeps `raw_count == 1 + k * transfer_count` (k = 1 download, 2 upload) and adds the bytes received to a download's total |
| Cli.RunCounts | lib/qospeedtest/cli.py:149-187 | along a run the counter invariant holds, one transfer per observation is counted, a download's total is the bytes received, and the reported rate is the average times 8 |
| Cli.TestCompletes | lib/qospeedtest/cli.py:145-187 | a completed test took at least two transfers, counted each, has `raw_count == 1 + k * transfers`, and reports the average times 8 |
| Interop.SlashedPath | lib/qospeedtest/server.py:16 | a request path `/name`, with `name` not starting with a slash, is routed by server.py on `name` |
| Interop.HelloAccepted | lib/qospeedtest/client.py:176-180 | the hello answers of both servers pass the client's stripped `startswith("hello")` check |
| Interop.SizeLineReadsBack | lib/qospeedtest/client.py:222 | the confirmation text `size=N` plus a newline is read back by the client as `N` |
| Interop.ConfirmedSizeReadsPadded | lib/qospeedtest/client.py:222 | the client reads back the number of any `size=N` line, whatever white space surrounds it |
| Interop.UploadConfirmed | lib/qospeedtest/client.py:222-224 | both servers' upload confirmations are read by the client as the announced Content-Length |
| Interop.DownloadChecked | lib/qospeedtest/client.py:199-211 | both servers stream the same total for a download; the client's size check passes exactly when the requested size is positive, and otherwise fails with a wrong size |
| Interop.SizeParamReadsBack | lib/qospeedtest/client.py:199-203 | the size the client writes into the query is read back by the servers |
| Interop.ConfirmationChecked | lib/qospeedtest/client.py:222-226 | a confirmation of `max(projected, 0)` passes the client's check exactly when `projected >= 0` |
| Interop.UploadChecked | lib/qospeedtest/client.py:215-226 | an upload sends `max(projected, 0)` bytes; both servers confirm that, so the check passes exactly when `projected >= 0` |

## Left out

- HTTP transport, timing and `raise_for_status`: a request's result (bytes, reply text, elapsed seconds, or failure) is an input observation. Any failure, non-2xx status included, is one `TransportError` case: a `RequestFailed` observation for a transfer, a missing hello reply (`None`) for the hello request.
- Randomness: `os.urandom`, the pool's contents and `guid()` are not modelled. Only lengths and the fact that chunks are prefixes of the pool are.
- Floating point: rates, times and EWMA states are reals. `datetime.timedelta` arithmetic is real seconds. `float` rounding is not modelled.
- Decimal.ParseInt: reads an optional minus sign followed by decimal digits, leading zeros included. Python's `int()` also accepts surrounding white space, a `+` sign, underscores and non-ASCII Unicode decimal digits (`int("٥") == 5`); these are not modelled.
- `parse_qs` decoding is not modelled: the environ carries the already-split query.
- Client.ConfirmedSize: reads the stripped reply as exactly `size=<integer>`. Other `parse_qs` shapes (extra parameters, repeated keys, percent-encoding) are not modelled.
- Client.Summarize: of the final report, the speed (`ewma_bps.average`), the byte total (`transfer_bytes_sum`) and the division guard of the standard-deviation ratio are modelled. `statistics.stdev`, `min`/`max` of the samples, the `si_number` formatting and the elapsed test time are left out as presentation.
- Cli.PrettyNumber: returns the scaled number and its prefix; the final `format` string is presentation.
- The TTY confidence bar and spinner (`math.log`), all `logging` output, and the debug `si_number` calls inside the loops.
- The WSGI server turning an exception into a 500 answer: `ServerPackage.Respond` returns `None` where the application raises.
- Response bodies: all are ASCII, so their UTF-8 length is their length in characters; encoding is not modelled.
- Command-line parsing, the YAML config, the XML server list, the gunicorn/wsgiref startup, `wsgi.py` and `setup.py` are not part of this model.
- Concurrency: none exists in the source; each request is sequential.
- An observation list is finite: a loop that would run forever (ramp-up that never lands in the band, or `cli.py`'s loop while rates keep rising) ends the model's run as `Unfinished`.
