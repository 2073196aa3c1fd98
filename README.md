# A verified model of the websocket API client

This project models the core of a Rust client for the Binance websocket
API: the request/response clients that talk JSON-RPC-like messages over a
websocket (`AutoReconnectClient`, which connects lazily, logs on and
reconnects, and the plain `Client`), the market-stream client that
subscribes to streams and replays its subscriptions after a reconnection
(`AutoReconnectMarketClient`), and the pure pieces they are built from:
the parameter wrapper and its serialized keys, the signed logon and
sign-on messages, order sides, kline intervals and stream names, and the
visitors that decode depth levels and klines from JSON arrays.

Each stateful client is modelled twice: a module of functions from the
client's state to a result and a new state (`AutoClient`, `PlainClient`,
`MarketClient`), about which the properties are proved, and a class with
the source's fields whose methods update them in place and are each
proved to agree with the function of the same name (`AutoReconnect`,
`ClientObject`, `MarketObject`).

The websocket and the peer behind it are a scripted environment
(`Transport.Net`): the outcomes of successive connection attempts, of
successive writes and of successive reads are given as sequences, and
every frame that reaches the peer (a new connection, a message, a pong) is
appended to a log. Properties about what is sent are stated over that log.

Behaviour of the code that the model keeps, as written:

- `AutoReconnectClient::query`, after a send or read failure with
  credentials, calls `query` on the logon with the stream already dropped;
  that nested call opens the stream and logs on itself before sending its
  own logon, so a reconnection sends two logons (`RetryLogsOnTwice`,
  `LogonWithoutStreamLogsOnTwice`).
- `batch_query` receives after query `idx` when `idx` is a non-zero
  multiple of the batch size or the last one, so the first group holds
  `batch_size + 1` requests and later groups `batch_size` (`GroupSizes`).
- A text with id 0 or a status other than 200 ends `_recv` with its API
  error before its id is compared, so an error answer to another request
  ends the wait for this one (`Verdict`, `ErrorFrameEndsLoop`).
- The number of reconnections within one `AutoReconnectClient::query` is
  not bounded: each successful connection resets the failure count, and a
  logon whose write fails reconnects again, so a query goes on opening
  connections as long as they succeed and writes fail
  (`ReconnectsWhileConnecting`). Only the query's own request is bounded:
  it is sent at most twice (`QuerySendsOwnRequestAtMostTwice`).
- A failed pong ends `_recv` with an error, while the market client's
  `recv` ignores it.
- When the replayed subscription cannot be written, the market client
  keeps the stream it has just opened.

## Model

| member | source | states |
|---|---|---|
| Orders.ParseSide | src/lib.rs:23-33 | `b`/`buy` give Buy and `s`/`sell` give Sell in any case, and every other text is an error `invalid <text>` |
| Orders.Rev | src/lib.rs:35-41 | the reversed side is never the side itself |
| Orders.AsBool | src/lib.rs:43-48 | `bool` is true exactly for Buy |
| Orders.DefaultSide | src/lib.rs:51-55 | the default side is Buy |
| Orders.DefaultOrderType | src/lib.rs:96-100 | the default order type is Limit |
| Orders.RevInvolution | src/lib.rs:35-48 | reversing twice gives the side back, and reversing flips `bool` |
| Orders.ParseSideIgnoresCase | src/lib.rs:26-32 | parsing a text and parsing its lower-case form agree |
| Orders.ParseSideName | src/lib.rs:18-33 | each side's name and its first letter parse back to the side |
| Market.SerializeLatestPrice | src/api/market.rs:23-41 | one symbol gives only a `symbol` key, a list only a `symbols` key, and All gives no key at all |
| Market.SerializeLatestPriceInjective | src/api/market.rs:15-41 | two queries that serialize the same are the same query |
| Market.ToList | src/api/market.rs:50-57 | a single price becomes a one-element list, a list is kept as it is |
| Market.VisitPriceVol | src/api/market.rs:104-128 | a depth level decodes exactly when its first two elements are decimal strings, to those two decimals; the missing-element errors are the source's |
| Market.NextDecimal | src/api/market.rs:262-341 | one decimal field of a kline: decodes exactly when present and parseable, else the missing-field or bad-string error |
| Market.VisitKline | src/api/market.rs:262-341 | a kline decodes exactly when its twelve fields have the right kinds, to the kline those fields give; an array cut short is refused with the error of the first missing field |
| Market.DeserializePriceVol | src/api/market.rs:93-128 | a depth level decodes exactly when it is well formed with exactly two elements; a longer array is refused for trailing elements |
| Market.DeserializeKline | src/api/market.rs:244-341 | a kline decodes exactly when it is well formed with exactly twelve elements; a shorter one is refused, a longer one for trailing elements |
| Session.Sign | src/api/session.rs:47-65 | the signed logon carries the key, window and timestamp, and signs the query string built from them with the private key |
| Session.NewSignOn | src/api/session.rs:91-105 | the sign-on carries the given key, window and timestamp and signs the query string built from them |
| Session.QueryStringRoundTrip | src/api/session.rs:51-54 | the signed query string gives back the key, window and timestamp it was built from, for a key without `&` |
| Session.SignedMessageCarriesFields | src/api/session.rs:47-65 | what a logon signs names exactly the fields it sends alongside the signature |
| Session.SignOnCarriesFields | src/api/session.rs:91-105 | what a sign-on signs names exactly the fields it carries |
| Streams.ParseInterval | src/realtime_market.rs:291-316 | exactly the sixteen interval names are accepted, each to the interval printing that name; anything else is the error `invalid interval <text>` |
| Streams.IntervalRoundTrip | src/realtime_market.rs:291-340 | parsing the printed name of an interval gives the interval |
| Streams.IntervalNameInjective | src/realtime_market.rs:318-340 | no two intervals print the same name |
| Streams.KlineEventParams | src/realtime_market.rs:466-473 | one stream name per (symbol, interval) pair, in order, each `<lower-case symbol>@kline_<interval>` |
| Streams.KlineTopicParts | src/realtime_market.rs:466-473 | a kline stream name splits back into the lower-cased symbol, the marker and a name that parses to the interval |
| Streams.MiniTickerParams | src/realtime_market.rs:524-530 | one stream name per symbol, in order, each the symbol followed by `@miniTicker` |
| Streams.CheckStream | src/realtime_market.rs:532-534 | true exactly when the name ends in `miniTicker` |
| Streams.CheckEvent | src/realtime_market.rs:536-538 | true exactly for the event type `24hrMiniTicker` |
| Streams.MiniTickerParamsPassCheck | src/realtime_market.rs:524-534 | every stream name `params` builds passes `check_stream` |
| Streams.KDataOfKline | src/realtime_market.rs:414-449 | the streamed kline has an empty symbol, zero trade ids, the one-minute interval and is finished |
| Streams.KDataKeepsKline | src/realtime_market.rs:414-449 | every field of the REST kline is carried over: reading it back out of the streamed kline gives the kline |
| Api.Wrap | src/api.rs:120-141 | the wrapper keeps the parameters; the window is set unless unauthenticated, the key only when authorized, and the timestamp is the clock's reading whenever authentication is asked for |
| Api.WrapperKeys | src/api.rs:573-588 | a serialized wrapper has `recvWindow` and `apiKey` exactly when they are set and `timestamp` exactly when it is not zero |
| Api.WrapKeys | src/api.rs:120-141 | an unauthenticated query adds no key, an authorized one adds `recvWindow`, `apiKey` and `timestamp`, the third kind all but `apiKey` |
| Api.Decode | src/api.rs:484 | a response decodes exactly when its text has the expected shape, else the serde error |
| Api.Verdict | src/api.rs:318-348 | pings and other frames decide nothing, and neither does a good response to another request (it is parked); a text answers the request exactly when its id is the one awaited, non-zero, with status 200, and then yields its data; a text with id 0 or a status other than 200 ends the loop with its API error whatever id is awaited, checked before the id, and with `SerdeError` when it lacks an `id` or `error` field; a text whose envelope does not decode yields `SerdeError` |
| Api.ErrorFrameEndsLoop | src/api.rs:323-328 | a text with id 0 or a status other than 200 ends the receive loop with its API error, whatever id is awaited, consuming that frame only and parking nothing |
| Api.RecvLoopTraced | src/api.rs:314-349 | every response the loop parks or returns is either one parked before or the data of a text frame in the script with that id and status 200 |
| Api.RecvLoop | src/api.rs:314-349 | the receive loop only adds pongs to what the peer sees and reads no more than the script holds |
| Api.RecvLoopUnfold | src/api.rs:314-349 | a frame that decides nothing is consumed, parked if it answers another request, and the loop goes on from the next one |
| Api.RecvLoopDecides | src/api.rs:323-342 | a frame that decides the loop ends it with that verdict and nothing else changes |
| Api.RecvLoopPasses | src/api.rs:314-349 | every frame the loop consumes before the last one decides nothing |
| Api.RecvLoopBuffers | src/api.rs:329-330 | the parked responses are those of the frames consumed, keyed by their ids |
| Api.RecvLoopPongs | src/api.rs:319-322 | unless a pong fails, the peer sees one pong per ping consumed, in order |
| Api.RecvLoopPongFailure | src/api.rs:319-322 | when a pong fails, the peer has seen the pongs of the pings before it |
| Api.RecvLoopOutcome | src/api.rs:314-349 | a read failure comes from a broken read or the end of the script, a write failure from a ping, every other result from the verdict on the last frame read |
| Api.BufferedKeys | src/api.rs:329-330 | parking never adds the awaited id or id 0 and never drops a parked response |
| Reconnect.Acquire | src/api.rs:176-194 | the connector either opens a stream, resetting the failure count and logging the opening, or fails with `ConnectionFailed` once the count reaches the limit, opening nothing |
| Reconnect.Connect | src/realtime_market.rs:52-70 | the connector's loop does what `Acquire` says |
| Reconnect.SuccessWithinBudget | src/api.rs:177-187 | a connection attempt that would succeed within the remaining budget makes the connector succeed |
| Reconnect.FailureAfterBudget | src/api.rs:177-194 | when every attempt within the budget fails, the connector fails |
| AutoClient.Initial | src/api.rs:105-118 | a new client has sent nothing, parked nothing and has no stream |
| AutoClient.LogonCall | src/api.rs:225-226 | the logon query is the unauthenticated `session.logon` carrying the signed logon |
| AutoClient.WrapCall | src/api.rs:222 | the wrapped parameters keep the query's parameters, with no field added for an unauthenticated query |
| AutoClient.GetStream | src/api.rs:276-283 | an open stream is kept; otherwise the connector is asked and a new stream logged, or the error returned with no stream |
| AutoClient.Send | src/api.rs:285-302 | the id always advances; the request reaches the peer with that id exactly on success, after an opening when there was no stream |
| AutoClient.Recv | src/api.rs:304-351 | a parked response is handed out and forgotten; otherwise the receive loop runs on the open stream, adding only pongs |
| AutoClient.QueryWithoutRetry | src/api.rs:266-274 | success leaves a stream open; ids never go back |
| AutoClient.Query | src/api.rs:221-229 | success leaves a stream open; ids never go back |
| AutoClient.Attempt | src/api.rs:230-253 | success leaves a stream open; ids never go back |
| AutoClient.Retry | src/api.rs:233-241 | success leaves a stream open; ids never go back |
| AutoReconnect.AutoReconnectClient.constructor | src/api.rs:105-118 | the client is built with the given settings and the initial state |
| AutoReconnect.AutoReconnectClient.ApiKey | src/api.rs:130 | the key `wrap` uses: the credential's, or empty without one |
| AutoReconnect.AutoReconnectClient.GetStream | src/api.rs:276-283 | updates the client as `AutoClient.GetStream` says |
| AutoReconnect.AutoReconnectClient.Send | src/api.rs:285-302 | updates the client as `AutoClient.Send` says |
| AutoReconnect.AutoReconnectClient.Recv | src/api.rs:304-351 | its loop updates the client as `AutoClient.Recv` says |
| AutoReconnect.AutoReconnectClient.QueryWithoutRetry | src/api.rs:266-274 | updates the client as `AutoClient.QueryWithoutRetry` says |
| AutoReconnect.AutoReconnectClient.Query | src/api.rs:221-264 | updates the client as `AutoClient.Query` says |
| AutoReconnect.AutoReconnectClient.Retry | src/api.rs:233-262 | updates the client as `AutoClient.Retry` says |
| AutoClientProps.GetStreamIds | src/api.rs:276-283 | keeps request ids increasing and above every parked id |
| AutoClientProps.SendIds | src/api.rs:285-302 | keeps request ids increasing and above every parked id |
| AutoClientProps.RecvIds | src/api.rs:304-351 | keeps request ids increasing and above every parked id |
| AutoClientProps.QueryWithoutRetryIds | src/api.rs:266-274 | keeps request ids increasing and above every parked id |
| AutoClientProps.QueryIds | src/api.rs:221-229 | keeps request ids increasing and above every parked id |
| AutoClientProps.AttemptIds | src/api.rs:230-253 | keeps request ids increasing and above every parked id |
| AutoClientProps.RetryIds | src/api.rs:233-262 | keeps request ids increasing and above every parked id |
| AutoClientProps.QueriesNumberRequestsInOrder | src/api.rs:290-291 | every request a query sends, logons included, has a larger id than every request before it |
| AutoClientProps.GuardedMeaning | src/api.rs:223-229 | the logon invariant means every request other than a logon follows a logon on the same connection |
| AutoClientProps.SendGuard | src/api.rs:285-302 | sending keeps the logon invariant, and a logon sent makes the connection logged on |
| AutoClientProps.RecvGuard | src/api.rs:304-351 | receiving keeps the logon invariant |
| AutoClientProps.QueryWithoutRetryGuard | src/api.rs:266-274 | on a logged-on connection, keeps the logon invariant |
| AutoClientProps.QueryGuard | src/api.rs:221-229 | with credentials, a query never sends a request on a connection before logging on there, and leaves the client ready |
| AutoClientProps.AttemptGuard | src/api.rs:230-253 | with credentials, the first attempt keeps the logon invariant |
| AutoClientProps.RetryGuard | src/api.rs:233-262 | with credentials, the reconnection logs on before resending |
| AutoClientProps.SendCount | src/api.rs:285-302 | a send adds one copy of its wrapper to the log when it succeeds and nothing else |
| AutoClientProps.RecvCount | src/api.rs:304-351 | a receive sends no request |
| AutoClientProps.QueryWithoutRetryCount | src/api.rs:266-274 | sends its own wrapper at most once and nothing else |
| AutoClientProps.QuerySendsOwnRequestAtMostTwice | src/api.rs:221-264 | a query sends only its wrapper and logons, and its own wrapper at most twice |
| AutoClientProps.AttemptSendsAtMostTwice | src/api.rs:230-263 | the first attempt with its fallback sends its wrapper at most twice |
| AutoClientProps.RetrySendsOnce | src/api.rs:233-262 | the fallback sends the wrapper at most once more |
| AutoClientProps.RecvForgets | src/api.rs:311-312 | after a receive the awaited id is never parked |
| AutoClientProps.RecvAnswersFromWire | src/api.rs:323-342 | a response read from the wire is the text of a frame with the awaited id and status 200 |
| AutoClientProps.ParkThenAnswer | src/api.rs:329-330 | a response to another request read first is parked under its id |
| AutoClientProps.ResponsesOutOfOrder | src/api.rs:311-342 | two responses arriving in the opposite order are both handed to the right request, the second from the parked ones |
| AutoClientProps.SendOnOpenStream | src/api.rs:285-302 | on an open stream a successful write logs exactly the request with the next id |
| AutoClientProps.RecvOnOpenStream | src/api.rs:314-342 | the awaited response arriving first is returned and consumed, nothing else changes |
| AutoClientProps.LogonOnOpenStream | src/api.rs:225-226 | a logon on an open stream sends one unauthenticated `session.logon` |
| AutoClientProps.LogonWithoutStreamLogsOnTwice | src/api.rs:223-228 | a logon without a stream opens one, resets the failure count and sends the logon twice, the nested one first, returning the answer and leaving nothing else changed |
| AutoClientProps.BrokenReadFallsBack | src/api.rs:231-241 | a broken read after a successful send leads into the reconnection fallback |
| AutoClientProps.FailedSendFallsBack | src/api.rs:254-262 | a failed send on the open stream uses up an id and goes straight to the reconnection fallback |
| AutoClientProps.ApiErrorRetriesOnSameStream | src/api.rs:243-252 | any error the awaited frame's verdict gives (an API error or `SerdeError`, never a websocket error) makes the query send once more on the same stream, without reconnecting or logging on |
| AutoClientProps.SerdeErrorRetriesOnSameStream | src/api.rs:323-328 | a text that does not decode, or an error frame lacking `id` or `error`, gives `SerdeError` and takes that same branch |
| AutoClientProps.UndecodableAnswerNotRetried | src/api.rs:230-232 | an answer that does not decode is a `SerdeError`, returned without any retry, with the request and the answer consumed |
| AutoClientProps.ReconnectsWhileConnecting | src/api.rs:221-264 | while connections succeed and every write fails, a query with credentials reconnects once per scripted connection until the connector gives up with `ConnectionFailed` |
| AutoClientProps.TwoReconnectionsForOneQuery | src/api.rs:254-262 | on an open stream with two successful connections and two failed writes, one query opens two connections, sends nothing and fails with `ConnectionFailed` |
| AutoClientProps.RetryLogsOnTwice | src/api.rs:235-241 | the reconnection opens a stream, sends two logons, then the query once more, and returns its decoded answer |
| PlainClient.Send | src/api.rs:510-523 | the id always advances; the request is sent with it exactly when the write succeeds, else `WriteFailed` |
| PlainClient.Recv | src/api.rs:525-570 | a parked response is handed out and forgotten; otherwise the receive loop's result and state, adding only pongs |
| PlainClient.Query | src/api.rs:480-485 | one request with the next id and the wrapped parameters is sent, unless the write fails, and it is always sent on success; a successful result decodes and is the response to that id, parked before or read from the script as a text with that id and status 200 |
| PlainClient.Collect | src/api.rs:469-474 | collecting appends one decoded response per id to the results, in order, and sends nothing |
| PlainClient.RecvTraced | src/api.rs:525-570 | a response `_recv` returns for an id is the one parked under it or the data of a text frame in the script with that id and status 200, and so is every response it parks |
| PlainClient.CollectTraced | src/api.rs:469-474 | the value collected for `ids[j]` decodes and is the response parked under `ids[j]` or the data of a text frame in the script with id `ids[j]` and status 200 |
| PlainClient.CollectTracedFrom | src/api.rs:469-474 | the same for a group of consecutive ids: the value at position `j` answers the id `from + j` |
| PlainClient.BatchTraced | src/api.rs:457-478 | the results a batch adds are, position by position, the decoded responses to the ids that follow the ones collected before |
| PlainClient.FlushedTraced | src/api.rs:468-475 | after a group is collected, its responses precede those of the later groups and keep their ids |
| PlainClient.BatchAnswers | src/api.rs:457-478 | on success, result `j` decodes and is the response to request `reqId + 1 + j`, parked before the batch or read from the script |
| PlainClient.PlannedRequests | src/api.rs:465-467 | the planned requests carry consecutive ids and the wrapped parameters in order |
| PlainClient.BatchCounts | src/api.rs:457-478 | a batch that succeeds returns one response per query, keeping the earlier results, and uses one id per query |
| PlainClient.BatchSendsPlanned | src/api.rs:465-467 | a batch that succeeds has sent exactly the planned requests, in order |
| PlainClient.BatchQuery | src/api.rs:457-478 | on success, one response per query, one id per query, exactly the planned requests sent, and result `j` is the decoded response to request `reqId + 1 + j`, parked before or read from the script |
| PlainClient.GroupSizes | src/api.rs:468 | the first group received holds `batch_size + 1` requests, every later full group `batch_size` |
| PlainClient.RemIsMod | src/api.rs:468 | the counter the model keeps is `idx % batch_size` |
| ClientObject.Client.constructor | src/api.rs:391-398 | a client with no request sent and nothing parked |
| ClientObject.Client.Send | src/api.rs:510-523 | updates the client as `PlainClient.Send` says |
| ClientObject.Client.Recv | src/api.rs:525-570 | its loop updates the client as `PlainClient.Recv` says |
| ClientObject.Client.Query | src/api.rs:480-485 | updates the client as `PlainClient.Query` says |
| ClientObject.Client.Collect | src/api.rs:469-474 | its loop updates the client as `PlainClient.Collect` says |
| ClientObject.Client.BatchQuery | src/api.rs:457-478 | its loop updates the client as `PlainClient.BatchQuery` says |
| MarketClient.Initial | src/realtime_market.rs:71-76 | a new market client has sent nothing, subscribes to nothing and has no stream |
| MarketClient.GetStream | src/realtime_market.rs:79-85 | an open stream is kept; otherwise a new one is opened and logged, or `ConnectionFailed` with no stream |
| MarketClient.SubWithoutRetried | src/realtime_market.rs:87-98 | the id advances; on success the `SUBSCRIBE` of the given streams with that id is the one message sent |
| MarketClient.SendControl | src/realtime_market.rs:100-142 | the subscription set is the new one; on success the last message is either the request itself or the replay of the whole set |
| MarketClient.Subscribe | src/realtime_market.rs:100-119 | the subscription set gains the given streams |
| MarketClient.Unsubscribe | src/realtime_market.rs:121-142 | the subscription set loses the given streams |
| MarketClient.Recv | src/realtime_market.rs:144-178 | the subscription set never changes, and a text returned leaves a stream open |
| MarketClient.Resubscribe | src/realtime_market.rs:159-175 | the reconnection always spends a request id |
| MarketClient.ControlOnOpenStream | src/realtime_market.rs:110-112 | on an open stream a successful write sends the request with the next id and nothing else |
| MarketClient.FailedControlReplays | src/realtime_market.rs:113-117 | after a failed write, a new stream is opened and the whole subscription set replayed with the id after |
| MarketClient.SubscribeReplayCarriesParams | src/realtime_market.rs:100-119 | a replay after a failed subscribe lists every earlier subscription and every new stream |
| MarketClient.UnsubscribeReplayDropsParams | src/realtime_market.rs:121-142 | a replay after a failed unsubscribe lists only earlier subscriptions, none of the removed streams |
| MarketClient.RecvReturnsText | src/realtime_market.rs:144-178 | a returned text is the data of a text frame that was read |
| MarketClient.ResubscribeReturnsText | src/realtime_market.rs:159-175 | after a reconnection too, a returned text is that of a text frame read |
| MarketClient.RecvOnlyUpkeep | src/realtime_market.rs:144-178 | receiving sends nothing but pongs, openings and replays of the current subscriptions |
| MarketClient.ResubscribeOnlyUpkeep | src/realtime_market.rs:159-175 | a reconnection sends nothing but pongs, openings and replays of the current subscriptions |
| MarketClient.RecvSkipsToText | src/realtime_market.rs:151-158 | on an open stream, pings are answered and other frames skipped up to the first text, which is returned |
| MarketClient.RecvAfterBrokenRead | src/realtime_market.rs:159-172 | a broken read reopens the stream, replays the subscriptions and returns the next text |
| MarketClient.RecvAfterBrokenReadFails | src/realtime_market.rs:159-166 | after a broken read, a failed connection, replay or second read ends the call with that error |
| MarketObject.AutoReconnectMarketClient.constructor | src/realtime_market.rs:71-76 | the client is built with the given limit and the initial state |
| MarketObject.AutoReconnectMarketClient.GetStream | src/realtime_market.rs:79-85 | updates the client as `MarketClient.GetStream` says |
| MarketObject.AutoReconnectMarketClient.SubWithoutRetried | src/realtime_market.rs:87-98 | updates the client as `MarketClient.SubWithoutRetried` says |
| MarketObject.AutoReconnectMarketClient.Subscribe | src/realtime_market.rs:100-119 | updates the client as `MarketClient.Subscribe` says |
| MarketObject.AutoReconnectMarketClient.Unsubscribe | src/realtime_market.rs:121-142 | its loop removes the streams one by one and updates the client as `MarketClient.Unsubscribe` says |
| MarketObject.AutoReconnectMarketClient.Recv | src/realtime_market.rs:144-178 | its loop updates the client as `MarketClient.Recv` says |

## Left out

- The TCP, TLS and proxy set-up, URL parsing and the websocket handshake: a connection attempt is one scripted outcome.
- The 100 ms pause between connection attempts, and all tracing, including the truncation of long responses in the debug log.
- The JSON text of messages: a text frame carries the fields the clients inspect (`id`, `status`, `error`) already decoded, and whether a response decodes as the expected type is a predicate passed in.
- Serializing a request cannot fail in the model, and `returnRateLimits` (always absent) is not modelled.
- Decimal parsing is a function passed in; the JSON array elements reach the visitors already tokenised.
- The clock (`millis_ts`) is a parameter `now`, one reading per query; `batch_query` takes one reading per query.
- The Ed25519 signature and its Base64 text are a symbolic value naming the key and the signed text; the panic on a malformed private key is not modelled.
- Lower-casing covers the ASCII letters only; Rust's `to_lowercase` also folds other scripts.
- The order of the replayed subscriptions: the source collects a `HashSet` in no fixed order, so a replay carries the set.
- Client.BatchQuery: a batch size of 0 with two or more queries divides by zero in the source and panics; the model requires a positive size in that case.
- Request ids are unbounded; the source's `u64` counter would wrap only after 2^64 requests.
- The source calls `get_stream` again before each pong and each read inside its receive loops; with the stream open those calls return it unchanged, and the classes do not repeat them.
- `Client::conn` and the plain `MarketClient` are not part of this model; `Client` starts from a connection already made, with an empty API key as `conn` sets it.
- AutoClient.Query, AutoClient.Attempt, AutoClient.Retry and AutoClient.QueryWithoutRetry: their own contracts state only that success leaves a stream open and ids never go back; what they send is stated by the lemmas in `AutoClientProps`.
- MarketClient.Recv and MarketClient.Resubscribe: their own contracts are as weak; what they return and send is stated by the `MarketClient` lemmas after them.
- AutoClientProps.BrokenReadFallsBack: states that a broken read leads into the fallback rather than the whole exchange after it; `RetryLogsOnTwice` states the fallback's exchange.
