# useOrderBook: a verified model of the order-book hook

`useOrderBook(symbol)` keeps a live level-2 order book for one coin. It opens
a WebSocket to the HyperLiquid feed, subscribes to the `l2Book` channel for
the symbol, and turns each feed message into a published snapshot: the bids
sorted highest price first and the asks lowest price first, levels of zero,
negative or unparseable size removed, at most 15 levels a side, stamped with
the time of the update. Updates closer than 200 ms to the last admitted one
are dropped. A connection that closes uncleanly is retried with exponential
backoff (1 s, 2 s, 4 s, 8 s, 8 s). A socket that cannot even be constructed is
retried after `2000 * attempts` ms. After five failed attempts the hook gives
up and publishes synthetic data around 29.50, refreshed every 5 s. The hook
also exposes `reconnect` and `disconnect` commands.

The model is split along the same lines as the code:

- `wrappers.dfy` — `Option`, standing for JavaScript's `null`/`undefined` and
  for a step that threw.
- `levels.dfy` — price levels, books, the order each side is kept in, the
  stable sort and the cut to 15 levels.
- `wire.dfy` — parsed feed messages, as far as the code inspects them, and
  `Decode`. `Decode` is the decoding half of `processOrderBookData`, including
  every path on which the code throws or gives up.
- `feed.dfy` — the 200 ms throttle gate and the book replacement, as a pure
  function `Ingest` on the gate's timestamp and the book, plus its behaviour
  over a stream of messages.
- `backoff.dfy` — the reconnection delays.
- `fallback.dfy` — the mock generator. `generateBids` and `generateAsks` are
  loop methods proved equal to comprehension specifications.
- `session.dfy` — the hook itself, as the class `OrderBookHook`. Its fields
  are the hook's refs and state. Its methods are the events that drive it:
  - an effect run for a symbol;
  - the socket callbacks;
  - timers firing;
  - the cleanup;
  - `reconnect` and `disconnect`.

The effect's local `mounted` flag belongs to one effect run, while the refs
live as long as the component. The model numbers the runs. Every socket and
every timer remembers the run whose closures it calls back into, and a
callback of a run that is no longer live does nothing. The object invariant
`Valid` says:

- the attempt counter stays within 0..5;
- every pending retry timer is the one `reconnectTimeoutRef` names, and every
  pending refresh interval the one `mockIntervalRef` names, so at most one of
  each exists;
- both belong to the live run, and none survives a cleanup;
- no retry is pending while an attempt is outstanding;
- no socket belongs to a run later than the latest one, so once a new run
  begins, every socket of an earlier run stays dead;
- no attempt is marked outstanding after a cleanup.

The published book's validity is part of the field's type.

The model follows what the code does, including where that departs from what
such a hook would be expected to do:

- Duplicate prices are kept. The sides are sorted, not de-duplicated, so a
  published side is ordered only non-strictly (`Wire.DuplicatePricesKept`).
- A socket error clears the flags and schedules nothing. Among the socket's
  events only a close can lead to a retry; the other retry follows a failure
  to construct the socket.
- A clean close with attempts left schedules nothing and loads no mock data.
- The backoff exponent is the attempt count after it has been raised, minus
  one.
- `reconnect` resets the counter, closes the socket and stops the mock
  interval. It opens no connection: the only thing it schedules is a 1 s
  timer that rewrites the book's `lastUpdate`.
- A retry timer that fires when the budget is already spent sets
  `isConnecting`, and the connection routine then only loads mock data. The
  hook is therefore left showing `isConnecting` true.
- Changing the symbol starts a new effect run but keeps the refs: the attempt
  counter, the throttle timestamp and the book carry over (the cleanup of the
  previous run has closed the socket and cleared its ref and both timer refs).
  A spent budget therefore loads mock data at once for the new symbol.
- The give-up branch in the `catch` of the connection routine (lines 228-231)
  cannot run: the guard at line 126 has already returned whenever the budget
  is spent. The model marks it unreachable.

## Model

| member | source | states |
|---|---|---|
| `Levels.EmptyBookValid` | src/hooks/useOrderBook.js:6-10 | the initial empty book (no bids, no asks, `lastUpdate` null) satisfies the published-book invariant |
| `Levels.Insert` | src/hooks/useOrderBook.js:108-109 | inserting a level into a sorted side keeps it sorted and adds exactly that level to the side's multiset |
| `Levels.SortSide` | src/hooks/useOrderBook.js:108-109 | sorting a side by the bid comparator (highest first) or the ask comparator (lowest first) yields a sorted permutation of its input |
| `Levels.SortedPrefixPrecedesRest` | src/hooks/useOrderBook.js:113-114 | in a sorted side, every level of the first `k` may stand before every level after them |
| `Levels.SortedPrefix` | src/hooks/useOrderBook.js:113-114 | the first `k` levels of a sorted side are sorted, and they and the rest make up exactly the side's levels |
| `Levels.TopOfSortedKeepsBest` | src/hooks/useOrderBook.js:108-114 | sorting then `slice(0, 15)` gives a sorted side of `min(15, n)` levels, drawn from the input, and no level cut off may stand before a level kept |
| `Wire.Shape` | src/hooks/useOrderBook.js:91-96 | a message yields a bid side and an ask side exactly when it is on the `l2Book` channel or carries a payload with a non-empty coin, and the chosen `levels` (payload first, else top level) is an array of exactly two entries; the bid side is then `levels[0]` and the ask side `levels[1]` |
| `Wire.Positive` | src/hooks/useOrderBook.js:98-106 | mapping and filtering a side succeeds exactly when no entry is `null`; a level occurs in the result exactly as often as entries with that price and that size occur, when the size is above zero, and not at all otherwise (NaN and non-positive sizes dropped, duplicates kept); the result is no longer than the input |
| `Wire.Prepare` | src/hooks/useOrderBook.js:98-114 | a side is prepared exactly when it is an array without `null` entries, and a prepared side is sorted for its side, has at most 15 levels and only positive sizes |
| `Wire.Decode` | src/hooks/useOrderBook.js:89-122 | a message produces new sides exactly when its shape passes and both sides are well-formed; every throw or failed test means no new sides; the new bids are `levels[0]` and the new asks `levels[1]`, each prepared for its side, and both are valid published sides |
| `Wire.PrepareKeepsBest` | src/hooks/useOrderBook.js:98-114 | a prepared side holds `min(15, n)` of the `n` positive-size levels, each from an input entry, and no positive level left out may stand before a kept one |
| `Wire.DecodeExample` | src/hooks/useOrderBook.js:89-118 | worked example: a payload naming coin `AVAX` with a negative-size bid publishes the remaining bid and the ask unchanged |
| `Wire.DuplicatePricesKept` | src/hooks/useOrderBook.js:108-113 | two bids at the same price both reach the book, in arrival order: sides are not de-duplicated |
| `Feed.Ingest` | src/hooks/useOrderBook.js:83-118 | one message keeps the book valid, and either leaves the book unchanged or, when the gate admits it, publishes a book stamped with that message's time; the gate moves to the message's time exactly when it admits it |
| `Feed.ThrottledMessageIgnored` | src/hooks/useOrderBook.js:83-86 | a message less than 200 ms after the last admission changes neither the gate nor the book |
| `Feed.AcceptedMessageReplacesBook` | src/hooks/useOrderBook.js:87-117 | an admitted message that decodes replaces both sides and the timestamp and moves the gate to its time |
| `Feed.RejectedMessageConsumesSlot` | src/hooks/useOrderBook.js:84-122 | an admitted message that fails to decode leaves the book alone but still moves the gate, so any message in the next 200 ms is dropped |
| `Feed.SecondWithinWindowDropped` | src/hooks/useOrderBook.js:83-87 | of two messages less than 200 ms apart, the first of which is admitted, the second has no effect |
| `Feed.AdmissionsSpaced` | src/hooks/useOrderBook.js:83-87 | over any stream the admitted times are at least 200 ms after the prior admission and at least 200 ms apart from each other |
| `Feed.IngestAllFollowsAdmissions` | src/hooks/useOrderBook.js:80-123 | over any stream the book stays valid, the gate ends at the last admitted time, and the book is either the initial one or was last replaced at an admitted time |
| `Backoff.BackoffDelay` | src/hooks/useOrderBook.js:199-200 | the close backoff `min(1000 * 2^(attempts-1), 8000)` always lies between 1 s and 8 s |
| `Backoff.ConstructionRetryDelay` | src/hooks/useOrderBook.js:222-223 | over the five attempts the budget allows, the construction-failure delay `2000 * attempts` lies between 2 s and 10 s |
| `Backoff.ConstructionRetrySchedule` | src/hooks/useOrderBook.js:221-227 | the five construction-failure delays are 2000, 4000, 6000, 8000 and 10000 ms, each 2 s more than the one before |
| `Backoff.ConstructionRetryNoShorterThanBackoff` | src/hooks/useOrderBook.js:198-227 | at the same attempt count a construction failure never waits less than an unclean close |
| `Backoff.BackoffSchedule` | src/hooks/useOrderBook.js:198-206 | the five backoff delays are 1000, 2000, 4000, 8000 and 8000 ms |
| `Backoff.Pow2Monotone` | src/hooks/useOrderBook.js:200 | the power of two in the backoff formula never decreases as the exponent grows |
| `Backoff.BackoffMonotone` | src/hooks/useOrderBook.js:198-200 | a later attempt never waits less than an earlier one |
| `Backoff.BackoffDoublesThenCaps` | src/hooks/useOrderBook.js:200 | below the cap each delay is twice the previous one, and from the fourth attempt on the delay is the 8 s cap |
| `Fallback.GenerateBids` | src/hooks/useOrderBook.js:36-44 | the loop produces exactly the fifteen bids priced `29.50 - 0.001 - i * 0.001` with the drawn sizes, in order |
| `Fallback.GenerateAsks` | src/hooks/useOrderBook.js:46-54 | the loop produces exactly the fifteen asks priced `29.50 + 0.001 + i * 0.001` with the drawn sizes, in order |
| `Fallback.MockBidsStrictlyDescending` | src/hooks/useOrderBook.js:33-44 | mock bids run from 29.499 down to 29.485 in steps of 0.001, strictly descending |
| `Fallback.MockAsksStrictlyAscending` | src/hooks/useOrderBook.js:46-54 | mock asks run from 29.501 up to 29.515 in steps of 0.001, strictly ascending |
| `Fallback.MockBookValid` | src/hooks/useOrderBook.js:56-61 | a mock snapshot is a valid book with 15 levels a side, a 0.002 spread between the best bid and ask, and every bid below every ask |
| `Session.Cancel` | src/hooks/useOrderBook.js:194-196 | `clearTimeout`/`clearInterval` of a ref removes exactly that timer, a null ref removes nothing, and every other timer stays as it was |
| `Session.CancelKeepsValid` | src/hooks/useOrderBook.js:248-256 | clearing a timer keeps the timer table consistent with the refs, and clearing the timer a ref names leaves no timer of that kind pending |
| `Session.ConnectingKeepsValid` | src/hooks/useOrderBook.js:133-152 | the outstanding-attempt flag can always be cleared, and can be set whenever no retry is pending, without breaking the timer table's consistency |
| `Session.IdleTimersValid` | src/hooks/useOrderBook.js:239-257 | once no retry and no refresh is pending, the timer table is consistent with any refs, whether or not the run is live |
| `Session.ScheduleKeepsValid` | src/hooks/useOrderBook.js:68-76 | scheduling a retry or refresh, as the only one of its kind and for the live run, with its ref pointed at it, keeps the table consistent; a nudge can be scheduled at any time |
| `Session.OrderBookHook.constructor` | src/hooks/useOrderBook.js:6-20 | the first render's state: empty book, not connected, `isConnecting` true, counter 0, no socket, no timers, timer ids starting at 0; the invariant holds |
| `Session.OrderBookHook.LoadMockData` | src/hooks/useOrderBook.js:28-78 | a live run publishes the mock snapshot and replaces any refresh interval by a new 5000 ms one of that run; a dead run changes nothing |
| `Session.OrderBookHook.Connect` | src/hooks/useOrderBook.js:125-233 | a dead run or an outstanding attempt does nothing; a spent budget only loads mock data; otherwise the old socket is closed and either a socket of this run is opened and marked outstanding, or the failure is counted and a retry is scheduled at `2000 * attempts` ms |
| `Session.OrderBookHook.ScheduleRetry` | src/hooks/useOrderBook.js:198-206 | counting a failure raises the counter by one and schedules a single retry of the live run whose id the reconnect ref holds |
| `Session.OrderBookHook.Attempt` | src/hooks/useOrderBook.js:133-232 | past the guard, the previous socket is closed and forgotten, then either a new socket of the run is open and outstanding, or the flags are cleared, the counter is raised and the construction retry is scheduled |
| `Session.OrderBookHook.Mount` | src/hooks/useOrderBook.js:235-236 | a new effect run for the symbol becomes live and every socket of an earlier run is dead in it; the run makes its first attempt, with the complete new state of each outcome: a counter already at 5 loads mock data straight away; otherwise a socket of the new run is opened and outstanding, or the failure is counted and a construction retry scheduled |
| `Session.OrderBookHook.OnOpen` | src/hooks/useOrderBook.js:146-164 | for a live socket: connected, not connecting, counter reset, and exactly one subscription for the symbol sent on that socket; a stale socket changes nothing |
| `Session.OrderBookHook.ProcessOrderBookData` | src/hooks/useOrderBook.js:80-123 | a live run applies the throttle gate and book replacement of `Feed.Ingest`; a dead run changes nothing |
| `Session.OrderBookHook.OnMessage` | src/hooks/useOrderBook.js:166-175 | a live socket feeds a parsed message to the gate; a frame that does not parse changes nothing and does not use a throttle slot |
| `Session.OrderBookHook.OnError` | src/hooks/useOrderBook.js:177-184 | a live socket's error clears the connected and connecting flags and schedules nothing; a stale socket changes nothing |
| `Session.OrderBookHook.OnClose` | src/hooks/useOrderBook.js:186-212 | a live socket's close clears the flags and the pending retry; an unclean close with budget left counts it and retries after the backoff delay; a spent budget loads mock data; a clean close with budget left schedules nothing |
| `Session.OrderBookHook.FireRetry` | src/hooks/useOrderBook.js:203-206 | a fired retry belongs to the live run and finds no attempt outstanding; it is removed, sets `isConnecting` and runs the connection routine, with the complete new state of each outcome: with the budget spent, mock data is loaded with a new refresh interval and `isConnecting` stays true; otherwise a new socket is opened, or the failure is counted and another retry scheduled |
| `Session.OrderBookHook.FireMockRefresh` | src/hooks/useOrderBook.js:68-76 | a fired refresh publishes a fresh mock snapshot |
| `Session.OrderBookHook.Cleanup` | src/hooks/useOrderBook.js:239-257 | after cleanup, the run is dead, the socket is closed and forgotten, both refs are null, only nudges remain pending, and no callback of any run acts |
| `Session.OrderBookHook.Reconnect` | src/hooks/useOrderBook.js:261-280 | the counter is reset, the connecting ref cleared, `isConnecting` set, the socket closed but kept, the mock interval stopped, and only a 1000 ms nudge is scheduled |
| `Session.OrderBookHook.FireNudge` | src/hooks/useOrderBook.js:276-279 | the nudge rewrites only the book's `lastUpdate` |
| `Session.OrderBookHook.Disconnect` | src/hooks/useOrderBook.js:282-287 | the current socket is closed (the ref keeps it) and the hook shows disconnected |
| `Session.SingleTimers` | src/hooks/useOrderBook.js:16-20 | at any time at most one reconnect retry and at most one mock refresh interval are pending |

## Left out

- The WebSocket transport is not modelled. Sockets are numbers, and sending and closing are recorded as frames in `sent`. Which callback fires when is the caller's choice of method.
- `JSON.parse` is not modelled. `OrderBookHook.OnMessage` takes its outcome as an `Option<Message>`.
- Message fields the code never reads are not modelled.
- A truthy `data` payload that is not an object behaves like a payload without coin or levels.
- Console logging is left out.
- React's rendering, state batching and effect scheduling are left out. The state setters are plain field assignments.
- Timers do not run on a clock: they fire only when a `Fire…` method is called. Each pending timer records its delay or period (retry delay, 5000 ms refresh period, 1000 ms nudge delay), but the model does not order firings by them.
- `Date.now()` is a parameter.
- `Math.random()` is left out: the mock sizes come in as a `Draw`, constrained to the range 50..250 the formula produces.
- Floating-point arithmetic is left out. Prices and sizes are exact reals, and mock prices are exact thousandths, which is what `parseFloat(x.toFixed(3))` is meant to give. The rounding of sizes to cents is not modelled.
- `parseFloat` of a price is taken to give a number: a NaN price is not modelled. A NaN size is, and it is dropped.
- The unused constant `throttleMs = 100` plays no part.
- `Levels.SortSide`: the model sorts stably, as `Array.prototype.sort` does. Stability is not stated as a separate property; it shows only in `Wire.DuplicatePricesKept`.
- `Session.OrderBookHook.FireMockRefresh`: a refresh interval of a run that is no longer live would do nothing in the code. By the invariant no such interval is ever pending, so that case is not stated.
- src/components/OrderBook.jsx and src/App.jsx, the view and the page that use the hook, are not part of this model.
