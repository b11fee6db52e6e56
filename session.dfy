/**
 * The `useOrderBook` hook (src/hooks/useOrderBook.js:5-295) as an object whose
 * fields are the hook's refs and state, and whose methods are the events that
 * drive it: an effect run for a symbol, the socket callbacks, timers firing,
 * the cleanup and the two commands `reconnect` and `disconnect`.
 *
 * The effect's local `mounted` belongs to one run of the effect, while the
 * refs outlive it. The model numbers the runs: `generation` is the latest run,
 * `mounted` whether it is still live, and every socket and timer remembers the
 * run whose closures it calls back into. A callback of an earlier run sees its
 * own `mounted` as false and does nothing.
 */
module Session {
  import opened Wrappers
  import opened Levels
  import opened Wire
  import opened Feed
  import opened Backoff
  import opened Fallback

  /** Period of the mock refresh interval (line 76). */
  const MockRefreshMs: nat := 5000
  /** Delay of the timestamp nudge that `reconnect` schedules (line 279). */
  const NudgeDelayMs: nat := 1000

  /** What the hook asks of the transport: the subscription sent on open, and `close()` calls. */
  datatype Frame = Subscribe(socket: nat, coin: string) | CloseSocket(socket: nat)

  /**
   * A pending `setTimeout`/`setInterval`: a reconnect retry after `delay` ms, the
   * mock refresh interval with its `period`, or the nudge `reconnect` schedules
   * after `delay` ms. Retries and refreshes call back into the effect run
   * `generation`.
   */
  datatype Task = Retry(delay: nat, generation: nat) | MockRefresh(period: nat, generation: nat) | Nudge(delay: nat)

  /** Drop the timer a ref names (`clearTimeout`/`clearInterval`); a stale or missing id clears nothing. */
  function Cancel(timers: map<nat, Task>, ref: Option<nat>): (r: map<nat, Task>)
    ensures ref.None? ==> r == timers
    ensures ref.Some? ==> r.Keys == timers.Keys - {ref.value}
    ensures forall id :: id in r ==> id in timers && r[id] == timers[id]
  {
    if ref.Some? then timers - {ref.value} else timers
  }

  /** The close requests `if (wsRef.current) wsRef.current.close()` emits. */
  function CloseOf(ws: Option<nat>): seq<Frame> {
    if ws.Some? then [CloseSocket(ws.value)] else []
  }

  /**
   * Pending timer `id` is consistent with the refs: a retry or a refresh is the
   * one its ref names, of the live run, and a retry is never pending while an
   * attempt is outstanding (`connecting`).
   */
  ghost predicate TimerValid(id: nat, task: Task, reconnectRef: Option<nat>, mockRef: Option<nat>, generation: nat,
                             mounted: bool, connecting: bool) {
    match task
    case Retry(_, g) => reconnectRef == Some(id) && g == generation && mounted && !connecting
    case MockRefresh(_, g) => mockRef == Some(id) && g == generation && mounted
    case Nudge(_) => true
  }

  /**
   * The timer table is consistent with the refs: ids are below the next id to
   * hand out, every pending retry is the one `reconnectRef` names and every
   * pending refresh the one `mockRef` names, both belong to the live run
   * `generation`, and no retry waits while an attempt is outstanding.
   */
  ghost predicate TimersValid(timers: map<nat, Task>, nextTimer: nat, reconnectRef: Option<nat>, mockRef: Option<nat>,
                              generation: nat, mounted: bool, connecting: bool)
  {
    forall id :: id in timers ==>
      id < nextTimer && TimerValid(id, timers[id], reconnectRef, mockRef, generation, mounted, connecting)
  }

  /** No reconnect retry is pending. */
  predicate NoRetry(timers: map<nat, Task>) {
    forall id :: id in timers ==> !timers[id].Retry?
  }

  /** No mock refresh interval is pending. */
  predicate NoRefresh(timers: map<nat, Task>) {
    forall id :: id in timers ==> !timers[id].MockRefresh?
  }

  /** Clearing a timer keeps the table consistent, and clearing what a ref names leaves nothing of that kind. */
  lemma CancelKeepsValid(timers: map<nat, Task>, nextTimer: nat, reconnectRef: Option<nat>, mockRef: Option<nat>,
                         generation: nat, mounted: bool, connecting: bool, ref: Option<nat>)
    requires TimersValid(timers, nextTimer, reconnectRef, mockRef, generation, mounted, connecting)
    ensures TimersValid(Cancel(timers, ref), nextTimer, reconnectRef, mockRef, generation, mounted, connecting)
    ensures ref == reconnectRef ==> NoRetry(Cancel(timers, ref))
    ensures ref == mockRef ==> NoRefresh(Cancel(timers, ref))
  {
  }

  /** The connecting flag may always be cleared, and set whenever no retry is pending. */
  lemma ConnectingKeepsValid(timers: map<nat, Task>, nextTimer: nat, reconnectRef: Option<nat>, mockRef: Option<nat>,
                             generation: nat, mounted: bool, connecting: bool, newConnecting: bool)
    requires TimersValid(timers, nextTimer, reconnectRef, mockRef, generation, mounted, connecting)
    requires newConnecting ==> NoRetry(timers)
    ensures TimersValid(timers, nextTimer, reconnectRef, mockRef, generation, mounted, newConnecting)
  {
  }

  /** A table with no retry and no refresh is consistent with any refs, whether or not the run is live. */
  lemma IdleTimersValid(timers: map<nat, Task>, nextTimer: nat, reconnectRef: Option<nat>, mockRef: Option<nat>,
                        generation: nat, mounted: bool, connecting: bool)
    requires forall id :: id in timers ==> id < nextTimer
    requires NoRetry(timers) && NoRefresh(timers)
    ensures TimersValid(timers, nextTimer, reconnectRef, mockRef, generation, mounted, connecting)
  {
  }

  /**
   * Scheduling `task` under the fresh id `nextTimer` keeps the table consistent
   * when a retry or a refresh is the only one of its kind, belongs to the live
   * run, and its ref is pointed at it; a nudge may be scheduled at any time,
   * and a ref may be dropped once nothing of its kind is pending.
   */
  lemma ScheduleKeepsValid(timers: map<nat, Task>, nextTimer: nat, reconnectRef: Option<nat>, mockRef: Option<nat>,
                           generation: nat, mounted: bool, connecting: bool,
                           task: Task, newReconnectRef: Option<nat>, newMockRef: Option<nat>)
    requires TimersValid(timers, nextTimer, reconnectRef, mockRef, generation, mounted, connecting)
    requires !task.Nudge? ==> mounted
    requires task.Retry? ==>
      NoRetry(timers) && !connecting && newReconnectRef == Some(nextTimer) && task.generation == generation
    requires !task.Retry? ==> newReconnectRef == reconnectRef || NoRetry(timers)
    requires task.MockRefresh? ==> NoRefresh(timers) && newMockRef == Some(nextTimer) && task.generation == generation
    requires !task.MockRefresh? ==> newMockRef == mockRef || NoRefresh(timers)
    ensures TimersValid(timers[nextTimer := task], nextTimer + 1, newReconnectRef, newMockRef, generation, mounted, connecting)
  {
  }

  /** A book the hook may publish: both sides sorted, at most 15 levels each, every size positive. */
  type PublishedBook = b: Book | BookValid(b) witness EmptyBook

  class OrderBookHook {
    /** The symbol of the latest effect run. */
    var symbol: string
    /** Number of the latest effect run; callbacks of other runs are dead. */
    var generation: nat
    /** The `mounted` flag of the latest run. */
    var mounted: bool
    /** `sockets[s]` is the effect run that created socket `s`. */
    var sockets: seq<nat>
    /** `wsRef`. */
    var wsRef: Option<nat>
    /** Everything sent to or requested of the transport, oldest first. */
    var sent: seq<Frame>
    /** `isConnectingRef`: a connection attempt is outstanding. */
    var connectingRef: bool
    /** The `isConnecting` and `isConnected` state the view reads. */
    var isConnecting: bool
    var isConnected: bool
    /** `reconnectAttemptsRef`. */
    var reconnectAttempts: nat
    /** Pending timers by id, and the refs that hold the ids of the reconnect timer and the mock interval. */
    var timers: map<nat, Task>
    var reconnectRef: Option<nat>
    var mockRef: Option<nat>
    /** The id the next timer gets. */
    var nextTimer: nat
    /** `lastUpdateRef`: the time of the last message the gate admitted. */
    var lastAdmitted: int
    /** The `orderBook` state. */
    var book: PublishedBook

    /** True when callbacks of effect run `g` still act: `g` is the latest run and it has not been cleaned up. */
    predicate Live(g: nat)
      reads this
    {
      mounted && g == generation
    }

    /** A reconnect timer is pending. */
    predicate RetryPending()
      reads this
    {
      !NoRetry(timers)
    }

    /**
     * The object invariant. The counter stays within 0..5; every pending retry is
     * the one `reconnectRef` names and every pending refresh the one `mockRef`
     * names, so at most one of each exists, both belong to the latest run, and
     * none survives a cleanup; no retry is pending while an attempt is
     * outstanding; no socket belongs to a run later than the latest, so once a
     * new run begins every earlier socket is dead for good. That the published
     * book is valid is part of its type.
     */
    ghost predicate Valid()
      reads this
    {
      && reconnectAttempts <= MaxReconnectAttempts
      && TimersValid(timers, nextTimer, reconnectRef, mockRef, generation, mounted, connectingRef)
      && (wsRef.Some? ==> wsRef.value < |sockets|)
      && (forall i :: 0 <= i < |sockets| ==> sockets[i] <= generation)
      && (!mounted ==> !connectingRef)
    }

    /** The hook's first render: `useState` and `useRef` initial values, before the effect has run. */
    constructor (initialSymbol: string)
      ensures Valid()
      ensures symbol == initialSymbol && generation == 0 && !mounted
      ensures sockets == [] && wsRef == None && sent == []
      ensures !connectingRef && isConnecting && !isConnected && reconnectAttempts == 0
      ensures timers == map[] && reconnectRef == None && mockRef == None && nextTimer == 0
      ensures lastAdmitted == 0 && book == EmptyBook
    {
      symbol := initialSymbol;
      generation := 0;
      mounted := false;
      sockets := [];
      wsRef := None;
      sent := [];
      connectingRef := false;
      isConnecting := true;
      isConnected := false;
      reconnectAttempts := 0;
      timers := map[];
      reconnectRef := None;
      mockRef := None;
      nextTimer := 0;
      lastAdmitted := 0;
      book := EmptyBook;
    }

    /**
     * `loadMockData` of run `gen` (lines 28-78): when that run is live, publish a
     * mock snapshot and replace any refresh interval by a new one; otherwise
     * nothing.
     */
    method LoadMockData(gen: nat, now: int, draw: Draw)
      requires Valid() && ValidDraw(draw)
      modifies this`book, this`timers, this`mockRef, this`nextTimer
      ensures Valid()
      ensures !Live(gen) ==> unchanged(this)
      ensures Live(gen) ==>
        && book == MockBook(draw, now)
        && mockRef == Some(old(nextTimer)) && nextTimer == old(nextTimer) + 1
        && timers == Cancel(old(timers), old(mockRef))[old(nextTimer) := MockRefresh(MockRefreshMs, gen)]
    {
      if !Live(gen) {
        return;
      }
      var bids := GenerateBids(draw.bidSizes);
      var asks := GenerateAsks(draw.askSizes);
      MockBookValid(draw, now);
      CancelKeepsValid(timers, nextTimer, reconnectRef, mockRef, generation, mounted, connectingRef, mockRef);
      ScheduleKeepsValid(Cancel(timers, mockRef), nextTimer, reconnectRef, mockRef, generation, mounted, connectingRef,
                         MockRefresh(MockRefreshMs, gen),
                         reconnectRef, Some(nextTimer));
      book := Book(bids, asks, Some(now));
      timers, mockRef, nextTimer := Cancel(timers, mockRef)[nextTimer := MockRefresh(MockRefreshMs, gen)], Some(nextTimer), nextTimer + 1;
    }

    /**
     * `connectWebSocket` of run `gen` (lines 125-233). A dead run, an attempt
     * already outstanding, or a spent budget makes it return at once, and a
     * spent budget loads mock data first. Otherwise it marks the attempt,
     * closes the previous socket and either opens a new one (`constructed`) or,
     * when `new WebSocket` throws, counts the failure and retries after
     * `2000 * attempts` ms. It runs only when no retry is pending: at the
     * effect's start and from a retry that has just fired.
     */
    method Connect(gen: nat, constructed: bool, now: int, draw: Draw)
      requires Valid() && ValidDraw(draw) && !RetryPending()
      modifies this
      ensures Valid()
      ensures symbol == old(symbol) && generation == old(generation) && mounted == old(mounted)
      ensures isConnected == old(isConnected) && lastAdmitted == old(lastAdmitted)
      ensures !Live(gen) || (old(connectingRef) && old(reconnectAttempts) < MaxReconnectAttempts) ==> unchanged(this)
      ensures Live(gen) && old(reconnectAttempts) >= MaxReconnectAttempts ==>
        && book == MockBook(draw, now)
        && mockRef == Some(old(nextTimer)) && nextTimer == old(nextTimer) + 1
        && timers == Cancel(old(timers), old(mockRef))[old(nextTimer) := MockRefresh(MockRefreshMs, gen)]
        && sockets == old(sockets) && wsRef == old(wsRef) && sent == old(sent)
        && connectingRef == old(connectingRef) && isConnecting == old(isConnecting)
        && reconnectAttempts == old(reconnectAttempts) && reconnectRef == old(reconnectRef)
      ensures Live(gen) && !old(connectingRef) && old(reconnectAttempts) < MaxReconnectAttempts ==>
        && sent == old(sent) + CloseOf(old(wsRef))
        && book == old(book) && mockRef == old(mockRef)
        && (constructed ==>
              && connectingRef && isConnecting
              && sockets == old(sockets) + [gen] && wsRef == Some(|old(sockets)|)
              && reconnectAttempts == old(reconnectAttempts)
              && timers == old(timers) && reconnectRef == old(reconnectRef) && nextTimer == old(nextTimer))
        && (!constructed ==>
              && !connectingRef && !isConnecting
              && sockets == old(sockets) && wsRef == None
              && reconnectAttempts == old(reconnectAttempts) + 1
              && reconnectRef == Some(old(nextTimer)) && nextTimer == old(nextTimer) + 1
              && timers == old(timers)[old(nextTimer) := Retry(ConstructionRetryDelay(reconnectAttempts), gen)])
    {
      if !Live(gen) || connectingRef || reconnectAttempts >= MaxReconnectAttempts {
        if reconnectAttempts >= MaxReconnectAttempts {
          LoadMockData(gen, now, draw);
        }
        return;
      }
      Attempt(gen, constructed);
    }

    /**
     * Count a failed attempt and schedule the retry of run `gen` after `delay`
     * ms, keeping its id in `reconnectRef` (lines 196-206 and 219-227).
     */
    method ScheduleRetry(gen: nat, delay: nat)
      requires Valid() && Live(gen) && !connectingRef && NoRetry(timers) && reconnectAttempts < MaxReconnectAttempts
      modifies this`reconnectAttempts, this`reconnectRef, this`timers, this`nextTimer
      ensures Valid()
      ensures reconnectAttempts == old(reconnectAttempts) + 1
      ensures reconnectRef == Some(old(nextTimer)) && nextTimer == old(nextTimer) + 1
      ensures timers == old(timers)[old(nextTimer) := Retry(delay, gen)]
    {
      ScheduleKeepsValid(timers, nextTimer, reconnectRef, mockRef, generation, mounted, connectingRef,
                         Retry(delay, gen), Some(nextTimer), mockRef);
      reconnectAttempts, reconnectRef := reconnectAttempts + 1, Some(nextTimer);
      timers, nextTimer := timers[nextTimer := Retry(delay, gen)], nextTimer + 1;
    }

    /**
     * The attempt `connectWebSocket` makes once its guard lets it through
     * (lines 133-232): the previous socket is closed and forgotten; then either
     * a socket of run `gen` is open and the attempt is outstanding, or
     * construction threw, the flags are cleared again, the failure is counted
     * and a retry is scheduled after `2000 * attempts` ms.
     */
    method Attempt(gen: nat, constructed: bool)
      requires Valid() && Live(gen) && !connectingRef && reconnectAttempts < MaxReconnectAttempts && !RetryPending()
      modifies this`connectingRef, this`isConnecting, this`sent, this`wsRef, this`sockets,
        this`reconnectAttempts, this`reconnectRef, this`timers, this`nextTimer
      ensures Valid()
      ensures sent == old(sent) + CloseOf(old(wsRef))
      ensures constructed ==>
        && connectingRef && isConnecting
        && sockets == old(sockets) + [gen] && wsRef == Some(|old(sockets)|)
        && reconnectAttempts == old(reconnectAttempts)
        && timers == old(timers) && reconnectRef == old(reconnectRef) && nextTimer == old(nextTimer)
      ensures !constructed ==>
        && !connectingRef && !isConnecting
        && sockets == old(sockets) && wsRef == None
        && reconnectAttempts == old(reconnectAttempts) + 1
        && reconnectRef == Some(old(nextTimer)) && nextTimer == old(nextTimer) + 1
        && timers == old(timers)[old(nextTimer) := Retry(ConstructionRetryDelay(reconnectAttempts), gen)]
    {
      sent := sent + CloseOf(wsRef);
      if constructed {
        ConnectingKeepsValid(timers, nextTimer, reconnectRef, mockRef, generation, mounted, connectingRef, true);
        connectingRef, isConnecting := true, true;
        wsRef, sockets := Some(|sockets|), sockets + [gen];
      } else if reconnectAttempts < MaxReconnectAttempts {
        // `new WebSocket` threw: the catch clears the flags the attempt had set.
        connectingRef, isConnecting, wsRef := false, false, None;
        ScheduleRetry(gen, ConstructionRetryDelay(reconnectAttempts + 1));
      } else {
        // The guard of `connectWebSocket` already returned when the budget was
        // spent, so the give-up branch of the catch (lines 228-231) never runs.
        assert false;
      }
    }

    /**
     * The effect running for `newSymbol` (lines 25-26 and 236): a new run
     * begins, live, and makes its first connection attempt. The refs carry over
     * from the previous run, so a spent budget loads mock data straight away.
     */
    method Mount(newSymbol: string, constructed: bool, now: int, draw: Draw)
      requires Valid() && !mounted && ValidDraw(draw)
      modifies this
      ensures Valid()
      ensures symbol == newSymbol && generation == old(generation) + 1 && mounted
      ensures forall i :: 0 <= i < |old(sockets)| ==> !Live(old(sockets)[i])
      ensures lastAdmitted == old(lastAdmitted) && isConnected == old(isConnected)
      ensures old(reconnectAttempts) >= MaxReconnectAttempts ==>
        && book == MockBook(draw, now)
        && mockRef == Some(old(nextTimer)) && nextTimer == old(nextTimer) + 1
        && timers == Cancel(old(timers), old(mockRef))[old(nextTimer) := MockRefresh(MockRefreshMs, generation)]
        && sockets == old(sockets) && wsRef == old(wsRef) && sent == old(sent)
        && !connectingRef && isConnecting == old(isConnecting)
        && reconnectAttempts == old(reconnectAttempts) && reconnectRef == old(reconnectRef)
      ensures old(reconnectAttempts) < MaxReconnectAttempts ==>
        && sent == old(sent) + CloseOf(old(wsRef))
        && book == old(book) && mockRef == old(mockRef)
        && (constructed ==>
              && connectingRef && isConnecting
              && sockets == old(sockets) + [generation] && wsRef == Some(|old(sockets)|)
              && reconnectAttempts == old(reconnectAttempts)
              && timers == old(timers) && reconnectRef == old(reconnectRef) && nextTimer == old(nextTimer))
        && (!constructed ==>
              && !connectingRef && !isConnecting
              && sockets == old(sockets) && wsRef == None
              && reconnectAttempts == old(reconnectAttempts) + 1
              && reconnectRef == Some(old(nextTimer)) && nextTimer == old(nextTimer) + 1
              && timers == old(timers)[old(nextTimer) := Retry(ConstructionRetryDelay(reconnectAttempts), generation)])
    {
      symbol := newSymbol;
      generation := generation + 1;
      mounted := true;
      Connect(generation, constructed, now, draw);
    }

    /**
     * `onopen` of socket `s` (lines 146-164): when its run is live, mark the hook
     * connected, reset the counter and send exactly one subscription for the
     * symbol on that socket.
     */
    method OnOpen(s: nat)
      requires Valid() && s < |sockets|
      modifies this`isConnected, this`isConnecting, this`connectingRef, this`reconnectAttempts, this`sent
      ensures Valid()
      ensures !Live(old(sockets[s])) ==> unchanged(this)
      ensures Live(sockets[s]) ==>
        && isConnected && !isConnecting && !connectingRef && reconnectAttempts == 0
        && sent == old(sent) + [Subscribe(s, symbol)]
    {
      if !Live(sockets[s]) {
        return;
      }
      isConnected, isConnecting, connectingRef := true, false, false;
      reconnectAttempts, sent := 0, sent + [Subscribe(s, symbol)];
    }

    /**
     * `processOrderBookData` of run `gen` (lines 80-123): nothing when the run is
     * dead; otherwise the throttle gate and the book replacement of `Ingest`.
     */
    method ProcessOrderBookData(gen: nat, m: Message, now: int)
      requires Valid()
      modifies this`lastAdmitted, this`book
      ensures Valid()
      ensures FeedState(lastAdmitted, book) ==
        if Live(gen) then Ingest(old(FeedState(lastAdmitted, book)), m, now) else old(FeedState(lastAdmitted, book))
    {
      if !Live(gen) {
        return;
      }
      if now - lastAdmitted < ThrottleMs {
        return;
      }
      lastAdmitted := now;
      var decoded := Decode(m);
      if decoded.Some? {
        book := Book(decoded.value.0, decoded.value.1, Some(now));
      }
    }

    /**
     * `onmessage` of socket `s` (lines 166-175). `parsed` is what `JSON.parse`
     * returned, or `None` when it threw; a frame that does not parse never
     * reaches the gate, so it does not use up a throttle slot.
     */
    method OnMessage(s: nat, parsed: Option<Message>, now: int)
      requires Valid() && s < |sockets|
      modifies this`lastAdmitted, this`book
      ensures Valid()
      ensures FeedState(lastAdmitted, book) ==
        if Live(sockets[s]) && parsed.Some? then Ingest(old(FeedState(lastAdmitted, book)), parsed.value, now)
        else old(FeedState(lastAdmitted, book))
    {
      if !Live(sockets[s]) {
        return;
      }
      if parsed.Some? {
        ProcessOrderBookData(sockets[s], parsed.value, now);
      }
    }

    /** `onerror` of socket `s` (lines 177-184): clears the flags of a live run and schedules nothing. */
    method OnError(s: nat)
      requires Valid() && s < |sockets|
      modifies this`isConnected, this`isConnecting, this`connectingRef
      ensures Valid()
      ensures !Live(sockets[s]) ==> unchanged(this)
      ensures Live(sockets[s]) ==> !isConnected && !isConnecting && !connectingRef
    {
      if !Live(sockets[s]) {
        return;
      }
      isConnected, isConnecting, connectingRef := false, false, false;
    }

    /**
     * `onclose` of socket `s` (lines 186-212). In a live run it clears the flags
     * and any pending retry; then an unclean close with budget left counts the
     * attempt and retries after `BackoffDelay`, a spent budget loads mock data,
     * and a clean close with budget left schedules nothing.
     */
    method OnClose(s: nat, wasClean: bool, now: int, draw: Draw)
      requires Valid() && s < |sockets| && ValidDraw(draw)
      modifies this`isConnected, this`isConnecting, this`connectingRef, this`reconnectAttempts,
        this`timers, this`reconnectRef, this`nextTimer, this`book, this`mockRef
      ensures Valid()
      ensures !Live(sockets[s]) ==> unchanged(this)
      ensures Live(sockets[s]) ==> !isConnected && !isConnecting && !connectingRef
      ensures Live(sockets[s]) && !wasClean && old(reconnectAttempts) < MaxReconnectAttempts ==>
        && reconnectAttempts == old(reconnectAttempts) + 1
        && reconnectRef == Some(old(nextTimer)) && nextTimer == old(nextTimer) + 1
        && timers == Cancel(old(timers), old(reconnectRef))[old(nextTimer) := Retry(BackoffDelay(reconnectAttempts), generation)]
        && book == old(book) && mockRef == old(mockRef)
      ensures Live(sockets[s]) && old(reconnectAttempts) >= MaxReconnectAttempts ==>
        && reconnectAttempts == old(reconnectAttempts) && reconnectRef == old(reconnectRef)
        && book == MockBook(draw, now)
        && mockRef == Some(old(nextTimer)) && nextTimer == old(nextTimer) + 1
        && timers == Cancel(Cancel(old(timers), old(reconnectRef)), old(mockRef))[old(nextTimer) := MockRefresh(MockRefreshMs, generation)]
      ensures Live(sockets[s]) && wasClean && old(reconnectAttempts) < MaxReconnectAttempts ==>
        && reconnectAttempts == old(reconnectAttempts) && reconnectRef == old(reconnectRef)
        && timers == Cancel(old(timers), old(reconnectRef)) && nextTimer == old(nextTimer)
        && book == old(book) && mockRef == old(mockRef)
    {
      var gen := sockets[s];
      if !Live(gen) {
        return;
      }
      var pending := Cancel(timers, reconnectRef);
      ConnectingKeepsValid(timers, nextTimer, reconnectRef, mockRef, generation, mounted, connectingRef, false);
      CancelKeepsValid(timers, nextTimer, reconnectRef, mockRef, generation, mounted, false, reconnectRef);
      isConnected, isConnecting, connectingRef := false, false, false;
      if !wasClean && reconnectAttempts < MaxReconnectAttempts {
        timers := pending;
        ScheduleRetry(gen, BackoffDelay(reconnectAttempts + 1));
      } else {
        timers := pending;
        if reconnectAttempts >= MaxReconnectAttempts {
          // line 209 clears `isConnecting` once more before the mock data is loaded
          LoadMockData(gen, now, draw);
        }
      }
    }

    /**
     * The retry timer `id` firing (lines 203-206 and 224-227): it sets
     * `isConnecting` and calls `connectWebSocket` of its run. The run is live and
     * no attempt is outstanding while a retry waits, so the call either loads
     * mock data, when the budget is spent by then (`isConnecting` then stays
     * true), or makes a new attempt.
     */
    method FireRetry(id: nat, constructed: bool, now: int, draw: Draw)
      requires Valid() && id in timers && timers[id].Retry? && ValidDraw(draw)
      modifies this
      ensures Valid()
      ensures !old(connectingRef) && old(mounted) && old(timers[id].generation) == generation
      ensures symbol == old(symbol) && generation == old(generation) && mounted
      ensures isConnected == old(isConnected) && lastAdmitted == old(lastAdmitted)
      ensures old(reconnectAttempts) >= MaxReconnectAttempts ==>
        && isConnecting && book == MockBook(draw, now)
        && mockRef == Some(old(nextTimer)) && nextTimer == old(nextTimer) + 1
        && timers == Cancel(old(timers) - {id}, old(mockRef))[old(nextTimer) := MockRefresh(MockRefreshMs, generation)]
        && sockets == old(sockets) && wsRef == old(wsRef) && sent == old(sent)
        && !connectingRef && reconnectAttempts == old(reconnectAttempts) && reconnectRef == old(reconnectRef)
      ensures old(reconnectAttempts) < MaxReconnectAttempts ==>
        && sent == old(sent) + CloseOf(old(wsRef))
        && book == old(book) && mockRef == old(mockRef)
        && (constructed ==>
              && connectingRef && isConnecting
              && sockets == old(sockets) + [generation] && wsRef == Some(|old(sockets)|)
              && reconnectAttempts == old(reconnectAttempts)
              && timers == old(timers) - {id} && reconnectRef == old(reconnectRef) && nextTimer == old(nextTimer))
        && (!constructed ==>
              && !connectingRef && !isConnecting
              && sockets == old(sockets) && wsRef == None
              && reconnectAttempts == old(reconnectAttempts) + 1
              && reconnectRef == Some(old(nextTimer)) && nextTimer == old(nextTimer) + 1
              && timers == (old(timers) - {id})[old(nextTimer) := Retry(ConstructionRetryDelay(reconnectAttempts), generation)])
    {
      var task := timers[id];
      timers := timers - {id};
      isConnecting := true;
      Connect(task.generation, constructed, now, draw);
    }

    /**
     * The mock refresh interval `id` firing (lines 68-76): a fresh mock snapshot
     * when its run is live. The interval stays pending.
     */
    method FireMockRefresh(id: nat, now: int, draw: Draw)
      requires Valid() && id in timers && timers[id].MockRefresh? && ValidDraw(draw)
      modifies this`book
      ensures Valid()
      ensures book == MockBook(draw, now)
    {
      var gen := timers[id].generation;
      if Live(gen) {
        var bids := GenerateBids(draw.bidSizes);
        var asks := GenerateAsks(draw.askSizes);
        MockBookValid(draw, now);
        book := Book(bids, asks, Some(now));
      }
    }

    /**
     * The effect's cleanup (lines 239-257): the run stops being live, the socket
     * is closed and forgotten, and the retry timer and the refresh interval are
     * cleared. Afterwards no retry or refresh is pending and every callback of
     * every socket does nothing.
     */
    method Cleanup()
      requires Valid()
      modifies this`mounted, this`connectingRef, this`wsRef, this`sent, this`timers, this`reconnectRef, this`mockRef
      ensures Valid()
      ensures !mounted && !connectingRef && wsRef == None && reconnectRef == None && mockRef == None
      ensures sent == old(sent) + CloseOf(old(wsRef))
      ensures timers == Cancel(Cancel(old(timers), old(reconnectRef)), old(mockRef))
      ensures forall id :: id in timers ==> timers[id].Nudge?
      ensures forall g :: !Live(g)
    {
      var pending := Cancel(Cancel(timers, reconnectRef), mockRef);
      CancelKeepsValid(timers, nextTimer, reconnectRef, mockRef, generation, mounted, connectingRef, reconnectRef);
      CancelKeepsValid(Cancel(timers, reconnectRef), nextTimer, reconnectRef, mockRef, generation, mounted, connectingRef, mockRef);
      IdleTimersValid(pending, nextTimer, None, None, generation, false, false);
      mounted, connectingRef := false, false;
      sent, wsRef := sent + CloseOf(wsRef), None;
      timers, reconnectRef, mockRef := pending, None, None;
    }

    /**
     * The manual `reconnect` command (lines 261-280): reset the counter, clear
     * the connecting flag, close the current socket (the ref keeps it), stop the
     * mock refresh and schedule the timestamp nudge. It opens no socket and
     * leaves a pending retry alone.
     */
    method Reconnect()
      requires Valid()
      modifies this`reconnectAttempts, this`connectingRef, this`isConnecting, this`sent,
        this`timers, this`mockRef, this`nextTimer
      ensures Valid()
      ensures reconnectAttempts == 0 && !connectingRef && isConnecting && mockRef == None
      ensures sent == old(sent) + CloseOf(wsRef)
      ensures nextTimer == old(nextTimer) + 1
      ensures timers == Cancel(old(timers), old(mockRef))[old(nextTimer) := Nudge(NudgeDelayMs)]
      ensures forall id :: id in timers ==> !timers[id].MockRefresh?
    {
      var pending := Cancel(timers, mockRef)[nextTimer := Nudge(NudgeDelayMs)];
      ConnectingKeepsValid(timers, nextTimer, reconnectRef, mockRef, generation, mounted, connectingRef, false);
      CancelKeepsValid(timers, nextTimer, reconnectRef, mockRef, generation, mounted, false, mockRef);
      ScheduleKeepsValid(Cancel(timers, mockRef), nextTimer, reconnectRef, mockRef, generation, mounted, false,
                         Nudge(NudgeDelayMs), reconnectRef, None);
      reconnectAttempts, connectingRef, isConnecting := 0, false, true;
      sent := sent + CloseOf(wsRef);
      timers, mockRef, nextTimer := pending, None, nextTimer + 1;
    }

    /** The nudge timer `id` firing (lines 276-279): only the book's timestamp moves. */
    method FireNudge(id: nat, now: int)
      requires Valid() && id in timers && timers[id].Nudge?
      modifies this`timers, this`book
      ensures Valid()
      ensures timers == old(timers) - {id}
      ensures book == old(book).(lastUpdate := Some(now))
    {
      timers, book := timers - {id}, book.(lastUpdate := Some(now));
    }

    /** The `disconnect` command (lines 282-287): close the current socket (the ref keeps it) and show disconnected. */
    method Disconnect()
      requires Valid()
      modifies this`sent, this`isConnected
      ensures Valid()
      ensures sent == old(sent) + CloseOf(wsRef) && !isConnected
    {
      sent, isConnected := sent + CloseOf(wsRef), false;
    }
  }

  /** At most one reconnect retry and at most one mock refresh interval are ever pending. */
  lemma SingleTimers(h: OrderBookHook)
    requires h.Valid()
    ensures forall a, b :: a in h.timers && b in h.timers && h.timers[a].Retry? && h.timers[b].Retry? ==> a == b
    ensures forall a, b :: a in h.timers && b in h.timers && h.timers[a].MockRefresh? && h.timers[b].MockRefresh? ==> a == b
  {
  }
}
