/**
 * The throttle gate and the book replacement of `processOrderBookData`
 * (src/hooks/useOrderBook.js:83-118), as a function of the gate's last
 * admission time, the book, the message and the clock reading `now`.
 */
module Feed {
  import opened Wrappers
  import opened Levels
  import opened Wire

  /** Messages closer together than this are dropped (line 84; the unused 100 ms constant plays no part). */
  const ThrottleMs: int := 200

  /** What one message can change: the gate's timestamp (`lastUpdateRef`) and the published book. */
  datatype FeedState = FeedState(lastAdmitted: int, book: Book)

  /** A message that arrived at time `at` (`Date.now()` when it was handled). */
  datatype Delivery = Delivery(message: Message, at: int)

  predicate Admits(lastAdmitted: int, now: int) {
    now - lastAdmitted >= ThrottleMs
  }

  /**
   * One message: dropped by the gate, or admitted, in which case the gate's
   * timestamp moves to `now` before the message is even looked at, and the book
   * is replaced as a whole when the message decodes.
   */
  function Ingest(f: FeedState, m: Message, now: int): (r: FeedState)
    ensures BookValid(f.book) ==> BookValid(r.book)
    ensures r.book == f.book || (Admits(f.lastAdmitted, now) && r.book.lastUpdate == Some(now))
    ensures r.lastAdmitted == if Admits(f.lastAdmitted, now) then now else f.lastAdmitted
  {
    if !Admits(f.lastAdmitted, now) then f
    else
      match Decode(m)
      case Some((bids, asks)) => FeedState(now, Book(bids, asks, Some(now)))
      case None => FeedState(now, f.book)
  }

  /** A message less than 200 ms after the last admission changes nothing at all. */
  lemma ThrottledMessageIgnored(f: FeedState, m: Message, now: int)
    requires now - f.lastAdmitted < ThrottleMs
    ensures Ingest(f, m, now) == f
  {
  }

  /** An admitted message that decodes replaces both sides and the timestamp; nothing of the old book survives. */
  lemma AcceptedMessageReplacesBook(f: FeedState, m: Message, now: int)
    requires Admits(f.lastAdmitted, now) && Decode(m).Some?
    ensures Ingest(f, m, now) == FeedState(now, Book(Decode(m).value.0, Decode(m).value.1, Some(now)))
  {
  }

  /**
   * A message the gate admits but the decoder rejects leaves the book alone and
   * still uses up the slot: any message in the next 200 ms is dropped, however
   * well-formed it is.
   */
  lemma RejectedMessageConsumesSlot(f: FeedState, m: Message, now: int, next: Message, later: int)
    requires Admits(f.lastAdmitted, now) && Decode(m).None?
    requires now <= later < now + ThrottleMs
    ensures Ingest(f, m, now) == FeedState(now, f.book)
    ensures Ingest(Ingest(f, m, now), next, later) == FeedState(now, f.book)
  {
  }

  /** Of two messages less than 200 ms apart, where the first is admitted, only the first can have any effect. */
  lemma SecondWithinWindowDropped(f: FeedState, m1: Message, t1: int, m2: Message, t2: int)
    requires Admits(f.lastAdmitted, t1)
    requires t1 <= t2 < t1 + ThrottleMs
    ensures Ingest(Ingest(f, m1, t1), m2, t2) == Ingest(f, m1, t1)
  {
  }

  /** A stream of messages handled one after the other. */
  function IngestAll(f: FeedState, ds: seq<Delivery>): FeedState
    decreases |ds|
  {
    if ds == [] then f else IngestAll(Ingest(f, ds[0].message, ds[0].at), ds[1..])
  }

  /** The arrival times the gate admits in a stream; they depend on the times alone, never on what the messages hold. */
  function Admissions(lastAdmitted: int, ds: seq<Delivery>): seq<int>
    decreases |ds|
  {
    if ds == [] then []
    else if Admits(lastAdmitted, ds[0].at) then [ds[0].at] + Admissions(ds[0].at, ds[1..])
    else Admissions(lastAdmitted, ds[1..])
  }

  /** The gate bounds the rate: admitted times are at least 200 ms apart, and 200 ms after the admission before the stream. */
  lemma {:induction false} AdmissionsSpaced(lastAdmitted: int, ds: seq<Delivery>)
    ensures var r := Admissions(lastAdmitted, ds);
      && (|r| > 0 ==> r[0] - lastAdmitted >= ThrottleMs)
      && forall i :: 0 < i < |r| ==> r[i] - r[i - 1] >= ThrottleMs
    decreases |ds|
  {
    if ds != [] {
      if Admits(lastAdmitted, ds[0].at) {
        AdmissionsSpaced(ds[0].at, ds[1..]);
      } else {
        AdmissionsSpaced(lastAdmitted, ds[1..]);
      }
    }
  }

  /**
   * Over a whole stream the published book stays valid, the gate ends at the
   * last admitted time, and the book is either untouched or was last replaced
   * at one of the admitted times.
   */
  lemma {:induction false} IngestAllFollowsAdmissions(f: FeedState, ds: seq<Delivery>)
    requires BookValid(f.book)
    ensures var r := IngestAll(f, ds);
      var admitted := Admissions(f.lastAdmitted, ds);
      && BookValid(r.book)
      && r.lastAdmitted == (if admitted == [] then f.lastAdmitted else admitted[|admitted| - 1])
      && (r.book == f.book || (r.book.lastUpdate.Some? && r.book.lastUpdate.value in admitted))
    decreases |ds|
  {
    if ds != [] {
      var g := Ingest(f, ds[0].message, ds[0].at);
      IngestAllFollowsAdmissions(g, ds[1..]);
      if Admits(f.lastAdmitted, ds[0].at) {
        var rest := Admissions(ds[0].at, ds[1..]);
        assert Admissions(f.lastAdmitted, ds) == [ds[0].at] + rest;
      }
    }
  }
}
