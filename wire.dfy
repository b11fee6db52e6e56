/**
 * The decoding half of `processOrderBookData` (src/hooks/useOrderBook.js:89-118):
 * a parsed feed message is either turned into a new bid side and a new ask side
 * or rejected, in which case the book is left alone.
 *
 * Messages are the values `JSON.parse` produced, restricted to what the code
 * inspects. Property reads on a missing value give `undefined`; reading a
 * property of `null`, or calling `.map` on something that is not an array,
 * throws, and the `catch` at line 120 turns every such throw into "no change".
 */
module Wire {
  import opened Wrappers
  import opened Levels

  /** The result of `parseFloat`: a number, or NaN for text that does not parse (or for `undefined`). */
  datatype Parsed = Number(value: real) | NotANumber

  /**
   * One element of a side's level array. An object (or any other non-null
   * value, whose `px` and `sz` read as `undefined`) gives a price and a parsed
   * size; `null` makes `level.px` throw.
   */
  datatype RawLevel = RawLevel(px: real, sz: Parsed) | NullLevel

  /** One of the two entries of `levels`: an array of levels, or anything else (`.map` then throws). */
  datatype RawSide = LevelArray(entries: seq<RawLevel>) | NotAnArray

  /** The `levels` property: an array of sides, or anything that fails `levels && Array.isArray(levels)`. */
  datatype LevelsField = LevelList(sides: seq<RawSide>) | NoLevels

  /** The nested `data` object of a message. */
  datatype Payload = Payload(coin: Option<string>, levels: LevelsField)

  /**
   * A parsed message. `Object` is any JSON object (`data` is `None` when the
   * property is missing or falsy); `Other` is a scalar or `null`, for which the
   * shape test at line 91 fails or throws.
   */
  datatype Message = Object(channel: Option<string>, data: Option<Payload>, levels: LevelsField) | Other

  /** JavaScript truthiness of a string property: present and not empty. */
  predicate Truthy(s: Option<string>) {
    s.Some? && s.value != ""
  }

  /** The test at line 91: the `l2Book` channel, or a nested payload naming a coin. */
  predicate Identifies(m: Message) {
    m.Object? && (m.channel == Some("l2Book") || (m.data.Some? && Truthy(m.data.value.coin)))
  }

  /** `bookData = data.data || data` and its `levels` (lines 92-93). */
  function BookLevels(m: Message): LevelsField
    requires m.Object?
  {
    if m.data.Some? then m.data.value.levels else m.levels
  }

  /** A side whose `.map` runs to the end without throwing. */
  predicate Wellformed(raw: RawSide) {
    raw.LevelArray? && forall e :: e in raw.entries ==> e.RawLevel?
  }

  /** The two raw sides `[bidLevels, askLevels] = levels` (line 96), when the tests at lines 91 and 95 pass. */
  function Shape(m: Message): (r: Option<(RawSide, RawSide)>)
    ensures r.Some? <==> Identifies(m) && BookLevels(m).LevelList? && |BookLevels(m).sides| == 2
    ensures r.Some? ==> r.value == (BookLevels(m).sides[0], BookLevels(m).sides[1])
  {
    if Identifies(m) && BookLevels(m).LevelList? && |BookLevels(m).sides| == 2 then
      Some((BookLevels(m).sides[0], BookLevels(m).sides[1]))
    else
      None
  }

  /**
   * `map` to `{price, size}` then `filter(size > 0)` (lines 98-106): `None` when
   * an entry is `null`; otherwise exactly the levels of positive size, each as
   * often as its entry occurs. A NaN size fails `> 0` and is dropped like a
   * non-positive one. (The body keeps input order; the contract does not state
   * it, since after the sort order matters only among equal prices.)
   */
  function Positive(entries: seq<RawLevel>): (r: Option<seq<Level>>)
    ensures r.Some? <==> forall e :: e in entries ==> e.RawLevel?
    ensures r.Some? ==> forall l :: l in r.value <==> l.size > 0.0 && RawLevel(l.price, Number(l.size)) in entries
    ensures r.Some? ==> |r.value| <= |entries|
    ensures r.Some? ==> forall l :: l in r.value ==> l.size > 0.0
    ensures r.Some? ==> forall l ::
      multiset(r.value)[l] == (if l.size > 0.0 then multiset(entries)[RawLevel(l.price, Number(l.size))] else 0)
  {
    if entries == [] then Some([])
    else
      var e := entries[0];
      assert entries == [e] + entries[1..];
      match e
      case NullLevel => assert e in entries; None
      case RawLevel(px, sz) =>
        match Positive(entries[1..])
        case None => None
        case Some(rest) =>
          if sz.Number? && sz.value > 0.0 then Some([Level(px, sz.value)] + rest) else Some(rest)
  }

  /** One side through the whole pipeline: normalise, sort for the side, keep the top 15. */
  function Prepare(side: Side, raw: RawSide): (r: Option<seq<Level>>)
    ensures r.Some? <==> Wellformed(raw)
    ensures r.Some? ==> SideValid(side, r.value)
  {
    match raw
    case NotAnArray => None
    case LevelArray(entries) =>
      match Positive(entries)
      case None => None
      case Some(levels) =>
        TopOfSortedKeepsBest(side, levels);
        var kept := Top(SortSide(side, levels));
        assert forall l :: l in kept ==> l in multiset(levels);
        Some(kept)
  }

  /**
   * The new bid and ask sides a message carries, or `None` when the book must
   * stay as it is: the message is not an order-book message, its `levels` is
   * not an array of exactly two entries, or a side throws while it is mapped.
   */
  function Decode(m: Message): (r: Option<(seq<Level>, seq<Level>)>)
    ensures r.Some? <==> Shape(m).Some? && Wellformed(Shape(m).value.0) && Wellformed(Shape(m).value.1)
    ensures r.Some? ==> SideValid(Bids, r.value.0) && SideValid(Asks, r.value.1)
    ensures r.Some? ==> r.value == (Prepare(Bids, Shape(m).value.0).value, Prepare(Asks, Shape(m).value.1).value)
  {
    match Shape(m)
    case None => None
    case Some((bidLevels, askLevels)) =>
      match (Prepare(Bids, bidLevels), Prepare(Asks, askLevels))
      case (Some(bids), Some(asks)) => Some((bids, asks))
      case _ => None
  }

  /**
   * A prepared side is the best part of the input's positive levels: it holds
   * `min(15, n)` of the `n` levels of positive size, each one taken from an input
   * entry with that price and size, and none of the positive levels it leaves
   * out may stand before a level it keeps.
   */
  lemma PrepareKeepsBest(side: Side, entries: seq<RawLevel>)
    requires Positive(entries).Some?
    ensures var positive := Positive(entries).value;
      var kept := Prepare(side, LevelArray(entries)).value;
      && |kept| == (if |positive| <= MaxDepth then |positive| else MaxDepth)
      && multiset(kept) <= multiset(positive)
      && (forall l :: l in kept ==> l.size > 0.0 && RawLevel(l.price, Number(l.size)) in entries)
      && forall x, y :: x in kept && y in multiset(positive) - multiset(kept) ==> Precedes(side, x, y)
  {
    var positive := Positive(entries).value;
    var kept := Prepare(side, LevelArray(entries)).value;
    TopOfSortedKeepsBest(side, positive);
    forall l | l in kept
      ensures l in positive
    {
      assert l in multiset(kept);
    }
  }

  /** Worked example: a negative size removes that level; the rest is published as it came. */
  lemma DecodeExample()
    ensures Decode(Object(None, Some(Payload(Some("AVAX"), LevelList([
              LevelArray([RawLevel(29.50, Number(10.0)), RawLevel(29.49, Number(-1.0))]),
              LevelArray([RawLevel(29.55, Number(5.0))])]))), NoLevels))
            == Some(([Level(29.50, 10.0)], [Level(29.55, 5.0)]))
  {
    var bidEntries := [RawLevel(29.50, Number(10.0)), RawLevel(29.49, Number(-1.0))];
    var askEntries := [RawLevel(29.55, Number(5.0))];
    assert bidEntries[1..][1..] == [];
    assert Positive(bidEntries[1..]) == Some([]);
    assert [Level(29.50, 10.0)] + [] == [Level(29.50, 10.0)];
    assert Positive(bidEntries) == Some([Level(29.50, 10.0)]);
    assert askEntries[1..] == [];
    assert [Level(29.55, 5.0)] + [] == [Level(29.55, 5.0)];
    assert Positive(askEntries) == Some([Level(29.55, 5.0)]);
    assert SortSide(Bids, [Level(29.50, 10.0)]) == [Level(29.50, 10.0)];
    assert SortSide(Asks, [Level(29.55, 5.0)]) == [Level(29.55, 5.0)];
  }

  /**
   * Sides are sorted, not de-duplicated: two bids at one price both reach the
   * book, in the order they arrived (the sort is stable), so a published side
   * is only non-strictly ordered.
   */
  lemma DuplicatePricesKept(price: real, first: real, second: real)
    requires first > 0.0 && second > 0.0
    ensures Decode(Object(Some("l2Book"), None, LevelList([
              LevelArray([RawLevel(price, Number(first)), RawLevel(price, Number(second))]),
              LevelArray([])])))
            == Some(([Level(price, first), Level(price, second)], []))
  {
    var a, b := Level(price, first), Level(price, second);
    var entries := [RawLevel(price, Number(first)), RawLevel(price, Number(second))];
    assert entries[1..][1..] == [];
    assert [b] + [] == [b] && [a] + [b] == [a, b];
    assert Positive(entries[1..]) == Some([b]);
    assert Positive(entries) == Some([a, b]);
    assert [a, b][1..][1..] == [];
    assert SortSide(Bids, [b]) == [b];
    assert SortSide(Bids, [a, b]) == [a, b];
    assert Prepare(Bids, LevelArray(entries)) == Some([a, b]);
    assert Prepare(Asks, LevelArray([])) == Some([]);
  }
}
