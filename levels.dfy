/**
 * Book state: price levels, the order each side of the book is kept in, the
 * stable sort that puts a side in that order and the cut to the top 15 levels.
 */
module Levels {
  import opened Wrappers

  /** One price level `{price, size}`; prices and sizes are the values `parseFloat` produced. */
  datatype Level = Level(price: real, size: real)

  datatype Side = Bids | Asks

  /** The published snapshot; `lastUpdate` is `null` until the first replacement. */
  datatype Book = Book(bids: seq<Level>, asks: seq<Level>, lastUpdate: Option<int>)

  /** At most this many levels per side are published (`slice(0, 15)`). */
  const MaxDepth: nat := 15

  const EmptyBook := Book([], [], None)

  /**
   * `a` may stand before `b` on `side`. Bids are sorted with `b.price - a.price`
   * (highest first), asks with `a.price - b.price` (lowest first); equal prices
   * may stand in either order, so the relation is not strict.
   */
  predicate Precedes(side: Side, a: Level, b: Level) {
    match side
    case Bids => a.price >= b.price
    case Asks => a.price <= b.price
  }

  predicate Sorted(side: Side, s: seq<Level>) {
    forall i, j :: 0 <= i < j < |s| ==> Precedes(side, s[i], s[j])
  }

  /** What a published side always satisfies: sorted for its side, no more than 15 levels, every size positive. */
  predicate SideValid(side: Side, s: seq<Level>) {
    |s| <= MaxDepth && Sorted(side, s) && forall l :: l in s ==> l.size > 0.0
  }

  predicate BookValid(b: Book) {
    SideValid(Bids, b.bids) && SideValid(Asks, b.asks)
  }

  lemma EmptyBookValid()
    ensures BookValid(EmptyBook)
  {
  }

  /**
   * Insert `x` into the sorted `s` in front of the first level it may precede,
   * so that `x`, which came earlier in the input, stays ahead of levels of equal
   * price: the insertion is stable, as `Array.prototype.sort` is.
   */
  function Insert(side: Side, x: Level, s: seq<Level>): (r: seq<Level>)
    requires Sorted(side, s)
    ensures Sorted(side, r)
    ensures multiset(r) == multiset(s) + multiset{x}
  {
    if s == [] || Precedes(side, x, s[0]) then
      [x] + s
    else
      var rest := Insert(side, x, s[1..]);
      HeadPrecedesAll(side, s, x, rest);
      assert s == [s[0]] + s[1..];
      [s[0]] + rest
  }

  /** The head of a sorted `s` that `x` does not precede may precede everything `Insert` builds from `s[1..]` and `x`. */
  lemma HeadPrecedesAll(side: Side, s: seq<Level>, x: Level, rest: seq<Level>)
    requires Sorted(side, s) && s != [] && !Precedes(side, x, s[0])
    requires multiset(rest) == multiset(s[1..]) + multiset{x}
    ensures forall k :: 0 <= k < |rest| ==> Precedes(side, s[0], rest[k])
  {
    forall k | 0 <= k < |rest|
      ensures Precedes(side, s[0], rest[k])
    {
      assert rest[k] in multiset(rest);
      if rest[k] != x {
        assert rest[k] in multiset(s[1..]);
        var j :| 0 <= j < |s[1..]| && s[1..][j] == rest[k];
        assert s[j + 1] == rest[k];
      }
    }
  }

  /** The stable sort the browser runs on each side (lines 108-109): sorted, and a permutation of its input. */
  function SortSide(side: Side, s: seq<Level>): (r: seq<Level>)
    ensures Sorted(side, r)
    ensures multiset(r) == multiset(s)
  {
    if s == [] then []
    else
      assert s == [s[0]] + s[1..];
      Insert(side, s[0], SortSide(side, s[1..]))
  }

  /** The first `min(15, |s|)` levels (`slice(0, 15)`). */
  function Top(s: seq<Level>): seq<Level> {
    if |s| <= MaxDepth then s else s[..MaxDepth]
  }

  /** In a sorted side, each of the first `k` levels may precede each level after them. */
  lemma SortedPrefixPrecedesRest(side: Side, s: seq<Level>, k: nat)
    requires Sorted(side, s) && k <= |s|
    ensures forall x, y :: x in s[..k] && y in multiset(s[k..]) ==> Precedes(side, x, y)
  {
    forall x, y | x in s[..k] && y in multiset(s[k..])
      ensures Precedes(side, x, y)
    {
      var i :| 0 <= i < k && s[..k][i] == x;
      var j :| 0 <= j < |s[k..]| && s[k..][j] == y;
      assert s[i] == x && s[k + j] == y;
    }
  }

  /** Cutting a sorted side after `k` levels: a sorted prefix, and together with the rest the same levels. */
  lemma SortedPrefix(side: Side, s: seq<Level>, k: nat)
    requires Sorted(side, s) && k <= |s|
    ensures Sorted(side, s[..k])
    ensures multiset(s) - multiset(s[..k]) == multiset(s[k..])
    ensures multiset(s[..k]) <= multiset(s)
  {
    assert s == s[..k] + s[k..];
  }

  /**
   * Sorting a side and keeping its top 15 levels gives a published side: it is
   * sorted, it has `min(15, n)` levels, each taken from the input, and no level
   * that was cut off may stand before one that was kept.
   */
  lemma TopOfSortedKeepsBest(side: Side, s: seq<Level>)
    ensures var kept := Top(SortSide(side, s));
      && Sorted(side, kept)
      && |kept| == (if |s| <= MaxDepth then |s| else MaxDepth)
      && multiset(kept) <= multiset(s)
      && forall x, y :: x in kept && y in multiset(s) - multiset(kept) ==> Precedes(side, x, y)
  {
    var sorted := SortSide(side, s);
    assert |sorted| == |s| by {
      assert |multiset(sorted)| == |multiset(s)|;
    }
    var k := if |s| <= MaxDepth then |s| else MaxDepth;
    assert Top(sorted) == sorted[..k];
    SortedPrefix(side, sorted, k);
    SortedPrefixPrecedesRest(side, sorted, k);
  }
}
