/**
 * Splitting the rows of an image among workers and putting the pieces back
 * together. Each parallel renderer cuts `[0, height)` into consecutive row
 * ranges; this module states what it means for such ranges to tile the
 * image and proves that every row then belongs to exactly one range.
 */
module RowPartition {

  /** The rows `[start, end)` handed to one worker. */
  datatype Span = Span(start: int, end: int)

  predicate InSpan(s: Span, r: int) { s.start <= r < s.end }

  function Length(s: Span): int { s.end - s.start }

  /** No span runs backwards, and each one ends where the next begins. */
  predicate Contiguous(spans: seq<Span>)
  {
    && (forall k :: 0 <= k < |spans| ==> spans[k].start <= spans[k].end)
    && (forall k :: 0 <= k < |spans| - 1 ==> spans[k].end == spans[k + 1].start)
  }

  /** The spans, in order, tile the rows `[0, height)`. */
  predicate Tiles(spans: seq<Span>, height: int)
  {
    && Contiguous(spans)
    && (if spans == [] then height == 0 else spans[0].start == 0 && spans[|spans| - 1].end == height)
  }

  /** An earlier span ends no later than a later one starts. */
  lemma {:induction false} ContiguousOrdered(spans: seq<Span>, j: int, k: int)
    requires Contiguous(spans) && 0 <= j < k < |spans|
    ensures spans[j].end <= spans[k].start
  {
    if j + 1 < k {
      ContiguousOrdered(spans, j, k - 1);
    }
  }

  /** `ContiguousOrdered` for every pair at once. */
  lemma ContiguousOrderedAll(spans: seq<Span>)
    requires Contiguous(spans)
    ensures forall j, k :: 0 <= j < k < |spans| ==> spans[j].end <= spans[k].start
  {
    forall j, k | 0 <= j < k < |spans|
      ensures spans[j].end <= spans[k].start
    {
      ContiguousOrdered(spans, j, k);
    }
  }

  /** Every span of a tiling lies inside `[0, height)`. */
  lemma TilesBounds(spans: seq<Span>, height: int)
    requires Tiles(spans, height)
    ensures forall k :: 0 <= k < |spans| ==> 0 <= spans[k].start <= spans[k].end <= height
  {
    ContiguousOrderedAll(spans);
    forall k | 0 <= k < |spans|
      ensures 0 <= spans[k].start <= spans[k].end <= height
    {
      if 0 < k {
        assert spans[0].end <= spans[k].start;
      }
      if k < |spans| - 1 {
        assert spans[k].end <= spans[|spans| - 1].start;
      }
    }
  }

  /** The span a row lies in: the first one that ends after it. */
  function Owner(spans: seq<Span>, r: int): (k: nat)
    requires Contiguous(spans) && spans != []
    requires spans[0].start <= r < spans[|spans| - 1].end
    ensures k < |spans| && InSpan(spans[k], r)
    decreases |spans|
  {
    if r < spans[0].end then 0 else 1 + Owner(spans[1..], r)
  }

  /** A row lies in no span but its owner: the spans do not overlap. */
  lemma {:induction false} OwnerUnique(spans: seq<Span>, r: int, k: int)
    requires Contiguous(spans) && 0 <= k < |spans| && InSpan(spans[k], r)
    ensures spans[0].start <= r < spans[|spans| - 1].end
    ensures Owner(spans, r) == k
  {
    ContiguousOrderedAll(spans);
    var o := Owner(spans, r);
    assert spans[0].start <= spans[k].start && spans[k].end <= spans[|spans| - 1].end by {
      if 0 < k { assert spans[0].end <= spans[k].start; }
      if k < |spans| - 1 { assert spans[k].end <= spans[|spans| - 1].start; }
    }
  }

  /** In a tiling of `[0, height)` every row has an owner. */
  lemma TilesCover(spans: seq<Span>, height: int, r: int)
    requires Tiles(spans, height) && 0 <= r < height
    ensures spans != [] && spans[0].start <= r < spans[|spans| - 1].end
  {
  }

  /** The total number of rows in a list of spans. */
  function TotalLength(spans: seq<Span>): int
  {
    if spans == [] then 0 else Length(spans[0]) + TotalLength(spans[1..])
  }

  /** Contiguous spans hold exactly the rows between the first start and the last end. */
  lemma {:induction false} ContiguousTotal(spans: seq<Span>)
    requires Contiguous(spans) && spans != []
    ensures TotalLength(spans) == spans[|spans| - 1].end - spans[0].start
  {
    if |spans| > 1 {
      ContiguousTotal(spans[1..]);
    }
  }

  /** A tiling of `[0, height)` holds `height` rows in all. */
  lemma {:induction false} TilesTotal(spans: seq<Span>, height: int)
    requires Tiles(spans, height)
    ensures TotalLength(spans) == height
  {
    if spans != [] {
      ContiguousTotal(spans);
    }
  }

  /** `(j + 1) * r == j * r + r`. */
  lemma MulStep(j: int, r: int)
    ensures (j + 1) * r == j * r + r
  {
  }

  /** `height` splits into `n` whole parts of `height / n` rows and a remainder below `n`. */
  lemma DivisionParts(height: nat, n: int)
    requires n >= 1
    ensures (n - 1) * (height / n) + height / n + height % n == height
    ensures 0 <= height % n < n && height / n >= 0
  {
    MulStep(n - 1, height / n);
  }
}
