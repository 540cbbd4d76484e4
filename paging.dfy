/**
 * The arithmetic behind the banner's endless paging: an unbounded page
 * position is reduced onto the six recycled item views and onto the data
 * items with Java's `%`, and paging starts near the middle of the int range.
 */
module BannerPaging {

  /** `Integer.MAX_VALUE`, also the adapter's page count. */
  const IntMax: int := 0x7fff_ffff

  /** The number of recycled item views `init` inflates. */
  const CacheSize: nat := 6

  /** The pager's offscreen page limit set by `init`. */
  const OffscreenLimit: nat := 2

  /** Java's `a % b`: the remainder of division truncated toward zero, with the sign of `a`. */
  function JavaRem(a: int, b: int): (r: int)
    requires b != 0
    ensures 0 <= a && 0 < b ==> 0 <= r < b && r == a % b
    ensures a < 0 && 0 < b ==> -b < r <= 0
  {
    if 0 <= a then a % b else -((-a) % b)
  }

  lemma MulBetween(n: int, k: int)
    requires 0 < n
    ensures k >= 1 ==> n * k >= n
    ensures k <= 0 ==> n * k <= 0
  {
  }

  /**
   * Pages fewer than `n` apart fall on different remainders. With six cache
   * views and an offscreen limit of 2, the at most six pages alive while the
   * pager moves by one page (current +-2 and the page coming in) therefore
   * never share an item view.
   */
  lemma SlotsDistinctWithin(p: int, q: int, n: int)
    requires 0 <= p < q && q - p < n
    ensures JavaRem(p, n) != JavaRem(q, n)
  {
    var k := q / n - p / n;
    assert p == n * (p / n) + p % n;
    assert q == n * (q / n) + q % n;
    if p % n == q % n {
      assert q - p == n * k;
      MulBetween(n, k);
    }
  }

  /** A quotient-remainder split with the remainder in range is the one `%` gives. */
  lemma ModUnique(a: int, n: int, q: int, r: int)
    requires 0 < n && 0 <= r < n && a == n * q + r
    ensures a % n == r
  {
    var q' := a / n;
    assert a == n * q' + a % n;
    assert n * (q - q') == a % n - r;
    MulBetween(n, q - q');
    MulBetween(n, q' - q);
  }

  /** Moving on by a whole cache length comes back to the same view. */
  lemma SlotPeriodic(p: int, n: int)
    requires 0 <= p && 0 < n
    ensures JavaRem(p + n, n) == JavaRem(p, n)
  {
    assert p == n * (p / n) + p % n;
    ModUnique(p + n, n, p / n + 1, p % n);
  }

  /**
   * The first page `max / 2 - max / 2 % cacheSize`: the largest multiple of the
   * cache size not above the middle page, so paging starts on cache view 0.
   */
  function InitialPage(max: int, cacheSize: int): (p: int)
    requires 0 <= max && 0 < cacheSize
    ensures 0 <= p <= max / 2
    ensures max / 2 - p < cacheSize
    ensures JavaRem(p, cacheSize) == 0
  {
    var half := max / 2;
    assert half == cacheSize * (half / cacheSize) + half % cacheSize;
    ModUnique(half - half % cacheSize, cacheSize, half / cacheSize, 0);
    half - JavaRem(half, cacheSize)
  }

  /** The banner's first page, 1073741820, is a valid adapter position. */
  lemma InitialPageValue()
    ensures InitialPage(IntMax, CacheSize) == 1073741820
    ensures InitialPage(IntMax, CacheSize) < IntMax
  {
  }
}
