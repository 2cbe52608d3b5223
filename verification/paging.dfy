/**
 * The page arithmetic of the list endpoints (the leaderboard and the social
 * feed): a page skips `(page - 1) * limit` documents, shows at most `limit`,
 * and the reply reports `Math.ceil(total / limit)` pages.
 */
module Paging {

  /** `(page - 1) * limit`. */
  function Skip(page: int, limit: int): int {
    (page - 1) * limit
  }

  /** A JavaScript number that `Math.ceil(total / limit)` can produce. */
  datatype PageCount = Finite(n: int) | Infinity | NaN

  /** `Math.ceil(total / limit)`, including division by zero. */
  function Pages(total: nat, limit: int): (r: PageCount)
    ensures limit > 0 ==> r.Finite? && (r.n - 1) * limit < total <= r.n * limit
    ensures limit == 0 ==> r == if total == 0 then NaN else Infinity
    ensures limit < 0 ==> r.Finite? && r.n <= 0
  {
    if limit > 0 then
      var q := (total + limit - 1) / limit;
      CeilBounds(total, limit);
      Finite(q)
    else if limit == 0 then
      if total == 0 then NaN else Infinity
    else
      Finite(-(total / -limit))
  }

  lemma CeilBounds(total: nat, limit: int)
    requires limit > 0
    ensures var q := (total + limit - 1) / limit; (q - 1) * limit < total <= q * limit
  {
    var a := total + limit - 1;
    var q, r := a / limit, a % limit;
    assert a == q * limit + r && 0 <= r < limit;
    assert (q - 1) * limit == q * limit - limit;
  }

  /** Every document lies on exactly one page, and that page is within the reported page count. */
  lemma PageOfIndex(total: nat, limit: int, k: nat)
    requires limit > 0 && k < total
    ensures var p := k / limit + 1;
      1 <= p <= Pages(total, limit).n && Skip(p, limit) <= k < Skip(p, limit) + limit
    ensures forall p :: Skip(p, limit) <= k < Skip(p, limit) + limit ==> p == k / limit + 1
  {
    var p := k / limit + 1;
    var n := Pages(total, limit).n;
    assert k == (k / limit) * limit + k % limit;
    assert Skip(p, limit) == (k / limit) * limit;
    if p > n {
      assert (n - 1) * limit < total <= n * limit;
      MulMonotone(n, p - 1, limit);
      assert false;
    }
    forall p' | Skip(p', limit) <= k < Skip(p', limit) + limit
      ensures p' == p
    {
      if p' < p {
        MulMonotone(p', p - 1, limit);
      } else if p' > p {
        MulMonotone(p, p' - 1, limit);
      }
    }
  }

  lemma MulMonotone(a: int, b: int, c: int)
    requires a <= b && c > 0
    ensures a * c <= b * c
  {
  }

  /** How many documents a query returns for `limit(n)`: 0 means no limit, a negative n means |n|. */
  function Take(available: int, limit: int): (n: nat)
    ensures n <= if available < 0 then 0 else available
    ensures available > 0 && limit != 0 ==> n == if available < Abs(limit) then available else Abs(limit)
    ensures limit == 0 ==> n == if available < 0 then 0 else available
  {
    var cap := if limit < 0 then -limit else limit;
    if available <= 0 then 0 else if limit == 0 || cap > available then available else cap
  }

  function Abs(n: int): nat {
    if n < 0 then -n else n
  }

  /** `.skip(skip).limit(limit)` over documents already in query order: a contiguous run of them. */
  function Window<T>(s: seq<T>, skip: nat, limit: int): (r: seq<T>)
    ensures |r| == Take(|s| - skip, limit)
    ensures forall i :: 0 <= i < |r| ==> skip + i < |s| && r[i] == s[skip + i]
  {
    if skip >= |s| then [] else s[skip..skip + Take(|s| - skip, limit)]
  }

  /** Consecutive pages of the same size tile the documents: page p+1 starts where page p ends. */
  lemma WindowsTile<T>(s: seq<T>, page: int, limit: int)
    requires page >= 1 && limit >= 1
    ensures Window(s, Skip(page, limit), limit) + Window(s, Skip(page + 1, limit), limit)
            == Window(s, Skip(page, limit), 2 * limit)
  {
    var a := Skip(page, limit);
    assert Skip(page + 1, limit) == a + limit;
  }
}
