/** The page loop shared by getAllSecurityTests, getAllRecipientsForSecurityTest,
    getAllCampaigns and getAllGroups. The API is a page source: page number to
    either that page's records or an error. The loop asks for pages 1, 2, 3, ...
    appends each page to an accumulator, stops after the first page holding
    fewer than PageSize records (an empty page included), and gives up with no
    records at the first page error. It has no other exit, so the model
    requires that some page is short or an error. */
module Pagination {
  import opened Results

  /** countPerPage: the per_page query value and the full-page threshold. */
  const PageSize: nat := 500

  /** The error of a whole collection: the page whose request failed and why. */
  datatype PageError<+E> = PageFailed(page: nat, cause: E)

  /** A page that ends the loop: an error, or fewer than PageSize records. */
  predicate EndsCollection<T, E>(page: Result<seq<T>, E>)
  {
    page.Err? || |page.value| < PageSize
  }

  /** Some page ends the loop, so the loop terminates. */
  ghost predicate EventuallyStops<T, E>(fetch: nat -> Result<seq<T>, E>)
  {
    exists k: nat :: 1 <= k && EndsCollection(fetch(k))
  }

  /** k is the first page that ends the loop. */
  ghost predicate IsLastPage<T, E>(fetch: nat -> Result<seq<T>, E>, k: nat)
  {
    && 1 <= k
    && EndsCollection(fetch(k))
    && forall j: nat :: 1 <= j < k ==> !EndsCollection(fetch(j))
  }

  lemma {:induction false} LastPageBelow<T, E>(fetch: nat -> Result<seq<T>, E>, k: nat)
    requires 1 <= k && EndsCollection(fetch(k))
    ensures exists j: nat :: IsLastPage(fetch, j)
    decreases k
  {
    if forall j: nat :: 1 <= j < k ==> !EndsCollection(fetch(j)) {
      assert IsLastPage(fetch, k);
    } else {
      var j: nat :| 1 <= j < k && EndsCollection(fetch(j));
      LastPageBelow(fetch, j);
    }
  }

  lemma LastPageUnique<T, E>(fetch: nat -> Result<seq<T>, E>, a: nat, b: nat)
    requires IsLastPage(fetch, a) && IsLastPage(fetch, b)
    ensures a == b
  {
  }

  /** The number of the last page the loop requests. */
  ghost function LastPage<T, E>(fetch: nat -> Result<seq<T>, E>): (k: nat)
    requires EventuallyStops(fetch)
    ensures IsLastPage(fetch, k)
  {
    var k0: nat :| 1 <= k0 && EndsCollection(fetch(k0));
    LastPageBelow(fetch, k0);
    var k: nat :| IsLastPage(fetch, k);
    k
  }

  /** Pages 1 to n concatenated in page order. */
  function Prefix<T, E>(fetch: nat -> Result<seq<T>, E>, n: nat): seq<T>
    requires forall j: nat :: 1 <= j <= n ==> fetch(j).Ok?
    decreases n
  {
    if n == 0 then [] else Prefix(fetch, n - 1) + fetch(n).value
  }

  /** What the loop returns: pages 1 to LastPage concatenated, or the error of
      the last page with the number of that page and no records. */
  ghost function Collected<T, E>(fetch: nat -> Result<seq<T>, E>): Result<seq<T>, PageError<E>>
    requires EventuallyStops(fetch)
  {
    var k := LastPage(fetch);
    if fetch(k).Err? then Err(PageFailed(k, fetch(k).error)) else Ok(Prefix(fetch, k))
  }

  /** The pages 1, 2, ..., n in the order they are requested. */
  function PageNumbers(n: nat): seq<nat>
  {
    seq(n, i requires 0 <= i < n => i + 1)
  }

  /** The page loop. `requested` records the page numbers asked for. */
  method CollectPages<T, E>(fetch: nat -> Result<seq<T>, E>)
    returns (r: Result<seq<T>, PageError<E>>, ghost requested: seq<nat>)
    requires EventuallyStops(fetch)
    ensures r == Collected(fetch)
    ensures requested == PageNumbers(LastPage(fetch))
  {
    ghost var bound: nat :| 1 <= bound && EndsCollection(fetch(bound));
    var all: seq<T> := [];
    var i: nat := 1;
    requested := [];
    while true
      invariant 1 <= i <= bound
      invariant forall j: nat :: 1 <= j < i ==> !EndsCollection(fetch(j))
      invariant all == Prefix(fetch, i - 1)
      invariant requested == PageNumbers(i - 1)
      decreases bound - i
    {
      var next := fetch(i);
      requested := requested + [i];
      if next.Err? {
        LastPageUnique(fetch, i, LastPage(fetch));
        r := Err(PageFailed(i, next.error));
        return;
      }
      all := all + next.value;
      if |next.value| < PageSize {
        LastPageUnique(fetch, i, LastPage(fetch));
        r := Ok(all);
        return;
      }
      i := i + 1;
    }
  }

  // ---------------------------------------------------------------
  // What the collected result is.

  /** Records keep their page and their place inside it: record t of page j
      sits right after everything from pages 1 to j - 1. */
  lemma {:induction false} PrefixAt<T, E>(fetch: nat -> Result<seq<T>, E>, n: nat, j: nat, t: nat)
    requires forall p: nat :: 1 <= p <= n ==> fetch(p).Ok?
    requires 1 <= j <= n && t < |fetch(j).value|
    ensures |Prefix(fetch, j - 1)| + t < |Prefix(fetch, n)|
    ensures Prefix(fetch, n)[|Prefix(fetch, j - 1)| + t] == fetch(j).value[t]
    decreases n
  {
    if j < n {
      PrefixAt(fetch, n - 1, j, t);
    }
  }

  /** Every page before the last holds at least PageSize records. */
  lemma {:induction false} PrefixLength<T, E>(fetch: nat -> Result<seq<T>, E>, n: nat)
    requires forall p: nat :: 1 <= p <= n ==> fetch(p).Ok? && |fetch(p).value| >= PageSize
    ensures |Prefix(fetch, n)| >= PageSize * n
    decreases n
  {
    if n > 0 {
      PrefixLength(fetch, n - 1);
    }
  }

  /** N full pages followed by one short page: exactly N + 1 requests, and the
      result is all of their records in order, PageSize * N + |short page| of them. */
  lemma FullPagesThenShort<T, E>(fetch: nat -> Result<seq<T>, E>, n: nat)
    requires forall p: nat :: 1 <= p <= n ==> fetch(p).Ok? && |fetch(p).value| == PageSize
    requires fetch(n + 1).Ok? && |fetch(n + 1).value| < PageSize
    ensures EventuallyStops(fetch)
    ensures LastPage(fetch) == n + 1
    ensures Collected(fetch) == Ok(Prefix(fetch, n + 1))
    ensures |Collected(fetch).value| == PageSize * n + |fetch(n + 1).value|
  {
    assert IsLastPage(fetch, n + 1);
    LastPageUnique(fetch, n + 1, LastPage(fetch));
    ExactLength(fetch, n);
  }

  lemma {:induction false} ExactLength<T, E>(fetch: nat -> Result<seq<T>, E>, n: nat)
    requires forall p: nat :: 1 <= p <= n ==> fetch(p).Ok? && |fetch(p).value| == PageSize
    ensures |Prefix(fetch, n)| == PageSize * n
    decreases n
  {
    if n > 0 {
      ExactLength(fetch, n - 1);
    }
  }

  /** An empty first page yields an empty result after one request. */
  lemma EmptyFirstPage<T, E>(fetch: nat -> Result<seq<T>, E>)
    requires fetch(1) == Ok([])
    ensures EventuallyStops(fetch)
    ensures LastPage(fetch) == 1 && PageNumbers(LastPage(fetch)) == [1]
    ensures Collected(fetch) == Ok([])
  {
    assert IsLastPage(fetch, 1);
    LastPageUnique(fetch, 1, LastPage(fetch));
    assert Prefix(fetch, 1) == Prefix(fetch, 0) + [];
  }

  /** The collection fails exactly when some page fails before any short
      page; the error names that page and carries its cause. */
  lemma CollectedFailsAtFirstError<T, E>(fetch: nat -> Result<seq<T>, E>, k: nat)
    requires 1 <= k && fetch(k).Err?
    requires forall j: nat :: 1 <= j < k ==> fetch(j).Ok? && |fetch(j).value| >= PageSize
    ensures EventuallyStops(fetch)
    ensures Collected(fetch) == Err(PageFailed(k, fetch(k).error))
  {
    assert IsLastPage(fetch, k);
    LastPageUnique(fetch, k, LastPage(fetch));
  }

  /** A successful collection saw no error on any requested page, and every
      page but the last was full. */
  lemma CollectedOk<T, E>(fetch: nat -> Result<seq<T>, E>)
    requires EventuallyStops(fetch) && Collected(fetch).Ok?
    ensures forall j: nat :: 1 <= j <= LastPage(fetch) ==> fetch(j).Ok?
    ensures |Collected(fetch).value| >= PageSize * (LastPage(fetch) - 1)
  {
    PrefixLength(fetch, LastPage(fetch) - 1);
  }
}
