/**
 * A paginator that serves an in-memory list of items `perPage` at a time,
 * and what `Paginate` does with it.  Two behaviours of src/index.js show
 * up against it: a request for page `ceil(total / perPage)`, which holds no
 * item, and whole response objects in the output where their `results` were
 * meant.  `PaginateIntended` rejects a page size below 1, requests pages
 * `1 .. pages - 1` of any paginator and concatenates their `results`;
 * `PaginateServedIntended` shows that on the served resource this is
 * exactly the served items.
 */
module Resources {
  import opened Pagerton

  /** `x` clamped into `0 .. n`. */
  function Clamp(x: int, n: nat): (c: nat)
    ensures c <= n
    ensures 0 <= x <= n ==> c == x
    ensures x < 0 ==> c == 0
    ensures x > n ==> c == n
  {
    if x < 0 then 0 else if x > n then n else x
  }

  /** Page `k` of `items` served `perPage` at a time, with the total count; out-of-range pages are empty. */
  function ServePage<T>(items: seq<Value<T>>, perPage: nat, k: int): (p: Page<T>)
    ensures p.total == |items| && p.perPage == Some(perPage)
  {
    var lo := Clamp(k * perPage, |items|);
    var hi := Clamp(k * perPage + perPage, |items|);
    Page(items[lo..hi], Some(perPage), |items|)
  }

  /** The paginator backed by `items`. */
  function Server<T>(items: seq<Value<T>>, perPage: nat): (paginator: int -> Page<T>)
  {
    k => ServePage(items, perPage, k)
  }

  /** The `results` of pages `0 .. count - 1` of `paginator`, concatenated in page order. */
  function PageItems<T>(paginator: int -> Page<T>, count: nat): (r: seq<Value<T>>)
  {
    if count == 0 then [] else PageItems(paginator, count - 1) + paginator(count - 1).results
  }

  /** Multiplying by a non-negative factor keeps the order. */
  lemma MulMonotone(a: int, b: int, f: int)
    requires a <= b && f >= 0
    ensures a * f <= b * f
  {
    assert b * f - a * f == (b - a) * f;
  }

  /** `k * perPage < n` exactly when `k` is below `ceil(n / perPage)`. */
  lemma BelowPageCount(n: int, perPage: int, k: int)
    requires perPage >= 1
    ensures k * perPage < n <==> k < CeilDiv(n, perPage)
  {
    var c := CeilDiv(n, perPage);
    if k < c {
      MulMonotone(k, c - 1, perPage);
    } else {
      MulMonotone(c, k, perPage);
    }
  }

  /** Page `k >= 0` holds an item exactly when `k < ceil(|items| / perPage)`. */
  lemma ServedPageNonEmpty<T>(items: seq<Value<T>>, perPage: nat, k: nat)
    requires perPage >= 1
    ensures ServePage(items, perPage, k).results != [] <==> k < CeilDiv(|items|, perPage)
  {
    var x := k * perPage;
    assert x >= 0;
    assert ServePage(items, perPage, k).results != [] <==> x < |items|;
    BelowPageCount(|items|, perPage, k);
  }

  /** Served page `j` is the slice between the clamped bounds `j * perPage` and `(j + 1) * perPage`. */
  lemma ServedSlice<T>(items: seq<Value<T>>, perPage: nat, j: nat)
    ensures Server(items, perPage)(j).results
         == items[Clamp(j * perPage, |items|)..Clamp((j + 1) * perPage, |items|)]
  {
    assert (j + 1) * perPage == j * perPage + perPage;
  }

  /** The first `m` pages together are the first `m * perPage` items. */
  lemma {:induction false} ServedPrefix<T>(items: seq<Value<T>>, perPage: nat, m: nat)
    ensures PageItems(Server(items, perPage), m) == items[..Clamp(m * perPage, |items|)]
  {
    if m > 0 {
      var j := m - 1;
      ServedPrefix(items, perPage, j);
      ServedSlice(items, perPage, j);
      var lo, hi := Clamp(j * perPage, |items|), Clamp(m * perPage, |items|);
      assert items[..lo] + items[lo..hi] == items[..hi];
    }
  }

  /** Pages `0 .. ceil(|items| / perPage) - 1` hold every item, in order. */
  lemma ServedPagesCover<T>(items: seq<Value<T>>, perPage: nat)
    requires perPage >= 1
    ensures PageItems(Server(items, perPage), CeilDiv(|items|, perPage)) == items
  {
    var c := CeilDiv(|items|, perPage);
    ServedPrefix(items, perPage, c);
    assert items[..|items|] == items;
  }

  /** The probe of the served resource is done exactly when one page holds everything. */
  lemma ServedProbeDone<T>(items: seq<Value<T>>, perPage: nat)
    ensures Done(ServePage(items, perPage, 0)) <==> |items| <= perPage
    ensures Done(ServePage(items, perPage, 0)) ==> ServePage(items, perPage, 0).results == items
  {
  }

  // ---------------------------------------------------------------------
  // the code as written, on the served resource
  // ---------------------------------------------------------------------

  /**
   * `Paginate` on a resource of more than one page: it asks for pages
   * `0 .. c` with `c = ceil(|items| / perPage)`, and page `c` is empty; and
   * its output is the first page's items followed by `c` response objects,
   * not the remaining items.
   */
  method PaginateServedAsWritten<T>(items: seq<T>, perPage: nat) returns (out: Outcome<T>)
    requires perPage >= 1 && |items| > perPage
    ensures var c := CeilDiv(|items|, perPage);
      && out.requests == PageIndices(c + 1)
      && ServePage(Items(items), perPage, c).results == []
      && |out.output| == perPage + c
      && out.output[..perPage] == Items(items)[..perPage]
      && (forall k :: perPage <= k < |out.output| ==> out.output[k].Response?)
  {
    var served := Server(Items(items), perPage);
    out := Paginate(served, NoOptions());
    var c := CeilDiv(|items|, perPage);
    ServedProbeDone(Items(items), perPage);
    FlattenWithoutArrays(served(0).results);
    ServedPageNonEmpty(Items(items), perPage, c);
  }

  /** Plain items as JavaScript values. */
  function Items<T>(items: seq<T>): (vs: seq<Value<T>>)
    ensures |vs| == |items|
    ensures forall k :: 0 <= k < |items| ==> vs[k] == Item(items[k])
  {
    seq(|items|, k requires 0 <= k < |items| => Item(items[k]))
  }

  // ---------------------------------------------------------------------
  // the intended behaviour
  // ---------------------------------------------------------------------

  /** The `results` of pages `0 .. m - 1`, each as one array. */
  function PageArrays<T>(paginator: int -> Page<T>, m: nat): (r: seq<Value<T>>)
    ensures |r| == m
    ensures forall k :: 0 <= k < m ==> r[k] == Array(paginator(k).results)
  {
    seq(m, k requires 0 <= k < m => Array(paginator(k).results))
  }

  /** Flattening one array per page gives the pages' `results` concatenated. */
  lemma {:induction false} FlattenPages<T>(paginator: int -> Page<T>, m: nat)
    ensures Flatten(PageArrays(paginator, m)) == PageItems(paginator, m)
  {
    if m > 0 {
      var s := PageArrays(paginator, m);
      var s' := PageArrays(paginator, m - 1);
      assert s == s' + [Array(paginator(m - 1).results)];
      FlattenPages(paginator, m - 1);
      FlattenAppend(s', [Array(paginator(m - 1).results)]);
      FlattenSmall(Array(paginator(m - 1).results));
    }
  }

  /** Page 0's `results` as one array, then one array per later page, flatten to the pages' `results` in order. */
  lemma IntendedAssembly<T>(paginator: int -> Page<T>, later: seq<Value<T>>)
    requires forall k :: 0 <= k < |later| ==> later[k] == Array(paginator(k + 1).results)
    ensures Flatten([Array(paginator(0).results)] + later) == PageItems(paginator, |later| + 1)
  {
    var all := [Array(paginator(0).results)] + later;
    forall k | 0 <= k < |all|
      ensures all[k] == PageArrays(paginator, |later| + 1)[k]
    {
      if k > 0 {
        assert all[k] == later[k - 1];
      }
    }
    assert all == PageArrays(paginator, |later| + 1);
    FlattenPages(paginator, |later| + 1);
  }

  /** The corrected `paginate`'s answer: an outcome, or a rejected page size. */
  datatype Checked<T> = Paginated(outcome: Outcome<T>) | BadPageSize(perPage: int)

  /**
   * `paginate` with a page size below 1 rejected, pages `1 .. pages - 1`
   * requested and their `results` concatenated after page 0's: the output is
   * the `results` of pages `0 .. pages - 1` in page order, and page `k` is
   * the `k`-th request.
   */
  method PaginateIntended<T>(paginator: int -> Page<T>, options: Options) returns (out: Checked<T>)
    ensures Done(paginator(0)) ==>
      out == Paginated(Outcome(paginator(0).results, [0], None))
    ensures !Done(paginator(0)) && PerPageOf(paginator(0)) < 1 ==>
      out == BadPageSize(PerPageOf(paginator(0)))
    ensures !Done(paginator(0)) && PerPageOf(paginator(0)) >= 1 ==>
      var probe := paginator(0);
      var pages := CeilDiv(probe.total, PerPageOf(probe));
      && pages >= 1
      && out.Paginated?
      && out.outcome.requests == PageIndices(pages)
      && out.outcome.output == PageItems(paginator, pages)
      && out.outcome.schedule == Some(Schedule(pages - 1, ResolveOptions(options)))
  {
    var probe := Fetch(paginator, 0);
    var results := probe.response.results;
    if |results| >= probe.response.total {
      return Paginated(Outcome(results, [probe.pageIndex], None));
    }
    var perPage := PerPageOf(probe.response);
    if perPage < 1 {
      return BadPageSize(perPage);
    }
    var config := ResolveOptions(options);
    var pages := CeilDiv(probe.response.total, perPage);
    var promises := GenerateFunctions(pages - 1, (i: int) => Fetch(paginator, i + 1));
    var calls := Throttle(promises);
    assert forall k :: 0 <= k < |calls| ==> calls[k] == Fetch(paginator, k + 1);
    var pageResults := seq(|calls|, k requires 0 <= k < |calls| => Array(calls[k].response.results));
    var requests := [probe.pageIndex] + seq(|calls|, k requires 0 <= k < |calls| => calls[k].pageIndex);

    assert requests == PageIndices(|calls| + 1);
    assert forall k :: 0 <= k < |pageResults| ==> pageResults[k] == Array(paginator(k + 1).results);
    IntendedAssembly(paginator, pageResults);
    out := Paginated(Outcome(Flatten([Array(results)] + pageResults), requests, Some(Schedule(|promises|, config))));
  }

  /**
   * The intended `paginate` on the served resource returns every item; every
   * page it requests holds an item unless the resource is empty, in which
   * case only page 0 is requested.
   */
  method PaginateServedIntended<T>(items: seq<T>, perPage: nat) returns (out: Outcome<T>)
    requires perPage >= 1
    ensures out.output == Items(items)
    ensures forall k :: 0 <= k < |out.requests| ==> out.requests[k] == k
    ensures forall k :: 0 <= k < |out.requests| ==> ServePage(Items(items), perPage, k).results != [] || items == []
    ensures |out.requests| == if |items| > perPage then CeilDiv(|items|, perPage) else 1
  {
    var served := Server(Items(items), perPage);
    var checked := PaginateIntended(served, NoOptions());
    ServedProbeDone(Items(items), perPage);
    ServedPagesCover(Items(items), perPage);
    out := checked.outcome;
    forall k | 0 <= k < |out.requests|
      ensures ServePage(Items(items), perPage, k).results != [] || items == []
    {
      ServedPageNonEmpty(Items(items), perPage, k);
    }
  }

  /** With a page size of 0 the corrected `paginate` fails instead of building deferred calls. */
  method PaginateZeroPerPage<T>(items: seq<T>) returns (out: Checked<T>)
    requires items != []
    ensures out == BadPageSize(0)
  {
    var served := Server(Items(items), 0);
    out := PaginateIntended(served, NoOptions());
  }
}
