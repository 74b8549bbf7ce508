/**
 * A model of the pagination engine of pagerton (src/index.js).
 *
 * `Paginate` asks the paginator for page 0, decides from its `results`
 * and `total` whether more pages are needed, computes the page count
 * `ceil(total / perPage)`, builds that many copies of one deferred fetch
 * with `GenerateFunctions`, hands them to the throttling scheduler and
 * returns `Flatten(results ++ allResults)`.
 *
 * JavaScript values are modelled by `Value`: an opaque item, an array, or
 * the object a paginator resolves to.  This is needed because
 * `Array.prototype.concat` spreads an argument one level deep only when it
 * is an array, and both `flatten` and the final assembly depend on that.
 */
module Pagerton {

  datatype Option<T> = None | Some(value: T)

  /** A JavaScript value as far as concat and flatten can tell them apart. */
  datatype Value<T> =
    | Item(item: T)                    // any non-array value (an element of a page)
    | Array(elems: seq<Value<T>>)      // a JavaScript array
    | Response(page: Page<T>)          // the object a paginator resolves to

  /** `{ results, perPage, total }`, as a paginator resolves it; `perPage` may be absent. */
  datatype Page<T> = Page(results: seq<Value<T>>, perPage: Option<int>, total: int)

  /** One call of the paginator: the page index asked for and what came back. */
  datatype Call<T> = Call(pageIndex: int, response: Page<T>)

  /** Calls the paginator on page `k`, recording the index it was asked for. */
  function Fetch<T>(paginator: int -> Page<T>, k: int): (c: Call<T>)
    ensures c.pageIndex == k && c.response == paginator(k)
  {
    Call(k, paginator(k))
  }

  // ---------------------------------------------------------------------
  // flatten
  // ---------------------------------------------------------------------

  /** What `prev.concat(v)` appends to `prev`: the elements of an array, any other value itself. */
  function Spread<T>(v: Value<T>): (r: seq<Value<T>>)
    ensures v.Array? ==> r == v.elems
    ensures !v.Array? ==> r == [v]
    ensures |r| == Width(v)
  {
    if v.Array? then v.elems else [v]
  }

  /** Number of elements `Spread(v)` contributes. */
  function Width<T>(v: Value<T>): (w: nat)
  {
    if v.Array? then |v.elems| else 1
  }

  /** Sum of the widths of the parts, left to right. */
  function TotalWidth<T>(parts: seq<Value<T>>): (w: nat)
  {
    if parts == [] then 0 else Width(parts[0]) + TotalWidth(parts[1..])
  }

  /** Reference definition: the parts spread and concatenated left to right. */
  function Concat<T>(parts: seq<Value<T>>): (r: seq<Value<T>>)
  {
    if parts == [] then [] else Spread(parts[0]) + Concat(parts[1..])
  }

  /** `rest.reduce((prev, current) => prev.concat(current), prev)`: a left fold. */
  function Reduce<T>(prev: seq<Value<T>>, rest: seq<Value<T>>): (r: seq<Value<T>>)
    ensures r == prev + Concat(rest)
    decreases |rest|
  {
    if rest == [] then prev
    else
      var r := Reduce(prev + Spread(rest[0]), rest[1..]);
      assert prev + Spread(rest[0]) + Concat(rest[1..]) == prev + Concat(rest);
      r
  }

  /** `flatten(arr)`: the left fold of concat from `[]`, which is the reference concatenation. */
  function Flatten<T>(arr: seq<Value<T>>): (r: seq<Value<T>>)
    ensures r == Concat(arr)
  {
    Reduce([], arr)
  }

  /** `flatten([])` is `[]` and `flatten([v])` is what `[].concat(v)` gives. */
  lemma FlattenSmall<T>(v: Value<T>)
    ensures Flatten<T>([]) == []
    ensures Flatten([v]) == Spread(v)
  {
    assert [v][1..] == [];
  }

  /** The length of `flatten(arr)` is the sum of the lengths its parts contribute. */
  lemma {:induction false} FlattenLength<T>(arr: seq<Value<T>>)
    ensures |Flatten(arr)| == TotalWidth(arr)
  {
    if arr != [] {
      FlattenLength(arr[1..]);
    }
  }

  lemma {:induction false} ConcatAppend<T>(a: seq<Value<T>>, b: seq<Value<T>>)
    ensures Concat(a + b) == Concat(a) + Concat(b)
    decreases |a|
  {
    if a == [] {
      assert a + b == b;
    } else {
      assert (a + b)[1..] == a[1..] + b;
      ConcatAppend(a[1..], b);
    }
  }

  /** `flatten` distributes over concatenation. */
  lemma FlattenAppend<T>(a: seq<Value<T>>, b: seq<Value<T>>)
    ensures Flatten(a + b) == Flatten(a) + Flatten(b)
  {
    ConcatAppend(a, b);
  }

  /** A sequence with no array in it is left unchanged by `flatten`. */
  lemma {:induction false} FlattenWithoutArrays<T>(arr: seq<Value<T>>)
    requires forall k :: 0 <= k < |arr| ==> !arr[k].Array?
    ensures Flatten(arr) == arr
  {
    if arr != [] {
      FlattenWithoutArrays(arr[1..]);
      assert Spread(arr[0]) == [arr[0]];
      assert Concat(arr) == [arr[0]] + Concat(arr[1..]);
    }
  }

  /**
   * `flatten` goes one level deep: a value is in `flatten(arr)` exactly when
   * it is a non-array element of `arr` or an element of an array element of
   * `arr`, so an array nested inside an array element comes through whole.
   */
  lemma {:induction false} FlattenMembers<T>(arr: seq<Value<T>>, x: Value<T>)
    ensures x in Flatten(arr) <==> exists j :: 0 <= j < |arr| && x in Spread(arr[j])
  {
    if arr != [] {
      var rest := arr[1..];
      FlattenMembers(rest, x);
      assert Flatten(arr) == Spread(arr[0]) + Flatten(rest);
      if x in Flatten(rest) {
        var j :| 0 <= j < |rest| && x in Spread(rest[j]);
        assert x in Spread(arr[j + 1]);
      }
      if exists j :: 0 <= j < |arr| && x in Spread(arr[j]) {
        var j :| 0 <= j < |arr| && x in Spread(arr[j]);
        if j > 0 {
          assert rest[j - 1] == arr[j];
        }
      }
    }
  }

  // ---------------------------------------------------------------------
  // generateFunctions
  // ---------------------------------------------------------------------

  /** `generateFunctions(pages, fn)`: pushes `fn` onto an empty array while `i < pages`. */
  method GenerateFunctions<F>(pages: int, fn: F) returns (arr: seq<F>)
    ensures |arr| == if pages > 0 then pages else 0
    ensures forall k :: 0 <= k < |arr| ==> arr[k] == fn
  {
    arr := [];
    var i := 0;
    while i < pages
      invariant 0 <= i <= (if pages > 0 then pages else 0)
      invariant |arr| == i
      invariant forall k :: 0 <= k < i ==> arr[k] == fn
      decreases pages - i
    {
      arr := arr + [fn];
      i := i + 1;
    }
  }

  // ---------------------------------------------------------------------
  // page count
  // ---------------------------------------------------------------------

  /** `Math.ceil(total / perPage)` on integers, for either sign of a non-zero divisor. */
  function CeilDiv(total: int, perPage: int): (pages: int)
    requires perPage != 0
    ensures perPage > 0 ==> (pages - 1) * perPage < total <= pages * perPage
    ensures perPage < 0 ==> pages * perPage <= total < (pages - 1) * perPage
    ensures perPage > 0 && total >= 0 ==> pages >= 0
    ensures perPage > 0 ==> (pages >= 1 <==> total > 0)
  {
    if perPage > 0 then -((-total) / perPage) else -(total / (-perPage))
  }

  /** A JavaScript number as far as `Math.ceil(total / perPage)` and the loop test `i < pages` can tell. */
  datatype JsNumber = Finite(n: int) | PosInfinity | NegInfinity | NaN

  /** `i < x` in JavaScript, for an integer `i`. */
  predicate LessThan(i: int, x: JsNumber)
  {
    match x
    case Finite(n) => i < n
    case PosInfinity => true
    case NegInfinity => false
    case NaN => false
  }

  /** `Math.ceil(total / perPage)` for every integer `perPage`, zero included. */
  function PageCountJs(total: int, perPage: int): (pages: JsNumber)
    ensures perPage != 0 ==> pages == Finite(CeilDiv(total, perPage))
    ensures perPage == 0 && total > 0 ==> pages == PosInfinity
  {
    if perPage != 0 then Finite(CeilDiv(total, perPage))
    else if total > 0 then PosInfinity
    else if total < 0 then NegInfinity
    else NaN
  }

  /**
   * With `perPage` 0 and a positive `total` the page count is `Infinity`,
   * and the loop test `i < pages` of `generateFunctions` holds for every
   * integer `i`: the loop pushes until the process runs out of memory.
   */
  lemma ZeroPerPageNeverStops(total: int, i: int)
    requires total > 0
    ensures LessThan(i, PageCountJs(total, 0))
    ensures forall pages :: PageCountJs(total, 0) != Finite(pages)
  {
  }

  /** `perPage = 1` when the response leaves it out. */
  function PerPageOf<T>(p: Page<T>): (n: int)
    ensures p.perPage.Some? ==> n == p.perPage.value
    ensures p.perPage.None? ==> n == 1
  {
    match p.perPage
    case Some(n) => n
    case None => 1
  }

  /**
   * The stopping test: page 0 already holds at least `total` results.  A
   * `total` of 0 or less always stops; going on means page 0 fell short of a
   * positive `total`.
   */
  predicate Done<T>(probe: Page<T>)
    ensures probe.total <= 0 ==> Done(probe)
    ensures !Done(probe) ==> 1 <= probe.total && |probe.results| < probe.total
  {
    |probe.results| >= probe.total
  }

  // ---------------------------------------------------------------------
  // options
  // ---------------------------------------------------------------------

  /** The jitter handed to the scheduler: the caller's function or the random default. */
  datatype Jitter = RandomJitter | CustomJitter(delay: (int, int) -> real)

  /** The caller's options object; `None` is an absent property (the default `{}` has none). */
  datatype Options = Options(jitter: Option<(int, int) -> real>, interval: Option<int>, concurrency: Option<int>)

  /** The options the scheduler is given, after defaults. */
  datatype Config = Config(jitter: Jitter, interval: int, concurrency: int)

  /** `options = {}`: the options object when the caller passes none; every setting takes its default. */
  function NoOptions(): (o: Options)
    ensures ResolveOptions(o) == Config(RandomJitter, 100, 2)
  {
    Options(None, None, None)
  }

  /** Destructuring with defaults: `jitter = defaultJitter, interval = 100, concurrency = 2`. */
  function ResolveOptions(options: Options): (c: Config)
    ensures options.interval.None? ==> c.interval == 100
    ensures options.interval.Some? ==> c.interval == options.interval.value
    ensures options.concurrency.None? ==> c.concurrency == 2
    ensures options.concurrency.Some? ==> c.concurrency == options.concurrency.value
    ensures options.jitter.None? <==> c.jitter == RandomJitter
    ensures options.jitter.Some? ==> c.jitter == CustomJitter(options.jitter.value)
  {
    Config(
      match options.jitter case Some(f) => CustomJitter(f) case None => RandomJitter,
      match options.interval case Some(n) => n case None => 100,
      match options.concurrency case Some(n) => n case None => 2)
  }

  // ---------------------------------------------------------------------
  // the scheduler
  // ---------------------------------------------------------------------

  /**
   * The throttling scheduler, seen only through its outputs: position `i` of
   * the result is what the deferred function submitted at position `i`
   * returns when called with `i`, whatever order the calls complete in.
   */
  function Throttle<R>(deferred: seq<int -> R>): (outputs: seq<R>)
    ensures |outputs| == |deferred|
    ensures forall i :: 0 <= i < |deferred| ==> outputs[i] == deferred[i](i)
  {
    seq(|deferred|, i requires 0 <= i < |deferred| => deferred[i](i))
  }

  /** How the scheduler was invoked: how many deferred fetches, with which options. */
  datatype Schedule = Schedule(count: nat, config: Config)

  /** What one `paginate` call returns, every page index it asked for, and the scheduler call. */
  datatype Outcome<T> = Outcome(output: seq<Value<T>>, requests: seq<int>, schedule: Option<Schedule>)

  // ---------------------------------------------------------------------
  // paginate
  // ---------------------------------------------------------------------

  /** Appending values none of which is an array: `flatten` leaves them whole after `flatten(head)`. */
  lemma AppendResponses<T>(head: seq<Value<T>>, tail: seq<Value<T>>)
    requires forall k :: 0 <= k < |tail| ==> tail[k].Response?
    ensures Flatten(head + tail) == Flatten(head) + tail
  {
    FlattenAppend(head, tail);
    FlattenWithoutArrays(tail);
  }

  /** The page indices `0 .. n - 1`, in ascending order. */
  function PageIndices(n: nat): (r: seq<int>)
    ensures |r| == n
    ensures forall k :: 0 <= k < n ==> r[k] == k
  {
    seq(n, k requires 0 <= k < n => k)
  }

  /** The response objects of pages `1 .. n`, in page order. */
  function LaterResponses<T>(paginator: int -> Page<T>, n: nat): (r: seq<Value<T>>)
    ensures |r| == n
    ensures forall k :: 0 <= k < n ==> r[k] == Response(paginator(k + 1))
  {
    seq(n, k requires 0 <= k < n => Response(paginator(k + 1)))
  }

  /**
   * `paginate(paginator, options)`.  When the probe of page 0 is done, its
   * results come back as they are and nothing else is requested.  Otherwise
   * `pages = ceil(total / perPage)` deferred calls are built; the one at
   * position `i` asks for page `i + 1`, so pages `0 .. pages` are requested
   * in ascending order, and the output is `flatten(results)` followed by the
   * whole response objects of pages `1 .. pages`.
   */
  method Paginate<T>(paginator: int -> Page<T>, options: Options) returns (out: Outcome<T>)
    requires Done(paginator(0)) || PerPageOf(paginator(0)) != 0
    ensures Done(paginator(0)) ==>
      out.output == paginator(0).results && out.requests == [0] && out.schedule == None
    ensures !Done(paginator(0)) ==>
      var probe := paginator(0);
      var pages := CeilDiv(probe.total, PerPageOf(probe));
      var n := if pages > 0 then pages else 0;
      && out.requests == PageIndices(n + 1)
      && out.output == Flatten(probe.results) + LaterResponses(paginator, n)
      && out.schedule == Some(Schedule(n, ResolveOptions(options)))
    ensures !Done(paginator(0)) && PerPageOf(paginator(0)) > 0 ==>
      var probe := paginator(0);
      var pages := CeilDiv(probe.total, PerPageOf(probe));
      && pages >= 1
      && (pages - 1) * PerPageOf(probe) < probe.total <= pages * PerPageOf(probe)
      && |out.requests| == pages + 1
  {
    var probe := Fetch(paginator, 0);
    var results := probe.response.results;
    if |results| >= probe.response.total {
      return Outcome(results, [probe.pageIndex], None);
    }
    var config := ResolveOptions(options);
    var pages := CeilDiv(probe.response.total, PerPageOf(probe.response));
    var promises := GenerateFunctions(pages, (i: int) => Fetch(paginator, i + 1));
    var calls := Throttle(promises);
    assert forall k :: 0 <= k < |calls| ==> calls[k] == Fetch(paginator, k + 1);
    var allResults := seq(|calls|, k requires 0 <= k < |calls| => Response(calls[k].response));
    var requests := [probe.pageIndex] + seq(|calls|, k requires 0 <= k < |calls| => calls[k].pageIndex);
    assert allResults == LaterResponses(paginator, |calls|);
    assert requests == PageIndices(|calls| + 1);
    AppendResponses(results, allResults);
    out := Outcome(Flatten(results + allResults), requests, Some(Schedule(|promises|, config)));
  }
}
