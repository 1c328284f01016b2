/**
 * `waitForElement`: poll the page every 200 ms for an element until it is
 * found or the timeout has elapsed. The page is a sequence of per-tick
 * observations; ticks past its end see nothing.
 */
module Utils {
  import opened Wrappers

  const Interval := 200
  const DefaultTimeout := 10000

  /** What the query sees at tick `k` (the first tick is 0). */
  function Observe<E>(ticks: seq<Option<E>>, k: nat): Option<E> {
    if k < |ticks| then ticks[k] else None
  }

  /** The number of ticks after which `elapsed >= timeout`: the least n >= 1
      with n * 200 >= timeout. */
  function TickLimit(timeout: int): (n: nat)
    ensures n >= 1
    ensures n * Interval >= timeout
    ensures n == 1 || (n - 1) * Interval < timeout
  {
    if timeout <= Interval then 1 else (timeout + Interval - 1) / Interval
  }

  /** With the default timeout the element is queried at most 50 times. */
  lemma DefaultTickLimit()
    ensures TickLimit(DefaultTimeout) == 50
  {
  }

  /** The first tick, below `n`, at which an element is seen. */
  function FirstPresent<E>(ticks: seq<Option<E>>, n: nat): (k: Option<nat>)
    ensures k.Some? ==> k.value < n && Observe(ticks, k.value).Some?
    ensures k.Some? ==> forall j :: 0 <= j < k.value ==> Observe(ticks, j).None?
    ensures k.None? ==> forall j :: 0 <= j < n ==> Observe(ticks, j).None?
  {
    if n == 0 then None
    else match FirstPresent(ticks, n - 1)
      case Some(k) => Some(k)
      case None => if Observe(ticks, n - 1).Some? then Some(n - 1) else None
  }

  /** The element the wait settles on, if any: the one seen at the first tick
      that sees one, before the timeout. */
  function Found<E>(ticks: seq<Option<E>>, timeout: int): (e: Option<E>)
    ensures e.Some? <==> FirstPresent(ticks, TickLimit(timeout)).Some?
    ensures e.Some? ==> exists k :: 0 <= k < TickLimit(timeout) && Observe(ticks, k) == e
  {
    match FirstPresent(ticks, TickLimit(timeout))
    case Some(k) => Observe(ticks, k)
    case None => None
  }

  /** How the promise settles: with the element, or with "Element not found". */
  datatype WaitResult<E> = Resolved(element: E) | Rejected

  /**
   * The `setInterval` loop. Each tick queries the page once; a found element
   * resolves the promise and clears the timer; then `elapsed` grows by the
   * interval and, once it reaches the timeout, the timer is cleared and the
   * promise rejected (which has no effect if it already resolved).
   * Returns the settled value, the number of queries made and the final
   * `elapsed`.
   */
  method WaitForElement<E>(ticks: seq<Option<E>>, timeout: int) returns (r: WaitResult<E>, queries: nat, elapsed: int)
    ensures elapsed == Interval * queries
    ensures 1 <= queries <= TickLimit(timeout)
    ensures forall k :: 0 <= k < queries - 1 ==> Observe(ticks, k).None?
    ensures r.Resolved? ==> Observe(ticks, queries - 1) == Some(r.element)
    ensures r.Rejected? ==> queries == TickLimit(timeout) && Observe(ticks, queries - 1).None?
    ensures match FirstPresent(ticks, TickLimit(timeout))
      case Some(k) => r == Resolved(Observe(ticks, k).value) && queries == k + 1
      case None => r == Rejected && queries == TickLimit(timeout)
    ensures r.Resolved? <==> Found(ticks, timeout).Some?
    ensures r.Resolved? ==> r.element == Found(ticks, timeout).value
  {
    var settled: Option<WaitResult<E>> := None;
    var cleared := false;
    queries, elapsed := 0, 0;
    while !cleared
      invariant elapsed == Interval * queries
      invariant queries <= TickLimit(timeout)
      invariant !cleared ==> settled.None? && (queries == 0 || elapsed < timeout)
      invariant cleared ==> queries >= 1 && settled.Some?
      invariant forall k :: 0 <= k < queries - 1 ==> Observe(ticks, k).None?
      invariant !cleared ==> forall k :: 0 <= k < queries ==> Observe(ticks, k).None?
      invariant settled.Some? && settled.value.Resolved? ==> Observe(ticks, queries - 1) == Some(settled.value.element)
      invariant settled.Some? && settled.value.Rejected? ==>
        queries == TickLimit(timeout) && Observe(ticks, queries - 1).None?
      decreases TickLimit(timeout) - queries, !cleared
    {
      var el := Observe(ticks, queries);
      queries := queries + 1;
      if el.Some? {
        cleared := true;
        if settled.None? {
          settled := Some(Resolved(el.value));
        }
      }
      elapsed := elapsed + Interval;
      if elapsed >= timeout {
        cleared := true;
        if settled.None? {
          settled := Some(Rejected);
        }
      }
    }
    r := settled.value;
  }
}
