/**
 * The fan-out loop every screen runs over a generated list: for each item
 * in array order, a plan decides whether to issue one create request, and
 * the loop stops at the first `null` item, whose property read throws.
 */
module FanOut {
  import opened Wrappers
  import opened Js
  import opened Spira

  /** What the loop does with the item at an index: one request, or nothing. */
  type Plan = (Json, nat) -> Option<Event>

  /** The index of the first `null` item, or the length when there is none. */
  function FirstNull(items: seq<Json>): (n: nat)
    ensures n <= |items|
    ensures forall i :: 0 <= i < n ==> items[i] != JNull
    ensures n < |items| ==> items[n] == JNull
  {
    if items == [] || items[0] == JNull then 0
    else
      var k := FirstNull(items[1..]);
      assert forall i :: 1 <= i < k + 1 ==> items[i] == items[1..][i - 1];
      1 + k
  }

  /** The loop was cut short by a `null` item. */
  predicate Aborted(items: seq<Json>)
  {
    FirstNull(items) < |items|
  }

  /** The number of the first `n` items the plan issues a request for. */
  function Selected(items: seq<Json>, n: nat, plan: Plan): (k: nat)
    requires n <= |items|
    ensures k <= n
  {
    if n == 0 then 0 else Selected(items, n - 1, plan) + (if plan(items[n - 1], n - 1).Some? then 1 else 0)
  }

  /** The requests issued for the first `n` items, in array order. */
  function Posts(items: seq<Json>, n: nat, plan: Plan): (es: seq<Event>)
    requires n <= |items|
    ensures |es| == Selected(items, n, plan)
  {
    if n == 0 then []
    else
      var e := plan(items[n - 1], n - 1);
      Posts(items, n - 1, plan) + (if e.Some? then [e.value] else [])
  }

  /** The requests the whole loop issues: those of the items before the first `null`. */
  function Issued(items: seq<Json>, plan: Plan): (es: seq<Event>)
    ensures |es| <= FirstNull(items)
  {
    Posts(items, FirstNull(items), plan)
  }

  /** A request is issued exactly when the plan makes it for some item among the first `n`. */
  lemma {:induction false} PostsAreSelected(items: seq<Json>, n: nat, plan: Plan, e: Event)
    requires n <= |items|
    ensures e in Posts(items, n, plan) <==> exists i :: 0 <= i < n && plan(items[i], i) == Some(e)
  {
    if n > 0 {
      PostsAreSelected(items, n - 1, plan, e);
      var last := plan(items[n - 1], n - 1);
      assert Posts(items, n, plan) == Posts(items, n - 1, plan) + (if last.Some? then [last.value] else []);
      if plan(items[n - 1], n - 1) == Some(e) {
        assert e in Posts(items, n, plan);
      }
    }
  }

  /** Every one of the first `n` items gets its request exactly when `n` requests are issued. */
  lemma {:induction false} AllIssued(items: seq<Json>, n: nat, plan: Plan)
    requires n <= |items|
    ensures |Posts(items, n, plan)| == n <==> forall i :: 0 <= i < n ==> plan(items[i], i).Some?
  {
    if n > 0 {
      AllIssued(items, n - 1, plan);
      if plan(items[n - 1], n - 1).None? {
        assert Selected(items, n - 1, plan) <= n - 1;
      }
    }
  }

  /** An item the plan skips means fewer requests than items. */
  lemma SkippedItemMeansFewer(items: seq<Json>, plan: Plan, i: nat)
    requires i < |items| && plan(items[i], i).None?
    ensures |Posts(items, |items|, plan)| < |items|
  {
    AllIssued(items, |items|, plan);
  }

  /** Requests issued for a prefix stay issued, in the same places, as the loop goes on. */
  lemma {:induction false} PostsPrefix(items: seq<Json>, m: nat, n: nat, plan: Plan)
    requires m <= n <= |items|
    ensures Posts(items, m, plan) <= Posts(items, n, plan)
    decreases n - m
  {
    if m < n {
      PostsPrefix(items, m, n - 1, plan);
    }
  }

  /**
   * The loop itself: the requests in array order and whether it was cut
   * short by a `null` item (after whose requests the caller's `catch`
   * shows its error).
   */
  method Issue(items: seq<Json>, plan: Plan) returns (es: seq<Event>, aborted: bool)
    ensures es == Issued(items, plan)
    ensures aborted <==> Aborted(items)
  {
    es := [];
    var i := 0;
    while i < |items| && items[i] != JNull
      invariant i <= FirstNull(items)
      invariant es == Posts(items, i, plan)
    {
      var e := plan(items[i], i);
      if e.Some? {
        es := es + [e.value];
      }
      i := i + 1;
    }
    aborted := i < |items|;
  }

  /** The array `obj[key]` when that is a truthy array. */
  function ItemsOf(obj: Value, key: string): (r: Option<seq<Json>>)
    ensures r.Some? <==> TruthyField(obj, key) && IsArray(Field(obj, key))
  {
    if TruthyField(obj, key) && IsArray(Field(obj, key)) then Some(Field(obj, key).value.items) else None
  }

  // The countdown shared by the success callbacks: `count--`, where an
  // undefined count (`None`) stays not-a-number.

  function Decrement(count: Option<int>): (r: Option<int>)
    ensures count.Some? <==> r.Some?
    ensures r.Some? ==> r.value == count.value - 1
  {
    if count.Some? then Some(count.value - 1) else None
  }

  /** The count after `k` success callbacks. */
  function Countdown(count: Option<int>, k: nat): (r: Option<int>)
    ensures count.None? ==> r.None?
    ensures count.Some? ==> r == Some(count.value - k)
  {
    if k == 0 then count else Decrement(Countdown(count, k - 1))
  }

  /**
   * With the count set to the number of items and one success callback per
   * issued request, the count reaches 0 exactly when every item was issued,
   * so one skipped item leaves the operation unfinished.
   */
  lemma CompletesOnlyWhenAllIssued(items: seq<Json>, plan: Plan)
    ensures Countdown(Some(|items|), |Posts(items, |items|, plan)|) == Some(0)
      <==> forall i :: 0 <= i < |items| ==> plan(items[i], i).Some?
  {
    AllIssued(items, |items|, plan);
  }
}
