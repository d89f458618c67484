/** The canonical calendar order that the pivot's columns are restricted to (app.py:55-58). */
module Months {
  import opened Frames
  import opened Sequences

  /** The twelve month labels, in calendar order. */
  const MonthOrder: seq<string> := ["Jan", "Feb", "Mar", "Apr", "May", "Jun",
                                    "Jul", "Aug", "Sep", "Oct", "Nov", "Dec"]

  lemma MonthOrderDistinct()
    ensures NoDup(MonthOrder)
  {
  }

  /** The position of a canonical month in the calendar, 0 for "Jan". */
  function Rank(m: string): nat
    requires m in MonthOrder
  {
    IndexOf(MonthOrder, m)
  }

  /** The comprehension `[m for m in order if m in labels]`, over column labels that are cells. */
  function Present(order: seq<string>, labels: set<Value>): (ms: seq<string>)
    ensures |ms| <= |order|
    ensures forall m :: m in ms <==> m in order && Text(m) in labels
    ensures NoDup(order) ==> NoDup(ms)
  {
    if order == [] then []
    else (if Text(order[0]) in labels then [order[0]] else []) + Present(order[1..], labels)
  }

  /**
   * `available_months`: the canonical months that occur among the column labels, without
   * repetition. A label outside the twelve (" Jan", "January", a number) is dropped.
   */
  function AvailableMonths(labels: set<Value>): (ms: seq<string>)
    ensures |ms| <= |MonthOrder| == 12
    ensures forall m :: m in ms <==> m in MonthOrder && Text(m) in labels
    ensures NoDup(ms)
  {
    MonthOrderDistinct();
    Present(MonthOrder, labels)
  }

  /** Past a head that differs from `x`, the position of `x` is one more than in the tail. */
  lemma IndexOfTail(order: seq<string>, x: string)
    requires order != [] && x in order[1..] && x != order[0]
    ensures x in order && IndexOf(order, x) == 1 + IndexOf(order[1..], x)
  {
  }

  /** `ms` lists elements of `order` by strictly increasing position in `order`. */
  ghost predicate FollowsOrder(ms: seq<string>, order: seq<string>) {
    && (forall k :: 0 <= k < |ms| ==> ms[k] in order)
    && (forall i, j :: 0 <= i < j < |ms| ==> IndexOf(order, ms[i]) < IndexOf(order, ms[j]))
  }

  /** Putting the head of `order` in front of a list that follows the tail keeps it in order. */
  lemma ConsFollowsOrder(order: seq<string>, rest: seq<string>, keepHead: bool)
    requires order != [] && NoDup(order)
    requires FollowsOrder(rest, order[1..])
    ensures FollowsOrder((if keepHead then [order[0]] else []) + rest, order)
  {
    var tail := order[1..];
    forall k | 0 <= k < |rest|
      ensures rest[k] in order && IndexOf(order, rest[k]) == 1 + IndexOf(tail, rest[k])
    {
      IndexOfTail(order, rest[k]);
    }
    var h := if keepHead then 1 else 0;
    var ms := (if keepHead then [order[0]] else []) + rest;
    forall i, j | 0 <= i < j < |ms|
      ensures IndexOf(order, ms[i]) < IndexOf(order, ms[j])
    {
      assert ms[j] == rest[j - h];
      if i >= h {
        assert ms[i] == rest[i - h];
      }
    }
  }

  /** The kept labels appear in the order of `order`. */
  lemma {:induction false} PresentFollowsOrder(order: seq<string>, labels: set<Value>)
    requires NoDup(order)
    ensures FollowsOrder(Present(order, labels), order)
  {
    if order != [] {
      var tail := order[1..];
      assert NoDup(tail) by {
        forall i, j | 0 <= i < j < |tail| ensures tail[i] != tail[j] {
          assert tail[i] == order[i + 1] && tail[j] == order[j + 1];
        }
      }
      PresentFollowsOrder(tail, labels);
      ConsFollowsOrder(order, Present(tail, labels), Text(order[0]) in labels);
    }
  }

  /** `available_months` follows calendar order strictly. */
  lemma AvailableMonthsInCalendarOrder(labels: set<Value>)
    ensures var ms := AvailableMonths(labels);
      forall i, j :: 0 <= i < j < |ms| ==> Rank(ms[i]) < Rank(ms[j])
  {
    var order := MonthOrder;
    MonthOrderDistinct();
    PresentFollowsOrder(order, labels);
    assert AvailableMonths(labels) == Present(order, labels);
  }

  /** When every label of `order` is present, nothing is dropped and the order is `order` itself. */
  lemma {:induction false} PresentAll(order: seq<string>, labels: set<Value>)
    requires forall m :: m in order ==> Text(m) in labels
    ensures Present(order, labels) == order
  {
    if order != [] {
      PresentAll(order[1..], labels);
    }
  }

  /** With all twelve months among the columns, they come out as the full calendar. */
  lemma AllMonthsAvailable(labels: set<Value>)
    requires forall m :: m in MonthOrder ==> Text(m) in labels
    ensures AvailableMonths(labels) == MonthOrder
  {
    PresentAll(MonthOrder, labels);
  }
}
