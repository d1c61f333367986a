/** The orders dashboard page, `src/app/dashboard/page.tsx`: orders counted
    per status for the chart, and delete and status-change handlers. */
module DashboardPage {
  import opened Js
  import Dashboard

  /** The status of every listed order, in list order. */
  function StatusesOf(orders: seq<Dashboard.AdminOrder>): (r: seq<string>)
    ensures |r| == |orders| && forall i :: 0 <= i < |orders| ==> r[i] == orders[i].status
  {
    seq(|orders|, i requires 0 <= i < |orders| => orders[i].status)
  }

  /** The statuses in their first-appearance order, each once. */
  function FirstOccurrences(xs: seq<string>): (r: seq<string>)
    decreases |xs|
  {
    if |xs| == 0 then []
    else
      var rest := FirstOccurrences(xs[..|xs| - 1]);
      if xs[|xs| - 1] in rest then rest else rest + [xs[|xs| - 1]]
  }

  function Count(xs: seq<string>, s: string): nat
    decreases |xs|
  {
    if |xs| == 0 then 0 else Count(xs[..|xs| - 1], s) + (if xs[|xs| - 1] == s then 1 else 0)
  }

  predicate Distinct(r: seq<string>)
  {
    forall i, j :: 0 <= i < j < |r| ==> r[i] != r[j]
  }

  /** Each status appears once, and exactly the statuses of the input do. */
  lemma {:induction false} FirstOccurrencesSpec(xs: seq<string>)
    ensures Distinct(FirstOccurrences(xs))
    ensures forall s :: s in FirstOccurrences(xs) <==> s in xs
    decreases |xs|
  {
    if |xs| > 0 {
      var init := xs[..|xs| - 1];
      FirstOccurrencesSpec(init);
      assert xs == init + [xs[|xs| - 1]];
    }
  }

  lemma {:induction false} CountAbsent(xs: seq<string>, s: string)
    requires s !in xs
    ensures Count(xs, s) == 0
    decreases |xs|
  {
    if |xs| > 0 {
      CountAbsent(xs[..|xs| - 1], s);
    }
  }

  /** A status occurs in the input iff it is counted at least once. */
  lemma {:induction false} CountPositive(xs: seq<string>, s: string)
    ensures Count(xs, s) > 0 <==> s in xs
    decreases |xs|
  {
    if |xs| > 0 {
      var init := xs[..|xs| - 1];
      CountPositive(init, s);
      assert xs == init + [xs[|xs| - 1]];
    }
  }

  function SumCounts(keys: seq<string>, xs: seq<string>): nat
    decreases |keys|
  {
    if |keys| == 0 then 0 else Count(xs, keys[0]) + SumCounts(keys[1..], xs)
  }

  lemma {:induction false} SumCountsAppendKey(keys: seq<string>, k: string, xs: seq<string>)
    ensures SumCounts(keys + [k], xs) == SumCounts(keys, xs) + Count(xs, k)
    decreases |keys|
  {
    if |keys| > 0 {
      assert (keys + [k])[1..] == keys[1..] + [k];
      SumCountsAppendKey(keys[1..], k, xs);
    }
  }

  /** Adding one more status `y` at the end raises the sum over distinct
      keys by one if `y` is among them, and leaves it otherwise. */
  lemma {:induction false} SumCountsExtend(keys: seq<string>, xs: seq<string>, y: string)
    requires Distinct(keys)
    ensures SumCounts(keys, xs + [y]) == SumCounts(keys, xs) + (if y in keys then 1 else 0)
    decreases |keys|
  {
    if |keys| > 0 {
      var ys := xs + [y];
      assert ys[..|ys| - 1] == xs;
      assert Count(ys, keys[0]) == Count(xs, keys[0]) + (if y == keys[0] then 1 else 0);
      SumCountsExtend(keys[1..], xs, y);
      if y == keys[0] {
        assert y !in keys[1..];
      } else {
        assert (y in keys) == (y in keys[1..]);
      }
    }
  }

  /** The per-status counts add up to the number of orders. */
  lemma {:induction false} CountsSumToTotal(xs: seq<string>)
    ensures SumCounts(FirstOccurrences(xs), xs) == |xs|
    decreases |xs|
  {
    if |xs| > 0 {
      var init := xs[..|xs| - 1];
      var y := xs[|xs| - 1];
      var rest := FirstOccurrences(init);
      CountsSumToTotal(init);
      FirstOccurrencesSpec(init);
      assert xs == init + [y];
      SumCountsExtend(rest, init, y);
      if y !in rest {
        SumCountsAppendKey(rest, y, xs);
        CountAbsent(init, y);
      }
    }
  }

  datatype ChartEntry = ChartEntry(name: string, value: nat)

  /** `chartData`: one entry per status, in first-appearance order, with the
      number of orders carrying it. */
  method ChartData(orders: seq<Dashboard.AdminOrder>) returns (data: seq<ChartEntry>)
    ensures |data| == |FirstOccurrences(StatusesOf(orders))|
    ensures forall i :: 0 <= i < |data| ==>
              data[i].name == FirstOccurrences(StatusesOf(orders))[i]
              && data[i].value == Count(StatusesOf(orders), data[i].name)
  {
    var statuses := StatusesOf(orders);
    var keys: seq<string> := [];
    var counts: map<string, nat> := map[];
    for i := 0 to |statuses|
      invariant keys == FirstOccurrences(statuses[..i])
      invariant forall k :: k in counts <==> k in keys
      invariant forall k :: k in counts ==> counts[k] == Count(statuses[..i], k)
    {
      var s := orders[i].status;
      assert statuses[..i + 1][..i] == statuses[..i];
      FirstOccurrencesSpec(statuses[..i]);
      if s !in counts {
        keys := keys + [s];
        counts := counts[s := 1];
        CountAbsent(statuses[..i], s);
      } else {
        counts := counts[s := counts[s] + 1];
      }
    }
    assert statuses[..|statuses|] == statuses;
    data := seq(|keys|, j requires 0 <= j < |keys| => ChartEntry(keys[j], counts[keys[j]]));
  }

  /** What the chart shows, as a whole: a status is listed iff some order has
      it, each once, and the values add up to the number of orders. */
  lemma ChartSummary(statuses: seq<string>)
    ensures Distinct(FirstOccurrences(statuses))
    ensures forall s :: s in FirstOccurrences(statuses) <==> Count(statuses, s) > 0
    ensures SumCounts(FirstOccurrences(statuses), statuses) == |statuses|
  {
    FirstOccurrencesSpec(statuses);
    forall s
      ensures s in FirstOccurrences(statuses) <==> Count(statuses, s) > 0
    {
      CountPositive(statuses, s);
    }
    CountsSumToTotal(statuses);
  }

  /** `handleDelete`: the confirmation prompt, then the delete call only when
      the admin confirms, and an alert when it rejects. */
  datatype DeleteRun = DeleteRun(prompt: string, deleted: Option<string>, alert: Option<string>)

  function HandleDelete(orderId: string, confirmed: bool, deleteSucceeds: bool): (r: DeleteRun)
    ensures r.deleted.Some? <==> confirmed
    ensures r.deleted.Some? ==> r.deleted.value == orderId
    ensures r.alert.Some? <==> confirmed && !deleteSucceeds
  {
    var prompt := "Are you sure you want to delete order " + orderId + "? This cannot be undone.";
    if !confirmed then DeleteRun(prompt, None, None)
    else DeleteRun(prompt, Some(orderId), if deleteSucceeds then None else Some("Failed to delete order. Check permissions."))
  }

  /** `handleStatusChange`: the update call, and an alert when it rejects. */
  function HandleStatusChange(orderId: string, newStatus: string, succeeds: bool): (alert: Option<string>)
    ensures alert.Some? <==> !succeeds
  {
    if succeeds then None else Some("Failed to update status. Check permissions.")
  }
}
