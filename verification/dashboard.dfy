/** The admin order list, `src/components/dashboard/index.tsx`: the search
    filter and the view-details and delete-confirmation dialogs. */
module Dashboard {
  import opened Js
  import opened Strings
  import opened Seqs

  /** The fields of a listed order the panel reads. */
  datatype AdminOrder = AdminOrder(id: string, fullName: string, email: string, phone: string, status: string)

  /** Name, e-mail and id match ignoring letter case; the phone number must
      contain the term as typed. */
  predicate Matches(term: string, o: AdminOrder)
  {
    var t := Lower(term);
    Contains(Lower(o.fullName), t) || Contains(Lower(o.email), t) || Contains(o.phone, term) || Contains(Lower(o.id), t)
  }

  /** `filteredOrders`: never adds an order, and lists every order for an
      empty term. */
  function FilterOrders(orders: seq<AdminOrder>, term: string): (r: seq<AdminOrder>)
    ensures |r| <= |orders|
    ensures forall o :: o in r ==> o in orders
    ensures term == "" ==> r == orders
  {
    if term == "" then orders else Filter(orders, (o: AdminOrder) => Matches(term, o))
  }

  /** An empty term lists every order; otherwise exactly the matching
      orders are listed, in their original order. */
  lemma FilterSpec(orders: seq<AdminOrder>, term: string)
    ensures term == "" ==> FilterOrders(orders, term) == orders
    ensures term != "" ==> forall o :: o in FilterOrders(orders, term) <==> o in orders && Matches(term, o)
    ensures Subsequence(FilterOrders(orders, term), orders)
  {
    if term == "" {
      FilterKeepsAll(orders, (o: AdminOrder) => true);
      FilterIsSubsequence(orders, (o: AdminOrder) => true);
    } else {
      FilterIsSubsequence(orders, (o: AdminOrder) => Matches(term, o));
    }
  }

  /** Typing more of a term only narrows the list: whatever matches the
      longer term matches every non-empty beginning of it. */
  lemma TypingNarrows(orders: seq<AdminOrder>, shorter: string, longer: string)
    requires shorter != "" && shorter <= longer
    ensures forall o :: o in FilterOrders(orders, longer) ==> o in FilterOrders(orders, shorter)
  {
    forall o | o in FilterOrders(orders, longer)
      ensures o in FilterOrders(orders, shorter)
    {
      MatchesPrefix(shorter, longer, o);
    }
  }

  lemma MatchesPrefix(shorter: string, longer: string, o: AdminOrder)
    requires shorter <= longer && Matches(longer, o)
    ensures Matches(shorter, o)
  {
    var a, b := Lower(shorter), Lower(longer);
    assert a <= b;
    if Contains(Lower(o.fullName), b) {
      ContainsPrefix(Lower(o.fullName), b, a);
    } else if Contains(Lower(o.email), b) {
      ContainsPrefix(Lower(o.email), b, a);
    } else if Contains(o.phone, longer) {
      ContainsPrefix(o.phone, longer, shorter);
    } else {
      ContainsPrefix(Lower(o.id), b, a);
    }
  }

  /** The dialogs' state. */
  datatype Panel = Panel(selected: Option<AdminOrder>, dialogOpen: bool, confirmOpen: bool, orderToDelete: Option<string>)

  const Initial := Panel(None, false, false, None)

  datatype Event =
    | ViewDetails(order: AdminOrder)
    | CloseDialog
    | DeleteClicked(orderId: string)
      /** The confirm button, with whether `deleteOrder` resolves. */
    | ConfirmDelete(succeeds: bool)
    | CancelDelete
      /** A status pick, with whether `updateOrderStatus` resolves. */
    | StatusChange(orderId: string, newStatus: string, succeeds: bool)

  datatype Call = DeleteOrder(orderId: string) | UpdateOrderStatus(orderId: string, newStatus: string)

  datatype Step = Step(panel: Panel, call: Option<Call>, toast: Option<string>)

  /** One event on the dashboard: a store call is made exactly when a toast
      is shown, only for a confirmed delete or a status pick; a status pick
      leaves the dialogs alone and updates the picked order. */
  function Handle(p: Panel, e: Event): (s: Step)
    ensures s.call.Some? <==> s.toast.Some?
    ensures s.call.Some? ==> e.ConfirmDelete? || e.StatusChange?
    ensures e.StatusChange? ==> s.panel == p && s.call == Some(UpdateOrderStatus(e.orderId, e.newStatus))
  {
    match e
    case ViewDetails(o) => Step(p.(selected := Some(o), dialogOpen := true), None, None)
    case CloseDialog => Step(p.(selected := None, dialogOpen := false), None, None)
    case DeleteClicked(id) => Step(p.(orderToDelete := Some(id), confirmOpen := true), None, None)
    case ConfirmDelete(ok) =>
      if !Truthy(p.orderToDelete) then Step(p, None, None)
      else Step(p.(confirmOpen := false, orderToDelete := None), Some(DeleteOrder(p.orderToDelete.value)),
                Some(if ok then "Order deleted successfully" else "Failed to delete order"))
    case CancelDelete => Step(p.(confirmOpen := false, orderToDelete := None), None, None)
    case StatusChange(id, s, ok) =>
      Step(p, Some(UpdateOrderStatus(id, s)), Some(if ok then "Order Status updated successfully" else "Failed to update status"))
  }

  /** One event at a time: confirming without a pending id does nothing;
      confirming or cancelling otherwise closes the confirmation and clears
      the pending id, whether or not the delete succeeds; only a confirm
      deletes, and it deletes the pending id. */
  lemma HandleSpec(p: Panel, e: Event)
    ensures var s := Handle(p, e);
      && (e.ConfirmDelete? && !Truthy(p.orderToDelete) ==> s == Step(p, None, None))
      && ((e.ConfirmDelete? && Truthy(p.orderToDelete)) || e.CancelDelete? ==> !s.panel.confirmOpen && s.panel.orderToDelete.None?)
      && (s.call.Some? && s.call.value.DeleteOrder? <==> e.ConfirmDelete? && Truthy(p.orderToDelete))
      && (s.call.Some? && s.call.value.DeleteOrder? ==> s.call.value.orderId == p.orderToDelete.value)
      && (e.ViewDetails? ==> s.panel.dialogOpen && s.panel.selected == Some(e.order))
      && (e.CloseDialog? ==> !s.panel.dialogOpen && s.panel.selected.None?)
      && (!e.ConfirmDelete? && !e.CancelDelete? && !e.DeleteClicked? ==>
            s.panel.confirmOpen == p.confirmOpen && s.panel.orderToDelete == p.orderToDelete)
  {
  }

  /** The panel after a run of events, and every call it made, in order. */
  function Run(p: Panel, events: seq<Event>): (Panel, seq<Call>)
    decreases |events|
  {
    if |events| == 0 then (p, [])
    else
      var s := Handle(p, events[0]);
      var rest := Run(s.panel, events[1..]);
      (rest.0, (if s.call.Some? then [s.call.value] else []) + rest.1)
  }

  predicate Clicked(events: seq<Event>, id: string)
  {
    exists k :: 0 <= k < |events| && events[k] == DeleteClicked(id)
  }

  /** From the initial panel, every order the dashboard deletes is one whose
      delete button was clicked earlier in the run, and there are no more
      deletes than confirmations. */
  lemma {:induction false} OnlyClickedOrdersDeleted(events: seq<Event>)
    ensures forall c :: c in Run(Initial, events).1 && c.DeleteOrder? ==> Clicked(events, c.orderId)
    ensures CountDeletes(Run(Initial, events).1) <= CountConfirms(events)
  {
    RunDeletes(Initial, events, []);
  }

  function CountDeletes(calls: seq<Call>): nat
    decreases |calls|
  {
    if |calls| == 0 then 0 else (if calls[0].DeleteOrder? then 1 else 0) + CountDeletes(calls[1..])
  }

  function CountConfirms(events: seq<Event>): nat
    decreases |events|
  {
    if |events| == 0 then 0 else (if events[0].ConfirmDelete? then 1 else 0) + CountConfirms(events[1..])
  }

  /** The general form: `before` are the events already handled. */
  lemma {:induction false} RunDeletes(p: Panel, events: seq<Event>, before: seq<Event>)
    requires p.orderToDelete.Some? ==> Clicked(before, p.orderToDelete.value)
    ensures forall c :: c in Run(p, events).1 && c.DeleteOrder? ==> Clicked(before + events, c.orderId)
    ensures CountDeletes(Run(p, events).1) <= CountConfirms(events)
    decreases |events|
  {
    if |events| > 0 {
      var e := events[0];
      var s := Handle(p, e);
      var before' := before + [e];
      assert before + events == before' + events[1..];
      if s.panel.orderToDelete.Some? {
        if e.DeleteClicked? {
          assert before'[|before|] == DeleteClicked(s.panel.orderToDelete.value);
        } else {
          var k :| 0 <= k < |before| && before[k] == DeleteClicked(p.orderToDelete.value);
          assert before'[k] == before[k];
        }
      }
      RunDeletes(s.panel, events[1..], before');
      var head := if s.call.Some? then [s.call.value] else [];
      var rest := Run(s.panel, events[1..]).1;
      assert Run(p, events).1 == head + rest;
      forall c | c in head && c.DeleteOrder?
        ensures Clicked(before + events, c.orderId)
      {
        var k :| 0 <= k < |before| && before[k] == DeleteClicked(p.orderToDelete.value);
        assert (before + events)[k] == before[k];
      }
      CountDeletesConcat(head, rest);
    }
  }

  lemma {:induction false} CountDeletesConcat(a: seq<Call>, b: seq<Call>)
    ensures CountDeletes(a + b) == CountDeletes(a) + CountDeletes(b)
    decreases |a|
  {
    if |a| == 0 {
      assert a + b == b;
    } else {
      assert (a + b)[1..] == a[1..] + b;
      CountDeletesConcat(a[1..], b);
    }
  }
}
