/** Order tracking, `src/app/track-order/page.tsx`: look an order up by id,
    show it only when the e-mail matches, and show its progress. */
module TrackOrder {
  import opened Js
  import opened Strings
  import ProgressBar

  /** The stored order fields the page reads; `email` and `status` may be
      missing from a document. */
  datatype StoredOrder = StoredOrder(email: Option<string>, status: Option<string>, fullName: string, totalPrice: int)

  /** The database as `getDoc` sees it, keyed by document path;
      `reachable` is false when the read rejects. */
  datatype Store = Store(docs: map<seq<string>, StoredOrder>, reachable: bool)

  /** The order on display: the document's id and its fields. */
  datatype Shown = Shown(id: string, order: StoredOrder)

  /** The page state: the order on display and the error banner. */
  datatype TrackState = TrackState(order: Option<Shown>, fetchError: Option<string>)

  const NoMatch := "No order found matching the provided ID and Email."
  const FetchFailed := "An error occurred while fetching the order. Please try again."

  /** The e-mail as `fetchOrder` compares it. */
  function Normalise(email: string): string
  {
    Lower(Trim(email))
  }

  /** The non-empty strings of `parts`, in order. */
  function NonEmptyParts(parts: seq<string>): (r: seq<string>)
    ensures forall k :: 0 <= k < |r| ==> r[k] != ""
    decreases |parts|
  {
    if |parts| == 0 then []
    else (if parts[0] == "" then [] else [parts[0]]) + NonEmptyParts(parts[1..])
  }

  /** The path `doc(db, "orders", id)` names: each argument is cut at '/'
      and the empty pieces are dropped. */
  function DocPath(id: string): (p: seq<string>)
    ensures |p| > 0 && p[0] == "orders"
  {
    ["orders"] + NonEmptyParts(Split(id, '/'))
  }

  /** `doc` throws for an id holding "//" and for one that leaves an odd
      number of path segments, since a document path alternates collection
      and document. */
  predicate Addressable(id: string)
  {
    !Contains(id, "//") && |DocPath(id)| % 2 == 0
  }

  /** `fetchOrder`: ignored without an id or e-mail; otherwise clears the
      page and shows the order only when it exists and its stored e-mail,
      lowered, equals the entered one. An id `doc` refuses, a failed read,
      and a stored order without an e-mail (`toLowerCase` of undefined) all
      throw inside the `try` and reach the generic error. The id shown is
      the last segment of the document path (`docSnap.id`). */
  function FetchOrder(st: TrackState, id: string, customerEmail: string, store: Store): (r: TrackState)
    ensures id == "" || Normalise(customerEmail) == "" ==> r == st
    ensures id != "" && Normalise(customerEmail) != "" ==>
      && (r.order.Some? <==> r.fetchError.None?)
      && (r.order.Some? ==> var o := r.order.value.order;
            o.email.Some? && Lower(o.email.value) == Normalise(customerEmail))
  {
    var entered := Normalise(customerEmail);
    if id == "" || entered == "" then st
    else if !Addressable(id) || !store.reachable then TrackState(None, Some(FetchFailed))
    else
      var path := DocPath(id);
      if path !in store.docs then TrackState(None, Some(NoMatch))
      else
        var o := store.docs[path];
        if o.email.None? then TrackState(None, Some(FetchFailed))
        else if Lower(o.email.value) == entered then TrackState(Some(Shown(path[|path| - 1], o)), None)
        else TrackState(None, Some(NoMatch))
  }

  /** The order is shown exactly when the id addresses a stored order whose
      e-mail, lowered, equals the entered e-mail trimmed and lowered; and
      then it is that order under its document id. The banner is shown
      exactly when the order is not, and it is the generic one exactly when
      `doc` refuses the id, the read fails, or the order has no e-mail. */
  lemma FetchShowsOnlyMatches(st: TrackState, id: string, email: string, store: Store)
    requires id != "" && Normalise(email) != ""
    ensures var r := FetchOrder(st, id, email, store);
      var path := DocPath(id);
      && (r.order.Some? <==> Addressable(id) && store.reachable && path in store.docs && store.docs[path].email.Some?
                             && Lower(store.docs[path].email.value) == Normalise(email))
      && (r.order.Some? ==> r.order.value == Shown(path[|path| - 1], store.docs[path]))
      && (r.order.Some? <==> r.fetchError.None?)
      && (r.fetchError == Some(FetchFailed) <==>
            !Addressable(id) || !store.reachable || (path in store.docs && store.docs[path].email.None?))
  {
  }

  /** An id without '/' addresses the document of that name in "orders",
      and is shown under that same id. */
  lemma PlainIdAddressesOrder(id: string)
    requires id != "" && '/' !in id
    ensures DocPath(id) == ["orders", id]
    ensures Addressable(id)
  {
    SplitWhole(id, '/');
    assert NonEmptyParts([id]) == [id];
    if Contains(id, "//") {
      ContainsFirstChar(id, "//");
    }
  }

  /** An id with one inner '/' names a collection, not a document: `doc`
      throws and the page shows the generic error, not "no order found". */
  lemma SlashIdFails(st: TrackState, a: string, b: string, email: string, store: Store)
    requires a != "" && b != "" && '/' !in a && '/' !in b && Normalise(email) != ""
    ensures DocPath(a + "/" + b) == ["orders", a, b]
    ensures !Addressable(a + "/" + b)
    ensures FetchOrder(st, a + "/" + b, email, store) == TrackState(None, Some(FetchFailed))
  {
    assert a + "/" + b == a + ['/'] + b;
    SplitAppend(a, b, '/');
    SplitWhole(b, '/');
    assert NonEmptyParts([a, b]) == [a] + NonEmptyParts([b]);
    assert NonEmptyParts([b]) == [b];
  }

  /** A wrong e-mail for an existing order gives the same page as an id
      that names no order, so the banner does not reveal which order ids
      exist. */
  lemma MismatchLooksLikeUnknownId(st: TrackState, id: string, email: string, store: Store, o: StoredOrder)
    requires id != "" && Normalise(email) != "" && Addressable(id) && store.reachable
    requires o.email.Some? && Lower(o.email.value) != Normalise(email)
    ensures FetchOrder(st, id, email, store.(docs := store.docs[DocPath(id) := o]))
         == FetchOrder(st, id, email, store.(docs := store.docs - {DocPath(id)}))
         == TrackState(None, Some(NoMatch))
  {
  }

  /** Without an id or an e-mail nothing changes, not even the banner. */
  lemma BlankInputIgnored(st: TrackState, id: string, email: string, store: Store)
    requires id == "" || forall k :: 0 <= k < |email| ==> IsSpace(email[k])
    ensures FetchOrder(st, id, email, store) == st
  {
    if id != "" {
      TrimSpec(email);
    }
  }

  /** Letter case and surrounding white space in the entered e-mail do not
      matter. */
  lemma EmailCaseAndSpaceInsensitive(st: TrackState, id: string, email: string, store: Store)
    ensures FetchOrder(st, id, Lower(email), store) == FetchOrder(st, id, email, store)
    ensures FetchOrder(st, id, Trim(email), store) == FetchOrder(st, id, email, store)
  {
    TrimLowerCommute(email);
    LowerIdempotent(Trim(email));
    TrimIdempotent(email);
  }

  /** The order shown and the error banner are never both present once the
      page starts from that state. */
  predicate OneOutcome(st: TrackState)
  {
    !(st.order.Some? && st.fetchError.Some?)
  }

  lemma FetchKeepsOneOutcome(st: TrackState, id: string, email: string, store: Store)
    requires OneOutcome(st)
    ensures OneOutcome(FetchOrder(st, id, email, store))
  {
  }

  /** The form submits its fields trimmed: a blank id or e-mail changes
      nothing, and otherwise exactly one of the order and the banner shows. */
  function Submit(st: TrackState, orderIdField: string, emailField: string, store: Store): (r: TrackState)
    ensures Trim(orderIdField) == "" || Normalise(emailField) == "" ==> r == st
    ensures Trim(orderIdField) != "" && Normalise(emailField) != "" ==> (r.order.Some? <==> r.fetchError.None?)
  {
    TrimIdempotent(emailField);
    FetchOrder(st, Trim(orderIdField), Trim(emailField), store)
  }

  /** On load with both `orderId` and `email` in the query string the page
      looks the order up with them as they are, the id untrimmed. */
  function FromUrl(st: TrackState, orderIdParam: Option<string>, emailParam: Option<string>, store: Store): (r: TrackState)
    ensures !Truthy(orderIdParam) || !Truthy(emailParam) ==> r == st
    ensures Truthy(orderIdParam) && Truthy(emailParam) && Normalise(emailParam.value) != "" ==>
              (r.order.Some? <==> r.fetchError.None?)
  {
    if Truthy(orderIdParam) && Truthy(emailParam) then FetchOrder(st, orderIdParam.value, emailParam.value, store)
    else st
  }

  /** An id with a trailing space finds its order from the form but not from
      the link. */
  lemma UrlIdIsNotTrimmed(st: TrackState)
    ensures var store := Store(map[["orders", "abc"] := StoredOrder(Some("a@b.co"), Some("Pending"), "A", 100)], true);
      && Submit(st, "abc ", "a@b.co", store).order == Some(Shown("abc", store.docs[["orders", "abc"]]))
      && FromUrl(st, Some("abc "), Some("a@b.co"), store).fetchError == Some(NoMatch)
  {
    var store := Store(map[["orders", "abc"] := StoredOrder(Some("a@b.co"), Some("Pending"), "A", 100)], true);
    assert IsSpace("abc "[3]);
    assert TrimStart("abc ") == "abc ";
    assert "abc "[..3] == "abc";
    assert TrimEnd("abc ") == "abc";
    assert TrimStart("a@b.co") == "a@b.co";
    assert TrimEnd("a@b.co") == "a@b.co";
    assert Lower("a@b.co") == "a@b.co";
    PlainIdAddressesOrder("abc");
    PlainIdAddressesOrder("abc ");
    assert ["orders", "abc "] != ["orders", "abc"];
  }

  datatype ProgressInfo = ProgressInfo(index: int, percent: int)

  /** `getProgressInfo`: index -1 only for "Cancelled"; otherwise a stage
      index and a multiple of 25 up to 100, which is a quarter per stage
      reached unless the status is unknown (0). */
  function GetProgressInfo(status: string): (r: ProgressInfo)
    ensures -1 <= r.index < 4 && 0 <= r.percent <= 100 && r.percent % 25 == 0
    ensures r.index == -1 <==> status == "Cancelled"
    ensures r.index >= 0 && r.percent != 0 ==> r.percent == 25 * (r.index + 1)
  {
    match status
    case "Pending" => ProgressInfo(0, 25)
    case "Processing" => ProgressInfo(1, 50)
    case "Shipped" => ProgressInfo(2, 75)
    case "Delivered" => ProgressInfo(3, 100)
    case "Cancelled" => ProgressInfo(-1, 100)
    case _ => ProgressInfo(0, 0)
  }

  const Sections: seq<ProgressBar.Section> := [
    ProgressBar.Section("1", "Pending", "#FBBF24"),
    ProgressBar.Section("2", "Processing", "#60A5FA"),
    ProgressBar.Section("3", "Shipped", "#34D399"),
    ProgressBar.Section("4", "Delivered", "#10B981")]

  /** Each section's status maps to that section's index and a quarter of the
      bar per section reached; "Cancelled" maps to index -1 and 100; any
      other status to index 0 and 0. */
  lemma ProgressFollowsSections(status: string)
    ensures forall k :: 0 <= k < |Sections| ==> GetProgressInfo(Sections[k].title) == ProgressInfo(k, 25 * (k + 1))
    ensures GetProgressInfo("Cancelled") == ProgressInfo(-1, 100)
    ensures (forall k :: 0 <= k < |Sections| ==> status != Sections[k].title) && status != "Cancelled" ==>
              GetProgressInfo(status) == ProgressInfo(0, 0)
  {
    assert Sections[0].title == "Pending";
    assert Sections[1].title == "Processing";
    assert Sections[2].title == "Shipped";
    assert Sections[3].title == "Delivered";
  }

  /** `progress`: the shown order's status, or index 0 and 0 without an
      order or with an empty or missing status. */
  function Progress(st: TrackState): (r: ProgressInfo)
    ensures -1 <= r.index < 4 && 0 <= r.percent <= 100
    ensures r.index == -1 ==> st.order.Some? && st.order.value.order.status == Some("Cancelled")
  {
    if st.order.Some? && Truthy(st.order.value.order.status) then GetProgressInfo(st.order.value.order.status.value)
    else ProgressInfo(0, 0)
  }

  /** Below the form: nothing, the progress bar, or the cancellation notice. */
  datatype Display = NoOrder | Tracker(segments: seq<ProgressBar.SegmentView>, percent: int) | CancelledNotice

  /** No order, no display; a cancelled order, the notice; any other order
      the four-segment bar with at least the first stage lit. */
  function Show(st: TrackState): (d: Display)
    ensures d.NoOrder? <==> st.order.None?
    ensures d.CancelledNotice? <==> st.order.Some? && st.order.value.order.status == Some("Cancelled")
    ensures d.Tracker? ==> |d.segments| == |Sections| && d.segments[0].completed && 0 <= d.percent <= 100
  {
    if st.order.None? then NoOrder
    else if st.order.value.order.status == Some("Cancelled") then CancelledNotice
    else
      var p := Progress(st);
      Tracker(ProgressBar.Render(Sections, p.index + 1), p.percent)
  }

  /** For an order in one of the four stages the bar lights that stage and
      every earlier one, marks that stage current, and reports a quarter per
      stage. */
  lemma TrackerShowsStage(st: TrackState, k: nat)
    requires k < |Sections| && st.order.Some? && st.order.value.order.status == Some(Sections[k].title)
    ensures Show(st).Tracker?
    ensures Show(st).percent == 25 * (k + 1)
    ensures forall i :: 0 <= i < |Sections| ==>
              (Show(st).segments[i].completed <==> i <= k) && (Show(st).segments[i].current <==> i == k)
  {
    ProgressFollowsSections(Sections[k].title);
    assert Sections[k].title != "Cancelled";
    assert Progress(st) == ProgressInfo(k, 25 * (k + 1));
    ProgressBar.RenderShape(Sections, k + 1);
  }

  /** An order whose status is none of the five (or missing) still shows the
      bar, with "Pending" lit and current and 0 percent. */
  lemma UnknownStatusShowsPending(st: TrackState)
    requires st.order.Some?
    requires var s := st.order.value.order.status;
      s.None? || (s.value != "Cancelled" && forall k :: 0 <= k < |Sections| ==> s.value != Sections[k].title)
    ensures Show(st).Tracker? && Show(st).percent == 0
    ensures forall i :: 0 <= i < |Sections| ==>
              (Show(st).segments[i].completed <==> i == 0) && (Show(st).segments[i].current <==> i == 0)
  {
    var s := st.order.value.order.status;
    if s.Some? {
      ProgressFollowsSections(s.value);
    }
    assert Progress(st) == ProgressInfo(0, 0);
    ProgressBar.RenderShape(Sections, 1);
  }

  /** A cancelled order shows the notice and no bar. */
  lemma CancelledShowsNotice(st: TrackState)
    requires st.order.Some? && st.order.value.order.status == Some("Cancelled")
    ensures Show(st) == CancelledNotice
  {
  }

  /** The detail card's status colour: the colour of the status's own section
      for the four stages, red for "Cancelled", grey otherwise. */
  function StatusColor(status: Option<string>): (c: string)
    ensures forall k :: 0 <= k < |Sections| ==> (status == Some(Sections[k].title) ==> c == Sections[k].iconColor)
    ensures status == Some("Cancelled") ==> c == "#EF4444"
    ensures status.None? || status.value !in {"Pending", "Processing", "Shipped", "Delivered", "Cancelled"} ==> c == "#6B7280"
  {
    match status
    case Some("Pending") => "#FBBF24"
    case Some("Processing") => "#60A5FA"
    case Some("Shipped") => "#34D399"
    case Some("Delivered") => "#10B981"
    case Some("Cancelled") => "#EF4444"
    case _ => "#6B7280"
  }
}
