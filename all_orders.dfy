/** The orders view: pages of orders with their notes attached, merged into the
    accumulated list by id, then filtered by order number and sorted by id or
    creation date on the client. */
module AllOrders {
  import opened Common
  import WooCommerce
  import Paging

  datatype Note = Note(id: int, author: string, dateCreated: string, note: string, customerNote: bool)

  /** An order as the view keeps it. `dateCreated` is the creation time as the
      timestamp the comparator derives from the server's date string. */
  datatype Order = Order(
    id: int,
    number: string,
    status: string,
    dateCreated: int,
    total: string,
    customerId: int,
    customerNote: string,
    notes: seq<Note>)

  function OrderId(o: Order): int {
    o.id
  }

  // ---------------------------------------------------------------------------
  // Fetching one page with its notes

  /** The GET for one order's notes, `{orders endpoint}/{orderId}/notes`, with
      the profile's basic-auth pair. */
  datatype NotesQuery = NotesQuery(ordersUrl: string, orderId: int, username: string, password: string)

  function NotesQueryFor(active: WooCommerce.Server, orderId: int): (q: NotesQuery)
    ensures q.orderId == orderId && q.username == active.consumerKey && q.password == active.consumerSecret
  {
    NotesQuery(active.url + "/wp-json/wc/v3/orders", orderId, active.consumerKey, active.consumerSecret)
  }

  /** The note fetch for the order at position `i` is the first that fails. */
  predicate FailsFirstAt(orders: seq<Order>, active: WooCommerce.Server, notesNet: NotesQuery -> Outcome<seq<Note>>, i: int) {
    0 <= i < |orders| && notesNet(NotesQueryFor(active, orders[i].id)).Err? &&
    forall j :: 0 <= j < i ==> notesNet(NotesQueryFor(active, orders[j].id)).Ok?
  }

  /** `Promise.all(orders.map(...))`: every order with its `notes` replaced by
      the fetched notes, or the failure of the first note fetch that fails. */
  function AttachNotes(orders: seq<Order>, active: WooCommerce.Server, notesNet: NotesQuery -> Outcome<seq<Note>>): (r: Outcome<seq<Order>>)
    ensures r.Ok? <==> forall i :: 0 <= i < |orders| ==> notesNet(NotesQueryFor(active, orders[i].id)).Ok?
    ensures r.Ok? ==>
      |r.value| == |orders| &&
      forall i :: 0 <= i < |orders| ==>
        r.value[i] == orders[i].(notes := notesNet(NotesQueryFor(active, orders[i].id)).value)
    ensures r.Err? ==>
      exists i :: FailsFirstAt(orders, active, notesNet, i) &&
        notesNet(NotesQueryFor(active, orders[i].id)).error == r.error
  {
    if orders == [] then Ok([])
    else
      match notesNet(NotesQueryFor(active, orders[0].id))
      case Err(e) =>
        assert FailsFirstAt(orders, active, notesNet, 0);
        Err(e)
      case Ok(notes) =>
        var rest := AttachNotes(orders[1..], active, notesNet);
        assert forall i :: 1 <= i < |orders| ==> orders[i] == orders[1..][i - 1];
        match rest
        case Err(e) =>
          var i :| FailsFirstAt(orders[1..], active, notesNet, i) &&
                   notesNet(NotesQueryFor(active, orders[1..][i].id)).error == e;
          assert FailsFirstAt(orders, active, notesNet, i + 1);
          Err(e)
        case Ok(tail) =>
          Ok([orders[0].(notes := notes)] + tail)
  }

  /** `fetchOrders` up to the state update: no active profile, a failed page
      request or a failed note fetch is an error; otherwise the page with notes. */
  function LoadOrdersPage(active: Option<WooCommerce.Server>, page: int,
                          pagesNet: Paging.PageQuery -> Outcome<seq<Order>>,
                          notesNet: NotesQuery -> Outcome<seq<Note>>): (r: Outcome<seq<Order>>)
    ensures active.None? ==> r == Err(PlainFailure(NoActiveServerMessage))
    ensures var raw := Paging.LoadPage(active, "orders", None, page, pagesNet);
      (raw.Err? ==> r == raw) &&
      (raw.Ok? ==> r == AttachNotes(raw.value, active.value, notesNet))
    ensures r.Ok? ==> |r.value| == |Paging.LoadPage(active, "orders", None, page, pagesNet).value|
  {
    match Paging.LoadPage(active, "orders", None, page, pagesNet)
    case Err(e) => Err(e)
    case Ok(raw) => AttachNotes(raw, active.value, notesNet)
  }

  /** Attaching notes keeps every order's id at its position, so merging by id
      and the `hasMore` test see the page the server sent. */
  lemma AttachNotesKeepsIds(orders: seq<Order>, active: WooCommerce.Server, notesNet: NotesQuery -> Outcome<seq<Note>>)
    requires AttachNotes(orders, active, notesNet).Ok?
    ensures var r := AttachNotes(orders, active, notesNet).value;
      Paging.IdsOf(r, OrderId) == Paging.IdsOf(orders, OrderId) &&
      (Paging.HasMoreAfter(r) <==> Paging.HasMoreAfter(orders))
  {
    var r := AttachNotes(orders, active, notesNet).value;
    assert forall i :: 0 <= i < |r| ==> OrderId(r[i]) == OrderId(orders[i]);
  }

  // ---------------------------------------------------------------------------
  // Filtering and sorting on the client

  /** `searchTerm ? order.number.includes(searchTerm) : true`. */
  predicate OrderMatches(o: Order, term: string) {
    term == "" || Includes(o.number, term)
  }

  function FilterOrders(orders: seq<Order>, term: string): (r: seq<Order>)
    ensures forall i :: 0 <= i < |r| ==> r[i] in orders && (term == "" || Includes(r[i].number, term))
    ensures forall i :: 0 <= i < |orders| && (term == "" || Includes(orders[i].number, term)) ==> orders[i] in r
  {
    Filter(orders, o => OrderMatches(o, term))
  }

  /** An empty term keeps every order, in order. */
  lemma FilterEmptyTermKeepsAll(orders: seq<Order>)
    ensures FilterOrders(orders, "") == orders
  {
    FilterKeepsAll(orders, o => OrderMatches(o, ""));
  }

  /** Since every number includes the empty string, testing the term for
      emptiness first changes nothing: the filter is plain `includes`. */
  lemma OrderMatchesIsIncludes(o: Order, term: string)
    ensures OrderMatches(o, term) <==> Includes(o.number, term)
  {
    IncludesEmpty(o.number);
  }

  /** The filter keeps relative order. */
  lemma FilterOrdersSplit(a: seq<Order>, b: seq<Order>, term: string)
    ensures FilterOrders(a + b, term) == FilterOrders(a, term) + FilterOrders(b, term)
  {
    FilterSplit(a, b, o => OrderMatches(o, term));
  }

  datatype SortField = ById | ByDate
  datatype SortDirection = Asc | Desc

  /** The comparator of `sortedOrders` is `SortKey(a) - SortKey(b)`: the id or
      the date, negated for a descending sort. */
  function SortKey(o: Order, field: SortField, dir: SortDirection): int {
    var k := if field == ById then o.id else o.dateCreated;
    if dir == Asc then k else -k
  }

  /** The comparator as written: `a.id - b.id` or `dateA - dateB`, operands
      swapped for a descending sort. */
  function Comparator(a: Order, b: Order, field: SortField, dir: SortDirection): int {
    if field == ById then
      (if dir == Asc then a.id - b.id else b.id - a.id)
    else
      (if dir == Asc then a.dateCreated - b.dateCreated else b.dateCreated - a.dateCreated)
  }

  /** Sorting by `SortKey` is sorting by the comparator: it is the difference of
      the keys, so `a` may precede `b` exactly when the comparator is not positive. */
  lemma SortKeyMatchesComparator(a: Order, b: Order, field: SortField, dir: SortDirection)
    ensures Comparator(a, b, field, dir) == SortKey(a, field, dir) - SortKey(b, field, dir)
    ensures SortKey(a, field, dir) <= SortKey(b, field, dir) <==> Comparator(a, b, field, dir) <= 0
    ensures Comparator(a, b, field, dir) == -Comparator(b, a, field, dir)
  {
  }

  predicate SortedBy(s: seq<Order>, field: SortField, dir: SortDirection) {
    forall i, j :: 0 <= i < j < |s| ==> SortKey(s[i], field, dir) <= SortKey(s[j], field, dir)
  }

  /** An element no greater than the head of a sorted list may go in front. */
  lemma ConsSorted(x: Order, t: seq<Order>, field: SortField, dir: SortDirection)
    requires SortedBy(t, field, dir)
    requires t != [] ==> SortKey(x, field, dir) <= SortKey(t[0], field, dir)
    ensures SortedBy([x] + t, field, dir)
  {
    var r := [x] + t;
    forall i, j | 0 <= i < j < |r| ensures SortKey(r[i], field, dir) <= SortKey(r[j], field, dir) {
      assert r[j] == t[j - 1];
      if i > 0 {
        assert r[i] == t[i - 1];
      }
    }
  }

  /** Insert `o` before the first element it does not follow. */
  function Insert(o: Order, s: seq<Order>, field: SortField, dir: SortDirection): (r: seq<Order>)
    requires SortedBy(s, field, dir)
    ensures SortedBy(r, field, dir)
    ensures multiset(r) == multiset(s) + multiset{o}
    ensures |r| == |s| + 1 && (r[0] == o || (s != [] && r[0] == s[0]))
  {
    if s == [] || SortKey(o, field, dir) <= SortKey(s[0], field, dir) then
      ConsSorted(o, s, field, dir);
      [o] + s
    else
      var t := Insert(o, s[1..], field, dir);
      assert s == [s[0]] + s[1..];
      ConsSorted(s[0], t, field, dir);
      [s[0]] + t
  }

  /** `[...filtered].sort(comparator)`, as a stable insertion sort. */
  function SortOrders(s: seq<Order>, field: SortField, dir: SortDirection): (r: seq<Order>)
    ensures SortedBy(r, field, dir)
    ensures multiset(r) == multiset(s)
  {
    if s == [] then []
    else
      assert s == [s[0]] + s[1..];
      Insert(s[0], SortOrders(s[1..], field, dir), field, dir)
  }

  /** `handleSort`: the same field flips the direction, another field is
      selected descending. */
  function SortAfterClick(field: SortField, dir: SortDirection, clicked: SortField): (r: (SortField, SortDirection))
    ensures r.0 == clicked
    ensures clicked == field ==> r.1 != dir
    ensures clicked != field ==> r.1 == Desc
  {
    if clicked == field then (field, if dir == Asc then Desc else Asc) else (clicked, Desc)
  }

  /** Clicking the selected field twice restores the direction. */
  lemma ClickTwiceRestores(field: SortField, dir: SortDirection)
    ensures var once := SortAfterClick(field, dir, field);
      SortAfterClick(once.0, once.1, field) == (field, dir)
  {
  }

  /** Clicking another field and back lands on the first field, descending. */
  lemma ClickAwayAndBack(field: SortField, dir: SortDirection, other: SortField)
    requires other != field
    ensures var away := SortAfterClick(field, dir, other);
      SortAfterClick(away.0, away.1, field) == (field, Desc)
  {
  }

  // ---------------------------------------------------------------------------
  // The view's state

  class OrdersView {
    var orders: seq<Order>
    var loading: bool
    var error: Option<string>
    var page: int
    var hasMore: bool
    var sortField: SortField
    var sortDirection: SortDirection
    var searchTerm: string

    /** The state on mount, before the first fetch. */
    constructor()
      ensures orders == [] && loading && error == None && page == 1 && hasMore
      ensures sortField == ByDate && sortDirection == Desc && searchTerm == ""
    {
      orders := [];
      loading := true;
      error := None;
      page := 1;
      hasMore := true;
      sortField := ByDate;
      sortDirection := Desc;
      searchTerm := "";
    }

    /** What the list shows: the accumulated orders, filtered, then sorted. */
    function Shown(): (r: seq<Order>)
      reads this
      ensures SortedBy(r, sortField, sortDirection)
      ensures multiset(r) == multiset(FilterOrders(orders, searchTerm))
    {
      SortOrders(FilterOrders(orders, searchTerm), sortField, sortDirection)
    }

    /** `fetchOrders` for page `requestPage`: on success the page, with notes,
        is merged into the orders and `hasMore` is set; on failure the orders
        are kept and the error is shown. */
    method FetchPage(requestPage: int, reg: WooCommerce.Registry,
                     pagesNet: Paging.PageQuery -> Outcome<seq<Order>>,
                     notesNet: NotesQuery -> Outcome<seq<Note>>)
      modifies this
      ensures var o := LoadOrdersPage(reg.GetActiveServer(), requestPage, pagesNet, notesNet);
        orders == Paging.MergedAfter(old(orders), o, OrderId) &&
        hasMore == Paging.HasMoreAfterLoad(old(hasMore), o) &&
        error == Paging.ErrorAfterLoad(o)
      ensures !loading
      ensures page == old(page) && sortField == old(sortField) && sortDirection == old(sortDirection)
      ensures searchTerm == old(searchTerm)
    {
      loading := true;
      error := None;
      var active := reg.GetActiveServer();
      if active.None? {
        error := Some(ErrorText(PlainFailure(NoActiveServerMessage)));
        loading := false;
        return;
      }
      var response := pagesNet(Paging.QueryFor(active.value, "orders", None, requestPage));
      if response.Err? {
        error := Some(ErrorText(response.error));
        loading := false;
        return;
      }
      var withNotes := AttachNotes(response.value, active.value, notesNet);
      if withNotes.Err? {
        error := Some(ErrorText(withNotes.error));
        loading := false;
        return;
      }
      orders := Paging.Merge(orders, withNotes.value, OrderId);
      hasMore := Paging.HasMoreAfter(response.value);
      loading := false;
    }

    /** The fetch the `[page]` effect runs: the current page. */
    method FetchOrders(reg: WooCommerce.Registry,
                       pagesNet: Paging.PageQuery -> Outcome<seq<Order>>,
                       notesNet: NotesQuery -> Outcome<seq<Note>>)
      modifies this
      ensures var o := LoadOrdersPage(reg.GetActiveServer(), old(page), pagesNet, notesNet);
        orders == Paging.MergedAfter(old(orders), o, OrderId) &&
        hasMore == Paging.HasMoreAfterLoad(old(hasMore), o) &&
        error == Paging.ErrorAfterLoad(o)
      ensures !loading && page == old(page)
      ensures sortField == old(sortField) && sortDirection == old(sortDirection) && searchTerm == old(searchTerm)
    {
      FetchPage(page, reg, pagesNet, notesNet);
    }

    method HandleSort(clicked: SortField)
      modifies this
      ensures (sortField, sortDirection) == SortAfterClick(old(sortField), old(sortDirection), clicked)
      ensures orders == old(orders) && page == old(page) && searchTerm == old(searchTerm)
      ensures loading == old(loading) && error == old(error) && hasMore == old(hasMore)
    {
      if sortField == clicked {
        sortDirection := if sortDirection == Asc then Desc else Asc;
      } else {
        sortField := clicked;
        sortDirection := Desc;
      }
    }

    method SetSearchTerm(term: string)
      modifies this
      ensures searchTerm == term
      ensures orders == old(orders) && page == old(page) && loading == old(loading)
      ensures error == old(error) && hasMore == old(hasMore)
      ensures sortField == old(sortField) && sortDirection == old(sortDirection)
    {
      searchTerm := term;
    }

    /** The state updates of one `fetchOrders` whose outcome has arrived: a
        success merges the page and sets `hasMore` and leaves the error as it
        is; a failure keeps the orders and `hasMore` and shows its error. */
    method Settle(o: Outcome<seq<Order>>)
      modifies this
      ensures orders == Paging.MergedAfter(old(orders), o, OrderId)
      ensures hasMore == Paging.HasMoreAfterLoad(old(hasMore), o)
      ensures error == (if o.Ok? then old(error) else Paging.ErrorAfterLoad(o))
      ensures !loading && page == old(page)
      ensures sortField == old(sortField) && sortDirection == old(sortDirection) && searchTerm == old(searchTerm)
    {
      if o.Ok? {
        orders := Paging.Merge(orders, o.value, OrderId);
        hasMore := Paging.HasMoreAfter(o.value);
      } else {
        error := Some(ErrorText(o.error));
      }
      loading := false;
    }

    /** `handleSearch`: the orders are emptied and the page set to 1, and the
        handler's own fetch asks for the page current when it ran. When the page
        did change, the `[page]` effect fetches page 1 as well; both fetches
        clear the error when they start, before either answer arrives, and the
        answers are applied in the order they arrive (`effectFirst`). */
    method HandleSearch(reg: WooCommerce.Registry,
                        pagesNet: Paging.PageQuery -> Outcome<seq<Order>>,
                        notesNet: NotesQuery -> Outcome<seq<Note>>,
                        effectFirst: bool)
      modifies this
      ensures page == 1 && !loading
      ensures var active := reg.GetActiveServer();
        var handler := LoadOrdersPage(active, old(page), pagesNet, notesNet);
        if old(page) == 1 then
          orders == Paging.MergedAfter([], handler, OrderId) && error == Paging.ErrorAfterLoad(handler) &&
          hasMore == Paging.HasMoreAfterLoad(old(hasMore), handler)
        else
          var effect := LoadOrdersPage(active, 1, pagesNet, notesNet);
          var early := if effectFirst then effect else handler;
          var late := if effectFirst then handler else effect;
          orders == Paging.MergedAfter(Paging.MergedAfter([], early, OrderId), late, OrderId) &&
          error == ErrorAfterBoth(early, late) &&
          hasMore == Paging.HasMoreAfterLoad(Paging.HasMoreAfterLoad(old(hasMore), early), late)
      ensures sortField == old(sortField) && sortDirection == old(sortDirection) && searchTerm == old(searchTerm)
    {
      var renderedPage := page;
      orders := [];
      page := 1;
      loading := true;
      error := None;
      var active := reg.GetActiveServer();
      var handler := LoadOrdersPage(active, renderedPage, pagesNet, notesNet);
      if renderedPage == 1 {
        Settle(handler);
      } else {
        var effect := LoadOrdersPage(active, 1, pagesNet, notesNet);
        if effectFirst {
          Settle(effect);
          Settle(handler);
        } else {
          Settle(handler);
          Settle(effect);
        }
      }
    }
  }

  /** The error banner once two fetches, started together, have both answered:
      the later failure, else the earlier one, else none. */
  function ErrorAfterBoth(early: Outcome<seq<Order>>, late: Outcome<seq<Order>>): Option<string> {
    if late.Err? then Paging.ErrorAfterLoad(late) else Paging.ErrorAfterLoad(early)
  }

  /** With two fetches in flight no success clears a failure: an error is shown
      exactly when one of them failed, and it is the message of a failed one. */
  lemma FailureSurvivesSecondFetch(early: Outcome<seq<Order>>, late: Outcome<seq<Order>>)
    ensures ErrorAfterBoth(early, late).Some? <==> early.Err? || late.Err?
    ensures late.Err? ==> ErrorAfterBoth(early, late) == Some(ErrorText(late.error))
    ensures early.Err? && late.Ok? ==> ErrorAfterBoth(early, late) == Some(ErrorText(early.error))
  {
  }

  /** A search from page 1 that succeeds shows exactly the orders of page 1,
      notes attached, when the server sends no id twice. */
  lemma SearchFromFirstPageReplaces(o: Outcome<seq<Order>>)
    requires o.Ok? && Paging.DistinctKeys(o.value, OrderId)
    ensures Paging.MergedAfter([], o, OrderId) == o.value
    ensures Paging.DistinctKeys(Paging.MergedAfter([], o, OrderId), OrderId)
  {
    Paging.MergeDisjoint([], o.value, OrderId);
  }

  /** A search that fails on its only fetch leaves the list empty. */
  lemma FailedSearchLeavesEmpty(o: Outcome<seq<Order>>)
    requires o.Err?
    ensures Paging.MergedAfter([], o, OrderId) == []
    ensures Paging.ErrorAfterLoad(o).Some?
  {
  }

  /** Two full pages of twenty and seven distinct orders accumulate to
      twenty-seven distinct orders, and the short page ends paging. */
  lemma TwoPagesAccumulate(p1: seq<Order>, p2: seq<Order>)
    requires |p1| == 20 && |p2| == 7
    requires Paging.DistinctKeys(p1 + p2, OrderId)
    ensures var after := Paging.Merge(Paging.Merge([], p1, OrderId), p2, OrderId);
      |after| == 27 && Paging.DistinctKeys(after, OrderId) && after == p1 + p2
    ensures Paging.HasMoreAfter(p1) && !Paging.HasMoreAfter(p2)
  {
    Paging.IdsOfConcat(p1, p2, OrderId);
    assert Paging.IdsOf([], OrderId) == {};
    Paging.MergeDisjoint([], p1, OrderId);
    assert [] + p1 == p1;
    assert Paging.IdsOf(p1, OrderId) !! Paging.IdsOf(p2, OrderId) by {
      forall i, j | 0 <= i < |p1| && 0 <= j < |p2| ensures OrderId(p1[i]) != OrderId(p2[j]) {
        assert (p1 + p2)[i] == p1[i] && (p1 + p2)[|p1| + j] == p2[j];
      }
    }
    Paging.MergeDisjoint(p1, p2, OrderId);
  }
}
