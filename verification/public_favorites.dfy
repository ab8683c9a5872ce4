/**
 * Loading the public favourites panel: the paging and sort order of the
 * request, the page stored from the response, and the state left after a
 * failed request or when the panel's data explorer is missing.
 */
module PublicFavorites {
  import opened Common

  datatype SortDirection = Asc | Desc | NoSort
  datatype OrderDirection = OrderAsc | OrderDesc

  /** The resource prefixes content ordering can be qualified with. */
  datatype Prefix = CollectionPrefix | ProcessPrefix | ProjectPrefix

  /** One ordering clause: a direction, an attribute and an optional resource prefix. */
  datatype Order = Order(direction: OrderDirection, attribute: string, prefix: Option<Prefix>)

  /** The column name of the favourites panel's name column. */
  const NameColumn := "Name"

  datatype SortColumn = SortColumn(name: string, sortDirection: SortDirection)

  /** The state of the panel's data explorer that the request reads. */
  datatype DataExplorer = DataExplorer(page: int, rowsPerPage: int, sortColumn: Option<SortColumn>)

  /** An accumulating list of ordering clauses. */
  class OrderBuilder {
    var orders: seq<Order>

    constructor()
      ensures orders == []
    {
      orders := [];
    }

    /** `addOrder`: appends a clause. */
    method AddOrder(direction: OrderDirection, attribute: string, prefix: Option<Prefix>)
      modifies this
      ensures orders == old(orders) + [Order(direction, attribute, prefix)]
    {
      orders := orders + [Order(direction, attribute, prefix)];
    }
  }

  /** The direction for a sort direction: ascending stays ascending, anything else is descending. */
  function Direction(d: SortDirection): (o: OrderDirection)
    ensures o == OrderAsc <==> d == Asc
  {
    if d == Asc then OrderAsc else OrderDesc
  }

  /** Whether the explorer is sorted by name, and in which direction. */
  function NameSort(explorer: DataExplorer): Option<OrderDirection>
  {
    if explorer.sortColumn.Some? && explorer.sortColumn.value.name == NameColumn
    then Some(Direction(explorer.sortColumn.value.sortDirection)) else None
  }

  /**
   * Builds the link and content orderings of the request: none unless the
   * sort column is the name column; then the link ordering is by name, and
   * the content ordering is by name for collections, processes and
   * projects, in that order, all in the same direction.
   */
  method BuildOrders(explorer: DataExplorer) returns (linkOrder: OrderBuilder, contentOrder: OrderBuilder)
    ensures fresh(linkOrder) && fresh(contentOrder) && linkOrder != contentOrder
    ensures NameSort(explorer).None? ==> linkOrder.orders == [] && contentOrder.orders == []
    ensures NameSort(explorer).Some? ==>
      var d := NameSort(explorer).value;
      && linkOrder.orders == [Order(d, "name", None)]
      && contentOrder.orders == [Order(d, "name", Some(CollectionPrefix)), Order(d, "name", Some(ProcessPrefix)), Order(d, "name", Some(ProjectPrefix))]
  {
    linkOrder := new OrderBuilder();
    contentOrder := new OrderBuilder();
    if explorer.sortColumn.Some? && explorer.sortColumn.value.name == NameColumn {
      var direction := if explorer.sortColumn.value.sortDirection == Asc then OrderAsc else OrderDesc;
      linkOrder.AddOrder(direction, "name", None);
      contentOrder.AddOrder(direction, "name", Some(CollectionPrefix));
      contentOrder.AddOrder(direction, "name", Some(ProcessPrefix));
      contentOrder.AddOrder(direction, "name", Some(ProjectPrefix));
    }
  }

  /** The paging of the request. */
  datatype Paging = Paging(limit: int, offset: int)

  /** A page of `rowsPerPage` rows starting at row `page × rowsPerPage`. */
  function RequestPaging(explorer: DataExplorer): (p: Paging)
    ensures p.limit == explorer.rowsPerPage
    ensures p.offset == explorer.page * p.limit
  {
    Paging(explorer.rowsPerPage, explorer.page * explorer.rowsPerPage)
  }

  /**
   * `Math.floor(offset / limit)`; `None` when the limit is 0 and the
   * quotient is not a finite number.
   */
  function FloorDiv(offset: int, limit: int): (q: Option<int>)
    ensures q.None? <==> limit == 0
    ensures limit > 0 ==> q.Some? && q.value * limit <= offset < (q.value + 1) * limit
    ensures limit < 0 ==> q.Some? && q.value * limit >= offset > (q.value + 1) * limit
  {
    if limit == 0 then None
    else if limit > 0 then Some(offset / limit)
    else Some((-offset) / (-limit))
  }

  /** The page stored from a response echoing the request's paging is the requested page. */
  lemma {:induction false} StoredPageRoundTrip(explorer: DataExplorer)
    requires explorer.rowsPerPage > 0
    ensures var p := RequestPaging(explorer); FloorDiv(p.offset, p.limit) == Some(explorer.page)
  {
    var p := RequestPaging(explorer);
    var q := FloorDiv(p.offset, p.limit).value;
    ExactQuotient(q, explorer.page, explorer.rowsPerPage);
  }

  lemma ProductSign(x: int, r: int)
    requires r > 0
    ensures x * r >= 0 ==> x >= 0
  {
    if x < 0 {
      assert x * r == -((-x) * r);
    }
  }

  /** The only `q` with `q × r <= p × r < (q + 1) × r` is `p`. */
  lemma ExactQuotient(q: int, p: int, r: int)
    requires r > 0
    requires q * r <= p * r < (q + 1) * r
    ensures q == p
  {
    assert (p - q) * r == p * r - q * r;
    assert (q - p) * r + r == (q + 1) * r - p * r;
    ProductSign(p - q, r);
    ProductSign(q - p, r);
  }

  /** A successful response: the uuids of its items and the paging it echoes. */
  datatype Response = Response(uuids: seq<string>, itemsAvailable: int, offset: int, limit: int)

  /** The items of the panel; the page is `None` when it is not a finite number. */
  datatype PanelItems = PanelItems(items: seq<string>, itemsAvailable: int, page: Option<int>, rowsPerPage: int)

  datatype Outcome =
    | NotReady
    | Loaded(panel: PanelItems)
    | Failed(panel: PanelItems)

  /**
   * `requestItems`: with no data explorer the "not ready" error and no
   * request; after a response, its items, count, page and limit; after a
   * failure, no items, a count and page of 0, and the rows per page kept.
   */
  function RequestItems(explorer: Option<DataExplorer>, response: Option<Response>): (o: Outcome)
    ensures explorer.None? <==> o.NotReady?
    ensures explorer.Some? && response.None? ==>
      o == Failed(PanelItems([], 0, Some(0), explorer.value.rowsPerPage))
    ensures explorer.Some? && response.Some? ==>
      && o.Loaded?
      && o.panel.items == response.value.uuids
      && o.panel.itemsAvailable == response.value.itemsAvailable
      && o.panel.page == FloorDiv(response.value.offset, response.value.limit)
      && o.panel.rowsPerPage == response.value.limit
  {
    if explorer.None? then NotReady
    else if response.None? then Failed(PanelItems([], 0, Some(0), explorer.value.rowsPerPage))
    else
      var r := response.value;
      Loaded(PanelItems(r.uuids, r.itemsAvailable, FloorDiv(r.offset, r.limit), r.limit))
  }
}
