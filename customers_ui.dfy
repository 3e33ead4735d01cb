/** The browser-side `CustomerManager`: the filter state, the request it
    sends for a page of customers, the customer cards or empty-state block
    it shows, and the pagination controls. HTML is reduced to the controls
    and labels it carries. */
module CustomersUi {
  import opened Common
  import opened CustomerModel
  import CustomerRoutes

  /** One pagination control: "← Önceki", a page number (the current one
      is a plain marker, every other one a button) or "Sonraki →". */
  datatype Control = Prev(target: int) | Current(n: int) | PageButton(n: int) | Next(target: int)

  /** The query parameters of `getCustomers`. */
  datatype Params = Params(page: int, limit: int, search: Option<string>, category: Option<string>, status: Option<string>)

  /** "Müşteri bulunamadı" with a clear-filters button, or "Henüz müşteriniz
      yok" with an add-customer button. */
  datatype EmptyKind = NoMatch | NoCustomers

  datatype Card = Card(id: Id, name: string, categoryLabel: string, statusLabel: string)

  datatype CustomersView = EmptyView(kind: EmptyKind) | Cards(cards: seq<Card>)

  /** The list endpoint's answer as the page reads it. */
  datatype CustomersReply = CustomersReply(data: seq<CustomerRoutes.Row>, pagination: Option<CustomerRoutes.Pagination>)

  const PageSize: int := 20

  /** `getCategoryText`: the four categories get Turkish labels; any other
      string is shown as it is. */
  function CategoryText(category: string): (text: string)
    ensures category == "retail" ==> text == "Perakende"
    ensures category == "corporate" ==> text == "Kurumsal"
    ensures category == "wholesale" ==> text == "Toptan"
    ensures category == "other" ==> text == "Diğer"
    ensures ParseCategory(category).None? ==> text == category
  {
    if category == "retail" then "Perakende"
    else if category == "corporate" then "Kurumsal"
    else if category == "wholesale" then "Toptan"
    else if category == "other" then "Diğer"
    else category
  }

  /** `getStatusText`: the three customer statuses get Turkish labels; any
      other string is shown as it is. */
  function StatusText(status: string): (text: string)
    ensures status == "active" ==> text == "Aktif"
    ensures status == "inactive" ==> text == "Pasif"
    ensures status == "blocked" ==> text == "Bloke"
    ensures ParseCustomerStatus(status).None? ==> text == status
  {
    if status == "active" then "Aktif"
    else if status == "inactive" then "Pasif"
    else if status == "blocked" then "Bloke"
    else status
  }

  /** Every value the schema admits has a label of its own: distinct
      values get distinct labels, and no label is a raw key. */
  lemma LabelsCoverEnums(c1: Category, c2: Category, s1: CustomerStatus, s2: CustomerStatus)
    ensures CategoryText(CategoryKey(c1)) == CategoryText(CategoryKey(c2)) <==> c1 == c2
    ensures CustomerStatusKey(s1) != StatusText(CustomerStatusKey(s1))
    ensures StatusText(CustomerStatusKey(s1)) == StatusText(CustomerStatusKey(s2)) <==> s1 == s2
    ensures CategoryKey(c1) != CategoryText(CategoryKey(c1))
  {
  }

  function PageEntry(i: int, cur: int): Control {
    if i == cur then Current(i) else PageButton(i)
  }

  /** The controls `renderPagination` emits, position by position: nothing
      without a pagination block or with at most one page; otherwise
      "previous" first when the current page is past the first, then the
      pages 1 to `pages` in order, then "next" when the current page is
      before the last. */
  predicate PaginationShape(controls: seq<Control>, cur: int, pagination: Option<CustomerRoutes.Pagination>) {
    if pagination.None? || pagination.value.pages <= 1 then controls == []
    else
      var pages := pagination.value.pages;
      var head := if cur > 1 then 1 else 0;
      && |controls| == head + pages + (if cur < pages then 1 else 0)
      && (cur > 1 ==> controls[0] == Prev(cur - 1))
      && (forall i :: 1 <= i <= pages ==> controls[head + i - 1] == PageEntry(i, cur))
      && (cur < pages ==> controls[head + pages] == Next(cur + 1))
  }

  /** What the controls offer: "previous" exactly when the current page is
      past the first, "next" exactly when it is before the last, a button
      for every other page, and the current page marked, not clickable,
      exactly when it is one of the pages. */
  lemma {:induction false} PaginationControlsOffered(controls: seq<Control>, cur: int, pages: nat, total: nat)
    requires pages > 1
    requires PaginationShape(controls, cur, Some(CustomerRoutes.Pagination(cur, pages, total)))
    ensures Prev(cur - 1) in controls <==> cur > 1
    ensures Next(cur + 1) in controls <==> cur < pages
    ensures forall i :: 1 <= i <= pages && i != cur ==> PageButton(i) in controls
    ensures Current(cur) in controls <==> 1 <= cur <= pages
    ensures forall i :: Current(i) in controls ==> i == cur
  {
    var head := if cur > 1 then 1 else 0;
    assert forall i :: 1 <= i <= pages ==> controls[head + i - 1] == PageEntry(i, cur);
    forall k | 0 <= k < |controls|
      ensures !controls[k].Prev? || (cur > 1 && k == 0)
      ensures !controls[k].Next? || (cur < pages && k == head + pages)
      ensures controls[k].Current? ==> controls[k].n == cur && 1 <= cur <= pages
    {
      if head <= k < head + pages {
        assert controls[head + (k - head + 1) - 1] == PageEntry(k - head + 1, cur);
      }
    }
    forall i | 1 <= i <= pages && i != cur ensures PageButton(i) in controls {
      assert controls[head + i - 1] == PageEntry(i, cur) == PageButton(i);
    }
    if 1 <= cur <= pages {
      assert controls[head + cur - 1] == PageEntry(cur, cur) == Current(cur);
    }
    if cur > 1 {
      assert controls[0] == Prev(cur - 1);
    }
    if cur < pages {
      assert controls[head + pages] == Next(cur + 1);
    }
  }

  /** The shape pins the controls down: two renderings of one state agree. */
  lemma PaginationShapeUnique(a: seq<Control>, b: seq<Control>, cur: int, pagination: Option<CustomerRoutes.Pagination>)
    requires PaginationShape(a, cur, pagination) && PaginationShape(b, cur, pagination)
    ensures a == b
  {
    if pagination.Some? && pagination.value.pages > 1 {
      var pages := pagination.value.pages;
      var head := if cur > 1 then 1 else 0;
      assert forall i :: 1 <= i <= pages ==> a[head + i - 1] == PageEntry(i, cur);
      assert forall i :: 1 <= i <= pages ==> b[head + i - 1] == PageEntry(i, cur);
      forall k | 0 <= k < |a| ensures a[k] == b[k] {
        if head <= k < head + pages {
          var i := k - head + 1;
          assert a[head + i - 1] == PageEntry(i, cur) == b[head + i - 1];
        }
      }
    }
  }

  function CardFor(r: CustomerRoutes.Row): Card {
    Card(r.id, r.customer.name, CategoryText(CategoryKey(r.customer.category)), StatusText(CustomerStatusKey(r.customer.status)))
  }

  /** `currentCustomers` is `None` once an error answer has set it to
      `undefined`; rendering then throws before anything is shown. */
  class CustomerManager {
    var currentCustomers: Option<seq<CustomerRoutes.Row>>
    var currentPage: int
    var searchQuery: string
    var selectedCategory: string
    var selectedStatus: string

    constructor()
      ensures currentCustomers == Some([]) && currentPage == 1
      ensures searchQuery == "" && selectedCategory == "" && selectedStatus == ""
    {
      currentCustomers := Some([]);
      currentPage := 1;
      searchQuery := "";
      selectedCategory := "";
      selectedStatus := "";
    }

    /** The request `loadCustomers(page)` sends: the page, 20 rows, and each
        filter only when it is not empty. */
    function LoadParams(page: int): (p: Params)
      reads this
      ensures p.page == page && p.limit == PageSize
      ensures p.search.Some? <==> searchQuery != ""
      ensures p.category.Some? <==> selectedCategory != ""
      ensures p.status.Some? <==> selectedStatus != ""
      ensures p.search.Some? ==> p.search.value == searchQuery
      ensures p.category.Some? ==> p.category.value == selectedCategory
      ensures p.status.Some? ==> p.status.value == selectedStatus
    {
      Params(page, PageSize,
             if searchQuery != "" then Some(searchQuery) else None,
             if selectedCategory != "" then Some(selectedCategory) else None,
             if selectedStatus != "" then Some(selectedStatus) else None)
    }

    /** `getEmptyStateHTML`: the "no match" block when some filter is set,
        the "no customers yet" block otherwise. */
    function EmptyStateFor(): (kind: EmptyKind)
      reads this
      ensures kind == NoMatch <==> searchQuery != "" || selectedCategory != "" || selectedStatus != ""
    {
      if searchQuery != "" || selectedCategory != "" || selectedStatus != "" then NoMatch else NoCustomers
    }

    /** `renderCustomers`: throws on an `undefined` list; the empty-state
        block for an empty list; otherwise one card per customer, in list
        order. */
    function RenderCustomers(): (view: Option<CustomersView>)
      reads this
      ensures view.None? <==> currentCustomers.None?
      ensures view.Some? ==> (view.value.EmptyView? <==> currentCustomers.value == [])
      ensures view.Some? && view.value.EmptyView? ==> view.value.kind == EmptyStateFor()
      ensures view.Some? && view.value.Cards? ==>
                && |view.value.cards| == |currentCustomers.value|
                && forall i :: 0 <= i < |view.value.cards| ==> view.value.cards[i].id == currentCustomers.value[i].id
    {
      if currentCustomers.None? then None
      else
        var rows := currentCustomers.value;
        if |rows| == 0 then Some(EmptyView(EmptyStateFor()))
        else Some(Cards(seq(|rows|, i requires 0 <= i < |rows| => CardFor(rows[i]))))
    }

    /** `renderPagination`: builds the controls for the current page. */
    method RenderPagination(pagination: Option<CustomerRoutes.Pagination>) returns (controls: seq<Control>)
      ensures PaginationShape(controls, currentPage, pagination)
    {
      if pagination.None? || pagination.value.pages <= 1 {
        return [];
      }
      var pages := pagination.value.pages;
      var cur := currentPage;
      controls := if cur > 1 then [Prev(cur - 1)] else [];
      var head := |controls|;
      var i := 1;
      while i <= pages
        invariant 1 <= i <= pages + 1
        invariant |controls| == head + i - 1
        invariant cur > 1 ==> controls[0] == Prev(cur - 1)
        invariant forall j :: 1 <= j < i ==> controls[head + j - 1] == PageEntry(j, cur)
      {
        if i == cur {
          controls := controls + [Current(i)];
        } else {
          controls := controls + [PageButton(i)];
        }
        i := i + 1;
      }
      if cur < pages {
        controls := controls + [Next(cur + 1)];
      }
    }

    /** `loadCustomers(page = 1)`: sends the request for `page`. An
        answer's rows and the page number are taken and both the list and
        the controls are rendered. An error answer has no `data`: the rows
        become `undefined` and the page number is still taken, then the
        render throws into the alert. A failed fetch changes nothing. The
        filters are left as they were in every case. */
    method LoadCustomers(reply: Reply<CustomersReply>, page: int := 1)
      returns (sent: Params, shown: Option<(CustomersView, seq<Control>)>)
      modifies this
      ensures sent == old(LoadParams(page))
      ensures searchQuery == old(searchQuery) && selectedCategory == old(selectedCategory)
              && selectedStatus == old(selectedStatus)
      ensures reply.NetworkFailure? ==> currentCustomers == old(currentCustomers) && currentPage == old(currentPage)
                                        && shown.None?
      ensures reply.ErrorBody? ==> currentCustomers == None && currentPage == page && shown.None?
      ensures reply.Body? ==> currentCustomers == Some(reply.body.data) && currentPage == page
      ensures reply.Body? ==> shown.Some? && Some(shown.value.0) == RenderCustomers()
                              && PaginationShape(shown.value.1, page, reply.body.pagination)
    {
      sent := LoadParams(page);
      match reply
      case NetworkFailure =>
        shown := None;
      case ErrorBody =>
        currentCustomers := None;
        currentPage := page;
        shown := None;
      case Body(answer) =>
        currentCustomers := Some(answer.data);
        currentPage := page;
        var view := RenderCustomers();
        var controls := RenderPagination(answer.pagination);
        shown := Some((view.value, controls));
    }

    /** `clearFilters`: empties all three filters and reloads page 1. */
    method ClearFilters(reply: Reply<CustomersReply>) returns (sent: Params, shown: Option<(CustomersView, seq<Control>)>)
      modifies this
      ensures searchQuery == "" && selectedCategory == "" && selectedStatus == ""
      ensures sent == Params(1, PageSize, None, None, None)
      ensures reply.Body? ==> currentPage == 1 && currentCustomers == Some(reply.body.data) && shown.Some?
      ensures reply.ErrorBody? ==> currentPage == 1 && currentCustomers == None && shown.None?
      ensures reply.NetworkFailure? ==> currentCustomers == old(currentCustomers) && currentPage == old(currentPage)
                                        && shown.None?
      ensures reply.Body? ==> Some(shown.value.0) == RenderCustomers()
                              && PaginationShape(shown.value.1, 1, reply.body.pagination)
      ensures EmptyStateFor() == NoCustomers
    {
      searchQuery := "";
      selectedCategory := "";
      selectedStatus := "";
      sent, shown := LoadCustomers(reply, 1);
    }

    /** `handleSearch`: sets the search text and reloads page 1. */
    method HandleSearch(query: string, reply: Reply<CustomersReply>) returns (sent: Params, shown: Option<(CustomersView, seq<Control>)>)
      modifies this
      ensures searchQuery == query
      ensures selectedCategory == old(selectedCategory) && selectedStatus == old(selectedStatus)
      ensures sent == LoadParams(1)
      ensures reply.Body? ==> currentPage == 1 && currentCustomers == Some(reply.body.data) && shown.Some?
      ensures reply.ErrorBody? ==> currentPage == 1 && currentCustomers == None && shown.None?
      ensures reply.NetworkFailure? ==> currentCustomers == old(currentCustomers) && currentPage == old(currentPage)
                                        && shown.None?
      ensures reply.Body? ==> Some(shown.value.0) == RenderCustomers()
                              && PaginationShape(shown.value.1, 1, reply.body.pagination)
    {
      searchQuery := query;
      sent, shown := LoadCustomers(reply, 1);
    }

    /** `handleCategoryChange`: sets the category filter and reloads page 1. */
    method HandleCategoryChange(category: string, reply: Reply<CustomersReply>) returns (sent: Params, shown: Option<(CustomersView, seq<Control>)>)
      modifies this
      ensures selectedCategory == category
      ensures searchQuery == old(searchQuery) && selectedStatus == old(selectedStatus)
      ensures sent == LoadParams(1)
      ensures reply.Body? ==> currentPage == 1 && currentCustomers == Some(reply.body.data) && shown.Some?
      ensures reply.ErrorBody? ==> currentPage == 1 && currentCustomers == None && shown.None?
      ensures reply.NetworkFailure? ==> currentCustomers == old(currentCustomers) && currentPage == old(currentPage)
                                        && shown.None?
      ensures reply.Body? ==> Some(shown.value.0) == RenderCustomers()
                              && PaginationShape(shown.value.1, 1, reply.body.pagination)
    {
      selectedCategory := category;
      sent, shown := LoadCustomers(reply, 1);
    }

    /** `handleStatusChange`: sets the status filter and reloads page 1. */
    method HandleStatusChange(status: string, reply: Reply<CustomersReply>) returns (sent: Params, shown: Option<(CustomersView, seq<Control>)>)
      modifies this
      ensures selectedStatus == status
      ensures searchQuery == old(searchQuery) && selectedCategory == old(selectedCategory)
      ensures sent == LoadParams(1)
      ensures reply.Body? ==> currentPage == 1 && currentCustomers == Some(reply.body.data) && shown.Some?
      ensures reply.ErrorBody? ==> currentPage == 1 && currentCustomers == None && shown.None?
      ensures reply.NetworkFailure? ==> currentCustomers == old(currentCustomers) && currentPage == old(currentPage)
                                        && shown.None?
      ensures reply.Body? ==> Some(shown.value.0) == RenderCustomers()
                              && PaginationShape(shown.value.1, 1, reply.body.pagination)
    {
      selectedStatus := status;
      sent, shown := LoadCustomers(reply, 1);
    }
  }

  /** Leaving out the empty filters changes nothing on the server: the
      request selects what sending every filter, empty or not, would select,
      and the "no match" block is shown exactly when the request carries a
      filter. */
  lemma ParamsAgreeWithServer(m: CustomerManager, user: UserId, page: int)
    ensures var p := m.LoadParams(page);
            CustomerRoutes.BuildQuery(user, p.search, p.category, p.status)
            == CustomerRoutes.BuildQuery(user, Some(m.searchQuery), Some(m.selectedCategory), Some(m.selectedStatus))
    ensures var p := m.LoadParams(page);
            m.EmptyStateFor() == NoMatch <==> p.search.Some? || p.category.Some? || p.status.Some?
  {
  }
}
