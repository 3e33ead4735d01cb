/** The `/customers` routes: a table of customer documents keyed by id,
    every handler scoped to the authenticated salesperson. The store's text
    index and its case-insensitive regular expressions are parameters. */
module CustomerRoutes {
  import opened Common
  import opened CustomerModel
  import opened Ordering
  import VisitModel
  import VisitRoutes

  /** A stored document together with its id. */
  datatype Row = Row(id: Id, customer: Customer)

  /** The `.sort({ name: 1 })` order. */
  predicate ByName(a: Row, b: Row) {
    LexLe(a.customer.name, b.customer.name)
  }

  /** Insertion order, which the store returns when no sort is given. */
  predicate ById(a: Row, b: Row) {
    a.id <= b.id
  }

  lemma RowOrdersArePreorders()
    ensures TotalPreorder(ByName)
    ensures TotalPreorder(ById)
  {
    forall a: Row, b: Row ensures ByName(a, b) || ByName(b, a) {
      LexLeTotal(a.customer.name, b.customer.name);
    }
    forall a: Row, b: Row, c: Row | ByName(a, b) && ByName(b, c) ensures ByName(a, c) {
      LexLeTransitive(a.customer.name, b.customer.name, c.customer.name);
    }
  }

  /** The list query: the owner plus the filters that were given. */
  datatype Query = Query(owner: UserId, search: Option<string>, category: Option<string>, status: Option<string>)

  /** A filter joins the query only when its parameter is a non-empty string. */
  function BuildQuery(owner: UserId, search: Option<string>, category: Option<string>, status: Option<string>): Query {
    Query(owner,
          if Truthy(search) then search else None,
          if Truthy(category) then category else None,
          if Truthy(status) then status else None)
  }

  /** Whether a customer answers a query; `textMatch` stands for the text index. */
  predicate QueryMatches(q: Query, textMatch: (Customer, string) -> bool, c: Customer) {
    && c.salesPerson == q.owner
    && (q.search.Some? ==> textMatch(c, q.search.value))
    && (q.category.Some? ==> CategoryKey(c.category) == q.category.value)
    && (q.status.Some? ==> CustomerStatusKey(c.status) == q.status.value)
  }

  /** What the list selects: the caller's customers, narrowed by each
      non-empty parameter; missing and empty parameters select alike, and
      an unknown category or status selects nothing. */
  lemma ListQueryMeaning(owner: UserId, search: Option<string>, category: Option<string>, status: Option<string>,
                         textMatch: (Customer, string) -> bool, c: Customer)
    ensures QueryMatches(BuildQuery(owner, search, category, status), textMatch, c) <==>
              && c.salesPerson == owner
              && (Truthy(search) ==> textMatch(c, search.value))
              && (Truthy(category) ==> ParseCategory(category.value) == Some(c.category))
              && (Truthy(status) ==> ParseCustomerStatus(status.value) == Some(c.status))
    ensures !Truthy(search) && !Truthy(category) && !Truthy(status) ==>
              (QueryMatches(BuildQuery(owner, search, category, status), textMatch, c) <==> c.salesPerson == owner)
  {
    EnumRoundTrips(c.category, c.status, if Truthy(category) then category.value else "");
    EnumRoundTrips(c.category, c.status, if Truthy(status) then status.value else "");
  }

  /** `Math.ceil(total / limit)`. */
  function PageCount(total: nat, limit: nat): nat
    requires limit >= 1
  {
    (total + limit - 1) / limit
  }

  /** The page count is the least number of pages of `limit` rows that
      holds `total` rows, and is 0 exactly when there are no rows. */
  lemma PageCountIsCeiling(total: nat, limit: nat)
    requires limit >= 1
    ensures PageCount(total, limit) * limit >= total
    ensures total > 0 ==> (PageCount(total, limit) - 1) * limit < total
    ensures PageCount(total, limit) == 0 <==> total == 0
  {
    var pages := PageCount(total, limit);
    var rest := (total + limit - 1) % limit;
    assert total + limit - 1 == pages * limit + rest;
    assert (pages - 1) * limit == pages * limit - limit;
    if pages == 0 {
      assert total + limit - 1 == rest;
    }
  }

  /** Page `page` of the list is non-empty exactly when it is one of the
      `pages` pages the reply announces. */
  lemma PageInRange(all: seq<Row>, page: nat, limit: nat)
    requires page >= 1 && limit >= 1
    ensures |Window(all, (page - 1) * limit, limit)| > 0 <==> page <= PageCount(|all|, limit)
  {
    var pages := PageCount(|all|, limit);
    PageCountIsCeiling(|all|, limit);
    if page <= pages {
      MulMonotone(page - 1, pages - 1, limit);
    } else {
      MulMonotone(pages, page - 1, limit);
    }
  }

  lemma MulMonotone(a: int, b: int, m: nat)
    requires a <= b
    ensures a * m <= b * m
  {
    assert b * m - a * m == (b - a) * m;
  }

  datatype Pagination = Pagination(current: int, pages: nat, total: nat)

  datatype Listing = Listing(data: seq<Row>, pagination: Pagination)

  /** The reply of `GET /:id`: the customer and its latest visits. */
  datatype Detail = Detail(customer: Customer, recentVisits: seq<VisitRoutes.Entry>)

  /** One `$group` bucket of the visit statistics. */
  datatype StatusGroup = StatusGroup(status: VisitModel.VisitStatus, count: nat, totalAmount: real)

  datatype StatsReport = StatsReport(customer: Customer, visitStats: seq<StatusGroup>)

  /** A quick-search hit: `.select('name phone email address')`. */
  datatype QuickRow = QuickRow(id: Id, name: string, phone: string, email: Option<string>, address: string)

  const DefaultPage: int := 1
  const DefaultLimit: int := 20
  const RecentVisitLimit: nat := 10
  const QuickSearchLimit: nat := 10
  const QuickSearchMinLength: nat := 2

  function CountWithStatus(vs: seq<VisitRoutes.Entry>, s: VisitModel.VisitStatus): (n: nat)
    ensures n <= |vs|
  {
    if vs == [] then 0
    else CountWithStatus(vs[..|vs| - 1], s) + (if vs[|vs| - 1].visit.status == s then 1 else 0)
  }

  function AmountWithStatus(vs: seq<VisitRoutes.Entry>, s: VisitModel.VisitStatus): real {
    if vs == [] then 0.0
    else AmountWithStatus(vs[..|vs| - 1], s) + (if vs[|vs| - 1].visit.status == s then vs[|vs| - 1].visit.totalOrderAmount else 0.0)
  }

  function TotalAmount(vs: seq<VisitRoutes.Entry>): real {
    if vs == [] then 0.0
    else TotalAmount(vs[..|vs| - 1]) + vs[|vs| - 1].visit.totalOrderAmount
  }

  const AllStatuses: seq<VisitModel.VisitStatus> :=
    [VisitModel.Planned, VisitModel.InProgress, VisitModel.Completed, VisitModel.Cancelled]

  /** One bucket per status of `ss` that some visit has, in the order of `ss`. */
  function GroupsFor(vs: seq<VisitRoutes.Entry>, ss: seq<VisitModel.VisitStatus>): (gs: seq<StatusGroup>)
    ensures forall k :: 0 <= k < |gs| ==>
              && gs[k].status in ss
              && gs[k].count == CountWithStatus(vs, gs[k].status) > 0
              && gs[k].totalAmount == AmountWithStatus(vs, gs[k].status)
    ensures forall s :: s in ss && CountWithStatus(vs, s) > 0 ==>
              StatusGroup(s, CountWithStatus(vs, s), AmountWithStatus(vs, s)) in gs
  {
    if ss == [] then []
    else
      var rest := GroupsFor(vs, ss[1..]);
      var n := CountWithStatus(vs, ss[0]);
      assert ss == [ss[0]] + ss[1..];
      if n == 0 then rest
      else [StatusGroup(ss[0], n, AmountWithStatus(vs, ss[0]))] + rest
  }

  function SumCounts(gs: seq<StatusGroup>): nat {
    if gs == [] then 0 else gs[0].count + SumCounts(gs[1..])
  }

  function SumAmounts(gs: seq<StatusGroup>): real {
    if gs == [] then 0.0 else gs[0].totalAmount + SumAmounts(gs[1..])
  }

  /** `$group` by status, with `$sum: 1` and `$sum: '$totalOrderAmount'`. */
  function GroupByStatus(vs: seq<VisitRoutes.Entry>): seq<StatusGroup> {
    GroupsFor(vs, AllStatuses)
  }

  /** The counts, and the amounts, of the statuses in `ss`. */
  function CountOver(vs: seq<VisitRoutes.Entry>, ss: seq<VisitModel.VisitStatus>): nat {
    if ss == [] then 0 else CountWithStatus(vs, ss[0]) + CountOver(vs, ss[1..])
  }

  function AmountOver(vs: seq<VisitRoutes.Entry>, ss: seq<VisitModel.VisitStatus>): real {
    if ss == [] then 0.0 else AmountWithStatus(vs, ss[0]) + AmountOver(vs, ss[1..])
  }

  /** Dropping the empty buckets loses no visit and no amount. */
  lemma {:induction false} GroupsForSums(vs: seq<VisitRoutes.Entry>, ss: seq<VisitModel.VisitStatus>)
    ensures SumCounts(GroupsFor(vs, ss)) == CountOver(vs, ss)
    ensures SumAmounts(GroupsFor(vs, ss)) == AmountOver(vs, ss)
  {
    if ss != [] {
      GroupsForSums(vs, ss[1..]);
      if CountWithStatus(vs, ss[0]) == 0 {
        EmptyStatusNoAmount(vs, ss[0]);
      }
    }
  }

  /** A status no visit has contributes no amount. */
  lemma {:induction false} EmptyStatusNoAmount(vs: seq<VisitRoutes.Entry>, s: VisitModel.VisitStatus)
    requires CountWithStatus(vs, s) == 0
    ensures AmountWithStatus(vs, s) == 0.0
  {
    if vs != [] {
      EmptyStatusNoAmount(vs[..|vs| - 1], s);
    }
  }

  /** Every status falls in exactly one of the four buckets. */
  lemma {:induction false} StatusCountsPartition(vs: seq<VisitRoutes.Entry>)
    ensures CountWithStatus(vs, VisitModel.Planned) + CountWithStatus(vs, VisitModel.InProgress)
            + CountWithStatus(vs, VisitModel.Completed) + CountWithStatus(vs, VisitModel.Cancelled) == |vs|
    ensures AmountWithStatus(vs, VisitModel.Planned) + AmountWithStatus(vs, VisitModel.InProgress)
            + AmountWithStatus(vs, VisitModel.Completed) + AmountWithStatus(vs, VisitModel.Cancelled) == TotalAmount(vs)
  {
    if vs != [] {
      StatusCountsPartition(vs[..|vs| - 1]);
    }
  }

  /** The buckets account for every matching visit once, and their amounts
      add up to the amount of all of them. */
  lemma GroupByStatusCovers(vs: seq<VisitRoutes.Entry>)
    ensures SumCounts(GroupByStatus(vs)) == |vs|
    ensures SumAmounts(GroupByStatus(vs)) == TotalAmount(vs)
  {
    GroupsForSums(vs, AllStatuses);
    OverAllStatuses(vs);
  }

  lemma OverAllStatuses(vs: seq<VisitRoutes.Entry>)
    ensures CountOver(vs, AllStatuses) == |vs|
    ensures AmountOver(vs, AllStatuses) == TotalAmount(vs)
  {
    StatusCountsPartition(vs);
    var s3 := [VisitModel.Cancelled];
    var s2 := [VisitModel.Completed] + s3;
    var s1 := [VisitModel.InProgress] + s2;
    assert AllStatuses[1..] == s1 && s1[1..] == s2 && s2[1..] == s3 && s3[1..] == [];
    assert CountOver(vs, s3) == CountWithStatus(vs, VisitModel.Cancelled);
    assert CountOver(vs, s2) == CountWithStatus(vs, VisitModel.Completed) + CountOver(vs, s3);
    assert CountOver(vs, s1) == CountWithStatus(vs, VisitModel.InProgress) + CountOver(vs, s2);
    assert AmountOver(vs, s3) == AmountWithStatus(vs, VisitModel.Cancelled);
    assert AmountOver(vs, s2) == AmountWithStatus(vs, VisitModel.Completed) + AmountOver(vs, s3);
    assert AmountOver(vs, s1) == AmountWithStatus(vs, VisitModel.InProgress) + AmountOver(vs, s2);
  }

  function QuickRowOf(r: Row): QuickRow {
    QuickRow(r.id, r.customer.name, r.customer.phone, r.customer.email, r.customer.address)
  }

  /** The quick-search condition: the caller's customer whose name, phone
      or email matches `q` (`regex(field, q)`). */
  predicate QuickMatches(regex: (string, string) -> bool, user: UserId, q: string, c: Customer) {
    && c.salesPerson == user
    && (regex(c.name, q) || regex(c.phone, q) || (c.email.Some? && regex(c.email.value, q)))
  }

  /** No two of one salesperson's customers share a non-empty email. */
  ghost predicate OwnEmailsUnique(m: map<Id, Customer>) {
    forall i, j :: i in m && j in m && i != j && m[i].salesPerson == m[j].salesPerson && Truthy(m[i].email) ==>
      m[i].email != m[j].email
  }

  predicate EmailTaken(m: map<Id, Customer>, user: UserId, email: string) {
    exists id :: id in m && m[id].salesPerson == user && m[id].email == Some(email)
  }

  class CustomerStore {
    var customers: map<Id, Customer>
    var nextId: Id

    /** Every stored id was handed out before `nextId`. */
    ghost predicate Valid()
      reads this
    {
      forall id :: id in customers ==> id < nextId
    }

    constructor()
      ensures Valid() && customers == map[]
    {
      customers := map[];
      nextId := 0;
    }

    /** The rows among `keys` whose customer passes `keep`. */
    ghost function Selected(keep: Customer -> bool, keys: set<Id>): set<Row>
      reads this
    {
      set id | id in keys && id in customers && keep(customers[id]) :: Row(id, customers[id])
    }

    /** `Customer.find(filter).sort(order)`: each selected document exactly
        once, in the order `le`. */
    method Find(keep: Customer -> bool, le: (Row, Row) -> bool) returns (r: seq<Row>)
      requires TotalPreorder(le)
      ensures Sorted(r, le)
      ensures multiset(r) == multiset(Selected(keep, customers.Keys))
    {
      var rest := customers.Keys;
      r := [];
      while rest != {}
        invariant rest <= customers.Keys
        invariant Sorted(r, le)
        invariant multiset(r) == multiset(Selected(keep, customers.Keys - rest))
        decreases |rest|
      {
        var id :| id in rest;
        ghost var done := customers.Keys - rest;
        rest := rest - {id};
        assert customers.Keys - rest == done + {id};
        var row := Row(id, customers[id]);
        assert row !in Selected(keep, done);
        if keep(customers[id]) {
          assert Selected(keep, done + {id}) == Selected(keep, done) + {row};
          InsertSorted(r, row, le);
          r := Insert(r, row, le);
        } else {
          assert Selected(keep, done + {id}) == Selected(keep, done);
        }
      }
    }

    /** `GET /`: the caller's customers narrowed by the given filters, by
        name, page `page` of `limit` rows, with the page count and the
        number of matches. A page below 1 asks the store for a negative
        skip, which it refuses: a 500. */
    method List(textMatch: (Customer, string) -> bool, user: UserId, search: Option<string>,
                category: Option<string>, status: Option<string>, page: int := DefaultPage, limit: int := DefaultLimit)
      returns (r: Result<Listing, HttpError>, ghost all: seq<Row>)
      requires limit >= 1
      ensures page < 1 ==> r == Err(ServerError)
      ensures page >= 1 ==> r.Ok?
      ensures Sorted(all, ByName)
      ensures multiset(all) == multiset(Selected(c => QueryMatches(BuildQuery(user, search, category, status), textMatch, c), customers.Keys))
      ensures r.Ok? ==>
                && r.value.data == Window(all, (page - 1) * limit, limit)
                && r.value.pagination == Pagination(page, PageCount(|all|, limit), |all|)
      ensures r.Ok? ==> forall k :: 0 <= k < |r.value.data| ==>
                && r.value.data[k].id in customers
                && r.value.data[k].customer == customers[r.value.data[k].id]
                && r.value.data[k].customer.salesPerson == user
    {
      var q := BuildQuery(user, search, category, status);
      RowOrdersArePreorders();
      var found := Find(c => QueryMatches(q, textMatch, c), ByName);
      all := found;
      if page < 1 {
        return Err(ServerError), all;
      }
      var rows := Window(found, (page - 1) * limit, limit);
      forall k | 0 <= k < |rows|
        ensures rows[k].id in customers && rows[k].customer == customers[rows[k].id] && rows[k].customer.salesPerson == user
      {
        assert rows[k] == all[(page - 1) * limit + k];
        assert rows[k] in multiset(all);
      }
      r := Ok(Listing(rows, Pagination(page, PageCount(|found|, limit), |found|)));
    }

    /** `POST /`: the body with `salesPerson` forced to the caller. A
        non-empty email that one of the caller's customers already has is
        a 400; a document the schema rejects is a 500; otherwise it is
        stored under a fresh id. Either way no salesperson ends up with two
        customers sharing an email through this route. */
    method Create(validEmail: string -> bool, user: UserId, body: CustomerBody) returns (r: Result<Row, HttpError>)
      requires Valid()
      modifies this
      ensures Valid()
      ensures Truthy(body.email) && EmailTaken(old(customers), user, body.email.value) ==> r == Err(BadRequest)
      ensures !(Truthy(body.email) && EmailTaken(old(customers), user, body.email.value)) ==>
                r == (match Build(body.(salesPerson := Some(user)), validEmail)
                      case Some(c) => Ok(Row(old(nextId), c))
                      case None => Err(ServerError))
      ensures r.Ok? ==> r.value.id !in old(customers) && r.value.customer.salesPerson == user
                        && customers == old(customers)[r.value.id := r.value.customer]
      ensures r.Err? ==> customers == old(customers)
      ensures OwnEmailsUnique(old(customers)) ==> OwnEmailsUnique(customers)
    {
      if Truthy(body.email) && EmailTaken(customers, user, body.email.value) {
        return Err(BadRequest);
      }
      var built := Build(body.(salesPerson := Some(user)), validEmail);
      if built.None? {
        return Err(ServerError);
      }
      var id := nextId;
      customers := customers[id := built.value];
      nextId := nextId + 1;
      r := Ok(Row(id, built.value));
    }

    /** `GET /:id`: the caller's own customer with its ten latest visits
        (same salesperson, same customer name, newest planned date first);
        404 otherwise. */
    method Get(user: UserId, id: Id, visits: VisitRoutes.VisitStore) returns (r: Result<Detail, HttpError>, ghost all: seq<VisitRoutes.Entry>)
      ensures r.Ok? <==> id in customers && customers[id].salesPerson == user
      ensures r.Err? ==> r.error == NotFound
      ensures r.Ok? ==>
                && r.value.customer == customers[id]
                && Sorted(all, VisitRoutes.ByPlannedDateDesc)
                && multiset(all) == multiset(VisitRoutes.Selected(visits.visits,
                     VisitRoutes.Filter(user, None, Some(customers[id].name)), visits.visits.Keys))
                && r.value.recentVisits == Window(all, 0, RecentVisitLimit)
    {
      if !(id in customers && customers[id].salesPerson == user) {
        return Err(NotFound), [];
      }
      var c := customers[id];
      VisitRoutes.PlannedDateOrdersArePreorders();
      var found := visits.Find(VisitRoutes.Filter(user, None, Some(c.name)), VisitRoutes.ByPlannedDateDesc);
      all := found;
      r := Ok(Detail(c, Window(found, 0, RecentVisitLimit)));
    }

    /** `PUT /:id`: the update validators run on the body before the
        lookup, so an invalid body is a 500 whether or not the customer
        exists; otherwise the body is applied to the caller's own customer,
        and 404 when the caller owns no customer with that id. No email
        uniqueness check is made here. */
    method Update(validEmail: string -> bool, user: UserId, id: Id, body: CustomerBody) returns (r: Result<Customer, HttpError>)
      requires Valid()
      modifies this`customers
      ensures Valid()
      ensures !UpdateValid(body, validEmail) ==> r == Err(ServerError)
      ensures UpdateValid(body, validEmail) && !(id in old(customers) && old(customers)[id].salesPerson == user) ==>
                r == Err(NotFound)
      ensures UpdateValid(body, validEmail) && id in old(customers) && old(customers)[id].salesPerson == user ==>
                r == Ok(Merge(old(customers)[id], body, validEmail).value)
      ensures r.Ok? ==> customers == old(customers)[id := r.value]
      ensures r.Err? ==> customers == old(customers)
    {
      if !UpdateValid(body, validEmail) {
        return Err(ServerError);
      }
      if !(id in customers && customers[id].salesPerson == user) {
        return Err(NotFound);
      }
      var merged := Merge(customers[id], body, validEmail);
      customers := customers[id := merged.value];
      r := Ok(merged.value);
    }

    /** `DELETE /:id`: removes the caller's own customer; 404 otherwise. */
    method Delete(user: UserId, id: Id) returns (r: Result<Customer, HttpError>)
      requires Valid()
      modifies this`customers
      ensures Valid()
      ensures id in old(customers) && old(customers)[id].salesPerson == user ==>
                r == Ok(old(customers)[id]) && customers == old(customers) - {id}
      ensures !(id in old(customers) && old(customers)[id].salesPerson == user) ==>
                r == Err(NotFound) && customers == old(customers)
    {
      if !(id in customers && customers[id].salesPerson == user) {
        return Err(NotFound);
      }
      r := Ok(customers[id]);
      customers := customers - {id};
    }

    /** `GET /:id/stats`: for the caller's own customer, the visits of the
        same salesperson and customer name grouped by status, each bucket
        with its count and order amount; the counts add up to the number
        of such visits. 404 when the caller owns no such customer. */
    method Stats(user: UserId, id: Id, visits: VisitRoutes.VisitStore) returns (r: Result<StatsReport, HttpError>, ghost matching: seq<VisitRoutes.Entry>)
      ensures r.Ok? <==> id in customers && customers[id].salesPerson == user
      ensures r.Err? ==> r.error == NotFound
      ensures r.Ok? ==>
                && r.value.customer == customers[id]
                && multiset(matching) == multiset(VisitRoutes.Selected(visits.visits,
                     VisitRoutes.Filter(user, None, Some(customers[id].name)), visits.visits.Keys))
                && r.value.visitStats == GroupByStatus(matching)
                && SumCounts(r.value.visitStats) == |VisitRoutes.Selected(visits.visits,
                     VisitRoutes.Filter(user, None, Some(customers[id].name)), visits.visits.Keys)|
    {
      if !(id in customers && customers[id].salesPerson == user) {
        return Err(NotFound), [];
      }
      var c := customers[id];
      VisitRoutes.PlannedDateOrdersArePreorders();
      var found := visits.Find(VisitRoutes.Filter(user, None, Some(c.name)), VisitRoutes.ByPlannedDate);
      matching := found;
      GroupByStatusCovers(found);
      assert |found| == |multiset(found)|;
      r := Ok(StatsReport(c, GroupByStatus(found)));
    }

    /** `GET /search/quick`: nothing for a missing or one-character `q`;
        otherwise the first ten of the caller's customers, in insertion
        order, whose name, phone or email matches `q`, reduced to name,
        phone, email and address. `q` goes into `$regex` unescaped: a
        string the store cannot compile as a pattern (`validPattern` false)
        makes the query fail, and the route answers 500. */
    method QuickSearch(regex: (string, string) -> bool, validPattern: string -> bool, user: UserId, q: Option<string>)
      returns (r: Result<seq<QuickRow>, HttpError>, ghost all: seq<Row>)
      ensures q.None? || |q.value| < QuickSearchMinLength ==> r == Ok([])
      ensures q.Some? && |q.value| >= QuickSearchMinLength && !validPattern(q.value) ==> r == Err(ServerError)
      ensures q.Some? && |q.value| >= QuickSearchMinLength && validPattern(q.value) ==>
                && r.Ok?
                && Sorted(all, ById)
                && multiset(all) == multiset(Selected(c => QuickMatches(regex, user, q.value, c), customers.Keys))
                && |r.value| == (if |all| < QuickSearchLimit then |all| else QuickSearchLimit)
                && forall k :: 0 <= k < |r.value| ==> r.value[k] == QuickRowOf(all[k])
      ensures r.Ok? ==> forall k :: 0 <= k < |r.value| ==>
                r.value[k].id in customers && customers[r.value[k].id].salesPerson == user
                && r.value[k].name == customers[r.value[k].id].name
    {
      if q.None? || |q.value| < QuickSearchMinLength {
        return Ok([]), [];
      }
      if !validPattern(q.value) {
        return Err(ServerError), [];
      }
      var term := q.value;
      RowOrdersArePreorders();
      var found := Find(c => QuickMatches(regex, user, term, c), ById);
      all := found;
      var hits := Window(found, 0, QuickSearchLimit);
      var rows := seq(|hits|, k requires 0 <= k < |hits| => QuickRowOf(hits[k]));
      forall k | 0 <= k < |rows|
        ensures rows[k].id in customers && customers[rows[k].id].salesPerson == user && rows[k].name == customers[rows[k].id].name
      {
        assert hits[k] == all[k];
        assert all[k] in multiset(all);
      }
      r := Ok(rows);
    }
  }
}
