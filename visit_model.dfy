/** The Mongoose `Visit` model: the record, its schema rules and defaults,
    and the pre-save hook that folds the order lines into
    `totalOrderAmount`. */
module VisitModel {
  import opened Common

  datatype VisitStatus = Planned | InProgress | Completed | Cancelled

  /** The string each status is stored and sent as. */
  function StatusKey(s: VisitStatus): string {
    match s
    case Planned => "planned"
    case InProgress => "in-progress"
    case Completed => "completed"
    case Cancelled => "cancelled"
  }

  /** The schema's `enum` check: a string is a status only if it is one of
      the four keys. */
  function ParseStatus(key: string): (r: Option<VisitStatus>)
    ensures r.Some? ==> StatusKey(r.value) == key
  {
    if key == "planned" then Some(Planned)
    else if key == "in-progress" then Some(InProgress)
    else if key == "completed" then Some(Completed)
    else if key == "cancelled" then Some(Cancelled)
    else None
  }

  /** Parsing and printing a status are inverse: every status survives the
      round trip and only the four keys parse. */
  lemma StatusRoundTrip(s: VisitStatus, key: string)
    ensures ParseStatus(StatusKey(s)) == Some(s)
    ensures ParseStatus(key) == Some(s) <==> key == StatusKey(s)
  {
  }

  /** A stored number field may hold a non-number in legacy documents. */
  datatype Num = Number(n: real) | NotNumber

  datatype Coords = Coords(lat: Num, lng: Num)

  datatype VisitCustomer = VisitCustomer(
    name: string,
    address: string,
    phone: Option<string>,
    location: Option<Coords>)

  datatype OrderLine = OrderLine(productName: string, quantity: real, unitPrice: real, totalPrice: real)

  datatype Confirmation = Confirmation(confirmed: bool, confirmedAt: Option<Time>, signature: Option<string>)

  datatype Visit = Visit(
    salesPerson: UserId,
    customer: VisitCustomer,
    plannedDate: Time,
    actualDate: Option<Time>,
    status: VisitStatus,
    notes: Option<string>,
    confirmation: Confirmation,
    orders: seq<OrderLine>,
    totalOrderAmount: real)

  /** A request body: every field may be missing. A present `customer` or
      `confirmation` replaces the whole sub-document. */
  datatype VisitBody = VisitBody(
    salesPerson: Option<UserId>,
    customer: Option<VisitCustomer>,
    plannedDate: Option<Time>,
    actualDate: Option<Time>,
    status: Option<string>,
    notes: Option<string>,
    confirmation: Option<Confirmation>,
    orders: Option<seq<OrderLine>>,
    totalOrderAmount: Option<real>)

  const MaxNotesLength: nat := 1000

  const DefaultConfirmation: Confirmation := Confirmation(false, None, None)

  /** The `min` bounds of an order line, and its required product name. */
  predicate LineValid(l: OrderLine) {
    l.productName != "" && l.quantity >= 1.0 && l.unitPrice >= 0.0 && l.totalPrice >= 0.0
  }

  predicate LinesValid(orders: seq<OrderLine>) {
    forall i :: 0 <= i < |orders| ==> LineValid(orders[i])
  }

  predicate NotesValid(notes: Option<string>) {
    notes.Some? ==> |notes.value| <= MaxNotesLength
  }

  /** The customer sub-document's required fields: name, address and a
      numeric latitude and longitude. */
  predicate CustomerValid(c: VisitCustomer) {
    && c.name != ""
    && c.address != ""
    && c.location.Some?
    && c.location.value.lat.Number?
    && c.location.value.lng.Number?
  }

  /** What a full validation (run by `save`) accepts. */
  predicate SchemaValid(v: Visit) {
    CustomerValid(v.customer) && NotesValid(v.notes) && LinesValid(v.orders)
  }

  /** The `reduce` of the pre-save hook: a left fold adding
      quantity × unitPrice line by line, starting from 0. Under the line
      bounds the total is never negative. */
  function OrderTotal(orders: seq<OrderLine>): (total: real)
    ensures LinesValid(orders) ==> total >= 0.0
  {
    if orders == [] then 0.0
    else
      var last := orders[|orders| - 1];
      assert LinesValid(orders) ==> LinesValid(orders[..|orders| - 1]) && LineValid(last);
      OrderTotal(orders[..|orders| - 1]) + last.quantity * last.unitPrice
  }

  /** Appending a line adds exactly its quantity × unitPrice. */
  lemma OrderTotalAppend(orders: seq<OrderLine>, line: OrderLine)
    ensures OrderTotal(orders + [line]) == OrderTotal(orders) + line.quantity * line.unitPrice
  {
    assert (orders + [line])[..|orders|] == orders;
  }

  /** The total reads only quantities and unit prices: the lines' own
      `totalPrice` (and product names) make no difference. */
  lemma {:induction false} OrderTotalIgnoresTotalPrice(a: seq<OrderLine>, b: seq<OrderLine>)
    requires |a| == |b|
    requires forall i :: 0 <= i < |a| ==> a[i].quantity == b[i].quantity && a[i].unitPrice == b[i].unitPrice
    ensures OrderTotal(a) == OrderTotal(b)
  {
    if a != [] {
      OrderTotalIgnoresTotalPrice(a[..|a| - 1], b[..|b| - 1]);
    }
  }

  /** The document as the pre-save hook leaves it: `totalOrderAmount` is
      recomputed when there are order lines and kept otherwise. */
  function WithComputedTotal(v: Visit): (r: Visit)
    ensures r.(totalOrderAmount := v.totalOrderAmount) == v
    ensures |v.orders| > 0 ==> r.totalOrderAmount == OrderTotal(v.orders)
    ensures |v.orders| == 0 ==> r == v
  {
    if |v.orders| > 0 then v.(totalOrderAmount := OrderTotal(v.orders)) else v
  }

  /** A saved document with valid lines has a non-negative total whenever
      it had one before, and the hook is idempotent. */
  lemma ComputedTotalFacts(v: Visit)
    requires LinesValid(v.orders)
    requires v.totalOrderAmount >= 0.0
    ensures WithComputedTotal(v).totalOrderAmount >= 0.0
    ensures WithComputedTotal(WithComputedTotal(v)) == WithComputedTotal(v)
  {
  }

  /** `new Visit(body)`: casts the body and fills in the defaults. `None`
      when a required path is missing or `status` is not in the enum. */
  function Draft(body: VisitBody): (r: Option<Visit>)
    ensures r.Some? <==> body.salesPerson.Some? && body.customer.Some? && body.plannedDate.Some?
                         && (body.status.Some? ==> ParseStatus(body.status.value).Some?)
    ensures r.Some? ==> r.value.status == (if body.status.None? then Planned else ParseStatus(body.status.value).value)
    ensures r.Some? ==> r.value.confirmation == (if body.confirmation.None? then DefaultConfirmation else body.confirmation.value)
    ensures r.Some? ==> r.value.orders == (if body.orders.None? then [] else body.orders.value)
    ensures r.Some? ==> r.value.totalOrderAmount == (if body.totalOrderAmount.None? then 0.0 else body.totalOrderAmount.value)
  {
    if body.salesPerson.None? || body.customer.None? || body.plannedDate.None? then None
    else if body.status.Some? && ParseStatus(body.status.value).None? then None
    else
      Some(Visit(
        body.salesPerson.value,
        body.customer.value,
        body.plannedDate.value,
        body.actualDate,
        if body.status.None? then Planned else ParseStatus(body.status.value).value,
        body.notes,
        if body.confirmation.None? then DefaultConfirmation else body.confirmation.value,
        if body.orders.None? then [] else body.orders.value,
        if body.totalOrderAmount.None? then 0.0 else body.totalOrderAmount.value))
  }

  /** `visit.save()` on a new document: validation, then the pre-save hook.
      A rejected document is a 500 in the routes that save it. */
  function Save(body: VisitBody): (r: Result<Visit, HttpError>)
    ensures r.Ok? <==> Draft(body).Some? && SchemaValid(Draft(body).value)
    ensures r.Ok? ==> SchemaValid(r.value) && r.value == WithComputedTotal(Draft(body).value)
    ensures r.Err? ==> r.error == ServerError
  {
    match Draft(body)
    case None => Err(ServerError)
    case Some(v) => if SchemaValid(v) then Ok(WithComputedTotal(v)) else Err(ServerError)
  }

  /** A body that names only the required paths yields a planned,
      unconfirmed visit with no orders and a zero total. */
  lemma CreateDefaults(owner: UserId, customer: VisitCustomer, plannedDate: Time)
    requires CustomerValid(customer)
    ensures var r := Save(VisitBody(Some(owner), Some(customer), Some(plannedDate), None, None, None, None, None, None));
            && r.Ok?
            && r.value.status == Planned
            && !r.value.confirmation.confirmed
            && r.value.orders == []
            && r.value.totalOrderAmount == 0.0
            && r.value.salesPerson == owner
  {
  }

  /** `findOneAndUpdate(..., body, { runValidators: true })`: every field
      present in the body replaces the stored one; only those paths are
      validated, and the pre-save hook does not run, so the total is not
      recomputed. */
  /** The update validators look only at the paths the body sets. */
  predicate UpdateValid(body: VisitBody) {
    && (body.status.Some? ==> ParseStatus(body.status.value).Some?)
    && (body.customer.Some? ==> CustomerValid(body.customer.value))
    && NotesValid(body.notes)
    && (body.orders.Some? ==> LinesValid(body.orders.value))
  }

  function Merge(v: Visit, body: VisitBody): (r: Result<Visit, HttpError>)
    ensures r.Ok? <==> UpdateValid(body)
    ensures r.Err? ==> r.error == ServerError
    ensures r.Ok? ==> r.value.totalOrderAmount ==
                        (if body.totalOrderAmount.Some? then body.totalOrderAmount.value else v.totalOrderAmount)
    ensures r.Ok? ==> r.value.salesPerson == (if body.salesPerson.Some? then body.salesPerson.value else v.salesPerson)
    ensures r.Ok? && body == VisitBody(None, None, None, None, None, None, None, None, None) ==> r.value == v
  {
    if body.status.Some? && ParseStatus(body.status.value).None? then Err(ServerError)
    else if body.customer.Some? && !CustomerValid(body.customer.value) then Err(ServerError)
    else if !NotesValid(body.notes) then Err(ServerError)
    else if body.orders.Some? && !LinesValid(body.orders.value) then Err(ServerError)
    else
      Ok(Visit(
        if body.salesPerson.Some? then body.salesPerson.value else v.salesPerson,
        if body.customer.Some? then body.customer.value else v.customer,
        if body.plannedDate.Some? then body.plannedDate.value else v.plannedDate,
        if body.actualDate.Some? then body.actualDate else v.actualDate,
        if body.status.Some? then ParseStatus(body.status.value).value else v.status,
        if body.notes.Some? then body.notes else v.notes,
        if body.confirmation.Some? then body.confirmation.value else v.confirmation,
        if body.orders.Some? then body.orders.value else v.orders,
        if body.totalOrderAmount.Some? then body.totalOrderAmount.value else v.totalOrderAmount))
  }

  /** An update accepted by the validators keeps a valid document valid. */
  lemma MergeKeepsValid(v: Visit, body: VisitBody)
    requires SchemaValid(v)
    requires Merge(v, body).Ok?
    ensures SchemaValid(Merge(v, body).value)
  {
  }

  /** Any status may be written over any other: nothing checks the
      lifecycle order on update. */
  lemma MergeAllowsAnyTransition(v: Visit, target: VisitStatus)
    ensures var r := Merge(v, VisitBody(None, None, None, None, Some(StatusKey(target)), None, None, None, None));
            r.Ok? && r.value == v.(status := target)
  {
  }

  /** New order lines sent in an update replace the stored ones but leave
      the stored total as it was. */
  lemma MergeKeepsStaleTotal(v: Visit, orders: seq<OrderLine>)
    requires LinesValid(orders)
    ensures var r := Merge(v, VisitBody(None, None, None, None, None, None, None, Some(orders), None));
            r.Ok? && r.value.orders == orders && r.value.totalOrderAmount == v.totalOrderAmount
  {
  }
}
