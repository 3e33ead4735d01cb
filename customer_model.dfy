/** The Mongoose `Customer` model: the record, its enums, defaults and
    length limits, and the two document methods that bump the visit date
    and the order counters in place. */
module CustomerModel {
  import opened Common

  datatype Category = Retail | Corporate | Wholesale | Other

  datatype CustomerStatus = Active | Inactive | Blocked

  function CategoryKey(c: Category): string {
    match c
    case Retail => "retail"
    case Corporate => "corporate"
    case Wholesale => "wholesale"
    case Other => "other"
  }

  /** The `category` enum check. */
  function ParseCategory(key: string): (r: Option<Category>)
    ensures r.Some? ==> CategoryKey(r.value) == key
  {
    if key == "retail" then Some(Retail)
    else if key == "corporate" then Some(Corporate)
    else if key == "wholesale" then Some(Wholesale)
    else if key == "other" then Some(Other)
    else None
  }

  function CustomerStatusKey(s: CustomerStatus): string {
    match s
    case Active => "active"
    case Inactive => "inactive"
    case Blocked => "blocked"
  }

  /** The `status` enum check. */
  function ParseCustomerStatus(key: string): (r: Option<CustomerStatus>)
    ensures r.Some? ==> CustomerStatusKey(r.value) == key
  {
    if key == "active" then Some(Active)
    else if key == "inactive" then Some(Inactive)
    else if key == "blocked" then Some(Blocked)
    else None
  }

  /** Both enums round-trip through their keys, and only their keys parse. */
  lemma EnumRoundTrips(c: Category, s: CustomerStatus, key: string)
    ensures ParseCategory(CategoryKey(c)) == Some(c)
    ensures ParseCategory(key) == Some(c) <==> key == CategoryKey(c)
    ensures ParseCustomerStatus(CustomerStatusKey(s)) == Some(s)
    ensures ParseCustomerStatus(key) == Some(s) <==> key == CustomerStatusKey(s)
  {
  }

  datatype GeoPoint = GeoPoint(lat: real, lng: real)

  datatype Customer = Customer(
    name: string,
    email: Option<string>,
    phone: string,
    address: string,
    location: GeoPoint,
    company: Option<string>,
    taxNumber: Option<string>,
    category: Category,
    status: CustomerStatus,
    notes: Option<string>,
    salesPerson: UserId,
    lastVisitDate: Option<Time>,
    totalOrders: int,
    totalSpent: real)

  /** A request body: every field may be missing. */
  datatype CustomerBody = CustomerBody(
    name: Option<string>,
    email: Option<string>,
    phone: Option<string>,
    address: Option<string>,
    location: Option<GeoPoint>,
    company: Option<string>,
    taxNumber: Option<string>,
    category: Option<string>,
    status: Option<string>,
    notes: Option<string>,
    salesPerson: Option<UserId>,
    lastVisitDate: Option<Time>,
    totalOrders: Option<int>,
    totalSpent: Option<real>)

  /** An update body naming no field. */
  const EmptyBody: CustomerBody :=
    CustomerBody(None, None, None, None, None, None, None, None, None, None, None, None, None, None)

  const MaxNameLength: nat := 100
  const MaxNotesLength: nat := 1000

  /** The length limits and required strings of the schema. */
  predicate SchemaValid(c: Customer) {
    && c.name != "" && |c.name| <= MaxNameLength
    && c.phone != ""
    && c.address != ""
    && (c.notes.Some? ==> |c.notes.value| <= MaxNotesLength)
  }

  /** What validation on create demands of a body: the required paths
      present and non-empty, the length limits kept, a non-empty email
      matching the pattern and known enum values. */
  predicate CreateValid(body: CustomerBody, validEmail: string -> bool) {
    && body.name.Some? && body.phone.Some? && body.address.Some? && body.location.Some? && body.salesPerson.Some?
    && body.name.value != "" && |body.name.value| <= MaxNameLength
    && body.phone.value != ""
    && body.address.value != ""
    && (body.notes.Some? ==> |body.notes.value| <= MaxNotesLength)
    && (Truthy(body.email) ==> validEmail(body.email.value))
    && (body.category.Some? ==> ParseCategory(body.category.value).Some?)
    && (body.status.Some? ==> ParseCustomerStatus(body.status.value).Some?)
  }

  /** `new Customer(body)` followed by validation: `None` when a required
      path is missing or empty, a limit is exceeded, a non-empty email
      fails the address pattern `validEmail` or an enum value is unknown.
      Missing category, status and counters take their defaults. */
  function Build(body: CustomerBody, validEmail: string -> bool): (r: Option<Customer>)
    ensures r.Some? <==> CreateValid(body, validEmail)
    ensures r.Some? ==> SchemaValid(r.value)
    ensures r.Some? ==> r.value.name == body.name.value && r.value.salesPerson == body.salesPerson.value
    ensures r.Some? ==> if body.category.None? then r.value.category == Retail
                        else ParseCategory(body.category.value) == Some(r.value.category)
    ensures r.Some? ==> if body.status.None? then r.value.status == Active
                        else ParseCustomerStatus(body.status.value) == Some(r.value.status)
    ensures r.Some? ==> r.value.email == body.email && (Truthy(body.email) ==> validEmail(body.email.value))
    ensures Truthy(body.email) && !validEmail(body.email.value) ==> r.None?
    ensures r.Some? ==> r.value.totalOrders == (if body.totalOrders.None? then 0 else body.totalOrders.value)
    ensures r.Some? ==> r.value.totalSpent == (if body.totalSpent.None? then 0.0 else body.totalSpent.value)
    ensures body.name.None? || body.phone.None? || body.address.None? || body.location.None? || body.salesPerson.None? ==> r.None?
    ensures body.name.Some? && |body.name.value| > MaxNameLength ==> r.None?
    ensures body.notes.Some? && |body.notes.value| > MaxNotesLength ==> r.None?
    ensures body.category.Some? && ParseCategory(body.category.value).None? ==> r.None?
    ensures body.status.Some? && ParseCustomerStatus(body.status.value).None? ==> r.None?
  {
    if body.name.None? || body.phone.None? || body.address.None? || body.location.None? || body.salesPerson.None? then None
    else if Truthy(body.email) && !validEmail(body.email.value) then None
    else if body.category.Some? && ParseCategory(body.category.value).None? then None
    else if body.status.Some? && ParseCustomerStatus(body.status.value).None? then None
    else
      var c := Customer(
        body.name.value, body.email, body.phone.value, body.address.value, body.location.value,
        body.company, body.taxNumber,
        if body.category.None? then Retail else ParseCategory(body.category.value).value,
        if body.status.None? then Active else ParseCustomerStatus(body.status.value).value,
        body.notes, body.salesPerson.value, body.lastVisitDate,
        if body.totalOrders.None? then 0 else body.totalOrders.value,
        if body.totalSpent.None? then 0.0 else body.totalSpent.value);
      if SchemaValid(c) then Some(c) else None
  }

  /** A body with only the required paths gives a retail, active customer
      with no orders, nothing spent and no visit yet. */
  lemma BuildDefaults(name: string, phone: string, address: string, at: GeoPoint, owner: UserId, validEmail: string -> bool)
    requires name != "" && |name| <= MaxNameLength && phone != "" && address != ""
    ensures var r := Build(CustomerBody(Some(name), None, Some(phone), Some(address), Some(at), None, None,
                                        None, None, None, Some(owner), None, None, None), validEmail);
            && r.Some?
            && r.value.category == Retail && r.value.status == Active
            && r.value.totalOrders == 0 && r.value.totalSpent == 0.0
            && r.value.lastVisitDate == None && r.value.salesPerson == owner
  {
  }

  /** The update validators look only at the paths the body sets; an
      empty email passes the pattern check, as it does on create. */
  predicate UpdateValid(body: CustomerBody, validEmail: string -> bool) {
    && (body.name.Some? ==> body.name.value != "" && |body.name.value| <= MaxNameLength)
    && (body.phone.Some? ==> body.phone.value != "")
    && (body.address.Some? ==> body.address.value != "")
    && (body.notes.Some? ==> |body.notes.value| <= MaxNotesLength)
    && (Truthy(body.email) ==> validEmail(body.email.value))
    && (body.category.Some? ==> ParseCategory(body.category.value).Some?)
    && (body.status.Some? ==> ParseCustomerStatus(body.status.value).Some?)
  }

  /** `findOneAndUpdate(..., body, { runValidators: true })`: present fields
      replace stored ones, and only they are validated. */
  function Merge(c: Customer, body: CustomerBody, validEmail: string -> bool): (r: Option<Customer>)
    ensures r.Some? ==> r.value.salesPerson == (if body.salesPerson.Some? then body.salesPerson.value else c.salesPerson)
    ensures r.Some? ==> r.value.name == (if body.name.Some? then body.name.value else c.name)
    ensures r.Some? ==> r.value.totalOrders == (if body.totalOrders.Some? then body.totalOrders.value else c.totalOrders)
    ensures SchemaValid(c) && r.Some? ==> SchemaValid(r.value)
    ensures r.None? <==> !UpdateValid(body, validEmail)
    ensures body == EmptyBody ==> r == Some(c)
  {
    if UpdateValid(body, validEmail) then Some(Apply(c, body)) else None
  }

  /** The stored customer with every path the body sets replaced. */
  function Apply(c: Customer, body: CustomerBody): Customer
    requires body.category.Some? ==> ParseCategory(body.category.value).Some?
    requires body.status.Some? ==> ParseCustomerStatus(body.status.value).Some?
  {
    Customer(
      if body.name.Some? then body.name.value else c.name,
      if body.email.Some? then body.email else c.email,
      if body.phone.Some? then body.phone.value else c.phone,
      if body.address.Some? then body.address.value else c.address,
      if body.location.Some? then body.location.value else c.location,
      if body.company.Some? then body.company else c.company,
      if body.taxNumber.Some? then body.taxNumber else c.taxNumber,
      if body.category.Some? then ParseCategory(body.category.value).value else c.category,
      if body.status.Some? then ParseCustomerStatus(body.status.value).value else c.status,
      if body.notes.Some? then body.notes else c.notes,
      if body.salesPerson.Some? then body.salesPerson.value else c.salesPerson,
      if body.lastVisitDate.Some? then body.lastVisitDate else c.lastVisitDate,
      if body.totalOrders.Some? then body.totalOrders.value else c.totalOrders,
      if body.totalSpent.Some? then body.totalSpent.value else c.totalSpent)
  }

  /** What `save()` checks on a whole document: the schema's limits and,
      for a non-empty email, the address pattern. */
  predicate DocumentValid(c: Customer, validEmail: string -> bool) {
    SchemaValid(c) && (Truthy(c.email) ==> validEmail(c.email.value))
  }

  /** A customer built from a body passes the checks of a later save. */
  lemma BuiltIsDocumentValid(body: CustomerBody, validEmail: string -> bool)
    requires Build(body, validEmail).Some?
    ensures DocumentValid(Build(body, validEmail).value, validEmail)
  {
  }

  /** A loaded customer document, on which the model's instance methods
      act. Each method ends in `this.save()`: the document is validated and,
      when it passes, written back; a rejected save leaves the changed
      fields in memory and rejects the returned promise. */
  class CustomerDocument {
    var data: Customer

    constructor(c: Customer)
      ensures data == c
    {
      data := c;
    }

    /** `updateLastVisit`: stamps the visit date with the current time,
        touches nothing else and saves. */
    method UpdateLastVisit(validEmail: string -> bool, now: Time) returns (saved: Result<Customer, HttpError>)
      modifies this
      ensures data == old(data).(lastVisitDate := Some(now))
      ensures saved.Ok? <==> DocumentValid(data, validEmail)
      ensures saved.Ok? ==> saved.value == data
      ensures saved.Err? ==> saved.error == ServerError
      ensures old(DocumentValid(data, validEmail)) ==> saved.Ok?
    {
      data := data.(lastVisitDate := Some(now));
      saved := if DocumentValid(data, validEmail) then Ok(data) else Err(ServerError);
    }

    /** `incrementOrderCount(amount = 0)`: one more order, `amount` more
        spent, nothing else changed, then saved. */
    method IncrementOrderCount(validEmail: string -> bool, amount: real := 0.0) returns (saved: Result<Customer, HttpError>)
      modifies this
      ensures data == old(data).(totalOrders := old(data).totalOrders + 1, totalSpent := old(data).totalSpent + amount)
      ensures saved.Ok? <==> DocumentValid(data, validEmail)
      ensures saved.Ok? ==> saved.value == data
      ensures saved.Err? ==> saved.error == ServerError
      ensures old(DocumentValid(data, validEmail)) ==> saved.Ok?
    {
      data := data.(totalOrders := data.totalOrders + 1, totalSpent := data.totalSpent + amount);
      saved := if DocumentValid(data, validEmail) then Ok(data) else Err(ServerError);
    }
  }

  /** Called without an amount, `incrementOrderCount` counts an order and
      changes nothing else, not even the amount spent; the save succeeds
      exactly when the document is valid. */
  method RecordOrderWithoutAmount(doc: CustomerDocument, validEmail: string -> bool) returns (saved: Result<Customer, HttpError>)
    modifies doc
    ensures doc.data == old(doc.data).(totalOrders := old(doc.data.totalOrders) + 1)
    ensures saved.Ok? <==> DocumentValid(doc.data, validEmail)
    ensures saved.Ok? ==> saved.value == doc.data
    ensures saved.Err? ==> saved.error == ServerError
    ensures old(DocumentValid(doc.data, validEmail)) ==> saved == Ok(doc.data)
  {
    saved := doc.IncrementOrderCount(validEmail);
  }
}
