/** The `/visits` routes: a table of visit documents keyed by id, every
    handler scoped to the authenticated salesperson. */
module VisitRoutes {
  import opened Common
  import opened VisitModel
  import opened Ordering

  /** A stored document together with its id, as the handlers return it. */
  datatype Entry = Entry(id: Id, visit: Visit)

  /** The `.sort({ plannedDate: 1 })` order. */
  predicate ByPlannedDate(a: Entry, b: Entry) {
    a.visit.plannedDate <= b.visit.plannedDate
  }

  /** The `.sort({ plannedDate: -1 })` order, most recent first. */
  predicate ByPlannedDateDesc(a: Entry, b: Entry) {
    a.visit.plannedDate >= b.visit.plannedDate
  }

  lemma PlannedDateOrdersArePreorders()
    ensures TotalPreorder(ByPlannedDate)
    ensures TotalPreorder(ByPlannedDateDesc)
  {
  }

  /** A `find` filter: the owner, optionally a half-open window
      `[from, until)` on `plannedDate`, and optionally the customer's name. */
  datatype Filter = Filter(owner: UserId, window: Option<(Time, Time)>, customerName: Option<string>)

  predicate Matches(f: Filter, v: Visit) {
    && v.salesPerson == f.owner
    && (f.window.Some? ==> f.window.value.0 <= v.plannedDate < f.window.value.1)
    && (f.customerName.Some? ==> v.customer.name == f.customerName.value)
  }

  /** The entries among `keys` that a filter selects. */
  ghost function Selected(visits: map<Id, Visit>, f: Filter, keys: set<Id>): set<Entry> {
    set id | id in keys && id in visits && Matches(f, visits[id]) :: Entry(id, visits[id])
  }

  const DayMillis: int := 24 * 60 * 60 * 1000

  /** Local midnight of the day holding `now` (`setHours(0, 0, 0, 0)`),
      for a zone `offset` milliseconds ahead of UTC. */
  function LocalMidnight(now: Time, offset: int): (m: Time)
    ensures m <= now < m + DayMillis
    ensures (m + offset) % DayMillis == 0
  {
    now - (now + offset) % DayMillis
  }

  class VisitStore {
    var visits: map<Id, Visit>
    var nextId: Id

    /** Every stored id was handed out before `nextId`. */
    ghost predicate Valid()
      reads this
    {
      forall id :: id in visits ==> id < nextId
    }

    constructor()
      ensures Valid() && visits == map[]
    {
      visits := map[];
      nextId := 0;
    }

    /** `Visit.find(filter).sort(order)`: each selected document exactly
        once, in the order `le`. */
    method Find(f: Filter, le: (Entry, Entry) -> bool) returns (r: seq<Entry>)
      requires TotalPreorder(le)
      ensures Sorted(r, le)
      ensures multiset(r) == multiset(Selected(visits, f, visits.Keys))
    {
      var rest := visits.Keys;
      r := [];
      while rest != {}
        invariant rest <= visits.Keys
        invariant Sorted(r, le)
        invariant multiset(r) == multiset(Selected(visits, f, visits.Keys - rest))
        decreases |rest|
      {
        var id :| id in rest;
        ghost var done := visits.Keys - rest;
        rest := rest - {id};
        assert visits.Keys - rest == done + {id};
        var e := Entry(id, visits[id]);
        assert e !in Selected(visits, f, done);
        if Matches(f, visits[id]) {
          assert Selected(visits, f, done + {id}) == Selected(visits, f, done) + {e};
          InsertSorted(r, e, le);
          r := Insert(r, e, le);
        } else {
          assert Selected(visits, f, done + {id}) == Selected(visits, f, done);
        }
      }
    }

    /** `GET /`: the caller's visits, ascending by planned date. */
    method List(user: UserId) returns (r: seq<Entry>)
      ensures Sorted(r, ByPlannedDate)
      ensures multiset(r) == multiset(Selected(visits, Filter(user, None, None), visits.Keys))
      ensures forall k :: 0 <= k < |r| ==>
                r[k].id in visits && r[k].visit == visits[r[k].id] && r[k].visit.salesPerson == user
    {
      PlannedDateOrdersArePreorders();
      r := Find(Filter(user, None, None), ByPlannedDate);
      forall k | 0 <= k < |r|
        ensures r[k].id in visits && r[k].visit == visits[r[k].id] && r[k].visit.salesPerson == user
      {
        assert r[k] in multiset(r);
      }
    }

    /** `GET /today`: the caller's visits planned from local midnight up
        to, but not including, the next midnight. */
    method Today(user: UserId, now: Time, offset: int) returns (r: seq<Entry>)
      ensures Sorted(r, ByPlannedDate)
      ensures var from := LocalMidnight(now, offset);
              multiset(r) == multiset(Selected(visits, Filter(user, Some((from, from + DayMillis)), None), visits.Keys))
      ensures forall k :: 0 <= k < |r| ==>
                && r[k].visit.salesPerson == user
                && LocalMidnight(now, offset) <= r[k].visit.plannedDate < LocalMidnight(now, offset) + DayMillis
    {
      var today := LocalMidnight(now, offset);
      var tomorrow := today + DayMillis;
      PlannedDateOrdersArePreorders();
      r := Find(Filter(user, Some((today, tomorrow)), None), ByPlannedDate);
      forall k | 0 <= k < |r|
        ensures r[k].visit.salesPerson == user && today <= r[k].visit.plannedDate < tomorrow
      {
        assert r[k] in multiset(r);
      }
    }

    /** `POST /`: the body with `salesPerson` forced to the caller, saved
        under a fresh id. A document the schema rejects is a 500 and
        nothing is stored. */
    method Create(user: UserId, body: VisitBody) returns (r: Result<Entry, HttpError>)
      requires Valid()
      modifies this
      ensures Valid()
      ensures r == (match Save(body.(salesPerson := Some(user)))
                    case Ok(v) => Ok(Entry(old(nextId), v))
                    case Err(e) => Err(e))
      ensures r.Ok? ==> r.value.id !in old(visits) && r.value.visit.salesPerson == user
                        && visits == old(visits)[r.value.id := r.value.visit]
      ensures r.Err? ==> visits == old(visits)
    {
      var saved := Save(body.(salesPerson := Some(user)));
      if saved.Err? {
        return Err(saved.error);
      }
      var id := nextId;
      visits := visits[id := saved.value];
      nextId := nextId + 1;
      r := Ok(Entry(id, saved.value));
    }

    /** `PUT /:id`: the update validators run on the body before the
        lookup, so an invalid body is a 500 whether or not the visit
        exists; otherwise the body is applied to the caller's own visit,
        with no check on which status follows which, and 404 when the
        caller owns no visit with that id. */
    method Update(user: UserId, id: Id, body: VisitBody) returns (r: Result<Visit, HttpError>)
      requires Valid()
      modifies this`visits
      ensures Valid()
      ensures !UpdateValid(body) ==> r == Err(ServerError)
      ensures UpdateValid(body) && !(id in old(visits) && old(visits)[id].salesPerson == user) ==>
                r == Err(NotFound)
      ensures id in old(visits) && old(visits)[id].salesPerson == user ==>
                r == Merge(old(visits)[id], body)
      ensures r.Ok? ==> visits == old(visits)[id := r.value]
      ensures r.Err? ==> visits == old(visits)
    {
      if !UpdateValid(body) {
        return Err(ServerError);
      }
      if !(id in visits && visits[id].salesPerson == user) {
        return Err(NotFound);
      }
      r := Merge(visits[id], body);
      visits := visits[id := r.value];
    }

    /** `DELETE /:id`: removes the caller's own visit; 404 otherwise. */
    method Delete(user: UserId, id: Id) returns (r: Result<Visit, HttpError>)
      requires Valid()
      modifies this`visits
      ensures Valid()
      ensures id in old(visits) && old(visits)[id].salesPerson == user ==>
                r == Ok(old(visits)[id]) && visits == old(visits) - {id}
      ensures !(id in old(visits) && old(visits)[id].salesPerson == user) ==>
                r == Err(NotFound) && visits == old(visits)
    {
      if !(id in visits && visits[id].salesPerson == user) {
        return Err(NotFound);
      }
      r := Ok(visits[id]);
      visits := visits - {id};
    }

    /** `GET /:id`: the visit if the caller owns it, otherwise 404. */
    method Get(user: UserId, id: Id) returns (r: Result<Visit, HttpError>)
      ensures r.Ok? <==> id in visits && visits[id].salesPerson == user
      ensures r.Ok? ==> r.value == visits[id]
      ensures r.Err? ==> r.error == NotFound
    {
      if id in visits && visits[id].salesPerson == user {
        r := Ok(visits[id]);
      } else {
        r := Err(NotFound);
      }
    }
  }
}
