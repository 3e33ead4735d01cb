/** The coordinate repair routes: the validity test they share, the loop of
    `fix-all-coordinates` that moves every invalid visit to a random point
    around central Istanbul, `fix-visit` for one visit, and the
    `list-coordinates` report. `Math.random()` draws are parameters. */
module FixCoordinates {
  import opened Common
  import opened VisitModel
  import VisitRoutes
  import Maps

  /** Location present, both coordinates numbers, neither of them 0. A
      visit that passes can be put on the map. */
  function HasValidCoordinates(v: Visit): (ok: bool)
    ensures ok ==> Maps.Placeable(v.customer.location)
  {
    var loc := v.customer.location;
    && loc.Some?
    && loc.value.lat.Number?
    && loc.value.lng.Number?
    && loc.value.lat.n != 0.0
    && loc.value.lng.n != 0.0
  }

  /** The visit with its customer's location set to the given numbers. */
  function At(v: Visit, lat: real, lng: real): Visit {
    v.(customer := v.customer.(location := Some(Coords(Number(lat), Number(lng)))))
  }

  /** The repair routes and the map's range check test different things: a
      point on the globe off both zero lines is valid for both, a point on
      the equator is on the globe but counts as invalid here, and a point
      off the globe counts as valid here. */
  lemma ValidityChecksCompared(v: Visit)
    ensures forall lat: real, lng: real :: Maps.ValidateCoordinates(lat, lng) && lat != 0.0 && lng != 0.0 ==>
              HasValidCoordinates(At(v, lat, lng))
    ensures Maps.ValidateCoordinates(0.0, CenterLng) && !HasValidCoordinates(At(v, 0.0, CenterLng))
    ensures !Maps.ValidateCoordinates(100.0, CenterLng) && HasValidCoordinates(At(v, 100.0, CenterLng))
  {
  }

  const CenterLat: real := 41.0082
  const CenterLng: real := 28.9784

  /** The spread of `fix-all-coordinates` and of `fix-visit`. */
  const AllSpread: real := 0.1
  const VisitSpread: real := 0.05

  /** Two `Math.random()` results, one for each coordinate. */
  datatype Draw = Draw(forLat: real, forLng: real)

  predicate InUnit(d: Draw) {
    0.0 <= d.forLat < 1.0 && 0.0 <= d.forLng < 1.0
  }

  /** `center + (Math.random() - 0.5) * spread`. */
  function Jitter(center: real, r: real, spread: real): real {
    center + (r - 0.5) * spread
  }

  function RandomLocation(d: Draw, spread: real): Coords {
    Coords(Number(Jitter(CenterLat, d.forLat, spread)), Number(Jitter(CenterLng, d.forLng, spread)))
  }

  function Relocated(v: Visit, d: Draw, spread: real): Visit {
    var loc := RandomLocation(d, spread);
    At(v, loc.lat.n, loc.lng.n)
  }

  /** A repaired point lies in [center - spread/2, center + spread/2) on
      each axis, so it is valid for the repair routes and within the map's
      coordinate range. */
  lemma RandomLocationInRange(v: Visit, d: Draw, spread: real)
    requires InUnit(d)
    requires 0.0 < spread <= AllSpread
    ensures var loc := RandomLocation(d, spread);
            && CenterLat - spread / 2.0 <= loc.lat.n < CenterLat + spread / 2.0
            && CenterLng - spread / 2.0 <= loc.lng.n < CenterLng + spread / 2.0
            && HasValidCoordinates(Relocated(v, d, spread))
            && Maps.ValidateCoordinates(loc.lat.n, loc.lng.n)
  {
    JitterInRange(CenterLat, d.forLat, spread);
    JitterInRange(CenterLng, d.forLng, spread);
  }

  lemma JitterInRange(center: real, r: real, spread: real)
    requires 0.0 <= r < 1.0 && 0.0 < spread
    ensures center - spread / 2.0 <= Jitter(center, r, spread) < center + spread / 2.0
  {
    assert (1.0 - r) * spread > 0.0;
    assert r * spread >= 0.0;
  }

  /** The repair fails to save when the moved document still breaks the
      schema (a missing name or address, an over-long note, a bad line). */
  predicate SaveFails(v: Visit, d: Draw) {
    !HasValidCoordinates(v) && !SchemaValid(Relocated(v, d, AllSpread))
  }

  /** What `fix-all-coordinates` leaves of one document whose save succeeds:
      a valid one untouched, an invalid one moved and passed through the
      pre-save hook. */
  function Repaired(v: Visit, d: Draw): Visit {
    if HasValidCoordinates(v) then v else WithComputedTotal(Relocated(v, d, AllSpread))
  }

  /** The number of visits whose coordinates are invalid. */
  function CountInvalid(vs: seq<Visit>): (n: nat)
    ensures n <= |vs|
  {
    if vs == [] then 0
    else CountInvalid(vs[..|vs| - 1]) + (if HasValidCoordinates(vs[|vs| - 1]) then 0 else 1)
  }

  /** `POST /fix-all-coordinates` over the loaded documents `docs`, the i-th
      one drawing `draws[i]`. Each invalid document is moved and saved in
      turn; a save the schema rejects ends the run with a 500, after the
      earlier documents were saved. On success `fixedCount` is the number of
      documents that were invalid, and every document is now valid. */
  method FixAllCoordinates(docs: array<Visit>, draws: seq<Draw>) returns (r: Result<nat, HttpError>)
    requires |draws| == docs.Length
    requires forall i :: 0 <= i < |draws| ==> InUnit(draws[i])
    modifies docs
    ensures r.Ok? <==> forall j :: 0 <= j < docs.Length ==> !SaveFails(old(docs[j]), draws[j])
    ensures r.Ok? ==> r.value == CountInvalid(old(docs[..]))
    ensures r.Ok? ==> forall j :: 0 <= j < docs.Length ==>
              docs[j] == Repaired(old(docs[j]), draws[j]) && HasValidCoordinates(docs[j])
    ensures r.Ok? ==> forall j :: 0 <= j < docs.Length && HasValidCoordinates(old(docs[j])) ==>
              docs[j] == old(docs[j])
    ensures r.Err? ==> r.error == ServerError
    ensures r.Err? ==>
              exists k :: && 0 <= k < docs.Length
                          && SaveFails(old(docs[k]), draws[k])
                          && (forall j :: 0 <= j < k ==> !SaveFails(old(docs[j]), draws[j]))
                          && (forall j :: 0 <= j < k ==> docs[j] == Repaired(old(docs[j]), draws[j]))
                          && (forall j :: k <= j < docs.Length ==> docs[j] == old(docs[j]))
  {
    var fixedCount := 0;
    var i := 0;
    while i < docs.Length
      invariant 0 <= i <= docs.Length
      invariant fixedCount == CountInvalid(old(docs[..])[..i])
      invariant forall j :: 0 <= j < i ==> !SaveFails(old(docs[j]), draws[j])
      invariant forall j :: 0 <= j < i ==> docs[j] == Repaired(old(docs[j]), draws[j])
      invariant forall j :: i <= j < docs.Length ==> docs[j] == old(docs[j])
    {
      assert old(docs[..])[..i + 1][..i] == old(docs[..])[..i];
      var v := docs[i];
      if !HasValidCoordinates(v) {
        var moved := Relocated(v, draws[i], AllSpread);
        if !SchemaValid(moved) {
          return Err(ServerError);
        }
        docs[i] := WithComputedTotal(moved);
        fixedCount := fixedCount + 1;
      }
      i := i + 1;
    }
    assert old(docs[..])[..docs.Length] == old(docs[..]);
    forall j | 0 <= j < docs.Length ensures HasValidCoordinates(docs[j]) {
      if !HasValidCoordinates(old(docs[j])) {
        RandomLocationInRange(old(docs[j]), draws[j], AllSpread);
      }
    }
    r := Ok(fixedCount);
  }

  /** `POST /fix-visit/:id`: moves the visit with that id, whoever owns it
      and whether or not its coordinates were valid, to a point within
      0.025 degrees of the centre; 404 for an unknown id, 500 when the
      moved document fails validation. */
  method FixVisit(store: VisitRoutes.VisitStore, id: Id, d: Draw) returns (r: Result<(string, Coords), HttpError>)
    requires store.Valid()
    modifies store`visits
    ensures store.Valid()
    ensures id !in old(store.visits) ==> r == Err(NotFound) && store.visits == old(store.visits)
    ensures id in old(store.visits) && SchemaValid(Relocated(old(store.visits)[id], d, VisitSpread)) ==>
              && store.visits == old(store.visits)[id := WithComputedTotal(Relocated(old(store.visits)[id], d, VisitSpread))]
              && r == Ok((old(store.visits)[id].customer.name, RandomLocation(d, VisitSpread)))
    ensures id in old(store.visits) && !SchemaValid(Relocated(old(store.visits)[id], d, VisitSpread)) ==>
              r == Err(ServerError) && store.visits == old(store.visits)
  {
    if id !in store.visits {
      return Err(NotFound);
    }
    var moved := Relocated(store.visits[id], d, VisitSpread);
    if !SchemaValid(moved) {
      return Err(ServerError);
    }
    store.visits := store.visits[id := WithComputedTotal(moved)];
    r := Ok((moved.customer.name, RandomLocation(d, VisitSpread)));
  }

  /** One row of the `list-coordinates` report. */
  datatype CoordinateItem = CoordinateItem(
    id: Id,
    customerName: string,
    address: string,
    location: Option<Coords>,
    isValid: bool)

  datatype CoordinateReport = CoordinateReport(data: seq<CoordinateItem>, total: nat, valid: nat, invalid: nat)

  /** How many rows carry the given `isValid` flag. */
  function CountFlagged(items: seq<CoordinateItem>, flag: bool): nat {
    if items == [] then 0
    else CountFlagged(items[..|items| - 1], flag) + (if items[|items| - 1].isValid == flag then 1 else 0)
  }

  /** The two filters of the report split the rows between them. */
  lemma {:induction false} CountFlaggedSplit(items: seq<CoordinateItem>)
    ensures CountFlagged(items, true) + CountFlagged(items, false) == |items|
  {
    if items != [] {
      CountFlaggedSplit(items[..|items| - 1]);
    }
  }

  function ItemOf(e: VisitRoutes.Entry): CoordinateItem {
    CoordinateItem(e.id, e.visit.customer.name, e.visit.customer.address, e.visit.customer.location,
                   HasValidCoordinates(e.visit))
  }

  function VisitsOf(entries: seq<VisitRoutes.Entry>): (vs: seq<Visit>)
    ensures |vs| == |entries|
    ensures forall i :: 0 <= i < |entries| ==> vs[i] == entries[i].visit
  {
    seq(|entries|, i requires 0 <= i < |entries| => entries[i].visit)
  }

  /** Rows flagged invalid are exactly the visits the repair loop counts. */
  lemma {:induction false} InvalidRowsCounted(entries: seq<VisitRoutes.Entry>, items: seq<CoordinateItem>)
    requires |items| == |entries|
    requires forall i :: 0 <= i < |items| ==> items[i] == ItemOf(entries[i])
    ensures CountFlagged(items, false) == CountInvalid(VisitsOf(entries))
  {
    if entries != [] {
      var n := |entries| - 1;
      InvalidRowsCounted(entries[..n], items[..n]);
      assert VisitsOf(entries)[..n] == VisitsOf(entries[..n]);
    }
  }

  /** `GET /list-coordinates`: one row per visit, in order, flagged with
      the repair test; valid and invalid rows add up to the total, and the
      invalid count is what `fix-all-coordinates` would report fixed. */
  function ListCoordinates(entries: seq<VisitRoutes.Entry>): (r: CoordinateReport)
    ensures |r.data| == r.total == |entries|
    ensures forall i :: 0 <= i < |entries| ==>
              r.data[i].id == entries[i].id && (r.data[i].isValid <==> HasValidCoordinates(entries[i].visit))
    ensures r.valid + r.invalid == r.total
    ensures r.invalid == CountInvalid(VisitsOf(entries))
  {
    var data := seq(|entries|, i requires 0 <= i < |entries| => ItemOf(entries[i]));
    CountFlaggedSplit(data);
    InvalidRowsCounted(entries, data);
    CoordinateReport(data, |entries|, CountFlagged(data, true), CountFlagged(data, false))
  }
}
