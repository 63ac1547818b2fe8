/** The driver catalog of src/index.js: the records, and the `filter`, `slice`,
    `map` and `find` expressions that the tool handlers apply to them. */
module Catalog {
  import opened JsValue
  import opened Ascii

  /** `vehicle.type` is called `kind` here, `type` being a Dafny keyword. */
  datatype Vehicle = Vehicle(kind: string, model: string, color: string, licensePlate: string)

  datatype ServiceArea = ServiceArea(city: string, state: string, radius: nat)

  /** One driver record. `rating` is in tenths of a star (4.8 is 48);
      `availability` maps a lower-case day name to that day's time slots. */
  datatype Driver = Driver(
    id: string,
    name: string,
    rating: nat,
    totalRides: nat,
    yearsExperience: nat,
    bio: string,
    photo: string,
    hourlyRate: nat,
    vehicle: Vehicle,
    serviceArea: ServiceArea,
    specialties: seq<string>,
    languages: seq<string>,
    availability: map<string, seq<string>>)

  /** The six fields `list_all_drivers` keeps of a record. */
  datatype Summary = Summary(
    id: string, name: string, rating: nat, vehicleType: string, city: string, hourlyRate: nat)

  /** Record ids are unique across the catalog. */
  predicate UniqueIds(ds: seq<Driver>)
  {
    forall i, j :: 0 <= i < j < |ds| ==> ds[i].id != ds[j].id
  }

  // ---------------------------------------------------------------------------
  // Summaries

  function Summarize(d: Driver): Summary
  {
    Summary(d.id, d.name, d.rating, d.vehicle.kind, d.serviceArea.city, d.hourlyRate)
  }

  /** One summary per record, in catalog order. */
  function Summaries(ds: seq<Driver>): (r: seq<Summary>)
    ensures |r| == |ds|
    ensures forall i :: 0 <= i < |ds| ==> r[i] == Summarize(ds[i])
  {
    if ds == [] then [] else [Summarize(ds[0])] + Summaries(ds[1..])
  }

  // ---------------------------------------------------------------------------
  // Filtering

  /** The two fields a search can filter on. */
  datatype Field = City | VehicleType

  function FieldOf(d: Driver, f: Field): string
  {
    match f
    case City => d.serviceArea.city
    case VehicleType => d.vehicle.kind
  }

  /** The lower-cased field contains `needle` (which the caller has already
      lower-cased). */
  predicate FieldIncludes(d: Driver, f: Field, needle: string)
  {
    Includes(Lower(FieldOf(d, f)), needle)
  }

  /** `ds.filter(d => FieldOf(d, f).toLowerCase().includes(needle))`. */
  function FilterField(ds: seq<Driver>, f: Field, needle: string): (r: seq<Driver>)
    ensures |r| <= |ds|
    ensures forall d :: d in r <==> d in ds && FieldIncludes(d, f, needle)
  {
    if ds == [] then []
    else (if FieldIncludes(ds[0], f, needle) then [ds[0]] else []) + FilterField(ds[1..], f, needle)
  }

  /** Filtering keeps catalog order: it distributes over concatenation. */
  lemma {:induction false} FilterFieldConcat(a: seq<Driver>, b: seq<Driver>, f: Field, needle: string)
    ensures FilterField(a + b, f, needle) == FilterField(a, f, needle) + FilterField(b, f, needle)
  {
    if a == [] {
      assert a + b == b;
      assert FilterField(a, f, needle) == [];
    } else {
      FilterFieldConcat(a[1..], b, f, needle);
      FilterFieldConcatStep(a, b, f, needle);
    }
  }

  /** One record of `a` moved in front of the concatenation. */
  lemma FilterFieldConcatStep(a: seq<Driver>, b: seq<Driver>, f: Field, needle: string)
    requires a != []
    requires FilterField(a[1..] + b, f, needle) == FilterField(a[1..], f, needle) + FilterField(b, f, needle)
    ensures FilterField(a + b, f, needle) == FilterField(a, f, needle) + FilterField(b, f, needle)
  {
    TailOfConcat(a, b);
    FilterFieldUnfold(a + b, f, needle);
    FilterFieldUnfold(a, f, needle);
    var head := if FieldIncludes(a[0], f, needle) then [a[0]] else [];
    ConcatAssoc(FilterField(a + b, f, needle), FilterField(a, f, needle),
                head, FilterField(a[1..], f, needle), FilterField(b, f, needle));
  }

  lemma TailOfConcat<T>(a: seq<T>, b: seq<T>)
    requires a != []
    ensures (a + b)[0] == a[0] && (a + b)[1..] == a[1..] + b
  {
  }

  lemma ConcatAssoc<T>(whole: seq<T>, left: seq<T>, head: seq<T>, mid: seq<T>, tail: seq<T>)
    requires whole == head + (mid + tail) && left == head + mid
    ensures whole == left + tail
  {
  }

  lemma FilterFieldUnfold(ds: seq<Driver>, f: Field, needle: string)
    requires ds != []
    ensures FilterField(ds, f, needle)
         == (if FieldIncludes(ds[0], f, needle) then [ds[0]] else []) + FilterField(ds[1..], f, needle)
  {
  }

  /** A filter that is present only when its needle is. */
  function FilterOptional(ds: seq<Driver>, f: Field, needle: Option<string>): seq<Driver>
  {
    if needle.None? then ds else FilterField(ds, f, Lower(needle.value))
  }

  /** The search criterion as one predicate: each present needle occurs,
      ignoring ASCII case, in its field. */
  predicate Wanted(d: Driver, city: Option<string>, kind: Option<string>)
  {
    && (city.Some? ==> FieldIncludes(d, City, Lower(city.value)))
    && (kind.Some? ==> FieldIncludes(d, VehicleType, Lower(kind.value)))
  }

  /** Reference definition of a search: the wanted records, in catalog order. */
  function Matching(ds: seq<Driver>, city: Option<string>, kind: Option<string>): (r: seq<Driver>)
    ensures forall d :: d in r <==> d in ds && Wanted(d, city, kind)
  {
    if ds == [] then []
    else (if Wanted(ds[0], city, kind) then [ds[0]] else []) + Matching(ds[1..], city, kind)
  }

  /** Filtering by city and then by vehicle type is the single-pass search. */
  lemma {:induction false} FiltersComposeToMatching(ds: seq<Driver>, city: Option<string>, kind: Option<string>)
    ensures FilterOptional(FilterOptional(ds, City, city), VehicleType, kind) == Matching(ds, city, kind)
  {
    if ds != [] {
      FiltersComposeToMatching(ds[1..], city, kind);
      var head := FilterOptional([ds[0]], City, city);
      assert ds == [ds[0]] + ds[1..];
      if city.Some? {
        FilterFieldConcat([ds[0]], ds[1..], City, Lower(city.value));
      }
      if kind.Some? {
        FilterFieldConcat(head, FilterOptional(ds[1..], City, city), VehicleType, Lower(kind.value));
      }
    }
  }

  /** With no criterion, a search keeps every record. */
  lemma {:induction false} MatchingNothingKeepsAll(ds: seq<Driver>)
    ensures Matching(ds, None, None) == ds
  {
    if ds != [] {
      MatchingNothingKeepsAll(ds[1..]);
    }
  }

  /** `list.slice(0, k)`: the first min(k, |ds|) records. */
  function First(ds: seq<Driver>, k: nat): (r: seq<Driver>)
    ensures |r| == if |ds| <= k then |ds| else k
    ensures r == ds[..|r|]
  {
    if |ds| <= k then ds else ds[..k]
  }

  // ---------------------------------------------------------------------------
  // Lookup

  /** The position of the first record whose id is `id`. */
  function FindIndex(ds: seq<Driver>, id: string): (r: Option<nat>)
    ensures r.Some? ==> r.value < |ds| && ds[r.value].id == id
    ensures r.Some? ==> forall j :: 0 <= j < r.value ==> ds[j].id != id
    ensures r.None? <==> forall j :: 0 <= j < |ds| ==> ds[j].id != id
  {
    if ds == [] then None
    else if ds[0].id == id then Some(0)
    else match FindIndex(ds[1..], id)
      case None => None
      case Some(k) => Some(k + 1)
  }

  /** `ds.find(d => d.id === key)`: ids are strings, so a key that is not a
      string finds nothing. */
  function FindById(ds: seq<Driver>, key: Val): (r: Option<Driver>)
    ensures r.Some? ==> key.Str? && r.value in ds && r.value.id == key.s
    ensures r.Some? ==>
      exists k :: 0 <= k < |ds| && ds[k] == r.value && forall j :: 0 <= j < k ==> ds[j].id != key.s
    ensures r.None? <==> !key.Str? || forall d :: d in ds ==> d.id != key.s
  {
    if !key.Str? then None
    else match FindIndex(ds, key.s)
      case None => None
      case Some(k) => Some(ds[k])
  }

  /** With unique ids, looking up a record's id finds that very record. */
  lemma FindByIdUnique(ds: seq<Driver>, d: Driver)
    requires UniqueIds(ds)
    requires d in ds
    ensures FindById(ds, Str(d.id)) == Some(d)
  {
    var j :| 0 <= j < |ds| && ds[j] == d;
    var k := FindIndex(ds, d.id).value;
    assert !(j < k) && !(k < j);
  }
}
