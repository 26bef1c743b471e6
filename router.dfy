/**
 * The car resource handler: the five operations under `/cars`, run against a
 * store that maps identifiers to documents. Each handler is one atomic step on
 * the store.
 */
module Router {
  import opened Wrappers
  import opened ObjectIds
  import opened Models
  import opened Listing

  /** The value of one field of a change set. */
  datatype FieldValue = Text(s: string) | Number(n: int)

  /** The document for a `$set`: field names mapped to their new values. */
  type ChangeSet = map<FieldName, FieldValue>

  predicate IsTextField(f: FieldName) {
    f == Brand || f == Make
  }

  /** Every field carries a value of its own kind. */
  predicate WellTyped(cs: ChangeSet) {
    forall f :: f in cs ==> (cs[f].Text? <==> IsTextField(f))
  }

  function TextValue(v: Option<string>): Option<FieldValue> {
    if v.Some? then Some(Text(v.value)) else None
  }

  function NumberValue(v: Option<int>): Option<FieldValue> {
    if v.Some? then Some(Number(v.value)) else None
  }

  /** `model_dump()` of a validated update body: every field, `None` included. */
  function Dump(u: UpdateCarModel): map<FieldName, Option<FieldValue>> {
    map[Brand := TextValue(u.brand), Make := TextValue(u.make), Year := NumberValue(u.year),
        Price := NumberValue(u.price), Km := NumberValue(u.km), Cm3 := NumberValue(u.cm3)]
  }

  /** The change set `{k: v for k, v in car.model_dump().items() if v is not None}`. */
  function ChangeSetOf(u: UpdateCarModel): (cs: ChangeSet)
    ensures WellTyped(cs)
    ensures Brand in cs <==> u.brand.Some?
    ensures Make in cs <==> u.make.Some?
    ensures Year in cs <==> u.year.Some?
    ensures Price in cs <==> u.price.Some?
    ensures Km in cs <==> u.km.Some?
    ensures Cm3 in cs <==> u.cm3.Some?
    ensures u.brand.Some? ==> cs[Brand] == Text(u.brand.value)
    ensures u.make.Some? ==> cs[Make] == Text(u.make.value)
    ensures u.year.Some? ==> cs[Year] == Number(u.year.value)
    ensures u.price.Some? ==> cs[Price] == Number(u.price.value)
    ensures u.km.Some? ==> cs[Km] == Number(u.km.value)
    ensures u.cm3.Some? ==> cs[Cm3] == Number(u.cm3.value)
  {
    var dump := Dump(u);
    map f | f in dump && dump[f].Some? :: dump[f].value
  }

  /** The value of field `f` of a document. */
  function FieldOf(d: Doc, f: FieldName): FieldValue {
    match f
    case Brand => Text(d.brand)
    case Make => Text(d.make)
    case Year => Number(d.year)
    case Price => Number(d.price)
    case Km => Number(d.km)
    case Cm3 => Number(d.cm3)
  }

  /** `{"$set": cs}` on one document: the fields in `cs` are overwritten, the others kept. */
  function SetFields(d: Doc, cs: ChangeSet): (r: Doc)
    requires WellTyped(cs)
    ensures forall f :: FieldOf(r, f) == if f in cs then cs[f] else FieldOf(d, f)
  {
    Doc(if Brand in cs then cs[Brand].s else d.brand,
        if Make in cs then cs[Make].s else d.make,
        if Year in cs then cs[Year].n else d.year,
        if Price in cs then cs[Price].n else d.price,
        if Km in cs then cs[Km].n else d.km,
        if Cm3 in cs then cs[Cm3].n else d.cm3)
  }

  /** Two documents with the same value in every field are equal. */
  lemma DocExtensionality(d: Doc, e: Doc)
    requires forall f :: FieldOf(d, f) == FieldOf(e, f)
    ensures d == e
  {
    assert FieldOf(d, Brand) == FieldOf(e, Brand) && FieldOf(d, Make) == FieldOf(e, Make);
    assert FieldOf(d, Year) == FieldOf(e, Year) && FieldOf(d, Price) == FieldOf(e, Price);
    assert FieldOf(d, Km) == FieldOf(e, Km) && FieldOf(d, Cm3) == FieldOf(e, Cm3);
  }

  /** Applying the same change set twice changes nothing the first application did not. */
  lemma SetFieldsIdempotent(d: Doc, cs: ChangeSet)
    requires WellTyped(cs)
    ensures SetFields(SetFields(d, cs), cs) == SetFields(d, cs)
  {
    DocExtensionality(SetFields(SetFields(d, cs), cs), SetFields(d, cs));
  }

  /** The change set of an update request body. */
  function ChangeSetOfBody(p: UpdatePayload): (cs: ChangeSet)
    ensures WellTyped(cs)
  {
    ChangeSetOf(ParseUpdate(p))
  }

  /**
   * Which fields an update writes: brand and make only when the body gives a
   * value; year, price, km and cm3 unless the body sets them to `null`.
   */
  lemma ChangeSetFields(p: UpdatePayload)
    ensures var cs := ChangeSetOfBody(p);
      && (Brand in cs <==> p.brand.Given?) && (Make in cs <==> p.make.Given?)
      && (Year in cs <==> !p.year.Null?) && (Price in cs <==> !p.price.Null?)
      && (Km in cs <==> !p.km.Null?) && (Cm3 in cs <==> !p.cm3.Null?)
  {
  }

  /** A field the body gives a value is written with exactly that value. */
  lemma ChangeSetValues(p: UpdatePayload)
    ensures var cs := ChangeSetOfBody(p);
      && (p.brand.Given? ==> cs[Brand] == Text(p.brand.value))
      && (p.make.Given? ==> cs[Make] == Text(p.make.value))
      && (p.year.Given? ==> cs[Year] == Number(p.year.value))
      && (p.price.Given? ==> cs[Price] == Number(p.price.value))
      && (p.km.Given? ==> cs[Km] == Number(p.km.value))
      && (p.cm3.Given? ==> cs[Cm3] == Number(p.cm3.value))
  {
  }

  /** An omitted numeric field is written with its default. */
  lemma ChangeSetDefaults(p: UpdatePayload)
    ensures var cs := ChangeSetOfBody(p);
      && (p.year.Absent? ==> cs[Year] == Number(DefaultYear))
      && (p.price.Absent? ==> cs[Price] == Number(DefaultPrice))
      && (p.km.Absent? ==> cs[Km] == Number(DefaultKm))
      && (p.cm3.Absent? ==> cs[Cm3] == Number(DefaultCm3))
  {
  }

  /** The change set is empty only when every numeric field is an explicit `null`. */
  lemma ChangeSetEmpty(p: UpdatePayload)
    ensures |ChangeSetOfBody(p)| == 0 <==>
      !p.brand.Given? && !p.make.Given? && p.year.Null? && p.price.Null? && p.km.Null? && p.cm3.Null?
  {
    var cs := ChangeSetOfBody(p);
    if |cs| == 0 {
      assert cs.Keys == {};
    } else {
      var f :| f in cs;
    }
  }

  /**
   * An update that names only `price` also writes year 1970, km 0 and cm3 0;
   * brand and make stay as they were.
   */
  lemma PriceOnlyUpdate(d: Doc, price: int)
    ensures SetFields(d, ChangeSetOfBody(UpdatePayload(Absent, Absent, Absent, Given(price), Absent, Absent)))
         == d.(year := DefaultYear, price := price, km := DefaultKm, cm3 := DefaultCm3)
  {
    var cs := ChangeSetOfBody(UpdatePayload(Absent, Absent, Absent, Given(price), Absent, Absent));
    DocExtensionality(SetFields(d, cs), d.(year := DefaultYear, price := price, km := DefaultKm, cm3 := DefaultCm3));
  }

  /** The update body puts no length constraint on brand: an empty brand is written as given. */
  lemma UpdateWritesEmptyBrand(d: Doc)
    ensures SetFields(d, ChangeSetOfBody(UpdatePayload(Given(""), Absent, Null, Null, Null, Null))) == d.(brand := "")
  {
    var cs := ChangeSetOfBody(UpdatePayload(Given(""), Absent, Null, Null, Null, Null));
    DocExtensionality(SetFields(d, cs), d.(brand := ""));
  }

  /** What a handler answers; the tags stand for the HTTP status codes. */
  datatype Response =
    | Ok(car: CarModel)                     // 200 with the record
    | Created(car: CarModel)                // 201 with the new record
    | NoContent                             // 204
    | NotFound(detail: string)              // 404
    | Unprocessable(fields: set<FieldName>) // 422, the fields that failed validation
    | MalformedId(id: string)               // `ObjectId(id)` raised; nothing catches it

  function ShowNotFound(id: string): string {
    "Car " + id + " not found"
  }

  function CarNotFound(id: string): string {
    "car " + id + " not found"
  }

  /** The `cars` collection: documents by identifier and the counter that issues identifiers. */
  class CarStore {
    var cars: map<ObjectId, Doc>
    var nextId: nat

    /** Every stored identifier was issued before the counter's current value. */
    ghost predicate Valid()
      reads this
    {
      nextId <= IdLimit && forall k :: k in cars ==> k < nextId
    }

    constructor ()
      ensures Valid() && cars == map[] && nextId == 0
    {
      cars := map[];
      nextId := 0;
    }

    /** `GET /cars/`: one page of matching records, newest first. */
    function ListCars(q: Filter, page: int): (r: CarCollection)
      reads this
      requires Valid()
      requires page >= 1
      ensures |r.cars| <= PageSize
      ensures var all := MatchingDesc(cars, q, nextId);
        |r.cars| == if Skip(page) < |all| then Min(PageSize, |all| - Skip(page)) else 0
      ensures forall c :: c in r.cars ==> q.minPrice < c.price < q.maxPrice
      ensures forall c :: c in r.cars && BrandFilterOn(q.brand) ==> c.brand == q.brand.value
      ensures var all := MatchingDesc(cars, q, nextId);
        forall i :: 0 <= i < |r.cars| ==>
          Skip(page) + i < |all| && r.cars[i] == ToModel(all[Skip(page) + i].id, all[Skip(page) + i].doc)
    {
      var es := Page(MatchingDesc(cars, q, nextId), page);
      CarCollection(seq(|es|, i requires 0 <= i < |es| => ToModel(es[i].id, es[i].doc)))
    }

    /** `GET /cars/{id}`. */
    function ShowCar(id: string): (r: Response)
      reads this
      ensures !IsIdShape(id) <==> r == MalformedId(id)
      ensures r.Ok? <==> IsIdShape(id) && ParseId(id).value in cars
      ensures r.Ok? ==> r.car == ToModel(ParseId(id).value, cars[ParseId(id).value])
      ensures r.Ok? ==> r.car.id == Some(Lower(id))
      ensures IsIdShape(id) && ParseId(id).value !in cars ==> r == NotFound(ShowNotFound(id))
    {
      match ParseId(id)
      case None => MalformedId(id)
      case Some(k) =>
        if k in cars then
          FormatParseId(id);
          Ok(ToModel(k, cars[k]))
        else NotFound(ShowNotFound(id))
    }

    /** `POST /cars/`: validate the body, insert it under a fresh identifier, return it. */
    method CreateCar(body: CarPayload) returns (r: Response)
      requires Valid()
      requires nextId < IdLimit
      modifies this
      ensures Valid()
      ensures ParseCarModel(body).Failure? ==>
        r == Unprocessable(ParseCarModel(body).error) && cars == old(cars) && nextId == old(nextId)
      ensures ParseCarModel(body).Success? ==>
        var k: ObjectId := old(nextId);
        var d := ToDoc(ParseCarModel(body).value);
        && k !in old(cars)
        && cars == old(cars)[k := d]
        && nextId == old(nextId) + 1
        && r == Created(ToModel(k, d))
      ensures r.Created? ==> ShowCar(r.car.id.value) == Ok(r.car)
    {
      match ParseCarModel(body)
      case Failure(errors) =>
        r := Unprocessable(errors);
      case Success(car) =>
        var k: ObjectId := nextId;
        var d := ToDoc(car);
        cars := cars[k := d];
        nextId := nextId + 1;
        ParseFormatId(k);
        r := Created(ToModel(k, d));
    }

    /**
     * `PUT /cars/{id}`. A non-empty change set is applied with
     * `find_one_and_update` on `ObjectId(id)`. An empty one falls back to a
     * lookup by the raw string, which no stored `ObjectId` key equals, so it
     * always answers not found.
     */
    method UpdateCar(id: string, body: UpdatePayload) returns (r: Response)
      requires Valid()
      modifies this
      ensures Valid() && nextId == old(nextId) && cars.Keys == old(cars).Keys
      ensures |ChangeSetOfBody(body)| == 0 ==> r == NotFound(CarNotFound(id)) && cars == old(cars)
      ensures |ChangeSetOfBody(body)| >= 1 && !IsIdShape(id) ==> r == MalformedId(id) && cars == old(cars)
      ensures |ChangeSetOfBody(body)| >= 1 && IsIdShape(id) ==>
        var k := ParseId(id).value;
        if k in old(cars) then
          && cars == old(cars)[k := SetFields(old(cars)[k], ChangeSetOfBody(body))]
          && r == Ok(ToModel(k, cars[k]))
        else
          r == NotFound(CarNotFound(id)) && cars == old(cars)
    {
      var cs := ChangeSetOf(ParseUpdate(body));
      if |cs| >= 1 {
        match ParseId(id)
        case None =>
          r := MalformedId(id);
        case Some(k) =>
          if k in cars {
            cars := cars[k := SetFields(cars[k], cs)];
            r := Ok(ToModel(k, cars[k]));
          } else {
            r := NotFound(CarNotFound(id));
          }
      } else {
        r := NotFound(CarNotFound(id));
      }
    }

    /** `DELETE /cars/{id}`: success exactly when one document was removed. */
    method DeleteCar(id: string) returns (r: Response)
      requires Valid()
      modifies this
      ensures Valid() && nextId == old(nextId)
      ensures !IsIdShape(id) ==> r == MalformedId(id) && cars == old(cars)
      ensures IsIdShape(id) ==>
        var k := ParseId(id).value;
        && cars == old(cars) - {k}
        && (r == NoContent <==> k in old(cars))
        && (k !in old(cars) ==> r == NotFound(CarNotFound(id)))
    {
      match ParseId(id)
      case None =>
        r := MalformedId(id);
      case Some(k) =>
        if k in cars {
          cars := cars - {k};
          r := NoContent;
        } else {
          r := NotFound(CarNotFound(id));
        }
    }
  }

  /** Every matching record is on some page of the listing. */
  lemma ListedOnSomePage(store: CarStore, q: Filter, k: ObjectId)
    requires store.Valid()
    requires k in store.cars && Matches(store.cars[k], q)
    ensures exists p :: p >= 1 && ToModel(k, store.cars[k]) in store.ListCars(q, p).cars
  {
    var all := MatchingDesc(store.cars, q, store.nextId);
    var e := Entry(k, store.cars[k]);
    assert e in all;
    var i :| 0 <= i < |all| && all[i] == e;
    var p := i / PageSize + 1;
    OnPage(all, i);
    var j := i - Skip(p);
    assert store.ListCars(q, p).cars[j] == ToModel(k, store.cars[k]);
  }

  /** Two different pages of the same listing have no record in common. */
  lemma ListedOnlyOnce(store: CarStore, q: Filter, p: int, p': int)
    requires store.Valid() && p >= 1 && p' >= 1 && p != p'
    ensures forall c :: c in store.ListCars(q, p).cars ==> c !in store.ListCars(q, p').cars
  {
    var all := MatchingDesc(store.cars, q, store.nextId);
    var a, b := store.ListCars(q, p).cars, store.ListCars(q, p').cars;
    PagesDisjoint(all, p, p');
    forall c | c in a
      ensures c !in b
    {
      var i :| 0 <= i < |a| && a[i] == c;
      var e := Page(all, p)[i];
      forall j | 0 <= j < |b|
        ensures b[j] != c
      {
        var e' := Page(all, p')[j];
        assert e != e';
        if e.id != e'.id {
          ToModelInjective(e.id, e.doc, e'.id, e'.doc);
        }
      }
    }
  }

  /**
   * The walk-through of one record's life: create, read back, update the price,
   * delete, delete again, read again.
   */
  method Scenario() returns (created: Response, shown: Response, updated: Response,
                             removed: Response, again: Response, gone: Response)
    ensures created.Created? && created.car.brand == "Mercedes" && created.car.make == "BMW"
    ensures created.car.year == 1976 && created.car.price == 40000 && created.car.km == 18000 && created.car.cm3 == 1500
    ensures shown == Ok(created.car)
    ensures updated.Ok? && updated.car.id == created.car.id && updated.car.price == 35000
    ensures updated.car.brand == "Mercedes" && updated.car.make == "BMW"
    ensures updated.car.year == DefaultYear && updated.car.km == DefaultKm && updated.car.cm3 == DefaultCm3
    ensures removed == NoContent && again.NotFound? && gone.NotFound?
  {
    var store := new CarStore();
    created := store.CreateCar(CarPayload(Absent, Given("Mercedes"), Given("BMW"),
                                          Given(1976), Given(40000), Given(18000), Given(1500)));
    var id := created.car.id.value;
    ParseFormatId(0);
    shown := store.ShowCar(id);
    updated := store.UpdateCar(id, UpdatePayload(Absent, Absent, Absent, Given(35000), Absent, Absent));
    removed := store.DeleteCar(id);
    again := store.DeleteCar(id);
    gone := store.ShowCar(id);
  }
}
