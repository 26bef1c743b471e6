/**
 * The record schema: the body a create must carry (`CarModel`), the body an
 * update may carry (`UpdateCarModel`), the stored document, and the envelope
 * the list operation returns (`CarCollection`).
 */
module Models {
  import opened Wrappers
  import opened ObjectIds

  /** The six data fields of a car record. */
  datatype FieldName = Brand | Make | Year | Price | Km | Cm3

  const AllFields: set<FieldName> := {Brand, Make, Year, Price, Km, Cm3}

  /** One member of a JSON request body: missing, explicitly `null`, or a value. */
  datatype Field<T> = Absent | Null | Given(value: T)

  /** The JSON body of a create request, member by member. */
  datatype CarPayload = CarPayload(
    id: Field<string>,
    brand: Field<string>,
    make: Field<string>,
    year: Field<int>,
    price: Field<int>,
    km: Field<int>,
    cm3: Field<int>)

  /** A validated car record as it crosses the API boundary. */
  datatype CarModel = CarModel(
    id: Option<string>,
    brand: string,
    make: string,
    year: int,
    price: int,
    km: int,
    cm3: int)

  /** The length constraints of `CarModel`: brand and make are non-empty. */
  predicate ValidCarModel(c: CarModel) {
    |c.brand| >= 1 && |c.make| >= 1
  }

  /** A required string with `min_length=1`. */
  predicate RequiredText(f: Field<string>) {
    f.Given? && |f.value| >= 1
  }

  /** Whether the body satisfies the constraint `CarModel` puts on field `f`. */
  predicate Satisfies(p: CarPayload, f: FieldName) {
    match f
    case Brand => RequiredText(p.brand)
    case Make => RequiredText(p.make)
    case Year => p.year.Given?
    case Price => p.price.Given?
    case Km => p.km.Given?
    case Cm3 => p.cm3.Given?
  }

  /** The optional `id`: a missing or `null` member is `None`. */
  function OptionalId(f: Field<string>): Option<string> {
    if f.Given? then Some(f.value) else None
  }

  /**
   * Validation of a create body against `CarModel`. Every field that breaks
   * its constraint is reported; the optional `id` never fails.
   */
  function ParseCarModel(p: CarPayload): (r: Result<CarModel, set<FieldName>>)
    ensures r.Success? <==> forall f :: Satisfies(p, f)
    ensures r.Failure? ==> r.error == set f | f in AllFields && !Satisfies(p, f)
    ensures r.Success? ==> ValidCarModel(r.value) && r.value.id == OptionalId(p.id)
    ensures r.Success? ==> p.brand == Given(r.value.brand) && p.make == Given(r.value.make)
    ensures r.Success? ==> p.year == Given(r.value.year) && p.price == Given(r.value.price)
    ensures r.Success? ==> p.km == Given(r.value.km) && p.cm3 == Given(r.value.cm3)
  {
    var errors := set f | f in AllFields && !Satisfies(p, f);
    if errors == {} then
      assert Brand !in errors && Make !in errors && Year !in errors;
      assert Price !in errors && Km !in errors && Cm3 !in errors;
      Success(CarModel(OptionalId(p.id), p.brand.value, p.make.value,
                       p.year.value, p.price.value, p.km.value, p.cm3.value))
    else
      Failure(errors)
  }

  /** The body a client would send for record `c`. */
  function PayloadOf(c: CarModel): CarPayload {
    CarPayload(
      if c.id.Some? then Given(c.id.value) else Absent,
      Given(c.brand), Given(c.make), Given(c.year), Given(c.price), Given(c.km), Given(c.cm3))
  }

  /** Every valid record is accepted back from its own body. */
  lemma ParsePayloadOf(c: CarModel)
    requires ValidCarModel(c)
    ensures ParseCarModel(PayloadOf(c)) == Success(c)
  {
  }

  /** The JSON body of an update request; an `id` member is ignored, so it has none. */
  datatype UpdatePayload = UpdatePayload(
    brand: Field<string>,
    make: Field<string>,
    year: Field<int>,
    price: Field<int>,
    km: Field<int>,
    cm3: Field<int>)

  /** A validated update body: every field optional, `None` standing for `null`. */
  datatype UpdateCarModel = UpdateCarModel(
    brand: Option<string>,
    make: Option<string>,
    year: Option<int>,
    price: Option<int>,
    km: Option<int>,
    cm3: Option<int>)

  /** Defaults `UpdateCarModel` gives to fields the body leaves out. */
  const DefaultYear: int := 1970
  const DefaultPrice: int := 0
  const DefaultKm: int := 0
  const DefaultCm3: int := 0

  /** A missing member takes the default, an explicit `null` is `None`. */
  function WithDefault<T>(f: Field<T>, default: Option<T>): Option<T> {
    match f
    case Absent => default
    case Null => None
    case Given(v) => Some(v)
  }

  /** Validation of an update body against `UpdateCarModel`; it never fails. */
  function ParseUpdate(p: UpdatePayload): (u: UpdateCarModel)
    ensures u.brand.Some? <==> p.brand.Given?
    ensures u.make.Some? <==> p.make.Given?
    ensures u.year.None? <==> p.year.Null?
    ensures u.price.None? <==> p.price.Null?
    ensures u.km.None? <==> p.km.Null?
    ensures u.cm3.None? <==> p.cm3.Null?
    ensures p.brand.Given? ==> u.brand == Some(p.brand.value)
    ensures p.make.Given? ==> u.make == Some(p.make.value)
    ensures p.year.Given? ==> u.year == Some(p.year.value)
    ensures p.price.Given? ==> u.price == Some(p.price.value)
    ensures p.km.Given? ==> u.km == Some(p.km.value)
    ensures p.cm3.Given? ==> u.cm3 == Some(p.cm3.value)
    ensures p.year.Absent? ==> u.year == Some(DefaultYear)
    ensures p.price.Absent? ==> u.price == Some(DefaultPrice)
    ensures p.km.Absent? ==> u.km == Some(DefaultKm)
    ensures p.cm3.Absent? ==> u.cm3 == Some(DefaultCm3)
  {
    UpdateCarModel(
      WithDefault(p.brand, None),
      WithDefault(p.make, None),
      WithDefault(p.year, Some(DefaultYear)),
      WithDefault(p.price, Some(DefaultPrice)),
      WithDefault(p.km, Some(DefaultKm)),
      WithDefault(p.cm3, Some(DefaultCm3)))
  }

  /** A stored car document: the record without its `_id`, which is the store's key. */
  datatype Doc = Doc(brand: string, make: string, year: int, price: int, km: int, cm3: int)

  /** `model_dump(exclude=["id"])`: the document inserted for a record. */
  function ToDoc(c: CarModel): (d: Doc)
    ensures ValidCarModel(c) ==> |d.brand| >= 1 && |d.make| >= 1
  {
    Doc(c.brand, c.make, c.year, c.price, c.km, c.cm3)
  }

  /** The record returned for the document stored under `k`, its id converted to a string. */
  function ToModel(k: ObjectId, d: Doc): (c: CarModel)
    ensures c.id == Some(FormatId(k)) && ToDoc(c) == d
  {
    CarModel(Some(FormatId(k)), d.brand, d.make, d.year, d.price, d.km, d.cm3)
  }

  /** Reading a stored record back yields the inserted record with its assigned id. */
  lemma ToModelToDoc(k: ObjectId, c: CarModel)
    ensures ToModel(k, ToDoc(c)) == c.(id := Some(FormatId(k)))
  {
  }

  /** Distinct keys give distinct records. */
  lemma ToModelInjective(j: ObjectId, d: Doc, k: ObjectId, e: Doc)
    requires j != k
    ensures ToModel(j, d) != ToModel(k, e)
  {
    FormatIdInjective(j, k);
  }

  /** The list response, an object wrapping the array of records. */
  datatype CarCollection = CarCollection(cars: seq<CarModel>)
}
