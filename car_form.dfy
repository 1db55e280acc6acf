/**
 * The admin car form: the values it starts from, the validation rules of its
 * inputs, the switch and select controls that write single fields, and the
 * submission that hands validated values to the page.
 */
module CarForm {
  import opened Wrappers
  import opened Text
  import opened DatabaseTypes

  /** The content of a number input: blank, or a number. */
  datatype NumberEntry = Blank | Entered(value: int)

  /** The values the form holds and submits. */
  datatype CarFormData = CarFormData(
    title: string,
    mainImage: string,
    price: NumberEntry,
    description: string,
    shortDescription: string,
    isSold: bool,
    year: NumberEntry,
    mileage: string,
    fuelType: FuelType,
    transmission: Transmission,
    city: string,
    province: string,
    color: string,
    assembly: Assembly,
    engineCapacity: string,
    bodyType: BodyType)

  /**
   * A partial car record handed in as defaults; None is a field that is
   * missing or null.
   */
  datatype CarDefaults = CarDefaults(
    title: Option<string>,
    mainImage: Option<string>,
    price: Option<int>,
    description: Option<string>,
    shortDescription: Option<string>,
    isSold: Option<bool>,
    year: Option<int>,
    mileage: Option<string>,
    fuelType: Option<FuelType>,
    transmission: Option<Transmission>,
    city: Option<string>,
    province: Option<string>,
    color: Option<string>,
    assembly: Option<Assembly>,
    engineCapacity: Option<string>,
    bodyType: Option<BodyType>)

  /** The form opened with no defaults (the add-car page). */
  function NoDefaults(): CarDefaults {
    CarDefaults(None, None, None, None, None, None, None, None, None, None, None, None, None, None, None, None)
  }

  /**
   * The form opened on a stored car (the edit page): the columns that are never
   * null are always supplied, the nullable ones are supplied exactly when set.
   */
  function FromCar(c: Car): (d: CarDefaults)
    ensures d.title == Some(c.title) && d.price == Some(c.price) && d.year == Some(c.year)
    ensures d.isSold == Some(c.isSold) && d.fuelType == Some(c.fuelType) && d.transmission == Some(c.transmission)
    ensures d.mainImage == c.mainImage && d.description == c.description && d.mileage == c.mileage
    ensures d.shortDescription == c.shortDescription && d.engineCapacity == c.engineCapacity
    ensures d.city == c.city && d.province == c.province && d.color == c.color
    ensures d.assembly == c.assembly && d.bodyType == c.bodyType
  {
    CarDefaults(Some(c.title), c.mainImage, Some(c.price), c.description, c.shortDescription,
      Some(c.isSold), Some(c.year), c.mileage, Some(c.fuelType), Some(c.transmission),
      c.city, c.province, c.color, c.assembly, c.engineCapacity, c.bodyType)
  }

  /** `value || fallback` for a number field: a missing value and 0 both fall back. */
  function NumberOr(v: Option<int>, fallback: int): (r: int)
    ensures v.Some? && v.value != 0 ==> r == v.value
    ensures (v.None? || v.value == 0) ==> r == fallback
  {
    if v.Some? && v.value != 0 then v.value else fallback
  }

  /** The starting values: each supplied truthy value, else the field's fallback. */
  function DefaultValues(d: CarDefaults, currentYear: int): (r: CarFormData)
    ensures d == NoDefaults() ==>
      r == CarFormData("", "", Entered(0), "", "", false, Entered(currentYear), "",
                       Petrol, Automatic, "", "", "", Local, "", Sedan)
    ensures d.title.Some? ==> r.title == d.title.value
    ensures d.title.None? ==> r.title == ""
    ensures d.mainImage.Some? ==> r.mainImage == d.mainImage.value
    ensures d.mainImage.None? ==> r.mainImage == ""
    ensures d.description.Some? ==> r.description == d.description.value
    ensures d.description.None? ==> r.description == ""
    ensures d.shortDescription.Some? ==> r.shortDescription == d.shortDescription.value
    ensures d.shortDescription.None? ==> r.shortDescription == ""
    ensures d.mileage.Some? ==> r.mileage == d.mileage.value
    ensures d.mileage.None? ==> r.mileage == ""
    ensures d.city.Some? ==> r.city == d.city.value
    ensures d.city.None? ==> r.city == ""
    ensures d.province.Some? ==> r.province == d.province.value
    ensures d.province.None? ==> r.province == ""
    ensures d.color.Some? ==> r.color == d.color.value
    ensures d.color.None? ==> r.color == ""
    ensures d.engineCapacity.Some? ==> r.engineCapacity == d.engineCapacity.value
    ensures d.engineCapacity.None? ==> r.engineCapacity == ""
    ensures r.price == Entered(d.price.GetOr(0))
    ensures r.year.Entered?
    ensures d.year.Some? && d.year.value != 0 ==> r.year.value == d.year.value
    ensures (d.year.None? || d.year.value == 0) ==> r.year.value == currentYear
    ensures r.isSold == d.isSold.GetOr(false)
    ensures r.fuelType == d.fuelType.GetOr(Petrol)
    ensures r.transmission == d.transmission.GetOr(Automatic)
    ensures r.assembly == d.assembly.GetOr(Local)
    ensures r.bodyType == d.bodyType.GetOr(Sedan)
  {
    CarFormData(
      OrElse(d.title, ""),
      OrElse(d.mainImage, ""),
      Entered(NumberOr(d.price, 0)),
      OrElse(d.description, ""),
      OrElse(d.shortDescription, ""),
      d.isSold.Some? && d.isSold.value,
      Entered(NumberOr(d.year, currentYear)),
      OrElse(d.mileage, ""),
      d.fuelType.GetOr(Petrol),
      d.transmission.GetOr(Automatic),
      OrElse(d.city, ""),
      OrElse(d.province, ""),
      OrElse(d.color, ""),
      d.assembly.GetOr(Local),
      OrElse(d.engineCapacity, ""),
      d.bodyType.GetOr(Sedan))
  }

  /** The form values a stored car would have if every column was filled in. */
  function FormDataOf(c: Car): CarFormData {
    CarFormData(c.title, c.mainImage.GetOr(""), Entered(c.price), c.description.GetOr(""),
      c.shortDescription.GetOr(""), c.isSold, Entered(c.year), c.mileage.GetOr(""), c.fuelType,
      c.transmission, c.city.GetOr(""), c.province.GetOr(""), c.color.GetOr(""),
      c.assembly.GetOr(Local), c.engineCapacity.GetOr(""), c.bodyType.GetOr(Sedan))
  }

  /**
   * Opening the form on a car reproduces the car's own values, with '' for
   * null text, Local and Sedan for a null assembly and body type, except that
   * a year of 0 is replaced by the current year.
   */
  lemma DefaultsFromCar(c: Car, currentYear: int)
    ensures c.year != 0 ==> DefaultValues(FromCar(c), currentYear) == FormDataOf(c)
    ensures c.year == 0 ==> DefaultValues(FromCar(c), currentYear) == FormDataOf(c).(year := Entered(currentYear))
  {
    var r := DefaultValues(FromCar(c), currentYear);
    var f := FormDataOf(c);
    assert r.price == f.price;
    assert r.title == f.title && r.mainImage == f.mainImage && r.description == f.description;
    assert r.shortDescription == f.shortDescription && r.mileage == f.mileage;
    assert r.city == f.city && r.province == f.province && r.color == f.color;
    assert r.engineCapacity == f.engineCapacity;
  }

  datatype Field = Title | MainImage | Price | Year

  /** A failed rule: `required` with its message, or a `min` / `max` bound. */
  datatype Rule = Required(message: string) | Min(bound: int) | Max(bound: int)

  datatype FieldError = FieldError(field: Field, rule: Rule)

  /** How many of the errors are about field `f`. */
  function FieldCount(es: seq<FieldError>, f: Field): nat
    decreases |es|
  {
    if es == [] then 0 else (if es[0].field == f then 1 else 0) + FieldCount(es[1..], f)
  }

  /** No field is reported twice, as the form library keeps one error per field. */
  predicate OnePerField(es: seq<FieldError>) {
    forall f :: FieldCount(es, f) <= 1
  }

  lemma {:induction false} FieldCountAppend(a: seq<FieldError>, b: seq<FieldError>, f: Field)
    ensures FieldCount(a + b, f) == FieldCount(a, f) + FieldCount(b, f)
    decreases |a|
  {
    if a == [] {
      assert a + b == b;
    } else {
      assert (a + b)[1..] == a[1..] + b;
      FieldCountAppend(a[1..], b, f);
    }
  }

  /** A list of at most one error, all about field `g`, counts at most one for `g` and none for any other field. */
  lemma SingleFieldCount(es: seq<FieldError>, g: Field, f: Field)
    requires |es| <= 1
    requires forall e :: e in es ==> e.field == g
    ensures FieldCount(es, f) <= 1
    ensures f != g ==> FieldCount(es, f) == 0
  {
    if es != [] {
      assert es[0] in es;
      assert es[1..] == [];
    }
  }

  /** The four inputs' errors together: at most one each, so one per field. */
  lemma OnePerFieldJoin(t: seq<FieldError>, m: seq<FieldError>, p: seq<FieldError>, y: seq<FieldError>)
    requires |t| <= 1 && |m| <= 1 && |p| <= 1 && |y| <= 1
    requires forall e :: e in t ==> e.field == Title
    requires forall e :: e in m ==> e.field == MainImage
    requires forall e :: e in p ==> e.field == Price
    requires forall e :: e in y ==> e.field == Year
    ensures OnePerField(t + m + p + y)
  {
    forall f
      ensures FieldCount(t + m + p + y, f) <= 1
    {
      FieldCountAppend(t, m, f);
      FieldCountAppend(t + m, p, f);
      FieldCountAppend(t + m + p, y, f);
      SingleFieldCount(t, Title, f);
      SingleFieldCount(m, MainImage, f);
      SingleFieldCount(p, Price, f);
      SingleFieldCount(y, Year, f);
    }
  }

  /** The seven errors the form can report. */
  predicate Listed(e: FieldError, currentYear: int) {
    e == FieldError(Title, Required("Title is required")) ||
    e == FieldError(MainImage, Required("Image URL is required")) ||
    e == FieldError(Price, Required("Price is required")) ||
    e == FieldError(Price, Min(0)) ||
    e == FieldError(Year, Required("Year is required")) ||
    e == FieldError(Year, Min(1900)) ||
    e == FieldError(Year, Max(currentYear + 1))
  }

  /** The four inputs' errors together hold only listed errors. */
  lemma ListedErrorsJoin(t: seq<FieldError>, m: seq<FieldError>, p: seq<FieldError>, y: seq<FieldError>, currentYear: int)
    requires forall e :: e in t ==> e == FieldError(Title, Required("Title is required"))
    requires forall e :: e in m ==> e == FieldError(MainImage, Required("Image URL is required"))
    requires forall e :: e in p ==> e.field == Price && (e.rule == Required("Price is required") || e.rule == Min(0))
    requires forall e :: e in y ==>
      e.field == Year && (e.rule == Required("Year is required") || e.rule == Min(1900) || e.rule == Max(currentYear + 1))
    ensures forall e :: e in t + m + p + y ==> Listed(e, currentYear)
  {
  }

  /** The failing rule of a required text input. */
  function TextErrors(f: Field, s: string, message: string): (r: seq<FieldError>)
    ensures r == [] <==> s != ""
    ensures forall e :: e in r ==> e.field == f
    ensures forall rule :: FieldError(f, rule) in r <==> s == "" && rule == Required(message)
    ensures |r| <= 1
  {
    if s == "" then [FieldError(f, Required(message))] else []
  }

  /**
   * The failing rule of a required number input: `required` when blank,
   * then the upper bound, which the form library reports ahead of the lower one.
   */
  function NumberErrors(f: Field, v: NumberEntry, message: string, min: int, max: Option<int>): (r: seq<FieldError>)
    ensures r == [] <==> v.Entered? && min <= v.value && (max.Some? ==> v.value <= max.value)
    ensures forall e :: e in r ==> e.field == f
    ensures FieldError(f, Required(message)) in r <==> v.Blank?
    ensures FieldError(f, Min(min)) in r <==> v.Entered? && v.value < min && (max.Some? ==> v.value <= max.value)
    ensures max.Some? ==> (FieldError(f, Max(max.value)) in r <==> v.Entered? && v.value > max.value)
    ensures |r| <= 1
    ensures forall e :: e in r ==> e.rule == Required(message) || e.rule == Min(min) || (max.Some? && e.rule == Max(max.value))
  {
    match v
    case Blank => [FieldError(f, Required(message))]
    case Entered(n) =>
      if max.Some? && n > max.value then [FieldError(f, Max(max.value))]
      else if n < min then [FieldError(f, Min(min))]
      else []
  }

  /**
   * The rules registered on the inputs: title and image URL required, price
   * required and at least 0, year required and between 1900 and next year.
   */
  function Validate(v: CarFormData, currentYear: int): (errors: seq<FieldError>)
    ensures errors == [] <==>
      v.title != "" && v.mainImage != "" &&
      v.price.Entered? && v.price.value >= 0 &&
      v.year.Entered? && 1900 <= v.year.value <= currentYear + 1
    ensures FieldError(Title, Required("Title is required")) in errors <==> v.title == ""
    ensures FieldError(MainImage, Required("Image URL is required")) in errors <==> v.mainImage == ""
    ensures FieldError(Price, Required("Price is required")) in errors <==> v.price.Blank?
    ensures FieldError(Price, Min(0)) in errors <==> v.price.Entered? && v.price.value < 0
    ensures FieldError(Year, Required("Year is required")) in errors <==> v.year.Blank?
    ensures FieldError(Year, Min(1900)) in errors <==>
      v.year.Entered? && v.year.value < 1900 && v.year.value <= currentYear + 1
    ensures FieldError(Year, Max(currentYear + 1)) in errors <==> v.year.Entered? && v.year.value > currentYear + 1
    ensures OnePerField(errors)
    ensures forall e :: e in errors ==> Listed(e, currentYear)
  {
    var title := TextErrors(Title, v.title, "Title is required");
    var image := TextErrors(MainImage, v.mainImage, "Image URL is required");
    var price := NumberErrors(Price, v.price, "Price is required", 0, None);
    var year := NumberErrors(Year, v.year, "Year is required", 1900, Some(currentYear + 1));
    OnePerFieldJoin(title, image, price, year);
    ListedErrorsJoin(title, image, price, year, currentYear);
    title + image + price + year
  }

  datatype SubmitOutcome = Rejected(errors: seq<FieldError>) | Accepted(data: CarFormData)

  /** `handleSubmit`: the page's callback gets the values only when no rule fails. */
  function Submit(v: CarFormData, currentYear: int): (r: SubmitOutcome)
    ensures r.Accepted? <==> Validate(v, currentYear) == []
    ensures r.Accepted? ==> r.data == v
    ensures r.Rejected? ==> r.errors == Validate(v, currentYear) && r.errors != []
  {
    var errors := Validate(v, currentYear);
    if errors == [] then Accepted(v) else Rejected(errors)
  }

  /** Accepted values always carry a title, an image URL and in-range numbers. */
  lemma AcceptedValuesAreComplete(v: CarFormData, currentYear: int)
    requires Submit(v, currentYear).Accepted?
    ensures v.title != "" && v.mainImage != ""
    ensures v.price.Entered? && v.price.value >= 0
    ensures v.year.Entered? && v.year.value != 0
  {
  }

  /** The live form. The switch and the selects write one field each through `setValue`. */
  class CarFormState {
    var values: CarFormData

    constructor (defaults: CarDefaults, currentYear: int)
      ensures values == DefaultValues(defaults, currentYear)
    {
      values := DefaultValues(defaults, currentYear);
    }

    method SetIsSold(checked: bool)
      modifies this
      ensures values == old(values).(isSold := checked)
    {
      values := values.(isSold := checked);
    }

    method SetFuelType(f: FuelType)
      modifies this
      ensures values == old(values).(fuelType := f)
    {
      values := values.(fuelType := f);
    }

    method SetTransmission(t: Transmission)
      modifies this
      ensures values == old(values).(transmission := t)
    {
      values := values.(transmission := t);
    }

    method SetBodyType(b: BodyType)
      modifies this
      ensures values == old(values).(bodyType := b)
    {
      values := values.(bodyType := b);
    }

    method SetAssembly(a: Assembly)
      modifies this
      ensures values == old(values).(assembly := a)
    {
      values := values.(assembly := a);
    }

    /** Submitting reads the values and leaves them as they are. */
    method HandleSubmit(currentYear: int) returns (outcome: SubmitOutcome)
      ensures outcome == Submit(values, currentYear)
    {
      outcome := Submit(values, currentYear);
    }
  }
}
