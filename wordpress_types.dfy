/**
 * The WordPress REST shape of a car post (custom fields under `acf`, the
 * featured image under `_embedded`), and the values the public pages read
 * out of it with optional chaining and `||` fallbacks.
 */
module WordPressTypes {
  import opened Wrappers
  import opened Text

  /** A custom field typed `string | number`; numbers are whole numbers here. */
  datatype Scalar = Str(text: string) | Num(number: int)

  /** JavaScript truthiness: the empty string and the number 0 are falsy. */
  predicate Truthy(v: Scalar) {
    match v
    case Str(t) => t != ""
    case Num(n) => n != 0
  }

  datatype Rendered = Rendered(rendered: string)

  /** The custom fields; every one of them may be missing. */
  datatype Acf = Acf(
    price: Option<Scalar>,
    year: Option<Scalar>,
    model: Option<string>,
    mileage: Option<string>,
    fuelType: Option<string>,
    transmission: Option<string>,
    engine: Option<string>,
    color: Option<string>)

  datatype Media = Media(sourceUrl: string, altText: Option<string>)

  datatype Embedded = Embedded(featuredMedia: Option<seq<Media>>)

  datatype Car = Car(
    id: nat,
    title: Rendered,
    content: Rendered,
    acf: Option<Acf>,
    featuredMediaId: Option<int>,
    embedded: Option<Embedded>)

  /** The criteria record of the catalog search: five strings, interpreted by nobody in this model. */
  datatype CarFilters = CarFilters(search: string, minPrice: string, maxPrice: string, minYear: string, maxYear: string)

  /** `car._embedded?.["wp:featuredmedia"]?.[0]?.source_url`. */
  function FirstMediaUrl(car: Car): (r: Option<string>)
    ensures r.Some? <==>
      car.embedded.Some? && car.embedded.value.featuredMedia.Some? && |car.embedded.value.featuredMedia.value| > 0
    ensures r.Some? ==> r.value == car.embedded.value.featuredMedia.value[0].sourceUrl
  {
    match car.embedded
    case None => None
    case Some(e) =>
      match e.featuredMedia
      case None => None
      case Some(media) => if |media| == 0 then None else Some(media[0].sourceUrl)
  }

  /** `url || placeholder` for the featured image. */
  function ImageOr(car: Car, placeholder: string): (r: string)
    ensures FirstMediaUrl(car).Some? && FirstMediaUrl(car).value != "" ==> r == FirstMediaUrl(car).value
    ensures (FirstMediaUrl(car).None? || FirstMediaUrl(car).value == "") ==> r == placeholder
  {
    match FirstMediaUrl(car)
    case Some(url) => if url != "" then url else placeholder
    case None => placeholder
  }

  /** `v || fallback` for a `string | number` field. */
  function ScalarOr(v: Option<Scalar>, fallback: string): (r: Scalar)
    ensures v.Some? && Truthy(v.value) ==> r == v.value
    ensures (v.None? || !Truthy(v.value)) ==> r == Str(fallback)
    ensures fallback != "" ==> Truthy(r)
  {
    if v.Some? && Truthy(v.value) then v.value else Str(fallback)
  }

  /** The display fallbacks shared by the card and the detail page. */
  const ContactForPrice := "Contact for Price"
  const NotAvailable := "N/A"

  /** `car.acf?.price`. */
  function AcfPrice(car: Car): Option<Scalar> {
    if car.acf.Some? then car.acf.value.price else None
  }

  function AcfYear(car: Car): Option<Scalar> {
    if car.acf.Some? then car.acf.value.year else None
  }

  function AcfMileage(car: Car): Option<string> {
    if car.acf.Some? then car.acf.value.mileage else None
  }

  function AcfFuelType(car: Car): Option<string> {
    if car.acf.Some? then car.acf.value.fuelType else None
  }

  function AcfTransmission(car: Car): Option<string> {
    if car.acf.Some? then car.acf.value.transmission else None
  }

  function AcfEngine(car: Car): Option<string> {
    if car.acf.Some? then car.acf.value.engine else None
  }

  function AcfColor(car: Car): Option<string> {
    if car.acf.Some? then car.acf.value.color else None
  }
}
