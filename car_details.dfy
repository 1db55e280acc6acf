/** The public detail page of one WordPress car post. */
module CarDetails {
  import opened Wrappers
  import opened Text
  import opened WordPressTypes
  import CarCard

  const Placeholder := "https://images.unsplash.com/photo-1494976388531-d1058494cdd8?w=1920"

  datatype DetailsView = DetailsView(
    image: string,
    title: string,
    price: Scalar,
    year: Scalar,
    mileage: string,
    fuelType: string,
    transmission: string,
    engine: string,
    color: string)

  datatype Screen = Skeleton | LoadFailed | Details(view: DetailsView)

  /** The displayed values: every missing or falsy field shows a fallback, never a blank. */
  function View(car: Car): (v: DetailsView)
    ensures v.title == car.title.rendered
    ensures v.image == ImageOr(car, Placeholder) && v.image != ""
    ensures v.price == ScalarOr(AcfPrice(car), ContactForPrice) && Truthy(v.price)
    ensures v.year == ScalarOr(AcfYear(car), NotAvailable) && Truthy(v.year)
    ensures v.mileage == OrElse(AcfMileage(car), NotAvailable) && v.mileage != ""
    ensures v.fuelType == OrElse(AcfFuelType(car), NotAvailable) && v.fuelType != ""
    ensures v.transmission == OrElse(AcfTransmission(car), NotAvailable) && v.transmission != ""
    ensures v.engine == OrElse(AcfEngine(car), NotAvailable) && v.engine != ""
    ensures v.color == OrElse(AcfColor(car), NotAvailable) && v.color != ""
  {
    DetailsView(
      ImageOr(car, Placeholder),
      car.title.rendered,
      ScalarOr(AcfPrice(car), ContactForPrice),
      ScalarOr(AcfYear(car), NotAvailable),
      OrElse(AcfMileage(car), NotAvailable),
      OrElse(AcfFuelType(car), NotAvailable),
      OrElse(AcfTransmission(car), NotAvailable),
      OrElse(AcfEngine(car), NotAvailable),
      OrElse(AcfColor(car), NotAvailable))
  }

  /** Loading is checked first; an error or a missing car is a failure; only then the details. */
  function Render(isLoading: bool, hasError: bool, car: Option<Car>): (r: Screen)
    ensures isLoading ==> r == Skeleton
    ensures !isLoading && (hasError || car.None?) ==> r == LoadFailed
    ensures r.Details? <==> !isLoading && !hasError && car.Some?
    ensures r.Details? ==> r.view == View(car.value)
  {
    if isLoading then Skeleton
    else if hasError || car.None? then LoadFailed
    else Details(View(car.value))
  }

  /**
   * The card and the detail page show the same title, price, year and
   * mileage for a car, and the same image whenever it has one.
   */
  lemma AgreesWithCard(car: Car)
    ensures var card := CarCard.Card(car);
            var v := View(car);
            card.title == v.title && card.price == v.price && card.year == v.year && card.mileage == v.mileage
    ensures FirstMediaUrl(car).Some? && FirstMediaUrl(car).value != "" ==> CarCard.Card(car).image == View(car).image
    ensures (FirstMediaUrl(car).None? || FirstMediaUrl(car).value == "") ==> CarCard.Card(car).image != View(car).image
  {
  }
}
