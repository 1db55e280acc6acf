/**
 * The edit-car page: the guard, when the car is fetched, the order of its
 * screens, the update it sends and what happens when the update settles.
 */
module EditCar {
  import opened Wrappers
  import opened DatabaseTypes
  import opened AccessGuard
  import opened Feedback
  import opened Text
  import opened CarForm

  /**
   * `enabled: isAdmin && !!id`: an absent or empty route id fetches nothing.
   * `Render` takes the query's state as an input, so this condition only
   * decides whether that state ever leaves the loading phase.
   */
  function QueryEnabled(isAdmin: bool, id: Option<string>): (r: bool)
    ensures r <==> isAdmin && id.Some? && id.value != ""
  {
    isAdmin && id.Some? && |id.value| > 0
  }

  /** `update(data).eq('id', id)`. */
  datatype UpdateRequest = UpdateRequest(fields: CarFormData, targetId: Option<string>)

  function UpdateFor(data: CarFormData, id: Option<string>): (r: UpdateRequest)
    ensures r.fields == data && r.targetId == id
  {
    UpdateRequest(data, id)
  }

  /**
   * Saving an opened car without touching the form, when the form accepts it,
   * sends the car's own filled-in values back to that car; a year of 0 goes
   * back as the current year.
   */
  lemma SaveWithoutEditsKeepsCar(car: Car, currentYear: int)
    requires Submit(DefaultValues(FromCar(car), currentYear), currentYear).Accepted?
    ensures var sent := Submit(DefaultValues(FromCar(car), currentYear), currentYear).data;
            car.year != 0 ==> UpdateFor(sent, Some(car.id)) == UpdateRequest(FormDataOf(car), Some(car.id))
    ensures var sent := Submit(DefaultValues(FromCar(car), currentYear), currentYear).data;
            car.year == 0 ==>
              UpdateFor(sent, Some(car.id)) == UpdateRequest(FormDataOf(car).(year := Entered(currentYear)), Some(car.id))
  {
    DefaultsFromCar(car, currentYear);
  }

  /** A car without an image URL cannot be saved as it is: the form asks for one. */
  lemma SaveWithoutImageRejected(car: Car, currentYear: int)
    requires car.mainImage.None? || car.mainImage == Some("")
    ensures Submit(DefaultValues(FromCar(car), currentYear), currentYear).Rejected?
    ensures FieldError(MainImage, Required("Image URL is required")) in
            Submit(DefaultValues(FromCar(car), currentYear), currentYear).errors
  {
  }

  function UpdateSettled(result: MutationResult): (r: seq<Effect>)
    ensures Navigate(CarsPath) in r <==> result.Succeeded?
    ensures result.Succeeded? ==> r == [ToastSuccess("Car updated successfully"), Navigate(CarsPath)]
    ensures result.Failed? ==> r == [ToastError(OrElse(result.message, "Failed to update car"))]
  {
    Settle(result, [ToastSuccess("Car updated successfully"), Navigate(CarsPath)], "Failed to update car")
  }

  /** The single-car query as the page sees it. */
  datatype CarQuery = CarQuery(isLoading: bool, car: Option<Car>)

  datatype Screen = Loading | NotFound | Form(defaults: CarFormData)

  /** Loading first, then "Car not found", then the form seeded with the car. */
  function Render(s: Session, q: CarQuery, currentYear: int): (p: Page<Screen>)
    ensures p.redirect == Decide(s)
    ensures p.screen.Loading? <==> s.authLoading || s.adminLoading || q.isLoading
    ensures p.screen.NotFound? <==> !(s.authLoading || s.adminLoading || q.isLoading) && q.car.None?
    ensures p.screen.Form? ==> q.car.Some? && p.screen.defaults == DefaultValues(FromCar(q.car.value), currentYear)
  {
    var screen :=
      if s.authLoading || s.adminLoading || q.isLoading then Loading
      else if q.car.None? then NotFound
      else Form(DefaultValues(FromCar(q.car.value), currentYear));
    Page(Decide(s), screen)
  }
}
