/**
 * The add-car page: the guard, the row it inserts from the submitted form,
 * and what happens when the insert settles.
 */
module AddCar {
  import opened Wrappers
  import opened DatabaseTypes
  import opened AccessGuard
  import opened Feedback
  import opened Text
  import opened CarForm

  /** `{...data, created_by: user?.id}`. */
  datatype NewCarRow = NewCarRow(fields: CarFormData, createdBy: Option<string>)

  /** The rows passed to the insert: exactly one, the form data plus its author. */
  function InsertRows(data: CarFormData, user: Option<User>): (rows: seq<NewCarRow>)
    ensures |rows| == 1
    ensures rows[0].fields == data
    ensures rows[0].createdBy.Some? <==> user.Some?
    ensures user.Some? ==> rows[0].createdBy.value == user.value.id
  {
    [NewCarRow(data, if user.Some? then Some(user.value.id) else None)]
  }

  /** Success goes back to the list; failure stays on the form with a message. */
  function CreateSettled(result: MutationResult): (r: seq<Effect>)
    ensures Navigate(CarsPath) in r <==> result.Succeeded?
    ensures result.Succeeded? ==> r == [ToastSuccess("Car added successfully"), Navigate(CarsPath)]
    ensures result.Failed? ==> r == [ToastError(OrElse(result.message, "Failed to add car"))]
  {
    Settle(result, [ToastSuccess("Car added successfully"), Navigate(CarsPath)], "Failed to add car")
  }

  datatype Screen = Loading | Form(defaults: CarFormData)

  function Render(s: Session, currentYear: int): (p: Page<Screen>)
    ensures p.redirect == Decide(s)
    ensures p.screen.Loading? <==> s.authLoading || s.adminLoading
    ensures p.screen.Form? ==> p.screen.defaults == DefaultValues(NoDefaults(), currentYear)
  {
    Page(Decide(s), if LookupsPending(s) then Loading else Form(DefaultValues(NoDefaults(), currentYear)))
  }

  /**
   * The car the table holds after the insert, assuming it stores each
   * column as sent; id, ad reference and timestamps are the table's own.
   */
  function StoredCar(row: NewCarRow, id: string, adReference: Option<string>, createdAt: string, updatedAt: string): Car
    requires row.fields.price.Entered? && row.fields.year.Entered?
  {
    var f := row.fields;
    Car(id, f.title, Some(f.mainImage), f.price.value, Some(f.description), Some(f.shortDescription),
      f.isSold, f.year.value, Some(f.mileage), f.fuelType, f.transmission, Some(f.city),
      Some(f.province), Some(f.color), Some(f.assembly), Some(f.engineCapacity), Some(f.bodyType),
      adReference, row.createdBy, createdAt, updatedAt)
  }

  /** A car added through the form opens in the edit form with exactly the values submitted. */
  lemma AddedCarReopensUnchanged(data: CarFormData, user: Option<User>, id: string, adReference: Option<string>,
                                 createdAt: string, updatedAt: string, addYear: int, editYear: int)
    requires Submit(data, addYear).Accepted?
    ensures var row := InsertRows(data, user)[0];
            DefaultValues(FromCar(StoredCar(row, id, adReference, createdAt, updatedAt)), editYear) == data
  {
    AcceptedValuesAreComplete(data, addYear);
    var c := StoredCar(InsertRows(data, user)[0], id, adReference, createdAt, updatedAt);
    DefaultsFromCar(c, editYear);
  }
}
