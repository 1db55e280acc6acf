/**
 * The admin car list: the guard, the search box that filters by title or ad
 * reference, the loading and empty-list conditions, and the delete button that
 * asks for confirmation before calling the backend.
 */
module AdminCarList {
  import opened Wrappers
  import opened Text
  import opened Seqs
  import opened DatabaseTypes
  import opened AccessGuard
  import opened Feedback

  /** The query key of the list, invalidated after a delete. */
  const AdminCarsKey := "admin-cars"

  /** A car matches when its title, or its ad reference if it has one, contains the term, ignoring case. */
  predicate Matches(c: Car, term: string) {
    Includes(Lower(c.title), Lower(term)) ||
    (c.adReference.Some? && Includes(Lower(c.adReference.value), Lower(term)))
  }

  /** `cars?.filter(...)`: nothing while the list has not arrived. */
  function FilteredCars(cars: Option<seq<Car>>, term: string): (r: Option<seq<Car>>)
    ensures r.Some? <==> cars.Some?
    ensures cars.Some? ==> IsSubsequence(r.value, cars.value)
    ensures cars.Some? ==> forall c :: c in r.value <==> c in cars.value && Matches(c, term)
    ensures cars.Some? ==> forall c :: multiset(r.value)[c] == if Matches(c, term) then multiset(cars.value)[c] else 0
  {
    match cars
    case None => None
    case Some(cs) =>
      var keep := (c: Car) => Matches(c, term);
      FilterIsSubsequence(cs, keep);
      FilterMembershipAll(cs, keep);
      forall c {
        FilterCount(cs, keep, c);
      }
      Some(Filter(cs, keep))
  }

  /** An empty search term keeps the whole list. */
  lemma EmptySearchKeepsAll(cars: Option<seq<Car>>)
    ensures FilteredCars(cars, "") == cars
  {
    if cars.Some? {
      var keep := (c: Car) => Matches(c, "");
      forall i | 0 <= i < |cars.value|
        ensures keep(cars.value[i])
      {
        IncludesEmpty(Lower(cars.value[i].title));
      }
      FilterKeepsAll(cars.value, keep);
    }
  }

  /** Two search terms that differ only in the case of their letters select the same cars. */
  lemma SearchIgnoresCase(cars: Option<seq<Car>>, t1: string, t2: string)
    requires |t1| == |t2|
    requires forall i :: 0 <= i < |t1| ==> LowerChar(t1[i]) == LowerChar(t2[i])
    ensures FilteredCars(cars, t1) == FilteredCars(cars, t2)
  {
    LowerAgrees(t1, t2);
    if cars.Some? {
      FilterCongruent(cars.value, (c: Car) => Matches(c, t1), (c: Car) => Matches(c, t2));
    }
  }

  /** For instance, "COROLLA" and "Corolla" find the same cars. */
  lemma UpperAndMixedCaseAgree(cars: Option<seq<Car>>)
    ensures FilteredCars(cars, "COROLLA") == FilteredCars(cars, "Corolla")
  {
    var t1, t2 := "COROLLA", "Corolla";
    forall i | 0 <= i < |t1|
      ensures LowerChar(t1[i]) == LowerChar(t2[i])
    {
    }
    SearchIgnoresCase(cars, t1, t2);
  }

  /** Searching for a term and for its lower-cased form gives the same list. */
  lemma SearchForLowerCasedTerm(cars: Option<seq<Car>>, term: string)
    ensures FilteredCars(cars, Lower(term)) == FilteredCars(cars, term)
  {
    LowerIdempotent(term);
    if cars.Some? {
      FilterCongruent(cars.value, (c: Car) => Matches(c, Lower(term)), (c: Car) => Matches(c, term));
    }
  }

  /** A car without an ad reference is kept exactly when its title matches. */
  lemma WithoutReferenceOnlyTitleCounts(cars: seq<Car>, c: Car, term: string)
    requires c in cars && c.adReference.None?
    ensures c in FilteredCars(Some(cars), term).value <==> Includes(Lower(c.title), Lower(term))
  {
  }

  /** `!filteredCars?.length`: the "No cars found" message. */
  function ShowsEmptyMessage(filtered: Option<seq<Car>>): (r: bool)
    ensures r <==> filtered.None? || |filtered.value| == 0
  {
    match filtered
    case None => true
    case Some(cs) => |cs| == 0
  }

  /** The list query as the page sees it. */
  datatype CarsQuery = CarsQuery(isLoading: bool, data: Option<seq<Car>>)

  datatype Screen = Loading | Table(rows: seq<Car>, emptyMessage: bool)

  function Render(s: Session, q: CarsQuery, searchTerm: string): (p: Page<Screen>)
    ensures p.redirect == Decide(s)
    ensures p.screen.Loading? <==> s.authLoading || s.adminLoading || q.isLoading
    ensures p.screen.Table? ==> p.screen.rows == FilteredCars(q.data, searchTerm).GetOr([])
    ensures p.screen.Table? ==> (p.screen.emptyMessage <==> p.screen.rows == [])
  {
    var filtered := FilteredCars(q.data, searchTerm);
    var screen :=
      if s.authLoading || s.adminLoading || q.isLoading then Loading
      else Table(filtered.GetOr([]), ShowsEmptyMessage(filtered));
    Page(Decide(s), screen)
  }

  /** The ids handed to the delete mutation by one click: none unless confirmed. */
  function DeleteRequests(id: string, confirmed: bool): (r: seq<string>)
    ensures |r| <= 1
    ensures r != [] <==> confirmed
    ensures forall x :: x in r ==> x == id
  {
    if confirmed then [id] else []
  }

  /** After a delete settles: success refreshes the list, failure only reports. */
  function DeleteSettled(result: MutationResult): (r: seq<Effect>)
    ensures Invalidate(AdminCarsKey) in r <==> result.Succeeded?
    ensures result.Succeeded? ==> r == [Invalidate(AdminCarsKey), ToastSuccess("Car deleted successfully")]
    ensures result.Failed? ==> r == [ToastError(OrElse(result.message, "Failed to delete car"))]
  {
    Settle(result, [Invalidate(AdminCarsKey), ToastSuccess("Car deleted successfully")], "Failed to delete car")
  }

  /** The page's own state: the search term, the delete calls issued and the effects emitted. */
  class CarListState {
    var searchTerm: string
    var deleteCalls: seq<string>
    var effects: seq<Effect>

    constructor ()
      ensures searchTerm == "" && deleteCalls == [] && effects == []
    {
      searchTerm := "";
      deleteCalls := [];
      effects := [];
    }

    method SetSearchTerm(value: string)
      modifies this
      ensures searchTerm == value
      ensures deleteCalls == old(deleteCalls) && effects == old(effects)
    {
      searchTerm := value;
    }

    /** The trash button: `confirmed` is the answer to the confirmation dialog. */
    method ClickDelete(id: string, confirmed: bool)
      modifies this
      ensures deleteCalls == old(deleteCalls) + DeleteRequests(id, confirmed)
      ensures searchTerm == old(searchTerm) && effects == old(effects)
    {
      deleteCalls := deleteCalls + DeleteRequests(id, confirmed);
    }

    method DeleteDone(result: MutationResult)
      modifies this
      ensures effects == old(effects) + DeleteSettled(result)
      ensures searchTerm == old(searchTerm) && deleteCalls == old(deleteCalls)
    {
      effects := effects + DeleteSettled(result);
    }

    /** What the page renders with the current search term: only cars matching it are listed. */
    function CurrentPage(s: Session, q: CarsQuery): (p: Page<Screen>)
      reads this
      ensures p == Render(s, q, searchTerm)
      ensures p.screen.Table? ==> forall c :: c in p.screen.rows ==> Matches(c, searchTerm)
      ensures p.screen.Table? && q.data.Some? ==>
        forall c :: c in q.data.value && Matches(c, searchTerm) ==> c in p.screen.rows
    {
      Render(s, q, searchTerm)
    }
  }
}
