/** The home page's "Featured Vehicles": the first six cars that are not sold. */
module IndexPage {
  import opened Seqs
  import opened DatabaseTypes

  const FeaturedCount: nat := 6

  /** `cars.filter(car => !car.is_sold).slice(0, 6)`. */
  function AvailableCars(cars: seq<Car>): (r: seq<Car>)
    ensures |r| <= FeaturedCount
    ensures forall i :: 0 <= i < |r| ==> !r[i].isSold
    ensures r <= Filter(cars, Unsold)
    ensures |Filter(cars, Unsold)| <= FeaturedCount ==> r == Filter(cars, Unsold)
    ensures |Filter(cars, Unsold)| >= FeaturedCount ==> |r| == FeaturedCount
  {
    Take(Filter(cars, Unsold), FeaturedCount)
  }

  /** The featured cars appear in catalog order, none repeated or invented. */
  lemma FeaturedInCatalogOrder(cars: seq<Car>)
    ensures IsSubsequence(AvailableCars(cars), cars)
  {
    FilterIsSubsequence(cars, Unsold);
    PrefixOfSubsequence(AvailableCars(cars), Filter(cars, Unsold), cars);
  }

  /** A car is featured only if it is in the catalog and unsold; with six or fewer unsold cars, every one is. */
  lemma FeaturedMembership(cars: seq<Car>, c: Car)
    ensures c in AvailableCars(cars) ==> c in cars && !c.isSold
    ensures |Filter(cars, Unsold)| <= FeaturedCount ==> (c in AvailableCars(cars) <==> c in cars && !c.isSold)
  {
    FilterMembership(cars, Unsold, c);
    var unsold := Filter(cars, Unsold);
    if c in AvailableCars(cars) {
      var i :| 0 <= i < |AvailableCars(cars)| && AvailableCars(cars)[i] == c;
      assert unsold[i] == c;
    }
  }
}
