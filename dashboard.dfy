/**
 * The admin dashboard: the guard, the two count queries (all cars, sold cars)
 * and the three tiles built from them.
 */
module AdminDashboard {
  import opened Wrappers
  import opened Seqs
  import opened DatabaseTypes
  import opened AccessGuard

  datatype Stats = Stats(totalCars: int, soldCars: int)

  /** `count || 0` for each of the two count queries. */
  function StatsFromCounts(total: Option<nat>, sold: Option<nat>): (r: Stats)
    ensures r.totalCars == total.GetOr(0)
    ensures r.soldCars == sold.GetOr(0)
  {
    Stats(if total.Some? && total.value != 0 then total.value else 0,
          if sold.Some? && sold.value != 0 then sold.value else 0)
  }

  datatype Tiles = Tiles(total: int, sold: int, available: int)

  /** The tiles, with every figure 0 until the statistics arrive. */
  function DisplayedTiles(stats: Option<Stats>): (t: Tiles)
    ensures t.available == t.total - t.sold
    ensures stats.None? ==> t == Tiles(0, 0, 0)
    ensures stats.Some? ==> t.total == stats.value.totalCars && t.sold == stats.value.soldCars
  {
    var total := if stats.Some? && stats.value.totalCars != 0 then stats.value.totalCars else 0;
    var sold := if stats.Some? && stats.value.soldCars != 0 then stats.value.soldCars else 0;
    Tiles(total, sold, total - sold)
  }

  /**
   * When both counts are taken over the same table, the "Available Cars"
   * tile is the number of cars not sold.
   */
  lemma AvailableIsUnsoldCount(cars: seq<Car>)
    ensures DisplayedTiles(Some(StatsFromCounts(Some(|cars|), Some(|Filter(cars, Sold)|)))).available
            == |Filter(cars, Unsold)|
  {
    FilterSplitsLength(cars, Sold, Unsold);
  }

  datatype Screen = Loading | Panel(tiles: Tiles)

  function Render(s: Session, stats: Option<Stats>): (p: Page<Screen>)
    ensures p.redirect == Decide(s)
    ensures p.screen.Loading? <==> s.authLoading || s.adminLoading
    ensures p.screen.Panel? ==> p.screen.tiles == DisplayedTiles(stats)
  {
    Page(Decide(s), if LookupsPending(s) then Loading else Panel(DisplayedTiles(stats)))
  }
}
