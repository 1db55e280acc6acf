/** The four admin pages side by side. */
module AdminPages {
  import opened Wrappers
  import opened AccessGuard
  import AdminCarList
  import AdminDashboard
  import AddCar
  import EditCar

  /** Every admin page issues the same redirect for the same session, whatever else it has loaded. */
  lemma SameGuardOnEveryPage(s: Session, list: AdminCarList.CarsQuery, term: string,
                             stats: Option<AdminDashboard.Stats>, car: EditCar.CarQuery, currentYear: int)
    ensures AdminCarList.Render(s, list, term).redirect == Decide(s)
    ensures AdminDashboard.Render(s, stats).redirect == Decide(s)
    ensures AddCar.Render(s, currentYear).redirect == Decide(s)
    ensures EditCar.Render(s, car, currentYear).redirect == Decide(s)
  {
  }
}
