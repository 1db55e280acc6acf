/** The catalog card of a WordPress car post, with its fallbacks and its link. */
module CarCard {
  import opened Wrappers
  import opened Text
  import opened WordPressTypes

  const Placeholder := "https://images.unsplash.com/photo-1494976388531-d1058494cdd8?w=800"

  datatype CardView = CardView(image: string, title: string, price: Scalar, year: Scalar, mileage: string, link: string)

  /** `/cars/${car.id}`. */
  function DetailLink(car: Car): (r: string)
    ensures |r| > 6 && r[..6] == "/cars/"
    ensures forall i :: 6 <= i < |r| ==> IsDigit(r[i])
    ensures r[6] == '0' ==> |r| == 7
  {
    "/cars/" + NatToString(car.id)
  }

  /**
   * The link is the only one of its shape naming the car: any "/cars/" path
   * followed by digits without a leading zero that read back as the id is it.
   */
  lemma DetailLinkUnique(car: Car, link: string)
    requires |link| > 6 && link[..6] == "/cars/"
    requires forall i :: 6 <= i < |link| ==> IsDigit(link[i])
    requires link[6] == '0' ==> |link| == 7
    requires ParseNat(link[6..]) == car.id
    ensures link == DetailLink(car)
  {
    var digits := link[6..];
    assert digits[0] == '0' ==> digits == "0";
    NatToStringParseNat(digits);
    assert link == link[..6] + digits;
  }

  /** The link names the car: what follows "/cars/" reads back as its id. */
  lemma DetailLinkNamesCar(car: Car)
    ensures ParseNat(DetailLink(car)[6..]) == car.id
  {
    assert DetailLink(car)[6..] == NatToString(car.id);
    ParseNatToString(car.id);
  }

  function Card(car: Car): (v: CardView)
    ensures v.title == car.title.rendered
    ensures v.image == ImageOr(car, Placeholder) && v.image != ""
    ensures v.price == ScalarOr(AcfPrice(car), ContactForPrice) && Truthy(v.price)
    ensures AcfPrice(car) == Some(Num(0)) ==> v.price == Str(ContactForPrice)
    ensures v.year == ScalarOr(AcfYear(car), NotAvailable) && Truthy(v.year)
    ensures v.mileage == OrElse(AcfMileage(car), NotAvailable) && v.mileage != ""
    ensures v.link == DetailLink(car)
  {
    CardView(
      ImageOr(car, Placeholder),
      car.title.rendered,
      ScalarOr(AcfPrice(car), ContactForPrice),
      ScalarOr(AcfYear(car), NotAvailable),
      OrElse(AcfMileage(car), NotAvailable),
      DetailLink(car))
  }
}
