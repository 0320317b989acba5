/**
 * The home page's display rules that depend on data: the icon drawn for a service,
 * the feature chips on a car card, the stars on a testimonial, and a car's photo.
 */
module HomeDisplay {
  import opened Wrappers
  import opened Schema
  import SeedData

  /** The icon components a service card can show. */
  datatype Icon = Settings | Droplets | Disc | Wrench | Snowflake | Circle | ClipboardCheck

  /** The icon keys the page recognises and the icon each one names. */
  const IconTable: map<string, Icon> := map[
    "settings" := Settings, "droplets" := Droplets, "disc" := Disc, "wrench" := Wrench,
    "snowflake" := Snowflake, "circle" := Circle, "clipboard" := ClipboardCheck]

  /** `getServiceIcon`: the icon a key names, or the wrench for any other key. */
  function ServiceIcon(iconName: string): (icon: Icon)
    ensures iconName in IconTable ==> icon == IconTable[iconName]
    ensures iconName !in IconTable ==> icon == Wrench
  {
    if iconName == "settings" then Settings
    else if iconName == "droplets" then Droplets
    else if iconName == "disc" then Disc
    else if iconName == "wrench" then Wrench
    else if iconName == "snowflake" then Snowflake
    else if iconName == "circle" then Circle
    else if iconName == "clipboard" then ClipboardCheck
    else Wrench
  }

  /** Every seeded service names a recognised key, and no two seeded services share an icon. */
  lemma SeededServiceIconsDistinct()
    ensures forall s :: s in SeedData.Services() ==> s.icon in IconTable
    ensures forall i, j :: 0 <= i < j < |SeedData.Services()| ==>
      ServiceIcon(SeedData.Services()[i].icon) != ServiceIcon(SeedData.Services()[j].icon)
  {
    var ss := SeedData.Services();
    var icons := [Settings, Droplets, Disc, Wrench, Snowflake, Circle, ClipboardCheck];
    assert ServiceIcon(ss[0].icon) == icons[0];
    assert ServiceIcon(ss[1].icon) == icons[1];
    assert ServiceIcon(ss[2].icon) == icons[2];
    assert ServiceIcon(ss[3].icon) == icons[3];
    assert ServiceIcon(ss[4].icon) == icons[4];
    assert ServiceIcon(ss[5].icon) == icons[5];
    assert ServiceIcon(ss[6].icon) == icons[6];
    forall i, j | 0 <= i < j < |ss| ensures ServiceIcon(ss[i].icon) != ServiceIcon(ss[j].icon) {
      assert ServiceIcon(ss[i].icon) == icons[i] && ServiceIcon(ss[j].icon) == icons[j];
    }
  }

  /** What a car card shows of its features: some chips, then possibly "+N more". */
  datatype Chips = Chips(shown: seq<string>, more: Option<nat>)

  /** `features.slice(0, 3)` and, when there are more than three, a "+(n - 3) more" chip. */
  function FeatureChips(features: seq<string>): (c: Chips)
    ensures |c.shown| == if |features| < 3 then |features| else 3
    ensures c.shown <= features
    ensures c.more.Some? <==> |features| > 3
    ensures |c.shown| + (if c.more.Some? then c.more.value else 0) == |features|
  {
    var shown := if |features| < 3 then features else features[..3];
    Chips(shown, if |features| > 3 then Some(|features| - 3) else None)
  }

  /** Every seeded car shows three chips; only the ones with four features get "+1 more". */
  lemma SeededCarChips()
    ensures forall c :: c in SeedData.Cars() ==> |FeatureChips(c.features).shown| == 3
    ensures forall c :: c in SeedData.Cars() ==>
      FeatureChips(c.features).more == (if |c.features| == 4 then Some(1) else None)
  {
  }

  /** The number of stars a testimonial card draws. */
  const StarCount: nat := 5

  /**
   * `[...Array(n)].map((_, i) => i < rating)`: a row of `n` stars in which the filled
   * ones come first.
   */
  function Stars(n: nat, rating: int): (r: seq<bool>)
    ensures |r| == n
    ensures forall i, j :: 0 <= i < j < n && r[j] ==> r[i]
  {
    seq(n, i => i < rating)
  }

  /** The number of filled stars in a row. */
  function Filled(stars: seq<bool>): nat
  {
    if stars == [] then 0 else Filled(stars[..|stars| - 1]) + (if stars[|stars| - 1] then 1 else 0)
  }

  /** `rating` clamped into `0 .. n`. */
  function Clamp(rating: int, n: nat): nat
  {
    if rating < 0 then 0 else if rating > n then n else rating
  }

  /** The number of filled stars is the rating clamped into 0 .. n. */
  lemma {:induction false} FilledStarsIsClampedRating(n: nat, rating: int)
    ensures Filled(Stars(n, rating)) == Clamp(rating, n)
  {
    if n > 0 {
      assert Stars(n, rating)[..n - 1] == Stars(n - 1, rating);
      FilledStarsIsClampedRating(n - 1, rating);
    }
  }

  /** On the page, a card shows `Clamp(rating, 5)` filled stars, so every seeded testimonial shows five. */
  lemma SeededTestimonialStars()
    ensures forall t :: t in SeedData.Testimonials() ==> Filled(Stars(StarCount, t.rating)) == 5
  {
    forall t | t in SeedData.Testimonials() ensures Filled(Stars(StarCount, t.rating)) == 5 {
      FilledStarsIsClampedRating(StarCount, t.rating);
    }
  }

  /** The bundled photos, by car id. */
  const CarImages: map<string, string> := map[
    "1" := "@assets/stock_images/used_car_dealership__c147b415.jpg",
    "2" := "@assets/stock_images/used_car_dealership__1dc6f5b7.jpg",
    "3" := "@assets/stock_images/used_car_dealership__04cb9967.jpg",
    "4" := "@assets/stock_images/used_car_dealership__6c7e7dca.jpg",
    "5" := "@assets/stock_images/used_car_dealership__e50d5eb4.jpg",
    "6" := "@assets/stock_images/used_car_dealership__512244c5.jpg"]

  /** `carImages[car.id] || car1Image`: the car's own photo, else the first photo. */
  function CarImage(carId: string): (src: string)
    ensures carId in CarImages ==> src == CarImages[carId]
    ensures carId !in CarImages ==> src == CarImages["1"]
  {
    var found := if carId in CarImages then CarImages[carId] else "";
    if found != "" then found else CarImages["1"]
  }

  /** Each seeded car gets a photo of its own: no two share one, and none falls back. */
  lemma SeededCarImagesDistinct()
    ensures forall c :: c in SeedData.Cars() ==> c.id in CarImages
    ensures forall i, j :: 0 <= i < j < |SeedData.Cars()| ==>
      CarImage(SeedData.Cars()[i].id) != CarImage(SeedData.Cars()[j].id)
  {
  }
}
