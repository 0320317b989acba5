/** The catalogues MemStorage's constructor seeds; nothing ever changes them. */
module SeedData {
  import opened Schema

  /** The one-digit string id "1" .. "9". */
  function Numeral(n: nat): (s: string)
    requires 1 <= n <= 9
    ensures |s| == 1 && '1' <= s[0] <= '9'
  {
    [('0' as int + n) as char]
  }

  // Service descriptions.
  const EngineDiagnosticsText: string := "State-of-the-art diagnostic equipment to quickly identify engine issues. We pinpoint problems accurately, saving you time and money on unnecessary repairs."
  const OilChangesText: string := "Keep your engine running smoothly with our quick and thorough oil change service. We use premium oils and filters to extend your engine's life."
  const BrakeServiceText: string := "Your safety is our priority. From brake pad replacement to complete system overhauls, we ensure your brakes perform when you need them most."
  const TransmissionRepairText: string := "Expert transmission diagnostics and repair for both automatic and manual vehicles. We restore smooth shifting and reliable performance."
  const AcRepairText: string := "Stay cool with our comprehensive AC service. From refrigerant recharge to compressor replacement, we handle all climate control needs."
  const TireRotationText: string := "Extend tire life and improve handling with professional rotation and precision alignment. We ensure even wear and optimal vehicle control."
  const InspectionsText: string := "Comprehensive multi-point inspections to catch issues before they become expensive problems. Perfect for pre-purchase or routine maintenance."

  // Testimonial texts.
  const RodriguezText: string := "Jay Auto Repair saved me from an expensive mistake. They diagnosed my engine issue when two other shops couldn't. Honest pricing and excellent work!"
  const ThompsonText: string := "Bought my Honda CR-V from Jay's and couldn't be happier. The inspection report was thorough, and they even fixed a small issue before delivery at no extra cost."
  const ChenText: string := "I've been bringing all my family's cars here for 3 years. They're fast, fair, and always explain what needs to be done without the upsell pressure."
  const MartinezText: string := "My brakes were squealing terribly. Jay's team had me in and out in under two hours, and the price was exactly what they quoted. True professionals!"
  const WilliamsText: string := "The transmission in my truck was slipping. Other shops wanted $4000+, but Jay Auto fixed it for half that. Still running perfect a year later."
  const FosterText: string := "Best auto shop experience ever! They treated me with respect, explained everything clearly, and my AC is blowing ice cold again. Highly recommend!"

  /** The seven services, numbered "1" .. "7". */
  function Services(): (r: seq<Service>)
    ensures |r| == 7
    ensures forall i :: 0 <= i < |r| ==> r[i].id == Numeral(i + 1)
  {
    [
      Service("1", "Engine Diagnostics", EngineDiagnosticsText, "settings"),
      Service("2", "Oil Changes", OilChangesText, "droplets"),
      Service("3", "Brake Service", BrakeServiceText, "disc"),
      Service("4", "Transmission Repair", TransmissionRepairText, "wrench"),
      Service("5", "AC Repair", AcRepairText, "snowflake"),
      Service("6", "Tire Rotation & Alignment", TireRotationText, "circle"),
      Service("7", "Full Vehicle Inspections", InspectionsText, "clipboard")
    ]
  }

  /** The six cars, numbered "1" .. "6", with non-negative price and mileage and some features. */
  function Cars(): (r: seq<Car>)
    ensures |r| == 6
    ensures forall i :: 0 <= i < |r| ==> r[i].id == Numeral(i + 1)
    ensures forall c :: c in r ==> c.price >= 0 && c.mileage >= 0 && |c.features| > 0
  {
    [
      Car("1", "Toyota", "Camry SE", 2021, 24995, 32000,
        ["Backup Camera", "Bluetooth", "Lane Assist", "Apple CarPlay"], "/car1.jpg"),
      Car("2", "Honda", "CR-V EX", 2020, 27500, 41000,
        ["All-Wheel Drive", "Sunroof", "Heated Seats", "Remote Start"], "/car2.jpg"),
      Car("3", "Ford", "F-150 XLT", 2019, 35900, 55000,
        ["4x4", "Towing Package", "Crew Cab", "Bed Liner"], "/car3.jpg"),
      Car("4", "Chevrolet", "Malibu LT", 2022, 22750, 18000,
        ["Turbo Engine", "Android Auto", "Rear Cross Traffic Alert"], "/car4.jpg"),
      Car("5", "Nissan", "Rogue SV", 2021, 26400, 28000,
        ["ProPILOT Assist", "Panoramic Sunroof", "360 Camera"], "/car5.jpg"),
      Car("6", "Hyundai", "Tucson SEL", 2022, 28995, 15000,
        ["Turbo", "Blind Spot Monitor", "Wireless Charging", "LED Lights"], "/car6.jpg")
    ]
  }

  /** The six testimonials, numbered "1" .. "6", every one rated 5. */
  function Testimonials(): (r: seq<Testimonial>)
    ensures |r| == 6
    ensures forall i :: 0 <= i < |r| ==> r[i].id == Numeral(i + 1)
    ensures forall t :: t in r ==> t.rating == 5
  {
    [
      Testimonial("1", "Michael Rodriguez", 5, RodriguezText, "Engine Repair"),
      Testimonial("2", "Sarah Thompson", 5, ThompsonText, "Car Purchase"),
      Testimonial("3", "David Chen", 5, ChenText, "Regular Maintenance"),
      Testimonial("4", "Jennifer Martinez", 5, MartinezText, "Brake Service"),
      Testimonial("5", "Robert Williams", 5, WilliamsText, "Transmission Repair"),
      Testimonial("6", "Amanda Foster", 5, FosterText, "AC Repair")
    ]
  }

  /**
   * The seeded catalogues have unique ids, and every testimonial rating lies within
   * the 0 .. 5 range the star display draws.
   */
  lemma SeededCatalogues()
    ensures forall i, j :: 0 <= i < j < |Services()| ==> Services()[i].id != Services()[j].id
    ensures forall i, j :: 0 <= i < j < |Cars()| ==> Cars()[i].id != Cars()[j].id
    ensures forall i, j :: 0 <= i < j < |Testimonials()| ==> Testimonials()[i].id != Testimonials()[j].id
    ensures forall t :: t in Testimonials() ==> 0 <= t.rating <= 5
  {
  }
}
