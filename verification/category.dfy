/** The closed catalog of activity categories, each with a fixed emission
    factor (kg CO2e per unit) and the unit that quantities are measured in. */
module Categories {

  datatype Category =
    | Car | Bus | Train
    | FlightShort | FlightLong
    | Electricity | Gas
    | MealMeat | MealVegetarian | MealVegan
    | Waste

  /** The categories in declaration order: eleven of them, each exactly once. */
  function Values(): (cs: seq<Category>)
    ensures |cs| == 11
    ensures forall c: Category :: c in cs && cs[Index(c)] == c
    ensures forall i, j :: 0 <= i < j < |cs| ==> cs[i] != cs[j]
  {
    var cs := [Car, Bus, Train, FlightShort, FlightLong, Electricity, Gas,
               MealMeat, MealVegetarian, MealVegan, Waste];
    assert forall c: Category :: cs[Index(c)] == c && c in cs;
    cs
  }

  /** The position of a category in declaration order (Java's `ordinal()`). */
  function Index(c: Category): (i: nat)
    ensures i < 11
  {
    match c
    case Car => 0
    case Bus => 1
    case Train => 2
    case FlightShort => 3
    case FlightLong => 4
    case Electricity => 5
    case Gas => 6
    case MealMeat => 7
    case MealVegetarian => 8
    case MealVegan => 9
    case Waste => 10
  }

  /** kg CO2e emitted per unit of activity; every factor is positive. */
  function EmissionFactor(c: Category): (f: real)
    ensures f > 0.0
  {
    match c
    case Car => 0.21
    case Bus => 0.12
    case Train => 0.10
    case FlightShort => 0.30
    case FlightLong => 0.40
    case Electricity => 0.40
    case Gas => 2.0
    case MealMeat => 2.5
    case MealVegetarian => 1.5
    case MealVegan => 1.0
    case Waste => 1.2
  }

  /** The unit a category's quantity is measured in. Ground travel is measured
      in kilometres, flights in hours, electricity in kWh, gas and waste in kg
      and food in meals. */
  function Unit(c: Category): (u: string)
    ensures u == "km" <==> c in {Car, Bus, Train}
    ensures u == "hour" <==> c in {FlightShort, FlightLong}
    ensures u == "kWh" <==> c == Electricity
    ensures u == "kg" <==> c in {Gas, Waste}
    ensures u == "meal" <==> c in {MealMeat, MealVegetarian, MealVegan}
  {
    match c
    case Car | Bus | Train => "km"
    case FlightShort | FlightLong => "hour"
    case Electricity => "kWh"
    case Gas | Waste => "kg"
    case MealMeat | MealVegetarian | MealVegan => "meal"
  }
}
