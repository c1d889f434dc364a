/**
  The computational core of the `calculate` request handler of the elevator
  energy calculator: the classification of a daily trip count into a usage
  category, and the placeholder energy estimate rendered as the result.
 */

/** Usage category (1 = lightest duty .. 6 = heaviest) of a daily trip count. */
module UsageCategories {

  /** Lowest daily trip count of categories 2, 3, 4, 5 and 6, in that order. */
  const Thresholds: seq<int> := [75, 200, 500, 1000, 2000]

  /** The number of thresholds of `ts` that `x` has reached (`ts[k] <= x`). */
  function Reached(ts: seq<int>, x: int): (n: nat)
    ensures n <= |ts|
  {
    if ts == [] then 0 else (if ts[0] <= x then 1 else 0) + Reached(ts[1..], x)
  }

  /** Category `c` is the band that contains `trips`: `trips` reaches the
      lower bound of `c` (none for category 1) and stays below the lower
      bound of the next category (none for category 6). */
  predicate InBand(trips: int, c: int) {
    && 1 <= c <= 6
    && (c == 1 || Thresholds[c - 2] <= trips)
    && (c == 6 || trips < Thresholds[c - 1])
  }

  /** The handler's category rule: a zero trip count means "unknown", and the
      caller-supplied category is used as it is, without any range check;
      every other count (negative ones included) is classified by the strict
      `<` chain on the thresholds. */
  function Category(trips: int, supplied: int): (c: int)
    ensures trips == 0 ==> c == supplied
    ensures trips != 0 ==> InBand(trips, c)
  {
    if trips == 0 then supplied
    else if trips < 75 then 1
    else if trips < 200 then 2
    else if trips < 500 then 3
    else if trips < 1000 then 4
    else if trips < 2000 then 5
    else 6
  }

  /** At most one category contains a given trip count. */
  lemma BandIsUnique(trips: int, c1: int, c2: int)
    requires InBand(trips, c1) && InBand(trips, c2)
    ensures c1 == c2
  {
  }

  /** For a known trip count, `InBand` holds of exactly one category: the one
      the rule computes. */
  lemma CategoryIsTheOnlyBand(trips: int, supplied: int, c: int)
    requires trips != 0
    ensures InBand(trips, c) <==> c == Category(trips, supplied)
  {
  }

  /** For a known trip count the category is one more than the number of
      thresholds the count has reached. */
  lemma {:induction false} CategoryCountsThresholds(trips: int, supplied: int)
    requires trips != 0
    ensures Category(trips, supplied) == 1 + Reached(Thresholds, trips)
  {
    var b := (x: bool) => if x then 1 else 0;
    assert [2000][1..] == [];
    assert Reached([2000], trips) == b(2000 <= trips);
    assert [1000, 2000][1..] == [2000];
    assert Reached([1000, 2000], trips) == b(1000 <= trips) + b(2000 <= trips);
    assert [500, 1000, 2000][1..] == [1000, 2000];
    assert Reached([500, 1000, 2000], trips) == b(500 <= trips) + Reached([1000, 2000], trips);
    assert [200, 500, 1000, 2000][1..] == [500, 1000, 2000];
    assert Reached([200, 500, 1000, 2000], trips) == b(200 <= trips) + Reached([500, 1000, 2000], trips);
    assert Thresholds[1..] == [200, 500, 1000, 2000];
    assert Reached(Thresholds, trips) == b(75 <= trips) + Reached([200, 500, 1000, 2000], trips);
  }

  /** `Reached` can only grow with `x`. */
  lemma {:induction false} ReachedMonotone(ts: seq<int>, x: int, y: int)
    requires x <= y
    ensures Reached(ts, x) <= Reached(ts, y)
  {
    if ts != [] {
      ReachedMonotone(ts[1..], x, y);
    }
  }

  /** Among known trip counts, more trips never give a lower category. */
  lemma {:induction false} CategoryMonotone(t1: int, s1: int, t2: int, s2: int)
    requires t1 != 0 && t2 != 0 && t1 <= t2
    ensures Category(t1, s1) <= Category(t2, s2)
  {
    CategoryCountsThresholds(t1, s1);
    CategoryCountsThresholds(t2, s2);
    ReachedMonotone(Thresholds, t1, t2);
  }

  /** Each threshold belongs to the higher of the two categories it separates:
      the threshold itself is in category k + 2, the count just below it in
      category k + 1. */
  lemma ThresholdsBelongAbove(k: int, supplied: int)
    requires 0 <= k < |Thresholds|
    ensures Category(Thresholds[k], supplied) == k + 2
    ensures Category(Thresholds[k] - 1, supplied) == k + 1
  {
  }

  /** The boundary values, written out. */
  lemma Boundaries(s: int)
    ensures Category(74, s) == 1 && Category(75, s) == 2
    ensures Category(199, s) == 2 && Category(200, s) == 3
    ensures Category(499, s) == 3 && Category(500, s) == 4
    ensures Category(999, s) == 4 && Category(1000, s) == 5
    ensures Category(1999, s) == 5 && Category(2000, s) == 6
  {
  }

  /** A negative trip count is not rejected: it falls into category 1. */
  lemma NegativeTripsLightest(trips: int, supplied: int)
    requires trips < 0
    ensures Category(trips, supplied) == 1
  {
  }
}

/** The placeholder energy estimate: trips times rated load times a rate that
    depends only on whether the elevator type is exactly "hydraulic". */
module PlaceholderEnergy {

  /** The one type string that selects the hydraulic rate (case-sensitive). */
  const Hydraulic: string := "hydraulic"

  /** Energy rate per trip and kilogram: 0.1 for hydraulic, 0.05 otherwise,
      as exact rationals. */
  function Rate(elevatorType: string): real
  {
    if elevatorType == Hydraulic then 0.1 else 0.05
  }

  /** Both rates are positive, and the hydraulic rate is exactly twice the
      rate of every other type. */
  lemma HydraulicRateIsTwice(other: string)
    requires other != Hydraulic
    ensures Rate(other) > 0.0
    ensures Rate(Hydraulic) == 2.0 * Rate(other)
  {
  }

  /** The estimate `trips * load * rate`. */
  function Energy(trips: int, load: int, elevatorType: string): (e: real)
    ensures elevatorType == Hydraulic ==> e == (trips * load) as real / 10.0
    ensures elevatorType != Hydraulic ==> e == (trips * load) as real / 20.0
  {
    (trips * load) as real * Rate(elevatorType)
  }

  /** Only the exact lower-case string is hydraulic: other spellings and
      other types get the lower rate. */
  lemma OtherSpellingsAreNotHydraulic(trips: int, load: int)
    ensures Energy(trips, load, "Hydraulic") == (trips * load) as real / 20.0
    ensures Energy(trips, load, "HYDRAULIC") == (trips * load) as real / 20.0
    ensures Energy(trips, load, "traction") == (trips * load) as real / 20.0
    ensures Energy(trips, load, "") == (trips * load) as real / 20.0
  {
  }

  /** For the same trips and load, a hydraulic elevator gets exactly twice
      the energy of any other type. */
  lemma HydraulicIsTwice(trips: int, load: int, other: string)
    requires other != Hydraulic
    ensures Energy(trips, load, Hydraulic) == 2.0 * Energy(trips, load, other)
  {
  }

  /** The estimate is additive in the trip count. */
  lemma AdditiveInTrips(t1: int, t2: int, load: int, elevatorType: string)
    ensures Energy(t1 + t2, load, elevatorType)
         == Energy(t1, load, elevatorType) + Energy(t2, load, elevatorType)
  {
  }

  /** The estimate is additive in the rated load. */
  lemma AdditiveInLoad(trips: int, l1: int, l2: int, elevatorType: string)
    ensures Energy(trips, l1 + l2, elevatorType)
         == Energy(trips, l1, elevatorType) + Energy(trips, l2, elevatorType)
  {
  }

  /** Scaling the trip count scales the estimate by the same factor. */
  lemma ScalesWithTrips(k: int, trips: int, load: int, elevatorType: string)
    ensures Energy(k * trips, load, elevatorType) == k as real * Energy(trips, load, elevatorType)
  {
  }

  /** The estimate is zero exactly when there are no trips or no load. */
  lemma ZeroExactlyWithoutTripsOrLoad(trips: int, load: int, elevatorType: string)
    ensures Energy(trips, load, elevatorType) == 0.0 <==> trips == 0 || load == 0
  {
  }

  /** The sign of the estimate is the sign of `trips * load`: in particular
      non-negative trips and load never give a negative estimate. */
  lemma SignFollowsProduct(trips: int, load: int, elevatorType: string)
    ensures Energy(trips, load, elevatorType) > 0.0 <==> trips * load > 0
    ensures 0 <= trips && 0 <= load ==> Energy(trips, load, elevatorType) >= 0.0
  {
  }
}

/** The `calculate` handler on already-parsed form fields. */
module Handler {
  import opened UsageCategories
  import opened PlaceholderEnergy

  /** The integer and string fields the handler reads from the form;
      `usageCategory` is the caller's category, consulted only when
      `trips` is zero. */
  datatype Form = Form(
    trips: int,
    stops: int,
    elevatorType: string,
    counterbalance: int,
    load: int,
    operatingDays: int,
    usageCategory: int)

  /** What the handler computes: the usage category (computed and then
      dropped) and the energy estimate it renders. */
  datatype Computed = Computed(usageCategory: int, energy: real)

  /** The handler body after parsing. */
  function Calculate(f: Form): (r: Computed)
    ensures f.trips == 0 ==> r.usageCategory == f.usageCategory
    ensures f.trips != 0 ==> 1 <= r.usageCategory <= 6
    ensures f.elevatorType == Hydraulic ==> r.energy == (f.trips * f.load) as real / 10.0
    ensures f.elevatorType != Hydraulic ==> r.energy == (f.trips * f.load) as real / 20.0
  {
    Computed(Category(f.trips, f.usageCategory), Energy(f.trips, f.load, f.elevatorType))
  }

  /** The rendered energy depends on trips, load and type only: stops,
      counterbalance, operating days and the supplied category (hence the
      computed category) make no difference. */
  lemma EnergyIgnoresOtherFields(f: Form, g: Form)
    requires f.trips == g.trips && f.load == g.load && f.elevatorType == g.elevatorType
    ensures Calculate(f).energy == Calculate(g).energy
  {
  }

  /** An example at zero trips: two supplied categories give two different
      computed categories and the same, zero, energy. */
  lemma ZeroTripsCategoryVaries(load: int, elevatorType: string, c1: int, c2: int)
    requires c1 != c2
    ensures Calculate(Form(0, 2, elevatorType, 50, load, 300, c1)).usageCategory
         != Calculate(Form(0, 2, elevatorType, 50, load, 300, c2)).usageCategory
    ensures Calculate(Form(0, 2, elevatorType, 50, load, 300, c1)).energy
         == Calculate(Form(0, 2, elevatorType, 50, load, 300, c2)).energy == 0.0
  {
  }
}
