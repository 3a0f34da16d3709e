/**
 * `_calculate_confidence_score`: a weighted measure of how complete a record is.
 *
 * Python computes it in floating point; here every weight is the exact decimal rational
 * it is written as, so the bounds below hold exactly.
 */
module Confidence {
  import opened Wrappers
  import opened Strings
  import opened IntelligentRecord
  import IntelligentText

  const NameWeight: real := 0.1
  const PhoneWeight: real := 0.08
  const AddressWeight: real := 0.08
  const CheckinWeight: real := 0.07
  const CheckoutWeight: real := 0.07
  const ParkingWeight: real := 0.05
  const WifiWeight: real := 0.05
  const RestaurantsWeight: real := 0.1
  const AttractionsWeight: real := 0.08
  const RoomTypesWeight: real := 0.08
  const AmenitiesWeight: real := 0.1
  const PoliciesWeight: real := 0.08
  const ServicesWeight: real := 0.06

  /** The `field_weights` table, in its order. */
  const Weights: seq<real> := [NameWeight, PhoneWeight, AddressWeight, CheckinWeight, CheckoutWeight,
    ParkingWeight, WifiWeight, RestaurantsWeight, AttractionsWeight, RoomTypesWeight,
    AmenitiesWeight, PoliciesWeight, ServicesWeight]

  /** `sum(xs[i:])`. */
  function SumFrom(xs: seq<real>, i: nat): real
    requires i <= |xs|
    decreases |xs| - i
  {
    if i == |xs| then 0.0 else xs[i] + SumFrom(xs, i + 1)
  }

  /** The thirteen weights add up to exactly one. */
  lemma WeightsSumToOne()
    ensures |Weights| == 13 && SumFrom(Weights, 0) == 1.0
  {
    assert SumFrom(Weights, 13) == 0.0;
    assert SumFrom(Weights, 12) == 0.06;
    assert SumFrom(Weights, 11) == 0.14;
    assert SumFrom(Weights, 10) == 0.24;
    assert SumFrom(Weights, 9) == 0.32;
    assert SumFrom(Weights, 8) == 0.40;
    assert SumFrom(Weights, 7) == 0.50;
    assert SumFrom(Weights, 6) == 0.55;
    assert SumFrom(Weights, 5) == 0.60;
    assert SumFrom(Weights, 4) == 0.67;
    assert SumFrom(Weights, 3) == 0.74;
    assert SumFrom(Weights, 2) == 0.82;
    assert SumFrom(Weights, 1) == 0.90;
  }

  /** What the scorer looks at: the scalar fields as they are, each list by its length, and
      the two groups by how many of their members are truthy. */
  datatype Scored = Scored(
    hotelName: string, phone: Option<string>, address: Option<string>,
    checkinTime: Option<string>, checkoutTime: Option<string>, parkingAvailable: Option<bool>,
    wifiInfo: Option<string>, restaurants: nat, nearbyAttractions: nat, roomTypes: nat,
    amenities: nat, policies: nat, services: nat)

  /** Python's `bool` as a summand. */
  function B(b: bool): nat { if b then 1 else 0 }

  /** The number of truthy amenity fields among fitness center, pool, spa services,
      business center and pet policy. A present fitness-center, pool or pet-policy
      dictionary always has keys, so it is truthy. */
  function AmenityCount(h: IntelligentHotelInfo): (r: nat)
    reads h
    ensures r <= 5
  {
    B(h.fitnessCenter.Some?) + B(h.pool.Some?) + B(h.spaServices != []) +
    B(h.businessCenter.Some? && h.businessCenter.value != map[]) + B(h.petPolicy.Some?)
  }

  /** The number of truthy policies among cancellation, deposit and age restrictions. */
  function PolicyCount(h: IntelligentHotelInfo): (r: nat)
    reads h
    ensures r <= 3
  {
    B(Truthy(h.cancellationPolicy)) + B(Truthy(h.depositPolicy)) + B(Truthy(h.ageRestrictions))
  }

  function ScoredOf(h: IntelligentHotelInfo): Scored
    reads h
  {
    Scored(h.hotelName, h.phone, h.address, h.checkinTime, h.checkoutTime, h.parkingAvailable,
      h.wifiInfo, |h.restaurants|, |h.nearbyAttractions|, |h.roomTypes|,
      AmenityCount(h), PolicyCount(h), |h.conciergeServices|)
  }

  function MinReal(a: real, b: real): real { if a <= b then a else b }

  /** `weight * min(n / cap, 1.0)`. */
  function Saturated(weight: real, n: nat, cap: nat): (r: real)
    requires 0.0 <= weight && cap > 0
    ensures 0.0 <= r <= weight
    ensures n >= cap ==> r == weight
    ensures n == 0 ==> r == 0.0
  {
    weight * MinReal(n as real / cap as real, 1.0)
  }

  /** A flat weight earned when `b` holds. */
  function Earned(weight: real, b: bool): real
  {
    if b then weight else 0.0
  }

  /** The sum of the thirteen terms before the cap. */
  function RawScore(s: Scored): real
  {
    Earned(NameWeight, s.hotelName != "" && s.hotelName != UnknownHotel)
    + Earned(PhoneWeight, Truthy(s.phone))
    + Earned(AddressWeight, Truthy(s.address))
    + Earned(CheckinWeight, Truthy(s.checkinTime))
    + Earned(CheckoutWeight, Truthy(s.checkoutTime))
    + Earned(ParkingWeight, s.parkingAvailable.Some?)
    + Earned(WifiWeight, Truthy(s.wifiInfo))
    + Saturated(RestaurantsWeight, s.restaurants, 3)
    + Saturated(AttractionsWeight, s.nearbyAttractions, 5)
    + Saturated(RoomTypesWeight, s.roomTypes, 3)
    + Saturated(AmenitiesWeight, s.amenities, 5)
    + Saturated(PoliciesWeight, s.policies, 3)
    + Saturated(ServicesWeight, s.services, 5)
  }

  const UnknownHotel: string := IntelligentText.UnknownHotel

  /** `min(score, 1.0)`. */
  function Score(s: Scored): (r: real)
    ensures 0.0 <= r <= 1.0
  {
    MinReal(RawScore(s), 1.0)
  }

  /** The scorer as the source writes it: start at 0.0 and add each term in turn. */
  method CalculateConfidenceScore(h: IntelligentHotelInfo) returns (score: real)
    ensures score == Score(ScoredOf(h))
    ensures 0.0 <= score <= 1.0
  {
    var s := ScoredOf(h);
    score := 0.0;
    if h.hotelName != "" && h.hotelName != UnknownHotel {
      score := score + NameWeight;
    }
    if Truthy(h.phone) {
      score := score + PhoneWeight;
    }
    if Truthy(h.address) {
      score := score + AddressWeight;
    }
    if Truthy(h.checkinTime) {
      score := score + CheckinWeight;
    }
    assert score == FlatTerms(s, 4);
    if Truthy(h.checkoutTime) {
      score := score + CheckoutWeight;
    }
    if h.parkingAvailable.Some? {
      score := score + ParkingWeight;
    }
    if Truthy(h.wifiInfo) {
      score := score + WifiWeight;
    }
    assert score == FlatTerms(s, 7);
    if h.restaurants != [] {
      score := score + RestaurantsWeight * MinReal(|h.restaurants| as real / 3.0, 1.0);
    }
    assert score == FlatTerms(s, 7) + Saturated(RestaurantsWeight, s.restaurants, 3);
    if h.nearbyAttractions != [] {
      score := score + AttractionsWeight * MinReal(|h.nearbyAttractions| as real / 5.0, 1.0);
    }
    assert score == FlatTerms(s, 7) + Saturated(RestaurantsWeight, s.restaurants, 3)
      + Saturated(AttractionsWeight, s.nearbyAttractions, 5);
    if h.roomTypes != [] {
      score := score + RoomTypesWeight * MinReal(|h.roomTypes| as real / 3.0, 1.0);
    }
    assert score == FlatTerms(s, 7) + Saturated(RestaurantsWeight, s.restaurants, 3)
      + Saturated(AttractionsWeight, s.nearbyAttractions, 5) + Saturated(RoomTypesWeight, s.roomTypes, 3);
    ghost var listed := score;
    var amenitiesCount := AmenityCount(h);
    score := score + AmenitiesWeight * MinReal(amenitiesCount as real / 5.0, 1.0);
    assert score == listed + Saturated(AmenitiesWeight, s.amenities, 5);
    var policiesCount := PolicyCount(h);
    score := score + PoliciesWeight * MinReal(policiesCount as real / 3.0, 1.0);
    assert score == listed + Saturated(AmenitiesWeight, s.amenities, 5) + Saturated(PoliciesWeight, s.policies, 3);
    var servicesCount := |h.conciergeServices|;
    score := score + ServicesWeight * MinReal(servicesCount as real / 5.0, 1.0);
    assert score == RawScore(s);
    score := MinReal(score, 1.0);
  }

  /** The first `n` flat terms (name, phone, address, check-in, check-out, parking, WiFi). */
  function FlatTerms(s: Scored, n: nat): real
    requires n == 4 || n == 7
  {
    Earned(NameWeight, s.hotelName != "" && s.hotelName != UnknownHotel)
    + Earned(PhoneWeight, Truthy(s.phone))
    + Earned(AddressWeight, Truthy(s.address))
    + Earned(CheckinWeight, Truthy(s.checkinTime))
    + (if n == 4 then 0.0 else
      Earned(CheckoutWeight, Truthy(s.checkoutTime))
      + Earned(ParkingWeight, s.parkingAvailable.Some?)
      + Earned(WifiWeight, Truthy(s.wifiInfo)))
  }

  /** Each term is at most its weight, so the sum never exceeds one and the cap never
      changes the result. */
  lemma CapNeverBinds(s: Scored)
    ensures 0.0 <= RawScore(s) <= SumFrom(Weights, 0)
    ensures Score(s) == RawScore(s)
  {
    WeightsSumToOne();
  }

  /** The sentinel name, or an empty one, earns nothing; any other name earns its weight. */
  lemma NameTerm(s: Scored, name: string)
    ensures s.hotelName == UnknownHotel ==> Score(s) == Score(s.(hotelName := ""))
    ensures name != "" && name != UnknownHotel ==>
      Score(s.(hotelName := name)) == Score(s.(hotelName := "")) + NameWeight
  {
    CapNeverBinds(s);
    CapNeverBinds(s.(hotelName := ""));
    CapNeverBinds(s.(hotelName := name));
  }

  /** A record with nothing found scores exactly zero. */
  lemma EmptyRecordScoresZero(s: Scored)
    requires s.hotelName == "" || s.hotelName == UnknownHotel
    requires !Truthy(s.phone) && !Truthy(s.address) && !Truthy(s.checkinTime) && !Truthy(s.checkoutTime)
    requires s.parkingAvailable.None? && !Truthy(s.wifiInfo)
    requires s.restaurants == 0 && s.nearbyAttractions == 0 && s.roomTypes == 0
    requires s.amenities == 0 && s.policies == 0 && s.services == 0
    ensures Score(s) == 0.0
  {
    CapNeverBinds(s);
  }

  /** A record complete in every scored respect scores exactly one. */
  lemma CompleteRecordScoresOne(s: Scored)
    requires s.hotelName != "" && s.hotelName != UnknownHotel
    requires Truthy(s.phone) && Truthy(s.address) && Truthy(s.checkinTime) && Truthy(s.checkoutTime)
    requires s.parkingAvailable.Some? && Truthy(s.wifiInfo)
    requires s.restaurants >= 3 && s.nearbyAttractions >= 5 && s.roomTypes >= 3
    requires s.amenities == 5 && s.policies == 3 && s.services >= 5
    ensures Score(s) == 1.0
  {
    CapNeverBinds(s);
  }

  /** Parking counts when it is known, even when it is known to be unavailable. */
  lemma ParkingFalseEarns(s: Scored)
    requires s.parkingAvailable == Some(false)
    ensures Score(s) == Score(s.(parkingAvailable := None)) + ParkingWeight
  {
    CapNeverBinds(s);
    CapNeverBinds(s.(parkingAvailable := None));
  }

  /** Beyond three restaurants, five attractions, three room types and five services, more
      entries add nothing. */
  lemma ListTermsSaturate(s: Scored, n: nat)
    ensures n >= 3 ==> Score(s.(restaurants := n)) == Score(s.(restaurants := 3))
    ensures n >= 5 ==> Score(s.(nearbyAttractions := n)) == Score(s.(nearbyAttractions := 5))
    ensures n >= 3 ==> Score(s.(roomTypes := n)) == Score(s.(roomTypes := 3))
    ensures n >= 5 ==> Score(s.(services := n)) == Score(s.(services := 5))
  {
    if n >= 3 {
      assert RawScore(s.(restaurants := n)) == RawScore(s.(restaurants := 3));
      assert RawScore(s.(roomTypes := n)) == RawScore(s.(roomTypes := 3));
    }
    if n >= 5 {
      assert RawScore(s.(nearbyAttractions := n)) == RawScore(s.(nearbyAttractions := 5));
      assert RawScore(s.(services := n)) == RawScore(s.(services := 5));
    }
  }

  /** Below saturation each list contributes its weight times the fraction of the cap
      reached, and the two counts contribute their weight per counted field. */
  lemma CountTermsLinear(s: Scored)
    requires s.restaurants <= 3 && s.nearbyAttractions <= 5 && s.roomTypes <= 3 && s.services <= 5
    requires s.amenities <= 5 && s.policies <= 3
    ensures RawScore(s) ==
      RawScore(s.(restaurants := 0, nearbyAttractions := 0, roomTypes := 0, amenities := 0,
        policies := 0, services := 0))
      + RestaurantsWeight * s.restaurants as real / 3.0
      + AttractionsWeight * s.nearbyAttractions as real / 5.0
      + RoomTypesWeight * s.roomTypes as real / 3.0
      + AmenitiesWeight * s.amenities as real / 5.0
      + PoliciesWeight * s.policies as real / 3.0
      + ServicesWeight * s.services as real / 5.0
  {
  }

  /** Filling in a field never lowers the score. */
  lemma MoreIsNotLess(s: Scored, t: Scored)
    requires (s.hotelName != "" && s.hotelName != UnknownHotel) ==> (t.hotelName != "" && t.hotelName != UnknownHotel)
    requires (Truthy(s.phone) ==> Truthy(t.phone)) && (Truthy(s.address) ==> Truthy(t.address))
    requires (Truthy(s.checkinTime) ==> Truthy(t.checkinTime)) && (Truthy(s.checkoutTime) ==> Truthy(t.checkoutTime))
    requires (s.parkingAvailable.Some? ==> t.parkingAvailable.Some?) && (Truthy(s.wifiInfo) ==> Truthy(t.wifiInfo))
    requires s.restaurants <= t.restaurants && s.nearbyAttractions <= t.nearbyAttractions
    requires s.roomTypes <= t.roomTypes && s.amenities <= t.amenities
    requires s.policies <= t.policies && s.services <= t.services
    ensures Score(s) <= Score(t)
  {
    CapNeverBinds(s);
    CapNeverBinds(t);
    SaturatedMonotone(RestaurantsWeight, s.restaurants, t.restaurants, 3);
    SaturatedMonotone(AttractionsWeight, s.nearbyAttractions, t.nearbyAttractions, 5);
    SaturatedMonotone(RoomTypesWeight, s.roomTypes, t.roomTypes, 3);
    SaturatedMonotone(AmenitiesWeight, s.amenities, t.amenities, 5);
    SaturatedMonotone(PoliciesWeight, s.policies, t.policies, 3);
    SaturatedMonotone(ServicesWeight, s.services, t.services, 5);
  }

  lemma SaturatedMonotone(weight: real, m: nat, n: nat, cap: nat)
    requires 0.0 <= weight && cap > 0 && m <= n
    ensures Saturated(weight, m, cap) <= Saturated(weight, n, cap)
  {
    assert m as real / cap as real <= n as real / cap as real;
  }
}
