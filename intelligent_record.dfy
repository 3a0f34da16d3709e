/**
 * `IntelligentHotelInfo`: the record the AI-enhanced scraper fills in, field by field.
 *
 * Python field `snake_case` is Dafny field `camelCase`. An `Optional[...]` field is an
 * `Option`. A list field is a `seq`; after construction it is never absent. The nested
 * dictionaries the extractors build always have the same keys, so each is a datatype
 * whose constructor names them (the constant `'available': True` entry is implied).
 */
module IntelligentRecord {
  import opened Wrappers

  /** `{'available': True, 'hours': ..., 'details': ...}` for the fitness center. */
  datatype Fitness = Fitness(hours: string, details: string)

  /** `{'available': True, 'type': ..., 'details': ...}` for the pool. */
  datatype Pool = Pool(kind: string, details: string)

  /** `{'allowed': ..., 'details': ...}`. */
  datatype PetPolicy = PetPolicy(allowed: bool, details: string)

  /** `{'available': True, 'hours': ..., 'details': ...}` for room service. */
  datatype RoomService = RoomService(hours: string, details: string)

  /** `{'available': True, 'type': ..., 'cost': ..., 'details': ...}` for breakfast. */
  datatype Breakfast = Breakfast(kind: string, cost: string, details: string)

  /** An entry of `restaurants`: the dictionary the dining extractor builds, or the bare
      string the AI-response parser stores there. */
  datatype Restaurant =
    | Restaurant(name: string, cuisine: string, hours: string, details: string)
    | RestaurantText(text: string)

  /** An entry of `nearby_attractions`, `nearby_restaurants` or `nearby_shopping`: the
      `{'name', 'type', 'distance'}` dictionary, or a bare string from the AI-response parser. */
  datatype Place =
    | Place(name: string, kind: string, distance: string)
    | PlaceText(text: string)

  /** `{'type': ..., 'description': ...}`. */
  datatype RoomType = RoomType(kind: string, description: string)

  /** A dictionary the core never fills in. */
  type Dict = map<string, string>

  class IntelligentHotelInfo {
    // Basic info
    var hotelName: string
    var websiteUrl: string
    var scrapedAt: string
    var confidenceScore: real
    // Contact & location
    var phone: Option<string>
    var email: Option<string>
    var address: Option<string>
    var city: Option<string>
    var state: Option<string>
    var zipCode: Option<string>
    // Policies
    var checkinTime: Option<string>
    var checkoutTime: Option<string>
    var earlyCheckinPolicy: Option<string>
    var lateCheckoutPolicy: Option<string>
    var cancellationPolicy: Option<string>
    var depositPolicy: Option<string>
    var ageRestrictions: Option<string>
    // Parking
    var parkingAvailable: Option<bool>
    var parkingCost: Option<string>
    var parkingType: Option<string>
    // Amenities
    var wifiInfo: Option<string>
    var fitnessCenter: Option<Fitness>
    var pool: Option<Pool>
    var spaServices: seq<string>
    var businessCenter: Option<Dict>
    var petPolicy: Option<PetPolicy>
    var accessibilityFeatures: seq<string>
    // Dining
    var restaurants: seq<Restaurant>
    var roomService: Option<RoomService>
    var breakfastInfo: Option<Breakfast>
    var barsLounges: seq<Dict>
    // Rooms
    var roomTypes: seq<RoomType>
    var roomAmenities: seq<string>
    // Location intelligence
    var nearbyAttractions: seq<Place>
    var nearbyRestaurants: seq<Place>
    var nearbyShopping: seq<Place>
    var nearbyTransportation: seq<Dict>
    // Services
    var conciergeServices: seq<string>
    var eventServices: seq<string>
    // AI-generated insights
    var keySellingPoints: seq<string>
    var targetAudience: seq<string>
    var uniqueFeatures: seq<string>
    // Content quality metrics
    var dataFreshnessIndicators: seq<string>

    /** The dataclass constructor followed by `__post_init__`: every one of the sixteen list
        fields that is passed as `None` (the default) becomes `[]`, a list passed in is kept
        as it is, and every other field takes its declared default. */
    constructor (hotelName: string, websiteUrl: string, scrapedAt: string,
                 restaurants: Option<seq<Restaurant>>, spaServices: Option<seq<string>>,
                 accessibilityFeatures: Option<seq<string>>, barsLounges: Option<seq<Dict>>,
                 roomTypes: Option<seq<RoomType>>, roomAmenities: Option<seq<string>>,
                 nearbyAttractions: Option<seq<Place>>, nearbyRestaurants: Option<seq<Place>>,
                 nearbyShopping: Option<seq<Place>>, nearbyTransportation: Option<seq<Dict>>,
                 conciergeServices: Option<seq<string>>, eventServices: Option<seq<string>>,
                 keySellingPoints: Option<seq<string>>, targetAudience: Option<seq<string>>,
                 uniqueFeatures: Option<seq<string>>, dataFreshnessIndicators: Option<seq<string>>)
      ensures this.hotelName == hotelName && this.websiteUrl == websiteUrl && this.scrapedAt == scrapedAt
      ensures this.restaurants == restaurants.GetOr([])
      ensures this.spaServices == spaServices.GetOr([])
      ensures this.accessibilityFeatures == accessibilityFeatures.GetOr([])
      ensures this.barsLounges == barsLounges.GetOr([])
      ensures this.roomTypes == roomTypes.GetOr([])
      ensures this.roomAmenities == roomAmenities.GetOr([])
      ensures this.nearbyAttractions == nearbyAttractions.GetOr([])
      ensures this.nearbyRestaurants == nearbyRestaurants.GetOr([])
      ensures this.nearbyShopping == nearbyShopping.GetOr([])
      ensures this.nearbyTransportation == nearbyTransportation.GetOr([])
      ensures this.conciergeServices == conciergeServices.GetOr([])
      ensures this.eventServices == eventServices.GetOr([])
      ensures this.keySellingPoints == keySellingPoints.GetOr([])
      ensures this.targetAudience == targetAudience.GetOr([])
      ensures this.uniqueFeatures == uniqueFeatures.GetOr([])
      ensures this.dataFreshnessIndicators == dataFreshnessIndicators.GetOr([])
      ensures NoContact() && NoPolicies() && NoFacilities()
    {
      this.hotelName := hotelName;
      this.websiteUrl := websiteUrl;
      this.scrapedAt := scrapedAt;
      confidenceScore := 0.0;
      phone, email, address, city, state, zipCode := None, None, None, None, None, None;
      checkinTime, checkoutTime, earlyCheckinPolicy, lateCheckoutPolicy := None, None, None, None;
      cancellationPolicy, depositPolicy, ageRestrictions := None, None, None;
      parkingAvailable, parkingCost, parkingType := None, None, None;
      wifiInfo, fitnessCenter, pool, businessCenter, petPolicy := None, None, None, None, None;
      roomService, breakfastInfo := None, None;
      // __post_init__: the sixteen list fields
      this.restaurants := restaurants.GetOr([]);
      this.spaServices := spaServices.GetOr([]);
      this.accessibilityFeatures := accessibilityFeatures.GetOr([]);
      this.barsLounges := barsLounges.GetOr([]);
      this.roomTypes := roomTypes.GetOr([]);
      this.roomAmenities := roomAmenities.GetOr([]);
      this.nearbyAttractions := nearbyAttractions.GetOr([]);
      this.nearbyRestaurants := nearbyRestaurants.GetOr([]);
      this.nearbyShopping := nearbyShopping.GetOr([]);
      this.nearbyTransportation := nearbyTransportation.GetOr([]);
      this.conciergeServices := conciergeServices.GetOr([]);
      this.eventServices := eventServices.GetOr([]);
      this.keySellingPoints := keySellingPoints.GetOr([]);
      this.targetAudience := targetAudience.GetOr([]);
      this.uniqueFeatures := uniqueFeatures.GetOr([]);
      this.dataFreshnessIndicators := dataFreshnessIndicators.GetOr([]);
    }

    /** The contact fields are unset. */
    predicate NoContact()
      reads this
    {
      phone.None? && email.None? && address.None? && city.None? && state.None? && zipCode.None?
    }

    /** The policy and parking fields are unset. */
    predicate NoPolicies()
      reads this
    {
      checkinTime.None? && checkoutTime.None? && earlyCheckinPolicy.None? && lateCheckoutPolicy.None? &&
      cancellationPolicy.None? && depositPolicy.None? && ageRestrictions.None? &&
      parkingAvailable.None? && parkingCost.None? && parkingType.None?
    }

    /** The single-valued amenity and dining fields are unset and the score is 0.0. */
    predicate NoFacilities()
      reads this
    {
      confidenceScore == 0.0 &&
      wifiInfo.None? && fitnessCenter.None? && pool.None? && businessCenter.None? && petPolicy.None? &&
      roomService.None? && breakfastInfo.None?
    }
  }

  /** Building a record the way the scraper does, with only the three identity fields, gives
      sixteen empty lists. */
  method NewRecord(hotelName: string, websiteUrl: string, scrapedAt: string) returns (h: IntelligentHotelInfo)
    ensures fresh(h) && h.hotelName == hotelName && h.websiteUrl == websiteUrl && h.scrapedAt == scrapedAt
    ensures h.restaurants == [] && h.spaServices == [] && h.accessibilityFeatures == [] && h.barsLounges == []
    ensures h.roomTypes == [] && h.roomAmenities == [] && h.nearbyAttractions == [] && h.nearbyRestaurants == []
    ensures h.nearbyShopping == [] && h.nearbyTransportation == [] && h.conciergeServices == []
    ensures h.eventServices == [] && h.keySellingPoints == [] && h.targetAudience == []
    ensures h.uniqueFeatures == [] && h.dataFreshnessIndicators == []
  {
    h := new IntelligentHotelInfo(hotelName, websiteUrl, scrapedAt,
      None, None, None, None, None, None, None, None, None, None, None, None, None, None, None, None);
  }
}
