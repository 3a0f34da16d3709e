/**
 * The Selenium scraper's record, `HotelInfo`, and the extractors of `HotelScraper` that
 * read the page text, plus the file-name cleaning of `HotelDataExporter`.
 *
 * The page is given as its text (`soup.get_text()`) and, for the name, as the stripped
 * text of the first element each CSS selector finds. Each extractor is a method that
 * updates the fields it writes and is proved to leave them as a pure function of the old
 * fields and the page says; the lemmas are about those functions.
 */
module HotelScraper {
  import opened Wrappers
  import opened Strings
  import opened Patterns

  type Dict = map<string, string>

  class HotelInfo {
    var hotelName: string
    var websiteUrl: string
    var scrapedAt: string
    // Contact & location
    var phone: Option<string>
    var address: Option<string>
    // Check-in/out and parking
    var checkinTime: Option<string>
    var checkoutTime: Option<string>
    var parkingAvailable: Option<bool>
    var parkingCost: Option<string>
    var parkingType: Option<string>
    // Amenities
    var wifiInfo: Option<string>
    var fitnessCenter: Option<bool>
    var pool: Option<bool>
    var businessCenter: Option<bool>
    var petPolicy: Option<string>
    // Lists, never absent after construction
    var restaurants: seq<Dict>
    var nearbyAttractions: seq<string>
    var nearbyRestaurants: seq<string>
    var nearbyShopping: seq<string>
    var conciergeServices: seq<string>

    /** The dataclass constructor followed by `__post_init__`: each list given as `None`
        (the default) becomes empty; every optional field starts absent. */
    constructor(hotelName: string, websiteUrl: string, scrapedAt: string,
                restaurants: Option<seq<Dict>>, nearbyAttractions: Option<seq<string>>,
                nearbyRestaurants: Option<seq<string>>, nearbyShopping: Option<seq<string>>,
                conciergeServices: Option<seq<string>>)
      ensures this.hotelName == hotelName && this.websiteUrl == websiteUrl && this.scrapedAt == scrapedAt
      ensures this.restaurants == restaurants.GetOr([])
      ensures this.nearbyAttractions == nearbyAttractions.GetOr([])
      ensures this.nearbyRestaurants == nearbyRestaurants.GetOr([])
      ensures this.nearbyShopping == nearbyShopping.GetOr([])
      ensures this.conciergeServices == conciergeServices.GetOr([])
      ensures phone.None? && address.None? && checkinTime.None? && checkoutTime.None?
      ensures parkingAvailable.None? && parkingCost.None? && parkingType.None?
      ensures wifiInfo.None? && fitnessCenter.None? && pool.None? && businessCenter.None? && petPolicy.None?
    {
      this.hotelName := hotelName;
      this.websiteUrl := websiteUrl;
      this.scrapedAt := scrapedAt;
      phone := None;
      address := None;
      checkinTime := None;
      checkoutTime := None;
      parkingAvailable := None;
      parkingCost := None;
      parkingType := None;
      wifiInfo := None;
      fitnessCenter := None;
      pool := None;
      businessCenter := None;
      petPolicy := None;
      this.restaurants := restaurants.GetOr([]);
      this.nearbyAttractions := nearbyAttractions.GetOr([]);
      this.nearbyRestaurants := nearbyRestaurants.GetOr([]);
      this.nearbyShopping := nearbyShopping.GetOr([]);
      this.conciergeServices := conciergeServices.GetOr([]);
    }
  }

  // ---------------------------------------------------------------------
  // _extract_hotel_name
  // ---------------------------------------------------------------------

  const NameSelectors: seq<string> :=
    ["h1", ".hotel-name", "#hotel-name", ".property-name", "[data-testid=\"hotel-name\"]", "title"]
  const UnknownHotel: string := "Unknown Hotel"

  /** `soup.select_one(selector).get_text(strip=True)`, or `None` when nothing is selected. */
  type Select = string -> Option<string>

  /** The first present, non-empty text at or after `i`. */
  function FirstTextFrom(texts: seq<Option<string>>, i: nat): (r: Option<string>)
    requires i <= |texts|
    ensures r.None? <==> forall j :: i <= j < |texts| ==> !Truthy(texts[j])
    ensures r.Some? ==> exists k :: (i <= k < |texts| && Truthy(texts[k]) && r == texts[k] &&
      forall j :: i <= j < k ==> !Truthy(texts[j]))
    decreases |texts| - i
  {
    if i == |texts| then None
    else if Truthy(texts[i]) then texts[i]
    else FirstTextFrom(texts, i + 1)
  }

  function SelectorTexts(select: Select): (r: seq<Option<string>>)
    ensures |r| == |NameSelectors| && forall i :: 0 <= i < |r| ==> r[i] == select(NameSelectors[i])
  {
    seq(|NameSelectors|, i requires 0 <= i < |NameSelectors| => select(NameSelectors[i]))
  }

  /** The text of the first selector, in the fixed order, whose element has non-empty
      text; `"Unknown Hotel"` when there is none. */
  function HotelName(select: Select): (r: string)
    ensures (forall j :: 0 <= j < |NameSelectors| ==> !Truthy(select(NameSelectors[j]))) ==> r == UnknownHotel
    ensures (exists j :: 0 <= j < |NameSelectors| && Truthy(select(NameSelectors[j]))) ==>
      exists k :: (0 <= k < |NameSelectors| && Truthy(select(NameSelectors[k])) &&
        r == select(NameSelectors[k]).value &&
        forall j :: 0 <= j < k ==> !Truthy(select(NameSelectors[j])))
  {
    FirstTextFrom(SelectorTexts(select), 0).GetOr(UnknownHotel)
  }

  method ExtractHotelName(select: Select) returns (name: string)
    ensures name == HotelName(select)
  {
    ghost var texts := SelectorTexts(select);
    for i := 0 to |NameSelectors|
      invariant FirstTextFrom(texts, 0) == FirstTextFrom(texts, i)
    {
      var element := select(NameSelectors[i]);
      if element.Some? && element.value != "" {
        return element.value;
      }
    }
    return UnknownHotel;
  }

  // ---------------------------------------------------------------------
  // _extract_contact_info (phone)
  // ---------------------------------------------------------------------

  const PhonePatterns: seq<Pattern> := [PhoneTenDigit, PhoneParen]

  /** The phone after the search: the first pattern's match, else the old phone. */
  function PhoneAfter(phone: Option<string>, text: string, re: Regex): Option<string>
  {
    var m := FirstMatch(PhonePatterns, text, re);
    if m.Some? then m else phone
  }

  /** The ten-digit pattern wins over the parenthesised one; with neither the phone is kept. */
  lemma PhoneChoice(phone: Option<string>, text: string, re: Regex)
    ensures re(PhoneTenDigit, text).Some? ==> PhoneAfter(phone, text, re) == re(PhoneTenDigit, text)
    ensures re(PhoneTenDigit, text).None? && re(PhoneParen, text).Some? ==>
      PhoneAfter(phone, text, re) == re(PhoneParen, text)
    ensures re(PhoneTenDigit, text).None? && re(PhoneParen, text).None? ==> PhoneAfter(phone, text, re) == phone
  {
    FirstMatchSpec(PhonePatterns, text, re);
  }

  method ExtractContactInfo(h: HotelInfo, text: string, re: Regex)
    modifies h`phone
    ensures h.phone == PhoneAfter(old(h.phone), text, re)
  {
    var m := SearchPatterns(PhonePatterns, text, re);
    if m.Some? {
      h.phone := m;
    }
  }

  // ---------------------------------------------------------------------
  // _extract_policies
  // ---------------------------------------------------------------------

  datatype Policies = Policies(checkinTime: Option<string>, checkoutTime: Option<string>,
                               parkingAvailable: Option<bool>, parkingCost: Option<string>,
                               parkingType: Option<string>)

  function PoliciesOf(h: HotelInfo): Policies
    reads h
  {
    Policies(h.checkinTime, h.checkoutTime, h.parkingAvailable, h.parkingCost, h.parkingType)
  }

  const CheckInPatterns: seq<Pattern> := [CheckInColon, ArrivalTime]
  const CheckOutPatterns: seq<Pattern> := [CheckOutColon, DepartureTime]

  /** A search result replaces the old value only when it found something. */
  function Found(m: Option<string>, current: Option<string>): Option<string>
  {
    if m.Some? then m else current
  }

  /** The parking chain on the lower-cased text. */
  function ParkingAfter(p: Policies, lower: string): Policies
  {
    if !Contains(lower, "parking") then p
    else if Contains(lower, "free parking") || Contains(lower, "complimentary parking") then
      p.(parkingCost := Some("Free"), parkingAvailable := Some(true))
    else if Contains(lower, "valet") then
      p.(parkingType := Some("Valet"), parkingAvailable := Some(true))
    else if Contains(lower, "self-park") || Contains(lower, "self park") then
      p.(parkingType := Some("Self-park"), parkingAvailable := Some(true))
    else p
  }

  function PoliciesAfter(p: Policies, text: string, re: Regex): Policies
  {
    var lower := Lower(text);
    var q := p.(checkinTime := Found(FirstMatch(CheckInPatterns, lower, re), p.checkinTime),
                checkoutTime := Found(FirstMatch(CheckOutPatterns, lower, re), p.checkoutTime));
    ParkingAfter(q, lower)
  }

  method ExtractPolicies(h: HotelInfo, text: string, re: Regex)
    modifies h`checkinTime, h`checkoutTime, h`parkingAvailable, h`parkingCost, h`parkingType
    ensures PoliciesOf(h) == PoliciesAfter(old(PoliciesOf(h)), text, re)
  {
    var lower := Lower(text);
    var checkin := SearchPatterns(CheckInPatterns, lower, re);
    if checkin.Some? {
      h.checkinTime := checkin;
    }
    var checkout := SearchPatterns(CheckOutPatterns, lower, re);
    if checkout.Some? {
      h.checkoutTime := checkout;
    }
    if Contains(lower, "parking") {
      if Contains(lower, "free parking") || Contains(lower, "complimentary parking") {
        h.parkingCost := Some("Free");
        h.parkingAvailable := Some(true);
      } else if Contains(lower, "valet") {
        h.parkingType := Some("Valet");
        h.parkingAvailable := Some(true);
      } else if Contains(lower, "self-park") || Contains(lower, "self park") {
        h.parkingType := Some("Self-park");
        h.parkingAvailable := Some(true);
      }
    }
  }

  /** Check-in and check-out are each the group of their own first matching pattern, on
      the lower-cased text, and are kept when none of their patterns matches; neither
      depends on the other's patterns. */
  lemma TimesResolvedIndependently(p: Policies, text: string, re: Regex)
    ensures var r := PoliciesAfter(p, text, re); var lower := Lower(text);
      (re(CheckInColon, lower).Some? ==> r.checkinTime == re(CheckInColon, lower)) &&
      (re(CheckInColon, lower).None? && re(ArrivalTime, lower).Some? ==> r.checkinTime == re(ArrivalTime, lower)) &&
      (re(CheckInColon, lower).None? && re(ArrivalTime, lower).None? ==> r.checkinTime == p.checkinTime) &&
      (re(CheckOutColon, lower).Some? ==> r.checkoutTime == re(CheckOutColon, lower)) &&
      (re(CheckOutColon, lower).None? && re(DepartureTime, lower).Some? ==> r.checkoutTime == re(DepartureTime, lower)) &&
      (re(CheckOutColon, lower).None? && re(DepartureTime, lower).None? ==> r.checkoutTime == p.checkoutTime)
  {
    FirstMatchSpec(CheckInPatterns, Lower(text), re);
    FirstMatchSpec(CheckOutPatterns, Lower(text), re);
  }

  /** Parking fields change only when `parking` is mentioned. Then free or complimentary
      parking sets the cost, else valet sets the type, else self-park sets the type, each
      also marking parking available; nothing else is ever written to these fields. */
  lemma ParkingPrecedence(p: Policies, text: string, re: Regex)
    ensures var r := PoliciesAfter(p, text, re); var lower := Lower(text);
      (!Contains(lower, "parking") ==>
        r.parkingAvailable == p.parkingAvailable && r.parkingCost == p.parkingCost && r.parkingType == p.parkingType) &&
      (r.parkingAvailable == p.parkingAvailable || r.parkingAvailable == Some(true)) &&
      (r.parkingCost == p.parkingCost || r.parkingCost == Some("Free")) &&
      (r.parkingType == p.parkingType || r.parkingType == Some("Valet") || r.parkingType == Some("Self-park")) &&
      (r.parkingCost != p.parkingCost ==> r.parkingType == p.parkingType) &&
      (Contains(lower, "parking") && (Contains(lower, "free parking") || Contains(lower, "complimentary parking")) ==>
        r.parkingCost == Some("Free") && r.parkingAvailable == Some(true) && r.parkingType == p.parkingType) &&
      (Contains(lower, "parking") && !Contains(lower, "free parking") && !Contains(lower, "complimentary parking") &&
        Contains(lower, "valet") ==>
        r.parkingType == Some("Valet") && r.parkingAvailable == Some(true) && r.parkingCost == p.parkingCost) &&
      (Contains(lower, "parking") && !Contains(lower, "free parking") && !Contains(lower, "complimentary parking") &&
        !Contains(lower, "valet") && (Contains(lower, "self-park") || Contains(lower, "self park")) ==>
        r.parkingType == Some("Self-park") && r.parkingAvailable == Some(true) && r.parkingCost == p.parkingCost)
  {
  }

  /** Parking is marked available exactly when `parking` and one of the three kinds are
      mentioned, unless it was already set. */
  lemma ParkingAvailableWhen(p: Policies, text: string, re: Regex)
    requires p.parkingAvailable.None?
    ensures var lower := Lower(text);
      PoliciesAfter(p, text, re).parkingAvailable == Some(true) <==>
        Contains(lower, "parking") &&
        (Contains(lower, "free parking") || Contains(lower, "complimentary parking") || Contains(lower, "valet") ||
         Contains(lower, "self-park") || Contains(lower, "self park"))
    ensures PoliciesAfter(p, text, re).parkingAvailable != Some(false)
  {
  }

  // ---------------------------------------------------------------------
  // _extract_amenities
  // ---------------------------------------------------------------------

  datatype Amenities = Amenities(wifiInfo: Option<string>, fitnessCenter: Option<bool>, pool: Option<bool>,
                                 businessCenter: Option<bool>, petPolicy: Option<string>)

  function AmenitiesOf(h: HotelInfo): Amenities
    reads h
  {
    Amenities(h.wifiInfo, h.fitnessCenter, h.pool, h.businessCenter, h.petPolicy)
  }

  /** The WiFi chain on the lower-cased text. */
  function WifiAfter(wifi: Option<string>, lower: string): Option<string>
  {
    if Contains(lower, "free wifi") || Contains(lower, "complimentary wifi") then Some("Free WiFi available")
    else if Contains(lower, "wifi") then Some("WiFi available")
    else wifi
  }

  /** The pet chain on the lower-cased text. */
  function PetAfter(pet: Option<string>, lower: string): Option<string>
  {
    if Contains(lower, "pet friendly") || Contains(lower, "pets welcome") then Some("Pet friendly")
    else if Contains(lower, "no pets") then Some("No pets allowed")
    else pet
  }

  function AmenitiesAfter(a: Amenities, text: string): Amenities
  {
    var lower := Lower(text);
    Amenities(WifiAfter(a.wifiInfo, lower),
      Some(Contains(lower, "fitness") || Contains(lower, "gym")),
      Some(Contains(lower, "pool") || Contains(lower, "swimming")),
      Some(Contains(lower, "business center")),
      PetAfter(a.petPolicy, lower))
  }

  method SetWifi(h: HotelInfo, lower: string)
    modifies h`wifiInfo
    ensures h.wifiInfo == WifiAfter(old(h.wifiInfo), lower)
  {
    if Contains(lower, "free wifi") || Contains(lower, "complimentary wifi") {
      h.wifiInfo := Some("Free WiFi available");
    } else if Contains(lower, "wifi") {
      h.wifiInfo := Some("WiFi available");
    }
  }

  method SetPetPolicy(h: HotelInfo, lower: string)
    modifies h`petPolicy
    ensures h.petPolicy == PetAfter(old(h.petPolicy), lower)
  {
    if Contains(lower, "pet friendly") || Contains(lower, "pets welcome") {
      h.petPolicy := Some("Pet friendly");
    } else if Contains(lower, "no pets") {
      h.petPolicy := Some("No pets allowed");
    }
  }

  method ExtractAmenities(h: HotelInfo, text: string)
    modifies h`wifiInfo, h`fitnessCenter, h`pool, h`businessCenter, h`petPolicy
    ensures AmenitiesOf(h) == AmenitiesAfter(old(AmenitiesOf(h)), text)
  {
    var lower := Lower(text);
    SetWifi(h, lower);
    h.fitnessCenter := Some(Contains(lower, "fitness") || Contains(lower, "gym"));
    h.pool := Some(Contains(lower, "pool") || Contains(lower, "swimming"));
    h.businessCenter := Some(Contains(lower, "business center"));
    SetPetPolicy(h, lower);
  }

  /** The three flags are always booleans afterwards, each true exactly when one of its
      words occurs in the lower-cased text. */
  lemma AmenityFlagsSet(a: Amenities, text: string)
    ensures var r := AmenitiesAfter(a, text); var lower := Lower(text);
      r.fitnessCenter.Some? && r.pool.Some? && r.businessCenter.Some? &&
      (r.fitnessCenter.value <==> Contains(lower, "fitness") || Contains(lower, "gym")) &&
      (r.pool.value <==> Contains(lower, "pool") || Contains(lower, "swimming")) &&
      (r.businessCenter.value <==> Contains(lower, "business center"))
  {
  }

  /** Free WiFi wins over plain WiFi whatever else the text says; plain WiFi is reported
      only when WiFi is mentioned with neither free form; a text that never mentions WiFi
      keeps the old value. */
  lemma WifiPrecedence(wifi: Option<string>, lower: string)
    ensures Contains(lower, "free wifi") || Contains(lower, "complimentary wifi") ==>
      WifiAfter(wifi, lower) == Some("Free WiFi available")
    ensures WifiAfter(wifi, lower) == Some("WiFi available") && wifi != Some("WiFi available") ==>
      Contains(lower, "wifi") && !Contains(lower, "free wifi") && !Contains(lower, "complimentary wifi")
    ensures !Contains(lower, "wifi") ==> WifiAfter(wifi, lower) == wifi
  {
    if Contains(lower, "free wifi") {
      assert "free wifi" == "free " + "wifi";
      ContainsSuffix("free ", "wifi");
      ContainsTransitive(lower, "free wifi", "wifi");
    }
    if Contains(lower, "complimentary wifi") {
      assert "complimentary wifi" == "complimentary " + "wifi";
      ContainsSuffix("complimentary ", "wifi");
      ContainsTransitive(lower, "complimentary wifi", "wifi");
    }
  }

  /** A welcome for pets wins over a ban, even when the text also says "no pets"; the ban
      is reported only without a welcome; a text mentioning neither keeps the old value. */
  lemma PetPrecedence(pet: Option<string>, lower: string)
    ensures Contains(lower, "pet friendly") || Contains(lower, "pets welcome") ==>
      PetAfter(pet, lower) == Some("Pet friendly")
    ensures PetAfter(pet, lower) == Some("No pets allowed") && pet != Some("No pets allowed") ==>
      Contains(lower, "no pets") && !Contains(lower, "pet friendly") && !Contains(lower, "pets welcome")
    ensures !Contains(lower, "pet friendly") && !Contains(lower, "pets welcome") && !Contains(lower, "no pets") ==>
      PetAfter(pet, lower) == pet
  {
  }

  // ---------------------------------------------------------------------
  // _extract_nearby_info
  // ---------------------------------------------------------------------

  const AttractionKeywords: seq<string> :=
    ["museum", "park", "beach", "downtown", "airport", "mall", "theater", "stadium",
     "convention center", "university"]

  /** A sentence reports `keyword` when it mentions it and has more than ten characters
      once stripped. */
  predicate Reports(sentence: string, keyword: string)
  {
    Contains(Lower(sentence), keyword) && |Strip(sentence)| > 10
  }

  /** The index of the first sentence at or after `j` that reports `keyword`. */
  function FirstReporting(sentences: seq<string>, keyword: string, j: nat): (r: Option<nat>)
    requires j <= |sentences|
    ensures r.Some? ==> j <= r.value < |sentences| && Reports(sentences[r.value], keyword)
    decreases |sentences| - j
  {
    if j == |sentences| then None
    else if Reports(sentences[j], keyword) then Some(j)
    else FirstReporting(sentences, keyword, j + 1)
  }

  /** No index is found exactly when no sentence reports the keyword. */
  lemma {:induction false} FirstReportingNone(sentences: seq<string>, keyword: string, j: nat)
    requires j <= |sentences|
    ensures FirstReporting(sentences, keyword, j).None? <==>
      forall m :: j <= m < |sentences| ==> !Reports(sentences[m], keyword)
    decreases |sentences| - j
  {
    if j < |sentences| && !Reports(sentences[j], keyword) {
      FirstReportingNone(sentences, keyword, j + 1);
    }
  }

  /** Every sentence before the one found does not report the keyword. */
  lemma {:induction false} FirstReportingFirst(sentences: seq<string>, keyword: string, j: nat)
    requires j <= |sentences| && FirstReporting(sentences, keyword, j).Some?
    ensures forall n :: j <= n < FirstReporting(sentences, keyword, j).value ==> !Reports(sentences[n], keyword)
    decreases |sentences| - j
  {
    if !Reports(sentences[j], keyword) {
      FirstReportingFirst(sentences, keyword, j + 1);
    }
  }

  /** What one keyword adds: nothing unless the page mentions it, then its first reporting
      sentence, stripped and cut to 150 characters. */
  function Attraction(text: string, keyword: string): seq<string>
  {
    if !Contains(Lower(text), keyword) then []
    else
      var sentences := SplitOn(text, ".");
      match FirstReporting(sentences, keyword, 0)
      case None => []
      case Some(m) => [Take(Strip(sentences[m]), 150)]
  }

  /** The attractions collected for the keywords `ks`, in their order. */
  function AttractionsFor(text: string, ks: seq<string>): seq<string>
  {
    if ks == [] then [] else AttractionsFor(text, ks[..|ks| - 1]) + Attraction(text, ks[|ks| - 1])
  }

  function NearbyAfter(text: string): seq<string>
  {
    Take(AttractionsFor(text, AttractionKeywords), 5)
  }

  /** The inner loop over the sentences. */
  method FindSentence(sentences: seq<string>, keyword: string) returns (found: Option<string>)
    ensures found == match FirstReporting(sentences, keyword, 0)
      case None => None
      case Some(m) => Some(Take(Strip(sentences[m]), 150))
  {
    for j := 0 to |sentences|
      invariant FirstReporting(sentences, keyword, 0) == FirstReporting(sentences, keyword, j)
    {
      var sentence := sentences[j];
      if Contains(Lower(sentence), keyword) && |Strip(sentence)| > 10 {
        return Some(Take(Strip(sentence), 150));
      }
    }
    return None;
  }

  /** What one keyword adds, as the loop body computes it. */
  method AttractionFor(text: string, keyword: string) returns (added: seq<string>)
    ensures added == Attraction(text, keyword)
  {
    added := [];
    if Contains(Lower(text), keyword) {
      var sentences := SplitOn(text, ".");
      var found := FindSentence(sentences, keyword);
      if found.Some? {
        added := [found.value];
      }
    }
  }

  /** The loop over the keywords. */
  method CollectAttractions(text: string, ks: seq<string>) returns (attractions: seq<string>)
    ensures attractions == AttractionsFor(text, ks)
  {
    attractions := [];
    for i := 0 to |ks|
      invariant attractions == AttractionsFor(text, ks[..i])
    {
      assert ks[..i + 1][..i] == ks[..i];
      var added := AttractionFor(text, ks[i]);
      attractions := attractions + added;
    }
    assert ks[..|ks|] == ks;
  }

  method ExtractNearbyInfo(h: HotelInfo, text: string)
    modifies h`nearbyAttractions
    ensures h.nearbyAttractions == NearbyAfter(text)
  {
    var attractions := CollectAttractions(text, AttractionKeywords);
    h.nearbyAttractions := Take(attractions, 5);
  }

  /** One keyword adds at most one entry: a stripped piece of the page text between full
      stops, of at most 150 characters. */
  lemma AttractionShape(text: string, k: string)
    ensures |Attraction(text, k)| <= 1
    ensures forall x :: x in Attraction(text, k) ==> |x| <= 150 && Contains(text, x)
  {
    var sentences := SplitOn(text, ".");
    var found := FirstReporting(sentences, k, 0);
    if Contains(Lower(text), k) && found.Some? {
      SplitPiecesContained(text, ".");
      var m := found.value;
      var stripped := Strip(sentences[m]);
      var x := Take(stripped, 150);
      ContainsSlice(stripped, 0, |x|);
      assert stripped[0..|x|] == x;
      ContainsTransitive(sentences[m], stripped, x);
      ContainsTransitive(text, sentences[m], x);
    }
  }

  /** Each keyword adds at most one entry, and each entry is a stripped piece of the page
      text between full stops, of at most 150 characters. */
  lemma {:induction false} AttractionsShape(text: string, ks: seq<string>)
    ensures |AttractionsFor(text, ks)| <= |ks|
    ensures forall x :: x in AttractionsFor(text, ks) ==> |x| <= 150 && Contains(text, x)
  {
    if ks != [] {
      AttractionsShape(text, ks[..|ks| - 1]);
      AttractionShape(text, ks[|ks| - 1]);
    }
  }

  /** Cutting a list to five keeps only its own entries. */
  lemma TakeFive(all: seq<string>)
    ensures |Take(all, 5)| <= 5 && forall x :: x in Take(all, 5) ==> x in all
  {
  }

  /** At most five attractions, each at most 150 characters taken from the page text. */
  lemma NearbyBounds(text: string)
    ensures |NearbyAfter(text)| <= 5
    ensures forall x :: x in NearbyAfter(text) ==> |x| <= 150 && Contains(text, x)
  {
    var all := AttractionsFor(text, AttractionKeywords);
    AttractionsShape(text, AttractionKeywords);
    TakeFive(all);
  }

  // ---------------------------------------------------------------------
  // _extract_services
  // ---------------------------------------------------------------------

  const ServiceKeywords: seq<string> :=
    ["concierge", "laundry", "dry cleaning", "luggage storage", "wake-up service", "tour desk",
     "car rental", "babysitting"]

  method ExtractServices(h: HotelInfo, text: string)
    modifies h`conciergeServices
    ensures h.conciergeServices == Mentions(ServiceKeywords, Lower(text))
  {
    var services := CollectMentions(ServiceKeywords, Lower(text));
    h.conciergeServices := services;
  }

  lemma ServiceKeywordsDistinctLower()
    ensures forall i, j :: 0 <= i < j < |ServiceKeywords| ==> ServiceKeywords[i] != ServiceKeywords[j]
    ensures forall i :: 0 <= i < |ServiceKeywords| ==> Lower(ServiceKeywords[i]) == ServiceKeywords[i]
  {
    forall i | 0 <= i < |ServiceKeywords|
      ensures Lower(ServiceKeywords[i]) == ServiceKeywords[i]
    {
      LowerKeepsLowercase(ServiceKeywords[i]);
    }
  }

  /** The services are the title-cased service keywords the page mentions, in keyword-list
      order, with no repeats and so at most eight of them. */
  lemma ServicesShape(text: string)
    ensures var r := Mentions(ServiceKeywords, Lower(text));
      |r| <= 8 &&
      (forall i, j :: 0 <= i < j < |r| ==> r[i] != r[j]) &&
      (forall x :: x in r <==> exists j :: (0 <= j < |ServiceKeywords| &&
        Contains(Lower(text), ServiceKeywords[j]) && x == Title(ServiceKeywords[j])))
  {
    ServiceKeywordsDistinctLower();
    MentionsMembers(ServiceKeywords, Lower(text));
    MentionsDistinct(ServiceKeywords, Lower(text));
  }

  // ---------------------------------------------------------------------
  // HotelDataExporter.save_hotel_data: file-name cleaning
  // ---------------------------------------------------------------------

  /** `"".join(c for c in name if c.isalnum() or c in (' ', '-', '_')).rstrip()`: only
      allowed characters, no trailing whitespace, and a prefix of the allowed characters,
      so leading spaces are kept. */
  function CleanNameRStrip(name: string): (r: string)
    ensures forall i :: 0 <= i < |r| ==> NameChar(r[i])
    ensures r != [] ==> !IsSpace(r[|r| - 1])
    ensures |r| <= |NameChars(name)| && r == NameChars(name)[..|r|]
    ensures forall i :: |r| <= i < |NameChars(name)| ==> IsSpace(NameChars(name)[i])
  {
    RStrip(NameChars(name))
  }

  /** A leading space survives cleaning whenever something other than whitespace follows it. */
  lemma LeadingSpaceKept(name: string)
    requires |name| >= 2 && name[0] == ' ' && NameChar(name[1]) && !IsSpace(name[1])
    ensures |CleanNameRStrip(name)| >= 2 && CleanNameRStrip(name)[0] == ' '
  {
    var kept := NameChars(name);
    NameCharsSingle(name[0]);
    NameCharsSingle(name[1]);
    assert name == [name[0]] + [name[1]] + name[2..];
    NameCharsAppend([name[0]] + [name[1]], name[2..]);
    NameCharsAppend([name[0]], [name[1]]);
    assert kept[..2] == [' ', name[1]];
    assert !IsSpace(kept[1]);
  }
}
