/**
 * The keyword categorisers of the AI-enhanced scraper: `_extract_amenities_ai`,
 * `_extract_dining_info_ai`, `_extract_nearby_info_ai`, `_extract_services_ai` and
 * `_extract_room_info_ai`.
 *
 * Each is a method on the record, proved equal to a pure function of the old field
 * values and the page inputs; the lemmas state what the categorisers promise about
 * those functions.
 */
module IntelligentCategories {
  import opened Wrappers
  import opened Strings
  import opened Patterns
  import opened IntelligentRecord
  import opened IntelligentText

  // ---------------------------------------------------------------------
  // _extract_amenities_ai
  // ---------------------------------------------------------------------

  const WifiKeywords: seq<string> := ["wifi", "wi-fi", "internet", "wireless"]
  const FitnessKeywords: seq<string> := ["fitness", "gym", "exercise", "workout"]
  const PoolKeywords: seq<string> := ["pool", "swimming", "aquatic"]
  const SpaKeywords: seq<string> := ["spa", "massage", "wellness", "treatment"]
  const BusinessKeywords: seq<string> := ["business center", "meeting room", "conference"]
  const PetKeywords: seq<string> := ["pet", "dog", "cat", "animal"]
  const AccessibilityKeywords: seq<string> := ["accessible", "wheelchair", "ada", "disability"]

  /** The seven categories in the order the loop visits them. */
  const AmenityCategories: seq<seq<string>> :=
    [WifiKeywords, FitnessKeywords, PoolKeywords, SpaKeywords, BusinessKeywords, PetKeywords, AccessibilityKeywords]

  const FreeWifiWords: seq<string> := ["free", "complimentary"]
  const PoolTypes: seq<string> := ["indoor", "outdoor", "heated", "seasonal"]
  const SpaServiceNames: seq<string> := ["massage", "facial", "manicure", "pedicure", "sauna"]

  /** The fields the amenities extractor may change. */
  datatype Amenities = Amenities(
    wifiInfo: Option<string>, fitnessCenter: Option<Fitness>, pool: Option<Pool>,
    spaServices: seq<string>, petPolicy: Option<PetPolicy>)

  function AmenitiesOf(h: IntelligentHotelInfo): Amenities
    reads h
  {
    Amenities(h.wifiInfo, h.fitnessCenter, h.pool, h.spaServices, h.petPolicy)
  }

  function WifiText(ctx: string): string
  {
    if AnyIn(FreeWifiWords, ctx) then "Free WiFi available" else "WiFi available"
  }

  function PetsFrom(current: Option<PetPolicy>, ctx: string): Option<PetPolicy>
  {
    if Contains(ctx, "friendly") || Contains(ctx, "welcome") then Some(PetPolicy(true, Take(ctx, 100)))
    else if Contains(ctx, "not allowed") || Contains(ctx, "no pets") then Some(PetPolicy(false, Take(ctx, 100)))
    else current
  }

  /** What category `cat` records from the 80-character window `ctx` around its keyword.
      The business (4) and accessibility (6) categories match but record nothing. */
  function ApplyAmenity(a: Amenities, cat: nat, ctx: string, re: Regex): Amenities
  {
    if cat == 0 then a.(wifiInfo := Some(WifiText(ctx)))
    else if cat == 1 then a.(fitnessCenter := Some(Fitness(re(HoursRange, ctx).GetOr("Check with hotel"), Take(ctx, 100))))
    else if cat == 2 then a.(pool := Some(Pool(FirstKeyword(PoolTypes, ctx).GetOr("Standard"), Take(ctx, 100))))
    else if cat == 3 then a.(spaServices := a.spaServices + KeywordsIn(SpaServiceNames, ctx))
    else if cat == 5 then a.(petPolicy := PetsFrom(a.petPolicy, ctx))
    else a
  }

  /** One turn of the category loop: the first keyword of the category that occurs in the
      text, if any, chooses the window. */
  function CategoryStep(a: Amenities, text: string, re: Regex, cat: nat): Amenities
    requires cat < |AmenityCategories|
  {
    match FirstKeyword(AmenityCategories[cat], text)
    case None => a
    case Some(kw) => ApplyAmenity(a, cat, KeywordContext(text, kw, 80), re)
  }

  function AmenitiesFrom(a: Amenities, text: string, re: Regex, i: nat): Amenities
    requires i <= |AmenityCategories|
    decreases |AmenityCategories| - i
  {
    if i == |AmenityCategories| then a else AmenitiesFrom(CategoryStep(a, text, re, i), text, re, i + 1)
  }

  /** The amenity fields after `_extract_amenities_ai`; `pageText` is `soup.get_text()`. */
  function AmenitiesAfter(a: Amenities, pageText: string, re: Regex): Amenities
  {
    AmenitiesFrom(a, Lower(pageText), re, 0)
  }

  // An independent, per-field reading of the same extractor.

  function Window(keywords: seq<string>, text: string, size: nat): Option<string>
  {
    match FirstKeyword(keywords, text)
    case None => None
    case Some(kw) => Some(KeywordContext(text, kw, size))
  }

  function WifiAfter(current: Option<string>, text: string): Option<string>
  {
    match Window(WifiKeywords, text, 80)
    case None => current
    case Some(ctx) => Some(WifiText(ctx))
  }

  function FitnessAfter(current: Option<Fitness>, text: string, re: Regex): Option<Fitness>
  {
    match Window(FitnessKeywords, text, 80)
    case None => current
    case Some(ctx) => Some(Fitness(re(HoursRange, ctx).GetOr("Check with hotel"), Take(ctx, 100)))
  }

  function PoolAfter(current: Option<Pool>, text: string): Option<Pool>
  {
    match Window(PoolKeywords, text, 80)
    case None => current
    case Some(ctx) => Some(Pool(FirstKeyword(PoolTypes, ctx).GetOr("Standard"), Take(ctx, 100)))
  }

  function SpaAfter(current: seq<string>, text: string): seq<string>
  {
    match Window(SpaKeywords, text, 80)
    case None => current
    case Some(ctx) => current + KeywordsIn(SpaServiceNames, ctx)
  }

  function PetsAfter(current: Option<PetPolicy>, text: string): Option<PetPolicy>
  {
    match Window(PetKeywords, text, 80)
    case None => current
    case Some(ctx) => PetsFrom(current, ctx)
  }

  /** The categories touch disjoint fields, so the loop computes each field on its own. */
  lemma AmenitiesPerField(a: Amenities, pageText: string, re: Regex)
    ensures var text := Lower(pageText);
      AmenitiesAfter(a, pageText, re) ==
        Amenities(WifiAfter(a.wifiInfo, text), FitnessAfter(a.fitnessCenter, text, re), PoolAfter(a.pool, text),
                  SpaAfter(a.spaServices, text), PetsAfter(a.petPolicy, text))
  {
    var text := Lower(pageText);
    var a1 := CategoryStep(a, text, re, 0);
    var a2 := CategoryStep(a1, text, re, 1);
    var a3 := CategoryStep(a2, text, re, 2);
    var a4 := CategoryStep(a3, text, re, 3);
    var a5 := CategoryStep(a4, text, re, 4);
    var a6 := CategoryStep(a5, text, re, 5);
    var a7 := CategoryStep(a6, text, re, 6);
    assert AmenitiesFrom(a, text, re, 0) == AmenitiesFrom(a1, text, re, 1);
    assert AmenitiesFrom(a1, text, re, 1) == AmenitiesFrom(a2, text, re, 2);
    assert AmenitiesFrom(a2, text, re, 2) == AmenitiesFrom(a3, text, re, 3);
    assert AmenitiesFrom(a3, text, re, 3) == AmenitiesFrom(a4, text, re, 4);
    assert AmenitiesFrom(a4, text, re, 4) == AmenitiesFrom(a5, text, re, 5);
    assert AmenitiesFrom(a5, text, re, 5) == AmenitiesFrom(a6, text, re, 6);
    assert AmenitiesFrom(a6, text, re, 6) == AmenitiesFrom(a7, text, re, 7) == a7;
    assert a1 == a.(wifiInfo := WifiAfter(a.wifiInfo, text));
    assert a2 == a1.(fitnessCenter := FitnessAfter(a.fitnessCenter, text, re));
    assert a3 == a2.(pool := PoolAfter(a.pool, text));
    assert a4 == a3.(spaServices := SpaAfter(a.spaServices, text));
    assert a5 == a4;
    assert a6 == a5.(petPolicy := PetsAfter(a.petPolicy, text));
    assert a7 == a6;
  }

  /** The WiFi field is set exactly when one of the WiFi keywords occurs in the lower-cased
      page text, and says "Free" when the window mentions free or complimentary access. */
  lemma WifiSetIffKeyword(a: Amenities, pageText: string, re: Regex)
    ensures var text := Lower(pageText);
      var r := AmenitiesAfter(a, pageText, re);
      (AnyIn(WifiKeywords, text) ==> r.wifiInfo.Some? && r.wifiInfo.value in ["Free WiFi available", "WiFi available"]) &&
      (!AnyIn(WifiKeywords, text) ==> r.wifiInfo == a.wifiInfo)
  {
    AmenitiesPerField(a, pageText, re);
    FirstKeywordSpec(WifiKeywords, Lower(pageText));
  }

  /** A pool type is one of the four pool words, or "Standard" when the window names none. */
  lemma PoolTypeChoice(a: Amenities, pageText: string, re: Regex)
    ensures var r := AmenitiesAfter(a, pageText, re);
      r.pool == a.pool || (r.pool.Some? && (r.pool.value.kind in PoolTypes || r.pool.value.kind == "Standard"))
  {
    AmenitiesPerField(a, pageText, re);
    var text := Lower(pageText);
    match Window(PoolKeywords, text, 80)
    case None =>
    case Some(ctx) =>
      FirstKeywordSpec(PoolTypes, ctx);
  }

  /** The spa services only grow, and only by spa service names. */
  lemma SpaServicesGrow(a: Amenities, pageText: string, re: Regex)
    ensures var r := AmenitiesAfter(a, pageText, re);
      |a.spaServices| <= |r.spaServices| && r.spaServices[..|a.spaServices|] == a.spaServices &&
      forall j :: |a.spaServices| <= j < |r.spaServices| ==> r.spaServices[j] in SpaServiceNames
  {
    AmenitiesPerField(a, pageText, re);
    var text := Lower(pageText);
    match Window(SpaKeywords, text, 80)
    case None =>
    case Some(ctx) =>
      var added := KeywordsIn(SpaServiceNames, ctx);
      assert SpaAfter(a.spaServices, text) == a.spaServices + added;
      forall j | |a.spaServices| <= j < |a.spaServices + added|
        ensures (a.spaServices + added)[j] in SpaServiceNames
      {
        assert (a.spaServices + added)[j] == added[j - |a.spaServices|];
        assert added[j - |a.spaServices|] in added;
      }
  }

  /** "friendly" or "welcome" wins over "not allowed" and "no pets". */
  lemma PetsFriendlyPrecedence(current: Option<PetPolicy>, ctx: string)
    requires Contains(ctx, "welcome")
    ensures PetsFrom(current, ctx) == Some(PetPolicy(true, Take(ctx, 100)))
  {
  }

  method ExtractAmenitiesAi(h: IntelligentHotelInfo, pageText: string, re: Regex)
    modifies h`wifiInfo, h`fitnessCenter, h`pool, h`spaServices, h`petPolicy
    ensures AmenitiesOf(h) == AmenitiesAfter(old(AmenitiesOf(h)), pageText, re)
  {
    var text := Lower(pageText);
    for cat := 0 to |AmenityCategories|
      invariant AmenitiesFrom(AmenitiesOf(h), text, re, cat) == AmenitiesAfter(old(AmenitiesOf(h)), pageText, re)
    {
      var keyword := FindFirstKeyword(AmenityCategories[cat], text);
      if keyword.Some? {
        var ctx := KeywordContext(text, keyword.value, 80);
        RecordAmenity(h, cat, ctx, re);
      }
    }
  }

  /** The `if category == ...` chain of one loop turn. */
  method RecordAmenity(h: IntelligentHotelInfo, cat: nat, ctx: string, re: Regex)
    modifies h`wifiInfo, h`fitnessCenter, h`pool, h`spaServices, h`petPolicy
    ensures AmenitiesOf(h) == ApplyAmenity(old(AmenitiesOf(h)), cat, ctx, re)
  {
    if cat == 0 {
      if AnyIn(FreeWifiWords, ctx) {
        h.wifiInfo := Some("Free WiFi available");
      } else {
        h.wifiInfo := Some("WiFi available");
      }
    } else if cat == 1 {
      var hours := re(HoursRange, ctx);
      h.fitnessCenter := Some(Fitness(if hours.Some? then hours.value else "Check with hotel", Take(ctx, 100)));
    } else if cat == 2 {
      var poolType := FindFirstKeyword(PoolTypes, ctx);
      h.pool := Some(Pool(if poolType.Some? then poolType.value else "Standard", Take(ctx, 100)));
    } else if cat == 3 {
      h.spaServices := h.spaServices + KeywordsIn(SpaServiceNames, ctx);
    } else if cat == 5 {
      if Contains(ctx, "friendly") || Contains(ctx, "welcome") {
        h.petPolicy := Some(PetPolicy(true, Take(ctx, 100)));
      } else if Contains(ctx, "not allowed") || Contains(ctx, "no pets") {
        h.petPolicy := Some(PetPolicy(false, Take(ctx, 100)));
      }
    }
  }

  // ---------------------------------------------------------------------
  // _extract_dining_info_ai
  // ---------------------------------------------------------------------

  /** A `div` or `section` whose class mentions restaurant, dining or food: its stripped
      text and the stripped text of its first `h1`-`h4`, if it has one. */
  datatype DiningElement = DiningElement(text: string, heading: Option<string>)

  const CuisineKeywords: seq<string> := ["italian", "asian", "american", "french", "mexican", "seafood", "steakhouse"]
  const BreakfastKeywords: seq<string> := ["breakfast", "morning meal", "continental breakfast"]

  /** The restaurant dictionary built from one element. */
  function RestaurantFrom(e: DiningElement, re: Regex): Restaurant
  {
    Restaurant(
      e.heading.GetOr("Restaurant"),
      FirstKeyword(CuisineKeywords, Lower(e.text)).GetOr("International"),
      re(HoursRange, Lower(e.text)).GetOr("Check with hotel"),
      Take(e.text, 200))
  }

  /** One restaurant per element whose text is longer than 20 characters, in element order. */
  function Restaurants(es: seq<DiningElement>, re: Regex): (r: seq<Restaurant>)
    ensures |r| <= |es|
    ensures forall x :: x in r ==> exists e :: e in es && |e.text| > 20 && x == RestaurantFrom(e, re)
    ensures forall e :: e in es && |e.text| > 20 ==> RestaurantFrom(e, re) in r
  {
    if es == [] then []
    else
      var init := es[..|es| - 1];
      var last := es[|es| - 1];
      assert es == init + [last];
      Restaurants(init, re) + (if |last.text| > 20 then [RestaurantFrom(last, re)] else [])
  }

  function RoomServiceAfter(current: Option<RoomService>, text: string, re: Regex): Option<RoomService>
  {
    if Contains(text, "room service") then
      var ctx := KeywordContext(text, "room service", 100);
      Some(RoomService(re(HoursRange, ctx).GetOr("24 hours"), Take(ctx, 100)))
    else current
  }

  /** The breakfast dictionary for the window around the chosen keyword. */
  function BreakfastFrom(ctx: string): Breakfast
  {
    if Contains(ctx, "complimentary") || Contains(ctx, "free") then Breakfast("Continental", "Complimentary", Take(ctx, 100))
    else if Contains(ctx, "buffet") then Breakfast("Buffet", "Additional charge", Take(ctx, 100))
    else Breakfast("Continental", "Check with hotel", Take(ctx, 100))
  }

  function BreakfastAfter(current: Option<Breakfast>, text: string): Option<Breakfast>
  {
    match Window(BreakfastKeywords, text, 100)
    case None => current
    case Some(ctx) => Some(BreakfastFrom(ctx))
  }

  /** The fields the dining extractor may change. */
  datatype Dining = Dining(restaurants: seq<Restaurant>, roomService: Option<RoomService>, breakfastInfo: Option<Breakfast>)

  function DiningOf(h: IntelligentHotelInfo): Dining
    reads h
  {
    Dining(h.restaurants, h.roomService, h.breakfastInfo)
  }

  /** The dining fields after `_extract_dining_info_ai`: the restaurant list is replaced by
      one built from the first five elements. */
  function DiningAfter(d: Dining, elements: seq<DiningElement>, pageText: string, re: Regex): Dining
  {
    var text := Lower(pageText);
    Dining(Restaurants(Take(elements, 5), re), RoomServiceAfter(d.roomService, text, re),
           BreakfastAfter(d.breakfastInfo, text))
  }

  method ExtractDiningInfoAi(h: IntelligentHotelInfo, elements: seq<DiningElement>, pageText: string, re: Regex)
    modifies h`restaurants, h`roomService, h`breakfastInfo
    ensures DiningOf(h) == DiningAfter(old(DiningOf(h)), elements, pageText, re)
  {
    h.restaurants := BuildRestaurants(Take(elements, 5), re);
    var text := Lower(pageText);
    RecordRoomService(h, text, re);
    RecordBreakfast(h, text);
  }

  /** The `for element in restaurant_elements[:5]` loop. */
  method BuildRestaurants(limited: seq<DiningElement>, re: Regex) returns (restaurants: seq<Restaurant>)
    ensures restaurants == Restaurants(limited, re)
  {
    restaurants := [];
    for i := 0 to |limited|
      invariant restaurants == Restaurants(limited[..i], re)
    {
      assert limited[..i + 1][..i] == limited[..i];
      var element := limited[i];
      if |element.text| > 20 {
        var lowered := Lower(element.text);
        var cuisine := FindFirstKeyword(CuisineKeywords, lowered);
        var hours := re(HoursRange, lowered);
        restaurants := restaurants + [Restaurant(
          if element.heading.Some? then element.heading.value else "Restaurant",
          if cuisine.Some? then cuisine.value else "International",
          if hours.Some? then hours.value else "Check with hotel",
          Take(element.text, 200))];
      }
    }
    assert limited[..|limited|] == limited;
  }

  method RecordRoomService(h: IntelligentHotelInfo, text: string, re: Regex)
    modifies h`roomService
    ensures h.roomService == RoomServiceAfter(old(h.roomService), text, re)
  {
    if Contains(text, "room service") {
      var ctx := KeywordContext(text, "room service", 100);
      var hours := re(HoursRange, ctx);
      h.roomService := Some(RoomService(if hours.Some? then hours.value else "24 hours", Take(ctx, 100)));
    }
  }

  /** The `for keyword in breakfast_keywords` loop, which stops at the first keyword found. */
  method RecordBreakfast(h: IntelligentHotelInfo, text: string)
    modifies h`breakfastInfo
    ensures h.breakfastInfo == BreakfastAfter(old(h.breakfastInfo), text)
  {
    var keyword := FindFirstKeyword(BreakfastKeywords, text);
    if keyword.Some? {
      var ctx := KeywordContext(text, keyword.value, 100);
      var breakfastType := "Continental";
      var cost: string;
      if Contains(ctx, "complimentary") || Contains(ctx, "free") {
        cost := "Complimentary";
      } else if Contains(ctx, "buffet") {
        breakfastType := "Buffet";
        cost := "Additional charge";
      } else {
        cost := "Check with hotel";
      }
      h.breakfastInfo := Some(Breakfast(breakfastType, cost, Take(ctx, 100)));
    }
  }

  /** At most five restaurants, each from an element of the first five whose text is longer
      than 20 characters, each with a listed cuisine or "International". */
  lemma DiningRestaurantsBounded(d: Dining, elements: seq<DiningElement>, pageText: string, re: Regex)
    ensures var r := DiningAfter(d, elements, pageText, re).restaurants;
      |r| <= 5 &&
      forall x :: x in r ==> x.Restaurant? && (x.cuisine in CuisineKeywords || x.cuisine == "International")
  {
    var r := DiningAfter(d, elements, pageText, re).restaurants;
    forall x | x in r
      ensures x.Restaurant? && (x.cuisine in CuisineKeywords || x.cuisine == "International")
    {
      var e :| e in Take(elements, 5) && |e.text| > 20 && x == RestaurantFrom(e, re);
      FirstKeywordSpec(CuisineKeywords, Lower(e.text));
    }
  }

  /** "continental breakfast" comes after "breakfast", which it contains, so it is never the
      keyword chosen. */
  lemma ContinentalBreakfastShadowed(text: string)
    ensures FirstKeyword(BreakfastKeywords, text) != Some("continental breakfast")
  {
    assert "continental breakfast" == "continental " + "breakfast";
    ContainsSuffix("continental ", "breakfast");
    if Contains(text, "continental breakfast") {
      ShadowedKeyword(BreakfastKeywords, text, 0, 2);
      assert BreakfastKeywords[..2] == ["breakfast", "morning meal"];
    } else {
      FirstKeywordFromOccurs(BreakfastKeywords, text, 0);
    }
  }

  /** A breakfast window that says complimentary or free gives a complimentary continental
      breakfast, even when it also says buffet. */
  lemma BreakfastComplimentaryPrecedence(ctx: string)
    requires Contains(ctx, "free") && Contains(ctx, "buffet")
    ensures BreakfastFrom(ctx).kind == "Continental" && BreakfastFrom(ctx).cost == "Complimentary"
  {
  }

  // ---------------------------------------------------------------------
  // _extract_nearby_info_ai
  // ---------------------------------------------------------------------

  const NearbyLabels: seq<string> := ["ORG", "GPE", "FAC"]
  const AttractionWords: seq<string> := ["museum", "park", "theater", "gallery", "center"]
  const EateryWords: seq<string> := ["restaurant", "cafe", "bar", "bistro"]
  const ShoppingWords: seq<string> := ["mall", "shop", "market", "store"]

  /** The category an entity falls in, tried in the order attraction, restaurant,
      shopping. */
  function PlaceKind(e: Entity): Option<string>
  {
    if e.tag !in NearbyLabels then None
    else
      var t := Lower(e.text);
      if AnyIn(AttractionWords, t) then Some("Attraction")
      else if AnyIn(EateryWords, t) then Some("Restaurant")
      else if AnyIn(ShoppingWords, t) then Some("Shopping")
      else None
  }

  /** The entities of one category, as place dictionaries, in entity order. */
  function Places(ents: seq<Entity>, kind: string): (r: seq<Place>)
    ensures |r| <= |ents|
    ensures forall p :: p in r ==> exists e :: e in ents && PlaceKind(e) == Some(kind) && p == Place(e.text, kind, "Unknown")
  {
    if ents == [] then []
    else
      var init := ents[..|ents| - 1];
      var last := ents[|ents| - 1];
      assert ents == init + [last];
      Places(init, kind) + (if PlaceKind(last) == Some(kind) then [Place(last.text, kind, "Unknown")] else [])
  }

  /** The fields the nearby extractor may change. */
  datatype Nearby = Nearby(attractions: seq<Place>, restaurants: seq<Place>, shopping: seq<Place>)

  function NearbyOf(h: IntelligentHotelInfo): Nearby
    reads h
  {
    Nearby(h.nearbyAttractions, h.nearbyRestaurants, h.nearbyShopping)
  }

  /** The nearby fields after `_extract_nearby_info_ai`; `nlpOn` is `use_ai and nlp`. */
  function NearbyAfter(n: Nearby, nlpOn: bool, pageText: string, ner: Ner): Nearby
  {
    if nlpOn then
      var ents := ner(Take(pageText, 3000));
      Nearby(Take(Places(ents, "Attraction"), 10), Take(Places(ents, "Restaurant"), 10), Take(Places(ents, "Shopping"), 10))
    else n
  }

  method ExtractNearbyInfoAi(h: IntelligentHotelInfo, nlpOn: bool, pageText: string, ner: Ner)
    modifies h`nearbyAttractions, h`nearbyRestaurants, h`nearbyShopping
    ensures NearbyOf(h) == NearbyAfter(old(NearbyOf(h)), nlpOn, pageText, ner)
  {
    if nlpOn {
      var ents := ner(Take(pageText, 3000));
      var attractions: seq<Place> := [];
      var restaurants: seq<Place> := [];
      var shopping: seq<Place> := [];
      for i := 0 to |ents|
        invariant attractions == Places(ents[..i], "Attraction")
        invariant restaurants == Places(ents[..i], "Restaurant")
        invariant shopping == Places(ents[..i], "Shopping")
      {
        assert ents[..i + 1][..i] == ents[..i];
        var ent := ents[i];
        if ent.tag in NearbyLabels {
          var entityText := Lower(ent.text);
          if AnyIn(AttractionWords, entityText) {
            attractions := attractions + [Place(ent.text, "Attraction", "Unknown")];
          } else if AnyIn(EateryWords, entityText) {
            restaurants := restaurants + [Place(ent.text, "Restaurant", "Unknown")];
          } else if AnyIn(ShoppingWords, entityText) {
            shopping := shopping + [Place(ent.text, "Shopping", "Unknown")];
          }
        }
      }
      assert ents[..|ents|] == ents;
      h.nearbyAttractions := Take(attractions, 10);
      h.nearbyRestaurants := Take(restaurants, 10);
      h.nearbyShopping := Take(shopping, 10);
    }
  }

  /** The category chain: an entity is an attraction when its text names one; a
      restaurant only when it names no attraction; a shopping place only when it names
      neither. */
  lemma PlaceKindChain(e: Entity)
    ensures PlaceKind(e) == Some("Attraction") <==> e.tag in NearbyLabels && AnyIn(AttractionWords, Lower(e.text))
    ensures PlaceKind(e) == Some("Restaurant") <==>
      e.tag in NearbyLabels && !AnyIn(AttractionWords, Lower(e.text)) && AnyIn(EateryWords, Lower(e.text))
    ensures PlaceKind(e) == Some("Shopping") <==>
      e.tag in NearbyLabels && !AnyIn(AttractionWords, Lower(e.text)) && !AnyIn(EateryWords, Lower(e.text)) &&
      AnyIn(ShoppingWords, Lower(e.text))
  {
  }

  /** The places of a list of entities are those of its first part followed by those of
      the rest, so they keep entity order. */
  lemma {:induction false} PlacesAppend(a: seq<Entity>, b: seq<Entity>, kind: string)
    ensures Places(a + b, kind) == Places(a, kind) + Places(b, kind)
    decreases |b|
  {
    if b == [] {
      assert a + b == a;
    } else {
      var init := b[..|b| - 1];
      var last := b[|b| - 1];
      assert a + b == (a + init) + [last];
      assert (a + b)[..|a + b| - 1] == a + init;
      assert b[..|b| - 1] == init;
      PlacesAppend(a, init, kind);
    }
  }

  /** Every entity of the category is listed. */
  lemma {:induction false} PlacesComplete(ents: seq<Entity>, kind: string)
    ensures forall i :: 0 <= i < |ents| && PlaceKind(ents[i]) == Some(kind) ==>
      Place(ents[i].text, kind, "Unknown") in Places(ents, kind)
  {
    forall i | 0 <= i < |ents| && PlaceKind(ents[i]) == Some(kind)
      ensures Place(ents[i].text, kind, "Unknown") in Places(ents, kind)
    {
      assert ents == ents[..i] + [ents[i]] + ents[i + 1..];
      PlacesAppend(ents[..i] + [ents[i]], ents[i + 1..], kind);
      PlacesAppend(ents[..i], [ents[i]], kind);
      assert [ents[i]][..0] == [];
    }
  }

  /** With the recogniser off nothing changes. With it on, each list is the first ten
      places of its own category, in entity order and each named after an entity of that
      category (`PlacesComplete` and `PlacesAppend` say the places are all of them, in
      order). */
  lemma NearbyShape(n: Nearby, nlpOn: bool, pageText: string, ner: Ner)
    ensures var r := NearbyAfter(n, nlpOn, pageText, ner);
      (!nlpOn ==> r == n) &&
      (nlpOn ==>
        var ents := ner(Take(pageText, 3000));
        r.attractions == Take(Places(ents, "Attraction"), 10) &&
        r.restaurants == Take(Places(ents, "Restaurant"), 10) &&
        r.shopping == Take(Places(ents, "Shopping"), 10) &&
        (forall p :: p in r.attractions ==>
           exists e :: e in ents && PlaceKind(e) == Some("Attraction") && p == Place(e.text, "Attraction", "Unknown")) &&
        (forall p :: p in r.restaurants ==>
           exists e :: e in ents && PlaceKind(e) == Some("Restaurant") && p == Place(e.text, "Restaurant", "Unknown")) &&
        (forall p :: p in r.shopping ==>
           exists e :: e in ents && PlaceKind(e) == Some("Shopping") && p == Place(e.text, "Shopping", "Unknown")))
  {
    if nlpOn {
      var ents := ner(Take(pageText, 3000));
      var r := NearbyAfter(n, nlpOn, pageText, ner);
      forall p | p in r.attractions
        ensures exists e :: e in ents && PlaceKind(e) == Some("Attraction") && p == Place(e.text, "Attraction", "Unknown")
      {
        assert p in Places(ents, "Attraction");
      }
      forall p | p in r.restaurants
        ensures exists e :: e in ents && PlaceKind(e) == Some("Restaurant") && p == Place(e.text, "Restaurant", "Unknown")
      {
        assert p in Places(ents, "Restaurant");
      }
      forall p | p in r.shopping
        ensures exists e :: e in ents && PlaceKind(e) == Some("Shopping") && p == Place(e.text, "Shopping", "Unknown")
      {
        assert p in Places(ents, "Shopping");
      }
    }
  }

  // ---------------------------------------------------------------------
  // _extract_services_ai
  // ---------------------------------------------------------------------

  const ServiceCategories: seq<seq<string>> := [
    ["concierge", "guest services", "front desk"],
    ["laundry", "dry cleaning", "valet service"],
    ["luggage storage", "baggage", "bell hop"],
    ["shuttle", "car service", "taxi", "uber"],
    ["meeting room", "conference", "event space"],
    ["spa", "massage", "wellness center"]]

  /** `f"{keyword.title()} - {context[:50]}..."` with a 60-character window. */
  function ServiceEntry(kw: string, text: string): (r: string)
    ensures |r| >= 3 && r[|r| - 3..] == "..."
  {
    Title(kw) + " - " + Take(KeywordContext(text, kw, 60), 50) + "..."
  }

  /** The entries of the first `n` categories of `cats`: one for each category with a
      keyword in the text, built from its first such keyword. */
  function ServicesUpTo(cats: seq<seq<string>>, text: string, n: nat): (r: seq<string>)
    requires n <= |cats|
    ensures |r| <= n
  {
    if n == 0 then [] else ServicesUpTo(cats, text, n - 1) + ServiceStep(cats[n - 1], text)
  }

  /** The entry of one category: built from its first keyword in the text, if any. */
  function ServiceStep(keywords: seq<string>, text: string): (r: seq<string>)
    ensures |r| <= 1
  {
    match FirstKeyword(keywords, text)
    case None => []
    case Some(kw) => [ServiceEntry(kw, text)]
  }

  /** `concierge_services` after `_extract_services_ai`. */
  function ServicesAfter(pageText: string): seq<string>
  {
    ServicesUpTo(ServiceCategories, Lower(pageText), |ServiceCategories|)
  }

  /** No entry exactly when no category has a keyword in the text. */
  lemma {:induction false} ServicesEmptyIff(cats: seq<seq<string>>, text: string, n: nat)
    requires n <= |cats|
    ensures ServicesUpTo(cats, text, n) == [] <==> forall c :: 0 <= c < n ==> FirstKeyword(cats[c], text).None?
  {
    if n > 0 {
      ServicesEmptyIff(cats, text, n - 1);
    }
  }

  /** Every entry is built from the first keyword of one of the categories that has one in
      the text. */
  lemma {:induction false} ServiceEntriesFromKeywords(cats: seq<seq<string>>, text: string, n: nat)
    requires n <= |cats|
    ensures forall s :: s in ServicesUpTo(cats, text, n) ==>
      exists c :: 0 <= c < n && FirstKeyword(cats[c], text).Some? && s == ServiceEntry(FirstKeyword(cats[c], text).value, text)
  {
    if n > 0 {
      var prev := ServicesUpTo(cats, text, n - 1);
      var step := ServiceStep(cats[n - 1], text);
      ServiceEntriesFromKeywords(cats, text, n - 1);
      forall s | s in prev + step
        ensures exists c :: (0 <= c < n && FirstKeyword(cats[c], text).Some? &&
          s == ServiceEntry(FirstKeyword(cats[c], text).value, text))
      {
        if s !in prev {
          assert s in step;
          assert s == ServiceEntry(FirstKeyword(cats[n - 1], text).value, text);
        }
      }
    }
  }

  /** The page yields no service entry exactly when it mentions no keyword of any service
      category. */
  lemma NoServicesIffNoKeyword(pageText: string)
    ensures ServicesAfter(pageText) == [] <==>
      forall c :: 0 <= c < |ServiceCategories| ==> !AnyIn(ServiceCategories[c], Lower(pageText))
  {
    ServicesEmptyIff(ServiceCategories, Lower(pageText), |ServiceCategories|);
    forall c | 0 <= c < |ServiceCategories|
      ensures FirstKeyword(ServiceCategories[c], Lower(pageText)).None? <==> !AnyIn(ServiceCategories[c], Lower(pageText))
    {
      FirstKeywordNoneIff(ServiceCategories[c], Lower(pageText));
    }
  }

  method ExtractServicesAi(h: IntelligentHotelInfo, pageText: string)
    modifies h`conciergeServices
    ensures h.conciergeServices == ServicesAfter(pageText)
  {
    h.conciergeServices := BuildServices(ServiceCategories, Lower(pageText));
  }

  /** The `for category, keywords in service_categories.items()` loop. */
  method BuildServices(cats: seq<seq<string>>, text: string) returns (services: seq<string>)
    ensures services == ServicesUpTo(cats, text, |cats|)
  {
    services := [];
    for c := 0 to |cats|
      invariant services == ServicesUpTo(cats, text, c)
    {
      var keyword := FindFirstKeyword(cats[c], text);
      if keyword.Some? {
        services := services + [ServiceEntry(keyword.value, text)];
      }
    }
  }

  // ---------------------------------------------------------------------
  // _extract_room_info_ai
  // ---------------------------------------------------------------------

  const RoomTypeKeywords: seq<string> := ["standard", "deluxe", "suite", "premium", "executive", "junior suite"]
  const RoomAmenityKeywords: seq<string> := ["air conditioning", "minibar", "coffee maker", "safe", "balcony", "view"]

  /** The room type of one lower-cased room text. */
  function RoomTypeOf(t: string): Option<RoomType>
  {
    match FirstKeyword(RoomTypeKeywords, t)
    case None => None
    case Some(k) => Some(RoomType(Title(k), Take(t, 150)))
  }

  /** The amenity loop for one room text, exactly as written: keyword `ks[j]` is appended
      title-cased when it occurs and the lower-case keyword is not yet in the list. */
  function AmenityScan(ks: seq<string>, acc: seq<string>, t: string, j: nat): seq<string>
    requires j <= |ks|
    decreases |ks| - j
  {
    if j == |ks| then acc
    else AmenityScan(ks, if Contains(t, ks[j]) && ks[j] !in acc then acc + [Title(ks[j])] else acc, t, j + 1)
  }

  /** The room loop over the room elements, from element `i` on. */
  function RoomsFrom(texts: seq<string>, i: nat, types: seq<RoomType>, amenities: seq<string>): (seq<RoomType>, seq<string>)
    requires i <= |texts|
    decreases |texts| - i
  {
    if i == |texts| then (types, amenities)
    else
      var t := Lower(texts[i]);
      var ty := RoomTypeOf(t);
      RoomsFrom(texts, i + 1, if ty.Some? then types + [ty.value] else types,
                AmenityScan(RoomAmenityKeywords, amenities, t, 0))
  }

  /** `(room_types, room_amenities)` after `_extract_room_info_ai`; `texts` are the stripped
      texts of the room elements, of which the first five are read. */
  function RoomsAfter(texts: seq<string>): (seq<RoomType>, seq<string>)
  {
    RoomsFrom(Take(texts, 5), 0, [], [])
  }

  method ExtractRoomInfoAi(h: IntelligentHotelInfo, texts: seq<string>)
    modifies h`roomTypes, h`roomAmenities
    ensures (h.roomTypes, h.roomAmenities) == RoomsAfter(texts)
  {
    var elements := Take(texts, 5);
    var roomTypes: seq<RoomType> := [];
    var amenities: seq<string> := [];
    for i := 0 to |elements|
      invariant RoomsFrom(elements, i, roomTypes, amenities) == RoomsAfter(texts)
    {
      var roomText := Lower(elements[i]);
      var roomType := FindFirstKeyword(RoomTypeKeywords, roomText);
      if roomType.Some? {
        roomTypes := roomTypes + [RoomType(Title(roomType.value), Take(roomText, 150))];
      }
      amenities := ScanAmenities(amenities, roomText);
    }
    h.roomTypes := roomTypes;
    h.roomAmenities := amenities;
  }

  /** The inner `for amenity in amenity_keywords` loop of one room. */
  method ScanAmenities(acc: seq<string>, roomText: string) returns (amenities: seq<string>)
    ensures amenities == AmenityScan(RoomAmenityKeywords, acc, roomText, 0)
  {
    amenities := acc;
    for j := 0 to |RoomAmenityKeywords|
      invariant AmenityScan(RoomAmenityKeywords, amenities, roomText, j) == AmenityScan(RoomAmenityKeywords, acc, roomText, 0)
    {
      var amenity := RoomAmenityKeywords[j];
      if Contains(roomText, amenity) && amenity !in amenities {
        amenities := amenities + [Title(amenity)];
      }
    }
  }

  /** Every entry begins with an upper-case letter. */
  predicate Titled(acc: seq<string>)
  {
    forall x :: x in acc ==> |x| > 0 && IsUpper(x[0])
  }

  /** Every keyword begins with a lower-case letter. */
  predicate LowerInitials(ks: seq<string>)
  {
    forall i :: 0 <= i < |ks| ==> |ks[i]| > 0 && IsLower(ks[i][0])
  }

  lemma RoomAmenityKeywordsLowerInitials()
    ensures LowerInitials(RoomAmenityKeywords)
  {
  }

  lemma {:induction false} MentionsTitled(ks: seq<string>, t: string)
    requires LowerInitials(ks)
    ensures Titled(Mentions(ks, t))
  {
    if ks != [] {
      assert LowerInitials(ks[1..]) by {
        forall i | 0 <= i < |ks[1..]|
          ensures |ks[1..][i]| > 0 && IsLower(ks[1..][i][0])
        {
          assert ks[1..][i] == ks[i + 1];
        }
      }
      MentionsTitled(ks[1..], t);
      TitleDiffers(ks[0]);
    }
  }

  /** Where keyword `ks[i]` occurs, its title-cased form is at some index `n` of the mentions. */
  lemma {:induction false} MentionsHas(ks: seq<string>, t: string, i: nat) returns (n: nat)
    requires i < |ks| && Contains(t, ks[i])
    ensures n < |Mentions(ks, t)| && Mentions(ks, t)[n] == Title(ks[i])
  {
    if i == 0 {
      n := 0;
    } else {
      assert ks[1..][i - 1] == ks[i];
      var m := MentionsHas(ks[1..], t, i - 1);
      var head := if Contains(t, ks[0]) then [Title(ks[0])] else [];
      n := |head| + m;
      assert Mentions(ks, t) == head + Mentions(ks[1..], t);
    }
  }

  /** The duplicate check compares a lower-case keyword with title-cased entries, so it never
      holds: the scan appends every keyword that occurs, whatever the list already holds. */
  lemma {:induction false} AmenityScanNeverDeduplicates(ks: seq<string>, acc: seq<string>, t: string, j: nat)
    requires j <= |ks| && LowerInitials(ks) && Titled(acc)
    ensures AmenityScan(ks, acc, t, j) == acc + Mentions(ks[j..], t)
    decreases |ks| - j
  {
    if j == |ks| {
      assert ks[j..] == [];
      assert acc + [] == acc;
    } else {
      var k := ks[j];
      assert k !in acc by {
        if k in acc {
          assert false;
        }
      }
      assert ks[j..][0] == k && ks[j..][1..] == ks[j + 1..];
      var rest := Mentions(ks[j + 1..], t);
      if Contains(t, k) {
        var next := acc + [Title(k)];
        assert AmenityScan(ks, acc, t, j) == AmenityScan(ks, next, t, j + 1);
        assert Titled(next) by {
          TitleDiffers(k);
        }
        AmenityScanNeverDeduplicates(ks, next, t, j + 1);
        assert Mentions(ks[j..], t) == [Title(k)] + rest;
        AppendAssoc(acc, [Title(k)], rest);
      } else {
        assert AmenityScan(ks, acc, t, j) == AmenityScan(ks, acc, t, j + 1);
        AmenityScanNeverDeduplicates(ks, acc, t, j + 1);
        assert Mentions(ks[j..], t) == [] + rest == rest;
      }
    }
  }

  /** The title-cased amenity keywords each room text from element `i` on mentions, one room
      after the other. */
  function AmenitiesMentioned(texts: seq<string>, i: nat): seq<string>
    requires i <= |texts|
    decreases |texts| - i
  {
    if i == |texts| then []
    else Mentions(RoomAmenityKeywords, Lower(texts[i])) + AmenitiesMentioned(texts, i + 1)
  }

  lemma {:induction false} RoomsFromAmenities(texts: seq<string>, i: nat, types: seq<RoomType>, amenities: seq<string>)
    requires i <= |texts| && Titled(amenities)
    ensures RoomsFrom(texts, i, types, amenities).1 == amenities + AmenitiesMentioned(texts, i)
    decreases |texts| - i
  {
    if i < |texts| {
      var t := Lower(texts[i]);
      var found := Mentions(RoomAmenityKeywords, t);
      RoomAmenityKeywordsLowerInitials();
      AmenityScanNeverDeduplicates(RoomAmenityKeywords, amenities, t, 0);
      assert RoomAmenityKeywords[0..] == RoomAmenityKeywords;
      MentionsTitled(RoomAmenityKeywords, t);
      var ty := RoomTypeOf(t);
      RoomsFromAmenities(texts, i + 1, if ty.Some? then types + [ty.value] else types, amenities + found);
      AppendAssoc(amenities, found, AmenitiesMentioned(texts, i + 1));
    } else {
      assert amenities + [] == amenities;
    }
  }

  /** `room_amenities` is every amenity each of the first five rooms mentions, repeats
      included. */
  lemma RoomAmenitiesAreAllMentions(texts: seq<string>)
    ensures RoomsAfter(texts).1 == AmenitiesMentioned(Take(texts, 5), 0)
  {
    RoomsFromAmenities(Take(texts, 5), 0, [], []);
    assert [] + AmenitiesMentioned(Take(texts, 5), 0) == AmenitiesMentioned(Take(texts, 5), 0);
  }

  /** For two room elements the amenity list is the first one's mentions, then the second's. */
  lemma RoomAmenitiesOfPair(t1: string, t2: string)
    ensures RoomsAfter([t1, t2]).1 ==
      Mentions(RoomAmenityKeywords, Lower(t1)) + Mentions(RoomAmenityKeywords, Lower(t2))
  {
    var texts := [t1, t2];
    RoomAmenitiesAreAllMentions(texts);
    assert Take(texts, 5) == texts;
    var m2 := Mentions(RoomAmenityKeywords, Lower(t2));
    assert AmenitiesMentioned(texts, 2) == [];
    assert AmenitiesMentioned(texts, 1) == m2 + [] == m2;
  }

  /** Two room elements that both mention an amenity list it twice. */
  lemma RoomAmenityDuplicated(t1: string, t2: string, k: nat)
    requires k < |RoomAmenityKeywords|
    requires Contains(Lower(t1), RoomAmenityKeywords[k]) && Contains(Lower(t2), RoomAmenityKeywords[k])
    ensures var r := RoomsAfter([t1, t2]).1;
      exists i, j :: 0 <= i < j < |r| && r[i] == r[j] == Title(RoomAmenityKeywords[k])
  {
    RoomAmenitiesOfPair(t1, t2);
    var i1 := MentionsHas(RoomAmenityKeywords, Lower(t1), k);
    var i2 := MentionsHas(RoomAmenityKeywords, Lower(t2), k);
    DuplicateInConcat(Mentions(RoomAmenityKeywords, Lower(t1)), Mentions(RoomAmenityKeywords, Lower(t2)),
      i1, i2, Title(RoomAmenityKeywords[k]));
  }

  /** An element found in both halves occurs twice in the concatenation. */
  lemma DuplicateInConcat<T>(m1: seq<T>, m2: seq<T>, i1: nat, i2: nat, x: T)
    requires i1 < |m1| && i2 < |m2| && m1[i1] == x && m2[i2] == x
    ensures exists i, j :: 0 <= i < j < |m1 + m2| && (m1 + m2)[i] == (m1 + m2)[j] == x
  {
    assert (m1 + m2)[i1] == x && (m1 + m2)[|m1| + i2] == x;
  }

  /** "junior suite" comes after "suite", which it contains, so it is never the room type. */
  lemma JuniorSuiteShadowed(t: string)
    ensures FirstKeyword(RoomTypeKeywords, t) != Some("junior suite")
  {
    assert "junior suite" == "junior " + "suite";
    ContainsSuffix("junior ", "suite");
    if Contains(t, "junior suite") {
      ShadowedKeyword(RoomTypeKeywords, t, 2, 5);
      assert RoomTypeKeywords[..5] == ["standard", "deluxe", "suite", "premium", "executive"];
    } else {
      FirstKeywordFromOccurs(RoomTypeKeywords, t, 0);
    }
  }
}
