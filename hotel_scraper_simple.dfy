/**
 * The requests-based scraper: its record, the title-tag name, the regex and keyword
 * extraction of `_extract_basic_info`, the file name of `save_for_rag` and the success
 * count of `scrape_hotels`.
 *
 * `_extract_basic_info` receives the page already lower-cased by `scrape_hotel_basic`; its
 * keyword tests are plain substring tests on that text. The WiFi and pet chains and the
 * check-in/out pattern lists are the Selenium scraper's, so they are shared with it.
 */
module HotelScraperSimple {
  import opened Wrappers
  import opened Strings
  import opened Patterns
  import HotelScraper

  type Dict = map<string, string>

  class HotelInfo {
    var hotelName: string
    var websiteUrl: string
    var scrapedAt: string
    var phone: Option<string>
    var address: Option<string>
    var city: Option<string>
    var checkinTime: Option<string>
    var checkoutTime: Option<string>
    var parkingAvailable: Option<bool>
    var parkingCost: Option<string>
    var parkingType: Option<string>
    var wifiInfo: Option<string>
    var fitnessCenter: Option<bool>
    var pool: Option<bool>
    var petPolicy: Option<string>
    var restaurants: seq<Dict>
    var roomService: Option<string>
    var breakfastInfo: Option<string>
    var nearbyAttractions: seq<string>
    var conciergeServices: seq<string>

    /** The dataclass constructor followed by `__post_init__`: each list given as `None`
        (the default) becomes empty; every optional field starts absent. */
    constructor(hotelName: string, websiteUrl: string, scrapedAt: string,
                restaurants: Option<seq<Dict>>, nearbyAttractions: Option<seq<string>>,
                conciergeServices: Option<seq<string>>)
      ensures this.hotelName == hotelName && this.websiteUrl == websiteUrl && this.scrapedAt == scrapedAt
      ensures this.restaurants == restaurants.GetOr([])
      ensures this.nearbyAttractions == nearbyAttractions.GetOr([])
      ensures this.conciergeServices == conciergeServices.GetOr([])
      ensures phone.None? && address.None? && city.None? && checkinTime.None? && checkoutTime.None?
      ensures parkingAvailable.None? && parkingCost.None? && parkingType.None?
      ensures wifiInfo.None? && fitnessCenter.None? && pool.None? && petPolicy.None?
      ensures roomService.None? && breakfastInfo.None?
    {
      this.hotelName := hotelName;
      this.websiteUrl := websiteUrl;
      this.scrapedAt := scrapedAt;
      phone := None;
      address := None;
      city := None;
      checkinTime := None;
      checkoutTime := None;
      parkingAvailable := None;
      parkingCost := None;
      parkingType := None;
      wifiInfo := None;
      fitnessCenter := None;
      pool := None;
      petPolicy := None;
      roomService := None;
      breakfastInfo := None;
      this.restaurants := restaurants.GetOr([]);
      this.nearbyAttractions := nearbyAttractions.GetOr([]);
      this.conciergeServices := conciergeServices.GetOr([]);
    }
  }

  // ---------------------------------------------------------------------
  // _extract_hotel_name_basic: re.search(r'<title[^>]*>([^<]+)</title>', html, re.I)
  // ---------------------------------------------------------------------

  /** The first index at or after `i` holding `c`, or -1. */
  function FindChar(s: string, c: char, i: nat): (r: int)
    requires i <= |s|
    ensures -1 <= r < |s|
    ensures r >= 0 ==> i <= r && s[r] == c
    ensures forall j :: i <= j < (if r < 0 then |s| else r) ==> s[j] != c
    decreases |s| - i
  {
    if i == |s| then -1 else if s[i] == c then i else FindChar(s, c, i + 1)
  }

  /** The group of a match starting at `p`. The pattern leaves nothing to backtrack over:
      `[^>]*` must stop at the first `>` and `[^<]+` at the first `<`, which must begin a
      closing tag. */
  function TitleAt(html: string, p: nat): Option<string>
    requires p <= |html|
  {
    if p + 6 > |html| || Lower(html[p..p + 6]) != "<title" then None
    else
      var q := FindChar(html, '>', p + 6);
      if q < 0 then None
      else
        var r := FindChar(html, '<', q + 1);
        if r <= q + 1 || r + 8 > |html| || Lower(html[r..r + 8]) != "</title>" then None
        else Some(html[q + 1..r])
  }

  /** What the pattern says of a match at `p` with group `g`: `<title` in any case, then
      characters other than `>`, then `>` at `q`, then `g`, which is non-empty and has no
      `<`, then `</title>` in any case. */
  predicate TitleMatch(html: string, p: nat, q: nat, g: string)
  {
    p + 6 <= q && q + 1 + |g| + 8 <= |html| &&
    Lower(html[p..p + 6]) == "<title" &&
    html[q] == '>' && (forall j :: p + 6 <= j < q ==> html[j] != '>') &&
    |g| > 0 && (forall j :: 0 <= j < |g| ==> g[j] != '<') &&
    html[q + 1..q + 1 + |g|] == g &&
    Lower(html[q + 1 + |g|..q + 1 + |g| + 8]) == "</title>"
  }

  /** A match found by `TitleAt` is one the pattern describes, with `>` at the first `>`. */
  lemma TitleAtSound(html: string, p: nat)
    requires p <= |html| && TitleAt(html, p).Some?
    ensures TitleMatch(html, p, FindChar(html, '>', p + 6), TitleAt(html, p).value)
  {
    var q := FindChar(html, '>', p + 6);
    var r := FindChar(html, '<', q + 1);
    var g := html[q + 1..r];
    forall j | 0 <= j < |g|
      ensures g[j] != '<'
    {
      assert g[j] == html[q + 1 + j];
    }
  }

  /** Lower-casing leaves `<` only where it already was. */
  lemma LowerLessThan(s: string)
    requires |s| > 0 && Lower(s)[0] == '<'
    ensures s[0] == '<'
  {
  }

  /** Every match the pattern describes is the one `TitleAt` finds. */
  lemma TitleAtComplete(html: string, p: nat, q: nat, g: string)
    requires TitleMatch(html, p, q, g)
    ensures TitleAt(html, p) == Some(g)
  {
    var r := q + 1 + |g|;
    var close := html[r..r + 8];
    assert Lower(close)[0] == '<';
    LowerLessThan(close);
    assert FindChar(html, '>', p + 6) == q;
    forall j | q + 1 <= j < r
      ensures html[j] != '<'
    {
      assert html[j] == html[q + 1..r][j - q - 1] == g[j - q - 1];
    }
    assert FindChar(html, '<', q + 1) == r;
  }

  /** Whether a match starts at `k`. */
  function TitleStarts(html: string): nat -> bool
  {
    (k: nat) => k <= |html| && TitleAt(html, k).Some?
  }

  /** The least `k` in `p..n` with `ok(k)`. */
  function FirstFrom(ok: nat -> bool, p: nat, n: nat): (r: Option<nat>)
    requires p <= n
    ensures r.Some? ==> p <= r.value <= n && ok(r.value)
    decreases n - p
  {
    if ok(p) then Some(p)
    else if p == n then None
    else FirstFrom(ok, p + 1, n)
  }

  /** The search finds nothing exactly when no `k` in `p..n` satisfies `ok`. */
  lemma {:induction false} FirstFromNone(ok: nat -> bool, p: nat, n: nat)
    requires p <= n
    ensures FirstFrom(ok, p, n).None? <==> forall k: nat :: p <= k <= n ==> !ok(k)
    decreases n - p
  {
    if !ok(p) && p < n {
      FirstFromNone(ok, p + 1, n);
    }
  }

  /** The search finds the `k` that satisfies `ok` when nothing before it does. */
  lemma {:induction false} FirstFromIs(ok: nat -> bool, p: nat, k: nat, n: nat)
    requires p <= k <= n && ok(k)
    requires forall m: nat :: p <= m < k ==> !ok(m)
    ensures FirstFrom(ok, p, n) == Some(k)
    decreases k - p
  {
    if p < k {
      FirstFromIs(ok, p + 1, k, n);
    }
  }

  const UnknownHotel: string := "Unknown Hotel"

  /** The stripped group of the first title match, else `"Unknown Hotel"`. */
  function HotelNameBasic(html: string): string
  {
    match FirstFrom(TitleStarts(html), 0, |html|)
    case Some(k) => Strip(TitleAt(html, k).value)
    case None => UnknownHotel
  }

  /** When the pattern describes no match before `p`, `TitleAt` finds none there either. */
  lemma NoEarlierTitle(html: string, p: nat)
    requires p <= |html|
    requires forall m, q, g :: 0 <= m < p && q >= 0 ==> !TitleMatch(html, m, q, g)
    ensures forall m: nat :: 0 <= m < p ==> !TitleStarts(html)(m)
  {
    forall m | 0 <= m < p && TitleAt(html, m).Some?
      ensures TitleMatch(html, m, FindChar(html, '>', m + 6), TitleAt(html, m).value)
    {
      TitleAtSound(html, m);
    }
  }

  /** The name is the stripped group of the leftmost match the pattern describes. */
  lemma HotelNameBasicFromTitle(html: string, p: nat, q: nat, g: string)
    requires TitleMatch(html, p, q, g)
    requires forall m, q', g' :: 0 <= m < p && q' >= 0 ==> !TitleMatch(html, m, q', g')
    ensures HotelNameBasic(html) == Strip(g)
  {
    TitleAtComplete(html, p, q, g);
    NoEarlierTitle(html, p);
    FirstFromIs(TitleStarts(html), 0, p, |html|);
  }

  /** The name is the sentinel exactly when no match is found, and no match is found
      exactly when the pattern describes none. */
  lemma HotelNameBasicUnknown(html: string)
    ensures FirstFrom(TitleStarts(html), 0, |html|).None? ==> HotelNameBasic(html) == UnknownHotel
    ensures FirstFrom(TitleStarts(html), 0, |html|).None? <==> forall p, q, g :: q >= 0 ==> !TitleMatch(html, p, q, g)
  {
    forall p: nat, q: nat, g | TitleMatch(html, p, q, g)
      ensures TitleStarts(html)(p)
    {
      TitleAtComplete(html, p, q, g);
    }
    FirstFromNone(TitleStarts(html), 0, |html|);
    if FirstFrom(TitleStarts(html), 0, |html|).Some? {
      TitleAtSound(html, FirstFrom(TitleStarts(html), 0, |html|).value);
    }
  }

  // ---------------------------------------------------------------------
  // _extract_basic_info
  // ---------------------------------------------------------------------

  datatype Parking = Parking(available: Option<bool>, cost: Option<string>, kind: Option<string>)

  /** The parking chain: free or complimentary parking, else valet, else any mention. */
  function ParkingAfter(pk: Parking, html: string): Parking
  {
    if Contains(html, "free parking") || Contains(html, "complimentary parking") then
      pk.(cost := Some("Free"), available := Some(true))
    else if Contains(html, "valet") then pk.(kind := Some("Valet"), available := Some(true))
    else if Contains(html, "parking") then pk.(available := Some(true))
    else pk
  }

  function RoomServiceAfter(rs: Option<string>, html: string): Option<string>
  {
    if Contains(html, "room service") then Some("Available") else rs
  }

  function BreakfastAfter(b: Option<string>, html: string): Option<string>
  {
    if Contains(html, "complimentary breakfast") || Contains(html, "free breakfast") then
      Some("Complimentary breakfast included")
    else if Contains(html, "breakfast") then Some("Breakfast available")
    else b
  }

  method SetParking(h: HotelInfo, html: string)
    modifies h`parkingAvailable, h`parkingCost, h`parkingType
    ensures Parking(h.parkingAvailable, h.parkingCost, h.parkingType) ==
      ParkingAfter(old(Parking(h.parkingAvailable, h.parkingCost, h.parkingType)), html)
  {
    if Contains(html, "free parking") || Contains(html, "complimentary parking") {
      h.parkingCost := Some("Free");
      h.parkingAvailable := Some(true);
    } else if Contains(html, "valet") {
      h.parkingType := Some("Valet");
      h.parkingAvailable := Some(true);
    } else if Contains(html, "parking") {
      h.parkingAvailable := Some(true);
    }
  }

  method SetWifiAndPets(h: HotelInfo, html: string)
    modifies h`wifiInfo, h`petPolicy
    ensures h.wifiInfo == HotelScraper.WifiAfter(old(h.wifiInfo), html)
    ensures h.petPolicy == HotelScraper.PetAfter(old(h.petPolicy), html)
  {
    if Contains(html, "free wifi") || Contains(html, "complimentary wifi") {
      h.wifiInfo := Some("Free WiFi available");
    } else if Contains(html, "wifi") {
      h.wifiInfo := Some("WiFi available");
    }
    if Contains(html, "pet friendly") || Contains(html, "pets welcome") {
      h.petPolicy := Some("Pet friendly");
    } else if Contains(html, "no pets") {
      h.petPolicy := Some("No pets allowed");
    }
  }

  method SetDining(h: HotelInfo, html: string)
    modifies h`roomService, h`breakfastInfo
    ensures h.roomService == RoomServiceAfter(old(h.roomService), html)
    ensures h.breakfastInfo == BreakfastAfter(old(h.breakfastInfo), html)
  {
    if Contains(html, "room service") {
      h.roomService := Some("Available");
    }
    if Contains(html, "complimentary breakfast") || Contains(html, "free breakfast") {
      h.breakfastInfo := Some("Complimentary breakfast included");
    } else if Contains(html, "breakfast") {
      h.breakfastInfo := Some("Breakfast available");
    }
  }

  method SetSearches(h: HotelInfo, html: string, re: Regex)
    modifies h`phone, h`checkinTime, h`checkoutTime
    ensures h.phone == HotelScraper.Found(re(PhoneTenDigit, html), old(h.phone))
    ensures h.checkinTime == HotelScraper.Found(FirstMatch(HotelScraper.CheckInPatterns, html, re), old(h.checkinTime))
    ensures h.checkoutTime == HotelScraper.Found(FirstMatch(HotelScraper.CheckOutPatterns, html, re), old(h.checkoutTime))
  {
    var phoneMatch := re(PhoneTenDigit, html);
    if phoneMatch.Some? {
      h.phone := phoneMatch;
    }
    var checkin := SearchPatterns(HotelScraper.CheckInPatterns, html, re);
    if checkin.Some? {
      h.checkinTime := checkin;
    }
    var checkout := SearchPatterns(HotelScraper.CheckOutPatterns, html, re);
    if checkout.Some? {
      h.checkoutTime := checkout;
    }
  }

  method SetFlags(h: HotelInfo, html: string)
    modifies h`fitnessCenter, h`pool
    ensures h.fitnessCenter == Some(Contains(html, "fitness") || Contains(html, "gym"))
    ensures h.pool == Some(Contains(html, "pool") || Contains(html, "swimming"))
  {
    h.fitnessCenter := Some(Contains(html, "fitness") || Contains(html, "gym"));
    h.pool := Some(Contains(html, "pool") || Contains(html, "swimming"));
  }

  /** `_extract_basic_info` on the lower-cased page: each field is given by the search or
      plain substring chain for it; fitness center and pool are always booleans afterwards. */
  method ExtractBasicInfo(h: HotelInfo, html: string, re: Regex)
    modifies h`phone, h`checkinTime, h`checkoutTime, h`parkingAvailable, h`parkingCost, h`parkingType,
      h`wifiInfo, h`fitnessCenter, h`pool, h`petPolicy, h`roomService, h`breakfastInfo
    ensures h.phone == HotelScraper.Found(re(PhoneTenDigit, html), old(h.phone))
    ensures h.checkinTime == HotelScraper.Found(FirstMatch(HotelScraper.CheckInPatterns, html, re), old(h.checkinTime))
    ensures h.checkoutTime == HotelScraper.Found(FirstMatch(HotelScraper.CheckOutPatterns, html, re), old(h.checkoutTime))
    ensures Parking(h.parkingAvailable, h.parkingCost, h.parkingType) ==
      ParkingAfter(old(Parking(h.parkingAvailable, h.parkingCost, h.parkingType)), html)
    ensures h.wifiInfo == HotelScraper.WifiAfter(old(h.wifiInfo), html)
    ensures h.petPolicy == HotelScraper.PetAfter(old(h.petPolicy), html)
    ensures h.fitnessCenter == Some(Contains(html, "fitness") || Contains(html, "gym"))
    ensures h.pool == Some(Contains(html, "pool") || Contains(html, "swimming"))
    ensures h.roomService == RoomServiceAfter(old(h.roomService), html)
    ensures h.breakfastInfo == BreakfastAfter(old(h.breakfastInfo), html)
  {
    SetSearchesAndParking(h, html, re);
    SetAmenitiesAndDining(h, html);
  }

  method SetSearchesAndParking(h: HotelInfo, html: string, re: Regex)
    modifies h`phone, h`checkinTime, h`checkoutTime, h`parkingAvailable, h`parkingCost, h`parkingType
    ensures h.phone == HotelScraper.Found(re(PhoneTenDigit, html), old(h.phone))
    ensures h.checkinTime == HotelScraper.Found(FirstMatch(HotelScraper.CheckInPatterns, html, re), old(h.checkinTime))
    ensures h.checkoutTime == HotelScraper.Found(FirstMatch(HotelScraper.CheckOutPatterns, html, re), old(h.checkoutTime))
    ensures Parking(h.parkingAvailable, h.parkingCost, h.parkingType) ==
      ParkingAfter(old(Parking(h.parkingAvailable, h.parkingCost, h.parkingType)), html)
  {
    SetSearches(h, html, re);
    SetParking(h, html);
  }

  method SetAmenitiesAndDining(h: HotelInfo, html: string)
    modifies h`wifiInfo, h`fitnessCenter, h`pool, h`petPolicy, h`roomService, h`breakfastInfo
    ensures h.wifiInfo == HotelScraper.WifiAfter(old(h.wifiInfo), html)
    ensures h.petPolicy == HotelScraper.PetAfter(old(h.petPolicy), html)
    ensures h.fitnessCenter == Some(Contains(html, "fitness") || Contains(html, "gym"))
    ensures h.pool == Some(Contains(html, "pool") || Contains(html, "swimming"))
    ensures h.roomService == RoomServiceAfter(old(h.roomService), html)
    ensures h.breakfastInfo == BreakfastAfter(old(h.breakfastInfo), html)
  {
    SetWifiAndPets(h, html);
    SetFlags(h, html);
    SetDining(h, html);
  }

  /** The phone is the ten-digit match when there is one; check-in and check-out are each
      the group of their own first matching pattern, and each field is kept when nothing
      matches. */
  lemma BasicSearches(phone: Option<string>, checkin: Option<string>, checkout: Option<string>, html: string, re: Regex)
    ensures HotelScraper.Found(re(PhoneTenDigit, html), phone) == if re(PhoneTenDigit, html).Some? then re(PhoneTenDigit, html) else phone
    ensures var r := HotelScraper.Found(FirstMatch(HotelScraper.CheckInPatterns, html, re), checkin);
      (re(CheckInColon, html).Some? ==> r == re(CheckInColon, html)) &&
      (re(CheckInColon, html).None? && re(ArrivalTime, html).Some? ==> r == re(ArrivalTime, html)) &&
      (re(CheckInColon, html).None? && re(ArrivalTime, html).None? ==> r == checkin)
    ensures var r := HotelScraper.Found(FirstMatch(HotelScraper.CheckOutPatterns, html, re), checkout);
      (re(CheckOutColon, html).Some? ==> r == re(CheckOutColon, html)) &&
      (re(CheckOutColon, html).None? && re(DepartureTime, html).Some? ==> r == re(DepartureTime, html)) &&
      (re(CheckOutColon, html).None? && re(DepartureTime, html).None? ==> r == checkout)
  {
    FirstMatchSpec(HotelScraper.CheckInPatterns, html, re);
    FirstMatchSpec(HotelScraper.CheckOutPatterns, html, re);
  }

  /** Parking fields are untouched unless parking or valet is mentioned. Free or
      complimentary parking sets the cost, else valet sets the type, else a bare mention
      sets only availability; every branch marks parking available. */
  lemma ParkingPrecedence(pk: Parking, html: string)
    ensures !Contains(html, "parking") && !Contains(html, "valet") ==> ParkingAfter(pk, html) == pk
    ensures Contains(html, "parking") || Contains(html, "valet") ==> ParkingAfter(pk, html).available == Some(true)
    ensures Contains(html, "free parking") || Contains(html, "complimentary parking") ==>
      ParkingAfter(pk, html) == Parking(Some(true), Some("Free"), pk.kind)
    ensures !Contains(html, "free parking") && !Contains(html, "complimentary parking") && Contains(html, "valet") ==>
      ParkingAfter(pk, html) == Parking(Some(true), pk.cost, Some("Valet"))
    ensures !Contains(html, "free parking") && !Contains(html, "complimentary parking") && !Contains(html, "valet") ==>
      ParkingAfter(pk, html).cost == pk.cost && ParkingAfter(pk, html).kind == pk.kind
  {
    if Contains(html, "free parking") {
      assert "free parking" == "free " + "parking";
      ContainsSuffix("free ", "parking");
      ContainsTransitive(html, "free parking", "parking");
    }
    if Contains(html, "complimentary parking") {
      assert "complimentary parking" == "complimentary " + "parking";
      ContainsSuffix("complimentary ", "parking");
      ContainsTransitive(html, "complimentary parking", "parking");
    }
  }

  /** Complimentary breakfast wins over plain breakfast; the field changes exactly when
      breakfast is mentioned; room service is set only when it is mentioned. */
  lemma BreakfastAndRoomService(b: Option<string>, rs: Option<string>, html: string)
    ensures Contains(html, "complimentary breakfast") || Contains(html, "free breakfast") ==>
      BreakfastAfter(b, html) == Some("Complimentary breakfast included")
    ensures BreakfastAfter(b, html) == Some("Breakfast available") && b != Some("Breakfast available") ==>
      Contains(html, "breakfast") && !Contains(html, "complimentary breakfast") && !Contains(html, "free breakfast")
    ensures !Contains(html, "breakfast") ==> BreakfastAfter(b, html) == b
    ensures RoomServiceAfter(rs, html) == (if Contains(html, "room service") then Some("Available") else rs)
  {
    if Contains(html, "complimentary breakfast") {
      assert "complimentary breakfast" == "complimentary " + "breakfast";
      ContainsSuffix("complimentary ", "breakfast");
      ContainsTransitive(html, "complimentary breakfast", "breakfast");
    }
    if Contains(html, "free breakfast") {
      assert "free breakfast" == "free " + "breakfast";
      ContainsSuffix("free ", "breakfast");
      ContainsTransitive(html, "free breakfast", "breakfast");
    }
  }

  // ---------------------------------------------------------------------
  // save_for_rag and scrape_hotels
  // ---------------------------------------------------------------------

  /** The path `save_for_rag` returns, or `None` for a format other than json, txt and
      markdown, where `filename` is never bound and the call raises. */
  function SaveForRag(hotelName: string, outputDir: string, timestamp: string, format: string): Option<string>
  {
    match RagFileName(CleanName(hotelName), timestamp, format)
    case None => None
    case Some(filename) => Some(PathJoin(outputDir, filename))
  }

  /** `filename` in `save_for_rag`, or `None` where no branch binds it. */
  function RagFileName(clean: string, timestamp: string, format: string): Option<string>
  {
    if format == "json" then Some(clean + "_" + timestamp + ".json")
    else if format == "txt" then Some(clean + "_" + timestamp + "_rag.txt")
    else if format == "markdown" then Some(clean + "_" + timestamp + ".md")
    else None
  }

  /** A path exists exactly for json, txt and markdown. */
  lemma SaveForRagKnown(hotelName: string, outputDir: string, timestamp: string, format: string)
    ensures SaveForRag(hotelName, outputDir, timestamp, format).Some? <==> format in ["json", "txt", "markdown"]
  {
    var n := RagFileName(CleanName(hotelName), timestamp, format);
    assert SaveForRag(hotelName, outputDir, timestamp, format).Some? <==> n.Some?;
    if format == "json" || format == "txt" || format == "markdown" {
      assert n.Some?;
    } else {
      assert n.None?;
    }
  }

  /** A file name starts with the cleaned name and the timestamp, with an ending whose
      length tells the three formats apart, so no two formats share a name. */
  lemma RagFileNameShape(clean: string, timestamp: string, format: string)
    ensures var n := RagFileName(clean, timestamp, format);
      n.Some? ==>
        StartsWith(n.value, clean + "_" + timestamp) &&
        |n.value| == |clean + "_" + timestamp| + (if format == "json" then 5 else if format == "txt" then 8 else 3)
  {
    var base := clean + "_" + timestamp;
    if format == "json" {
      Extended(base, ".json");
    } else if format == "txt" {
      Extended(base, "_rag.txt");
    } else if format == "markdown" {
      Extended(base, ".md");
    }
  }

  /** The path is the file name below the output directory: it ends with a name made of
      the cleaned hotel name, the timestamp and the format's ending, is that name alone
      below `"."`, and otherwise starts with the directory. */
  lemma SaveForRagPath(hotelName: string, outputDir: string, timestamp: string, format: string)
    ensures var r := SaveForRag(hotelName, outputDir, timestamp, format);
      var n := RagFileName(CleanName(hotelName), timestamp, format);
      r.Some? ==>
        n.Some? && |n.value| <= |r.value| && r.value[|r.value| - |n.value|..] == n.value &&
        (outputDir == "." ==> r.value == n.value) &&
        (outputDir != "." ==> StartsWith(r.value, outputDir))
  {
    var n := RagFileName(CleanName(hotelName), timestamp, format);
    if n.Some? {
      PathJoinSpec(outputDir, n.value);
    }
  }

  /** What `scrape_hotel_basic` gives for one `(url, hotel_name)`: the record's hotel name,
      or the message of the exception it raised. */
  datatype Scraped = Scraped(hotelName: string) | Raised(message: string)
  type Scrape = (string, string) -> Scraped

  /** One entry of `results`: `(hotel_name, filename, status)`. */
  datatype Outcome = Outcome(hotelName: string, filename: Option<string>, status: string)

  const Success: string := "success"

  /** The message `str(e)` gives for the unbound `filename`. */
  type UnboundMessage = string

  function OutcomeFor(pair: (string, string), scrape: Scrape, outputDir: string, timestamp: string,
                      format: string, unbound: UnboundMessage): Outcome
  {
    match scrape(pair.0, pair.1)
    case Raised(m) => Outcome(pair.1, None, "error: " + m)
    case Scraped(name) =>
      match SaveForRag(name, outputDir, timestamp, format)
      case None => Outcome(pair.1, None, "error: " + unbound)
      case Some(path) => Outcome(pair.1, Some(path), Success)
  }

  function Results(pairs: seq<(string, string)>, scrape: Scrape, outputDir: string, timestamp: string,
                   format: string, unbound: UnboundMessage): (r: seq<Outcome>)
    ensures |r| == |pairs|
  {
    if pairs == [] then []
    else
      var front := Results(pairs[..|pairs| - 1], scrape, outputDir, timestamp, format, unbound);
      front + [OutcomeFor(pairs[|pairs| - 1], scrape, outputDir, timestamp, format, unbound)]
  }

  /** `sum(1 for _, _, status in results if status == "success")`. */
  function SuccessCount(results: seq<Outcome>): nat
  {
    if results == [] then 0
    else SuccessCount(results[..|results| - 1]) + (if results[|results| - 1].status == Success then 1 else 0)
  }

  /** The hotels that were scraped and saved. */
  function SavedCount(pairs: seq<(string, string)>, scrape: Scrape, format: string): nat
  {
    if pairs == [] then 0
    else
      var p := pairs[|pairs| - 1];
      SavedCount(pairs[..|pairs| - 1], scrape, format) +
        (if scrape(p.0, p.1).Scraped? && format in ["json", "txt", "markdown"] then 1 else 0)
  }

  /** An error status is never `"success"`. */
  lemma ErrorIsNotSuccess(m: string)
    ensures "error: " + m != Success
  {
    assert ("error: " + m)[0] == 'e' != Success[0];
  }

  /** The status is success exactly when the hotel was scraped and its format is known, and
      only then is there a file name. */
  lemma OutcomeSuccessIff(pair: (string, string), scrape: Scrape, outputDir: string, timestamp: string,
                          format: string, unbound: UnboundMessage)
    ensures var o := OutcomeFor(pair, scrape, outputDir, timestamp, format, unbound);
      (o.status == Success <==> scrape(pair.0, pair.1).Scraped? && format in ["json", "txt", "markdown"]) &&
      (o.filename.Some? <==> o.status == Success) && o.hotelName == pair.1
  {
    match scrape(pair.0, pair.1)
    case Raised(m) => ErrorIsNotSuccess(m);
    case Scraped(name) =>
      ErrorIsNotSuccess(unbound);
      SaveForRagKnown(name, outputDir, timestamp, format);
  }

  /** The success count is the number of hotels scraped and saved, so never more than the
      number of hotels, and zero for an unknown format. */
  lemma {:induction false} SuccessCountIsSaved(pairs: seq<(string, string)>, scrape: Scrape, outputDir: string,
                                               timestamp: string, format: string, unbound: UnboundMessage)
    ensures SuccessCount(Results(pairs, scrape, outputDir, timestamp, format, unbound)) == SavedCount(pairs, scrape, format)
    ensures SavedCount(pairs, scrape, format) <= |pairs|
    ensures format !in ["json", "txt", "markdown"] ==> SavedCount(pairs, scrape, format) == 0
  {
    if pairs != [] {
      var front := pairs[..|pairs| - 1];
      SuccessCountIsSaved(front, scrape, outputDir, timestamp, format, unbound);
      var rs := Results(pairs, scrape, outputDir, timestamp, format, unbound);
      assert rs[..|rs| - 1] == Results(front, scrape, outputDir, timestamp, format, unbound);
      OutcomeSuccessIff(pairs[|pairs| - 1], scrape, outputDir, timestamp, format, unbound);
    }
  }

  /** The loop of `scrape_hotels` and its summary count. */
  method ScrapeHotels(pairs: seq<(string, string)>, scrape: Scrape, outputDir: string, timestamp: string,
                      format: string, unbound: UnboundMessage) returns (results: seq<Outcome>, successful: nat)
    ensures results == Results(pairs, scrape, outputDir, timestamp, format, unbound)
    ensures successful == SavedCount(pairs, scrape, format)
  {
    results := [];
    for i := 0 to |pairs|
      invariant results == Results(pairs[..i], scrape, outputDir, timestamp, format, unbound)
    {
      assert pairs[..i + 1][..i] == pairs[..i];
      var (url, name) := pairs[i];
      var outcome: Outcome;
      match scrape(url, name) {
        case Raised(m) => outcome := Outcome(name, None, "error: " + m);
        case Scraped(hotel) =>
          var filename := SaveForRag(hotel, outputDir, timestamp, format);
          if filename.None? {
            outcome := Outcome(name, None, "error: " + unbound);
          } else {
            outcome := Outcome(name, filename, Success);
          }
      }
      assert outcome == OutcomeFor(pairs[i], scrape, outputDir, timestamp, format, unbound);
      assert Results(pairs[..i + 1], scrape, outputDir, timestamp, format, unbound) ==
        Results(pairs[..i], scrape, outputDir, timestamp, format, unbound) + [outcome];
      results := results + [outcome];
    }
    assert pairs[..|pairs|] == pairs;
    successful := SuccessCount(results);
    SuccessCountIsSaved(pairs, scrape, outputDir, timestamp, format, unbound);
  }
}
