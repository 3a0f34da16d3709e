/**
 * The two record fillers the AI-enhanced scraper runs after the group extractors:
 * `_parse_ai_response`, which reads the `KEY: value` lines of a text-generation reply, and
 * `_basic_content_extraction`, the pattern fallback used when the AI path fails.
 */
module AiResponse {
  import opened Wrappers
  import opened Strings
  import opened Patterns
  import opened IntelligentRecord

  // ---------------------------------------------------------------------
  // _parse_ai_response
  // ---------------------------------------------------------------------

  /** The fields `_parse_ai_response` can set. */
  datatype Parsed = Parsed(
    hotelName: string, address: Option<string>, phone: Option<string>, email: Option<string>,
    checkinTime: Option<string>, checkoutTime: Option<string>, roomAmenities: seq<string>,
    restaurants: seq<Restaurant>, spaServices: seq<string>, nearbyAttractions: seq<Place>,
    cancellationPolicy: Option<string>)

  function ParsedOf(h: IntelligentHotelInfo): Parsed
    reads h
  {
    Parsed(h.hotelName, h.address, h.phone, h.email, h.checkinTime, h.checkoutTime, h.roomAmenities,
      h.restaurants, h.spaServices, h.nearbyAttractions, h.cancellationPolicy)
  }

  /** The keys the parser knows. */
  datatype Key =
    | HotelNameKey | AddressKey | PhoneKey | EmailKey | CheckInKey | CheckOutKey
    | AmenitiesKey | DiningKey | SpaServicesKey | NearbyKey | PoliciesKey

  function KeyNamed(key: string): Option<Key>
  {
    if key == "HOTEL_NAME" then Some(HotelNameKey)
    else if key == "ADDRESS" then Some(AddressKey)
    else if key == "PHONE" then Some(PhoneKey)
    else if key == "EMAIL" then Some(EmailKey)
    else if key == "CHECK_IN" then Some(CheckInKey)
    else if key == "CHECK_OUT" then Some(CheckOutKey)
    else if key == "AMENITIES" then Some(AmenitiesKey)
    else if key == "DINING" then Some(DiningKey)
    else if key == "SPA_SERVICES" then Some(SpaServicesKey)
    else if key == "NEARBY" then Some(NearbyKey)
    else if key == "POLICIES" then Some(PoliciesKey)
    else None
  }

  /** The bracketed placeholder the reply template shows for each key; a value equal to it
      means the slot was left unfilled. */
  function Placeholder(k: Key): string
  {
    match k
    case HotelNameKey => "[hotel name]"
    case AddressKey => "[full address]"
    case PhoneKey => "[phone number]"
    case EmailKey => "[email address]"
    case CheckInKey => "[check-in time]"
    case CheckOutKey => "[check-out time]"
    case AmenitiesKey => "[list amenities separated by commas]"
    case DiningKey => "[restaurant/dining options]"
    case SpaServicesKey => "[spa services available]"
    case NearbyKey => "[nearby attractions]"
    case PoliciesKey => "[important policies]"
  }

  /** `[a.strip() for a in value.split(',')]`. */
  function CommaList(value: string): (r: seq<string>)
    ensures |r| == |SplitOn(value, ",")|
    ensures forall i :: 0 <= i < |r| ==> NoSpaceEnds(r[i]) && Contains(value, r[i])
  {
    SplitPiecesContained(value, ",");
    var r := SplitStrip(value, ",");
    assert forall i :: 0 <= i < |r| ==> Contains(SplitOn(value, ",")[i], r[i]);
    assert forall i :: 0 <= i < |r| ==> SplitOn(value, ",")[i] in SplitOn(value, ",");
    forall i | 0 <= i < |r|
      ensures Contains(value, r[i])
    {
      ContainsTransitive(value, SplitOn(value, ",")[i], r[i]);
    }
    r
  }

  function PlaceTexts(xs: seq<string>): (r: seq<Place>)
    ensures |r| == |xs|
    ensures forall i :: 0 <= i < |r| ==> r[i] == PlaceText(xs[i])
  {
    seq(|xs|, i requires 0 <= i < |xs| => PlaceText(xs[i]))
  }

  /** One `KEY: value` pair: the `if/elif` chain of the parser. A known key whose value is
      its placeholder fails its own test and, the keys being distinct, every later one. */
  function ApplyPair(p: Parsed, key: string, value: string): Parsed
  {
    match KeyNamed(key)
    case None => p
    case Some(k) => if value == Placeholder(k) then p else SetField(p, k, value)
  }

  /** The assignment of a filled-in value. */
  function SetField(p: Parsed, k: Key, value: string): Parsed
  {
    match k
    case HotelNameKey => p.(hotelName := value)
    case AddressKey => p.(address := Some(value))
    case PhoneKey => p.(phone := Some(value))
    case EmailKey => p.(email := Some(value))
    case CheckInKey => p.(checkinTime := Some(value))
    case CheckOutKey => p.(checkoutTime := Some(value))
    case AmenitiesKey => p.(roomAmenities := CommaList(value))
    case DiningKey => p.(restaurants := [RestaurantText(value)])
    case SpaServicesKey => p.(spaServices := CommaList(value))
    case NearbyKey => p.(nearbyAttractions := PlaceTexts(CommaList(value)))
    case PoliciesKey =>
      if Truthy(p.cancellationPolicy) then p else p.(cancellationPolicy := Some(value))
  }

  /** `line.strip()`; when it contains `':'`, the stripped text before and after its first
      `':'` (`line.split(':', 1)`). */
  function SplitLine(line: string): Option<(string, string)>
  {
    var l := Strip(line);
    var k := Find(l, ":");
    FindSpec(l, ":");
    if k < 0 then None else Some((Strip(l[..k]), Strip(l[k + 1..])))
  }

  function ApplyLine(p: Parsed, line: string): Parsed
  {
    match SplitLine(line)
    case None => p
    case Some((key, value)) => ApplyPair(p, key, value)
  }

  /** The lines applied one after another, first to last. */
  function ParseLines(p: Parsed, lines: seq<string>): Parsed
    decreases |lines|
  {
    if lines == [] then p else ApplyLine(ParseLines(p, lines[..|lines| - 1]), lines[|lines| - 1])
  }

  /** The effect of `_parse_ai_response` on the fields it can set. */
  function ParseResponse(p: Parsed, response: string): Parsed
  {
    ParseLines(p, SplitOn(response, "\n"))
  }

  /** The record reading: go through the lines of the reply and apply each pair in turn. */
  method ParseAiResponse(h: IntelligentHotelInfo, response: string)
    modifies h`hotelName, h`address, h`phone, h`email, h`checkinTime, h`checkoutTime
    modifies h`roomAmenities, h`restaurants, h`spaServices, h`nearbyAttractions, h`cancellationPolicy
    ensures ParsedOf(h) == ParseResponse(old(ParsedOf(h)), response)
  {
    var lines := SplitOn(response, "\n");
    for i := 0 to |lines|
      invariant ParsedOf(h) == ParseLines(old(ParsedOf(h)), lines[..i])
    {
      ParseLinesStep(old(ParsedOf(h)), lines, i);
      ApplyLineTo(h, lines[i]);
    }
    assert lines[..|lines|] == lines;
  }

  method ApplyLineTo(h: IntelligentHotelInfo, rawLine: string)
    modifies h`hotelName, h`address, h`phone, h`email, h`checkinTime, h`checkoutTime
    modifies h`roomAmenities, h`restaurants, h`spaServices, h`nearbyAttractions, h`cancellationPolicy
    ensures ParsedOf(h) == ApplyLine(old(ParsedOf(h)), rawLine)
  {
    var pair := SplitLine(rawLine);
    if pair.Some? {
      ApplyPairTo(h, pair.value.0, pair.value.1);
    }
  }

  lemma ParseLinesStep(p: Parsed, lines: seq<string>, i: nat)
    requires i < |lines|
    ensures ParseLines(p, lines[..i + 1]) == ApplyLine(ParseLines(p, lines[..i]), lines[i])
  {
    assert lines[..i + 1][..i] == lines[..i];
  }

  method ApplyPairTo(h: IntelligentHotelInfo, key: string, value: string)
    modifies h`hotelName, h`address, h`phone, h`email, h`checkinTime, h`checkoutTime
    modifies h`roomAmenities, h`restaurants, h`spaServices, h`nearbyAttractions, h`cancellationPolicy
    ensures ParsedOf(h) == ApplyPair(old(ParsedOf(h)), key, value)
  {
    var k := KeyNamed(key);
    if k.Some? && value != Placeholder(k.value) {
      SetFieldTo(h, k.value, value);
    }
  }

  method SetFieldTo(h: IntelligentHotelInfo, k: Key, value: string)
    modifies h`hotelName, h`address, h`phone, h`email, h`checkinTime, h`checkoutTime
    modifies h`roomAmenities, h`restaurants, h`spaServices, h`nearbyAttractions, h`cancellationPolicy
    ensures ParsedOf(h) == SetField(old(ParsedOf(h)), k, value)
  {
    match k
    case HotelNameKey => h.hotelName := value;
    case AddressKey => h.address := Some(value);
    case PhoneKey => h.phone := Some(value);
    case EmailKey => h.email := Some(value);
    case CheckInKey => h.checkinTime := Some(value);
    case CheckOutKey => h.checkoutTime := Some(value);
    case AmenitiesKey => h.roomAmenities := CommaList(value);
    case DiningKey => h.restaurants := [RestaurantText(value)];
    case SpaServicesKey => h.spaServices := CommaList(value);
    case NearbyKey => h.nearbyAttractions := PlaceTexts(CommaList(value));
    case PoliciesKey =>
      if !Truthy(h.cancellationPolicy) {
        h.cancellationPolicy := Some(value);
      }
  }

  /** A line is split at its first `':'`: whenever the stripped line is a colon-free key
      text, a `':'` and a value text, the pair is those two texts stripped. */
  lemma SplitLineAtFirstColon(line: string, rawKey: string, rawValue: string)
    requires Strip(line) == rawKey + ":" + rawValue && !Contains(rawKey, ":")
    ensures SplitLine(line) == Some((Strip(rawKey), Strip(rawValue)))
  {
    var l := Strip(line);
    var n := |rawKey|;
    ConcatParts(rawKey, ":", rawValue);
    FindSpec(l, ":");
    assert OccursAt(l, ":", n);
    var k := Find(l, ":");
    if k < n {
      OccursInPrefix(l, ":", k, n);
      ContainsAt(rawKey, ":", k);
      assert false;
    }
  }

  lemma ConcatParts(a: string, b: string, c: string)
    ensures (a + b + c)[..|a|] == a
    ensures (a + b + c)[|a|..|a| + |b|] == b
    ensures (a + b + c)[|a| + |b|..] == c
  {
  }

  lemma OccursInPrefix(s: string, t: string, k: nat, n: nat)
    requires OccursAt(s, t, k) && k + |t| <= n <= |s|
    ensures OccursAt(s[..n], t, k)
  {
    assert s[..n][k..k + |t|] == s[k..k + |t|];
  }

  /** A line yields a pair exactly when its stripped text contains `':'`, and then the key
      holds no `':'` and neither part has whitespace at its ends. */
  lemma SplitLineShape(line: string)
    ensures SplitLine(line).Some? <==> Contains(Strip(line), ":")
    ensures SplitLine(line).Some? ==>
      var (key, value) := SplitLine(line).value;
      !Contains(key, ":") && NoSpaceEnds(key) && NoSpaceEnds(value)
  {
    var l := Strip(line);
    FindSpec(l, ":");
    var k := Find(l, ":");
    if k >= 0 {
      PrefixBeforeFirstIsFree(l, ":", k);
      var key := Strip(l[..k]);
      if Contains(key, ":") {
        ContainsTransitive(l[..k], key, ":");
        assert false;
      }
    }
  }

  /** A value equal to its key's placeholder, and any key the parser does not know, changes
      nothing. */
  lemma UnfilledOrUnknownChangesNothing(p: Parsed, key: string, value: string)
    requires KeyNamed(key).None? || value == Placeholder(KeyNamed(key).value)
    ensures ApplyPair(p, key, value) == p
  {
  }

  /** `POLICIES` fills the cancellation policy only while it is empty or absent. */
  lemma PoliciesOnlyIfEmpty(p: Parsed, value: string)
    requires value != "[important policies]"
    ensures ApplyPair(p, "POLICIES", value) ==
      if Truthy(p.cancellationPolicy) then p else p.(cancellationPolicy := Some(value))
  {
  }

  /** Once the cancellation policy is set, no line of any reply replaces it. */
  lemma {:induction false} CancellationPolicyKept(p: Parsed, lines: seq<string>)
    requires Truthy(p.cancellationPolicy)
    ensures ParseLines(p, lines).cancellationPolicy == p.cancellationPolicy
    decreases |lines|
  {
    if lines != [] {
      CancellationPolicyKept(p, lines[..|lines| - 1]);
      LineKeepsCancellation(ParseLines(p, lines[..|lines| - 1]), lines[|lines| - 1]);
    }
  }

  lemma LineKeepsCancellation(p: Parsed, line: string)
    requires Truthy(p.cancellationPolicy)
    ensures ApplyLine(p, line).cancellationPolicy == p.cancellationPolicy
  {
    match SplitLine(line)
    case None =>
    case Some((key, value)) => PairKeepsCancellation(p, key, value);
  }

  lemma PairKeepsCancellation(p: Parsed, key: string, value: string)
    requires Truthy(p.cancellationPolicy)
    ensures ApplyPair(p, key, value).cancellationPolicy == p.cancellationPolicy
  {
    match KeyNamed(key)
    case None =>
    case Some(k) =>
  }

  /** A line without `':'` changes nothing. */
  lemma ColonFreeLine(p: Parsed, line: string)
    requires !Contains(line, ":")
    ensures ApplyLine(p, line) == p
  {
    SplitLineShape(line);
    if Contains(Strip(line), ":") {
      ContainsTransitive(line, Strip(line), ":");
    }
  }

  lemma {:induction false} ColonFreeLines(p: Parsed, lines: seq<string>)
    requires forall i :: 0 <= i < |lines| ==> !Contains(lines[i], ":")
    ensures ParseLines(p, lines) == p
    decreases |lines|
  {
    if lines != [] {
      ColonFreeLines(p, lines[..|lines| - 1]);
      ColonFreeLine(p, lines[|lines| - 1]);
    }
  }

  /** A reply without any `':'` leaves every field as it was. */
  lemma ColonFreeResponse(p: Parsed, response: string)
    requires !Contains(response, ":")
    ensures ParseResponse(p, response) == p
  {
    var lines := SplitOn(response, "\n");
    SplitPiecesContained(response, "\n");
    forall i | 0 <= i < |lines|
      ensures !Contains(lines[i], ":")
    {
      assert lines[i] in lines;
      if Contains(lines[i], ":") {
        ContainsTransitive(response, lines[i], ":");
      }
    }
    ColonFreeLines(p, lines);
  }

  // ---------------------------------------------------------------------
  // _basic_content_extraction
  // ---------------------------------------------------------------------

  /** The fields the fallback can set. */
  datatype Basic = Basic(phone: Option<string>, email: Option<string>, roomAmenities: seq<string>)

  function BasicOf(h: IntelligentHotelInfo): Basic
    reads h
  {
    Basic(h.phone, h.email, h.roomAmenities)
  }

  const BasicAmenityKeywords: seq<string> :=
    ["pool", "wifi", "parking", "gym", "spa", "restaurant", "bar", "fitness"]

  /** The fallback: the first spaced phone number and the first e-mail address fill only an
      empty field, and the title-cased amenity keywords found in the lowered text fill an
      empty amenity list, unless none is found. */
  function BasicAfter(b: Basic, text: string, re: Regex): Basic
  {
    var phone := re(PhoneSpaced, text);
    var email := re(Email, text);
    var found := Mentions(BasicAmenityKeywords, Lower(text));
    Basic(
      if phone.Some? && !Truthy(b.phone) then phone else b.phone,
      if email.Some? && !Truthy(b.email) then email else b.email,
      if found != [] && b.roomAmenities == [] then found else b.roomAmenities)
  }

  method BasicContentExtraction(h: IntelligentHotelInfo, text: string, re: Regex)
    modifies h`phone, h`email, h`roomAmenities
    ensures BasicOf(h) == BasicAfter(old(BasicOf(h)), text, re)
  {
    var phoneMatch := re(PhoneSpaced, text);
    if phoneMatch.Some? && !Truthy(h.phone) {
      h.phone := phoneMatch;
    }
    var emailMatch := re(Email, text);
    if emailMatch.Some? && !Truthy(h.email) {
      h.email := emailMatch;
    }
    var found := CollectMentions(BasicAmenityKeywords, Lower(text));
    if found != [] && h.roomAmenities == [] {
      h.roomAmenities := found;
    }
  }

  /** A phone number, e-mail address or amenity list already present is kept. */
  lemma BasicKeepsFilled(b: Basic, text: string, re: Regex)
    ensures Truthy(b.phone) ==> BasicAfter(b, text, re).phone == b.phone
    ensures Truthy(b.email) ==> BasicAfter(b, text, re).email == b.email
    ensures b.roomAmenities != [] ==> BasicAfter(b, text, re).roomAmenities == b.roomAmenities
  {
  }

  /** An empty amenity list stays empty exactly when no amenity keyword occurs in the
      lowered text. */
  lemma BasicAmenitiesFound(b: Basic, text: string, re: Regex)
    requires b.roomAmenities == []
    ensures BasicAfter(b, text, re).roomAmenities == [] <==> !AnyIn(BasicAmenityKeywords, Lower(text))
  {
    MentionsEmptyIff(BasicAmenityKeywords, Lower(text));
  }
}
