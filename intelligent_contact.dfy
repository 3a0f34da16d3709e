/**
 * The two extractors of the AI-enhanced scraper that ask the remote model first:
 * `_extract_contact_info_ai` and `_extract_policies_ai`.
 *
 * A non-empty model result is copied field by field (only truthy values) and the
 * extractor returns; otherwise the pattern and entity fallback runs over the page text.
 * Each extractor is a method on the record, proved equal to a pure function of the old
 * field values; the lemmas are about that function.
 */
module IntelligentContact {
  import opened Wrappers
  import opened Strings
  import opened Patterns
  import opened IntelligentRecord
  import opened IntelligentText

  /** `if field in result and result[field]: setattr(hotel_info, field, result[field])`. */
  function Copied(d: map<string, string>, key: string, current: Option<string>): (r: Option<string>)
    ensures key in d && d[key] != "" ==> r == Some(d[key])
    ensures !(key in d && d[key] != "") ==> r == current
  {
    if key in d && d[key] != "" then Some(d[key]) else current
  }

  // ---------------------------------------------------------------------
  // _extract_contact_info_ai
  // ---------------------------------------------------------------------

  /** The fields the contact extractor may change. */
  datatype Contact = Contact(
    hotelName: string, phone: Option<string>, email: Option<string>, address: Option<string>,
    city: Option<string>, state: Option<string>, zipCode: Option<string>)

  function ContactOf(h: IntelligentHotelInfo): Contact
    reads h
  {
    Contact(h.hotelName, h.phone, h.email, h.address, h.city, h.state, h.zipCode)
  }

  const ContactPhonePatterns: seq<Pattern> := [PhoneNanp, PhoneTenDigit, PhoneParen]
  const AddressLabels: seq<string> := ["GPE", "LOC"]

  /** The model's fields copied onto the record. */
  function ContactFromModel(c: Contact, d: map<string, string>): Contact
  {
    Contact(
      if "hotel_name" in d && d["hotel_name"] != "" then d["hotel_name"] else c.hotelName,
      Copied(d, "phone", c.phone), Copied(d, "email", c.email), Copied(d, "address", c.address),
      Copied(d, "city", c.city), Copied(d, "state", c.state), Copied(d, "zip_code", c.zipCode))
  }

  /** The entity loop over `(email, address)`: a PERSON entity holding `'@'` sets the email;
      otherwise a GPE or LOC entity sets the address while the address is still falsy. */
  function NerContact(ents: seq<Entity>, i: nat, email: Option<string>, address: Option<string>): (Option<string>, Option<string>)
    requires i <= |ents|
    decreases |ents| - i
  {
    if i == |ents| then (email, address)
    else if ents[i].tag == "PERSON" && Contains(ents[i].text, "@") then
      NerContact(ents, i + 1, Some(ents[i].text), address)
    else if ents[i].tag in AddressLabels && !Truthy(address) then
      NerContact(ents, i + 1, email, Some(ents[i].text))
    else NerContact(ents, i + 1, email, address)
  }

  /** The pattern and entity fallback. */
  function ContactFallback(c: Contact, nlpOn: bool, text: string, ner: Ner, re: Regex): Contact
  {
    var nerResult := if nlpOn then NerContact(ner(Take(text, 2000)), 0, c.email, c.address) else (c.email, c.address);
    var phone := FirstMatch(ContactPhonePatterns, text, re);
    var email := re(Email, text);
    c.(phone := if phone.Some? then phone else c.phone,
       email := if email.Some? && !Truthy(nerResult.0) then email else nerResult.0,
       address := nerResult.1)
  }

  /** The contact fields after `_extract_contact_info_ai`. `apiOn` is
      `USE_OPENAI_API and OPENAI_AVAILABLE`, `reply` the model's reply to the
      `hotel_info` prompt, `text` the page text. */
  function ContactAfter(c: Contact, apiOn: bool, reply: Option<string>, parse: JsonParse,
                        nlpOn: bool, text: string, ner: Ner, re: Regex): Contact
  {
    var d := OpenAiExtract(apiOn, "hotel_info", reply, parse);
    if apiOn && d != map[] then ContactFromModel(c, d) else ContactFallback(c, nlpOn, text, ner, re)
  }

  method ExtractContactInfoAi(h: IntelligentHotelInfo, apiOn: bool, reply: Option<string>, parse: JsonParse,
                              nlpOn: bool, text: string, ner: Ner, re: Regex)
    modifies h`hotelName, h`phone, h`email, h`address, h`city, h`state, h`zipCode
    ensures ContactOf(h) == ContactAfter(old(ContactOf(h)), apiOn, reply, parse, nlpOn, text, ner, re)
  {
    if apiOn {
      var result := OpenAiExtract(apiOn, "hotel_info", reply, parse);
      if result != map[] {
        CopyContact(h, result);
        return;
      }
    }
    if nlpOn {
      var ents := ner(Take(text, 2000));
      for i := 0 to |ents|
        invariant NerContact(ents, 0, old(h.email), old(h.address)) == NerContact(ents, i, h.email, h.address)
        invariant ContactOf(h) == old(ContactOf(h)).(email := h.email, address := h.address)
      {
        var ent := ents[i];
        if ent.tag == "PERSON" && Contains(ent.text, "@") {
          h.email := Some(ent.text);
        } else if ent.tag in AddressLabels && !Truthy(h.address) {
          h.address := Some(ent.text);
        }
      }
    }
    var phone := SearchPatterns(ContactPhonePatterns, text, re);
    if phone.Some? {
      h.phone := phone;
    }
    var email := re(Email, text);
    if email.Some? && !Truthy(h.email) {
      h.email := email;
    }
  }

  /** The model's truthy contact fields copied onto the record. */
  method CopyContact(h: IntelligentHotelInfo, result: map<string, string>)
    modifies h`hotelName, h`phone, h`email, h`address, h`city, h`state, h`zipCode
    ensures ContactOf(h) == ContactFromModel(old(ContactOf(h)), result)
  {
    h.phone := Copied(result, "phone", h.phone);
    h.email := Copied(result, "email", h.email);
    h.address := Copied(result, "address", h.address);
    h.city := Copied(result, "city", h.city);
    h.state := Copied(result, "state", h.state);
    h.zipCode := Copied(result, "zip_code", h.zipCode);
    if "hotel_name" in result && result["hotel_name"] != "" { h.hotelName := result["hotel_name"]; }
  }

  /** A non-empty model result decides the contact fields alone: the page text, the
      recogniser and the patterns play no part. */
  lemma ContactModelFirst(c: Contact, apiOn: bool, reply: Option<string>, parse: JsonParse,
                          nlpOn: bool, text: string, ner: Ner, re: Regex,
                          nlpOn': bool, text': string, ner': Ner, re': Regex)
    requires apiOn && OpenAiExtract(apiOn, "hotel_info", reply, parse) != map[]
    ensures ContactAfter(c, apiOn, reply, parse, nlpOn, text, ner, re) ==
            ContactAfter(c, apiOn, reply, parse, nlpOn', text', ner', re')
  {
  }

  /** A field the model copy changes takes the model's non-empty value. */
  lemma ContactModelCopiesTruthy(c: Contact, d: map<string, string>)
    ensures var r := ContactFromModel(c, d);
      (r.phone != c.phone ==> "phone" in d && d["phone"] != "" && r.phone == Some(d["phone"])) &&
      (r.email != c.email ==> "email" in d && d["email"] != "" && r.email == Some(d["email"])) &&
      (r.address != c.address ==> "address" in d && d["address"] != "" && r.address == Some(d["address"])) &&
      (r.hotelName != c.hotelName ==> "hotel_name" in d && d["hotel_name"] != "" && r.hotelName == d["hotel_name"])
  {
  }

  /** An address that is already truthy survives the entity loop. */
  lemma {:induction false} NerKeepsTruthyAddress(ents: seq<Entity>, i: nat, email: Option<string>, address: Option<string>)
    requires i <= |ents| && Truthy(address)
    ensures NerContact(ents, i, email, address).1 == address
    decreases |ents| - i
  {
    if i < |ents| {
      var e := if ents[i].tag == "PERSON" && Contains(ents[i].text, "@") then Some(ents[i].text) else email;
      NerKeepsTruthyAddress(ents, i + 1, e, address);
    }
  }

  /** The email the entity loop leaves is the one it was given or the text of a PERSON
      entity that holds `'@'`. */
  lemma {:induction false} NerEmailSource(ents: seq<Entity>, i: nat, email: Option<string>, address: Option<string>)
    requires i <= |ents|
    ensures var r := NerContact(ents, i, email, address).0;
      r == email || exists j :: i <= j < |ents| && ents[j].tag == "PERSON" && Contains(ents[j].text, "@") && r == Some(ents[j].text)
    decreases |ents| - i
  {
    if i < |ents| {
      if ents[i].tag == "PERSON" && Contains(ents[i].text, "@") {
        NerEmailSource(ents, i + 1, Some(ents[i].text), address);
      } else if ents[i].tag in AddressLabels && !Truthy(address) {
        NerEmailSource(ents, i + 1, email, Some(ents[i].text));
      } else {
        NerEmailSource(ents, i + 1, email, address);
      }
    }
  }

  /** On the fallback path the phone is the first of the three phone patterns that matches
      the page text, and is left as it was when none does; the name, city, state and ZIP
      code are untouched. */
  lemma ContactFallbackPhone(c: Contact, apiOn: bool, reply: Option<string>, parse: JsonParse,
                             nlpOn: bool, text: string, ner: Ner, re: Regex)
    requires OpenAiExtract(apiOn, "hotel_info", reply, parse) == map[]
    ensures var r := ContactAfter(c, apiOn, reply, parse, nlpOn, text, ner, re);
      (r.phone == c.phone || exists k :: 0 <= k < |ContactPhonePatterns| && r.phone == re(ContactPhonePatterns[k], text) && r.phone.Some?) &&
      ((forall k :: 0 <= k < |ContactPhonePatterns| ==> re(ContactPhonePatterns[k], text).None?) ==> r.phone == c.phone) &&
      r.hotelName == c.hotelName && r.city == c.city && r.state == c.state && r.zipCode == c.zipCode
  {
    FirstMatchSpec(ContactPhonePatterns, text, re);
  }

  /** On the fallback path with the recogniser off, a truthy email is never replaced by the
      email pattern. */
  lemma ContactFallbackKeepsEmail(c: Contact, apiOn: bool, reply: Option<string>, parse: JsonParse,
                                  text: string, ner: Ner, re: Regex)
    requires OpenAiExtract(apiOn, "hotel_info", reply, parse) == map[] && Truthy(c.email)
    ensures ContactAfter(c, apiOn, reply, parse, false, text, ner, re).email == c.email
  {
  }

  // ---------------------------------------------------------------------
  // _extract_policies_ai
  // ---------------------------------------------------------------------

  /** The fields the policies extractor may change. */
  datatype Policies = Policies(
    checkinTime: Option<string>, checkoutTime: Option<string>, cancellationPolicy: Option<string>,
    depositPolicy: Option<string>, ageRestrictions: Option<string>, earlyCheckinPolicy: Option<string>,
    lateCheckoutPolicy: Option<string>, parkingAvailable: Option<bool>, parkingCost: Option<string>,
    parkingType: Option<string>)

  function PoliciesOf(h: IntelligentHotelInfo): Policies
    reads h
  {
    Policies(h.checkinTime, h.checkoutTime, h.cancellationPolicy, h.depositPolicy, h.ageRestrictions,
             h.earlyCheckinPolicy, h.lateCheckoutPolicy, h.parkingAvailable, h.parkingCost, h.parkingType)
  }

  const CheckInPatterns: seq<Pattern> := [CheckInTime, ArrivalOptTime, CheckInStarts]
  const CheckOutPatterns: seq<Pattern> := [CheckOutTime, DepartureOptTime, CheckOutBy]
  const FreeWords: seq<string> := ["free", "complimentary", "no charge"]
  const SelfParkWords: seq<string> := ["self-park", "self park", "self service"]

  function PoliciesFromModel(p: Policies, d: map<string, string>): Policies
  {
    p.(checkinTime := Copied(d, "checkin_time", p.checkinTime),
       checkoutTime := Copied(d, "checkout_time", p.checkoutTime),
       cancellationPolicy := Copied(d, "cancellation_policy", p.cancellationPolicy),
       depositPolicy := Copied(d, "deposit_policy", p.depositPolicy),
       ageRestrictions := Copied(d, "age_restrictions", p.ageRestrictions),
       earlyCheckinPolicy := Copied(d, "early_checkin_policy", p.earlyCheckinPolicy),
       lateCheckoutPolicy := Copied(d, "late_checkout_policy", p.lateCheckoutPolicy))
  }

  /** The parking analysis of a (lower-cased) context window around `parking`. */
  function Parking(p: Policies, ctx: string, re: Regex): Policies
  {
    if ctx == "" then p
    else
      var p1 := p.(parkingAvailable := Some(true));
      var p2 :=
        if AnyIn(FreeWords, ctx) then p1.(parkingCost := Some("Free"))
        else if Contains(ctx, "valet") then p1.(parkingType := Some("Valet"))
        else if AnyIn(SelfParkWords, ctx) then p1.(parkingType := Some("Self-park"))
        else p1;
      match re(DollarAmount, ctx)
      case Some(amount) => p2.(parkingCost := Some("$" + amount))
      case None => p2
  }

  /** The time patterns and the parking analysis over the lower-cased page text. */
  function PoliciesFallback(p: Policies, text: string, re: Regex): Policies
  {
    var checkin := FirstMatch(CheckInPatterns, text, re);
    var checkout := FirstMatch(CheckOutPatterns, text, re);
    var p1 := p.(checkinTime := if checkin.Some? then checkin else p.checkinTime,
                 checkoutTime := if checkout.Some? then checkout else p.checkoutTime);
    Parking(p1, KeywordContext(text, "parking", 100), re)
  }

  /** The policy fields after `_extract_policies_ai`; `pageText` is `soup.get_text()`. */
  function PoliciesAfter(p: Policies, apiOn: bool, reply: Option<string>, parse: JsonParse,
                         pageText: string, re: Regex): Policies
  {
    var d := OpenAiExtract(apiOn, "policies", reply, parse);
    if apiOn && d != map[] then PoliciesFromModel(p, d) else PoliciesFallback(p, Lower(pageText), re)
  }

  method ExtractPoliciesAi(h: IntelligentHotelInfo, apiOn: bool, reply: Option<string>, parse: JsonParse,
                           pageText: string, re: Regex)
    modifies h`checkinTime, h`checkoutTime, h`cancellationPolicy, h`depositPolicy, h`ageRestrictions,
             h`earlyCheckinPolicy, h`lateCheckoutPolicy, h`parkingAvailable, h`parkingCost, h`parkingType
    ensures PoliciesOf(h) == PoliciesAfter(old(PoliciesOf(h)), apiOn, reply, parse, pageText, re)
  {
    if apiOn {
      var result := OpenAiExtract(apiOn, "policies", reply, parse);
      if result != map[] {
        CopyPolicies(h, result);
        return;
      }
    }
    var text := Lower(pageText);
    var checkin := SearchPatterns(CheckInPatterns, text, re);
    if checkin.Some? {
      h.checkinTime := checkin;
    }
    var checkout := SearchPatterns(CheckOutPatterns, text, re);
    if checkout.Some? {
      h.checkoutTime := checkout;
    }
    ghost var timed := PoliciesOf(h);
    var ctx := KeywordContext(text, "parking", 100);
    AnalyseParking(h, ctx, re);
    assert PoliciesOf(h) == Parking(timed, ctx, re);
  }

  /** The model's truthy policy fields copied onto the record. */
  method CopyPolicies(h: IntelligentHotelInfo, result: map<string, string>)
    modifies h`checkinTime, h`checkoutTime, h`cancellationPolicy, h`depositPolicy, h`ageRestrictions,
             h`earlyCheckinPolicy, h`lateCheckoutPolicy
    ensures PoliciesOf(h) == PoliciesFromModel(old(PoliciesOf(h)), result)
  {
    h.checkinTime := Copied(result, "checkin_time", h.checkinTime);
    h.checkoutTime := Copied(result, "checkout_time", h.checkoutTime);
    h.cancellationPolicy := Copied(result, "cancellation_policy", h.cancellationPolicy);
    h.depositPolicy := Copied(result, "deposit_policy", h.depositPolicy);
    h.ageRestrictions := Copied(result, "age_restrictions", h.ageRestrictions);
    h.earlyCheckinPolicy := Copied(result, "early_checkin_policy", h.earlyCheckinPolicy);
    h.lateCheckoutPolicy := Copied(result, "late_checkout_policy", h.lateCheckoutPolicy);
  }

  /** The parking branch of the fallback, over the context window. */
  method AnalyseParking(h: IntelligentHotelInfo, ctx: string, re: Regex)
    modifies h`parkingAvailable, h`parkingCost, h`parkingType
    ensures PoliciesOf(h) == Parking(old(PoliciesOf(h)), ctx, re)
  {
    if ctx != "" {
      h.parkingAvailable := Some(true);
      if AnyIn(FreeWords, ctx) {
        h.parkingCost := Some("Free");
      } else if Contains(ctx, "valet") {
        h.parkingType := Some("Valet");
      } else if AnyIn(SelfParkWords, ctx) {
        h.parkingType := Some("Self-park");
      }
      var cost := re(DollarAmount, ctx);
      if cost.Some? {
        h.parkingCost := Some("$" + cost.value);
      }
    }
  }

  /** With an empty model result the fallback runs over the lower-cased page text. */
  lemma PoliciesFallbackRuns(p: Policies, apiOn: bool, reply: Option<string>, parse: JsonParse,
                             pageText: string, re: Regex)
    requires OpenAiExtract(apiOn, "policies", reply, parse) == map[]
    ensures PoliciesAfter(p, apiOn, reply, parse, pageText, re) == PoliciesFallback(p, Lower(pageText), re)
  {
  }

  /** A non-empty model result decides the policy fields alone, and never touches parking. */
  lemma PoliciesModelFirst(p: Policies, apiOn: bool, reply: Option<string>, parse: JsonParse,
                           pageText: string, re: Regex, pageText': string, re': Regex)
    requires apiOn && OpenAiExtract(apiOn, "policies", reply, parse) != map[]
    ensures PoliciesAfter(p, apiOn, reply, parse, pageText, re) == PoliciesAfter(p, apiOn, reply, parse, pageText', re')
    ensures var r := PoliciesAfter(p, apiOn, reply, parse, pageText, re);
      r.parkingAvailable == p.parkingAvailable && r.parkingCost == p.parkingCost && r.parkingType == p.parkingType
  {
  }

  /** On the fallback path, check-in and check-out are each the first match of their own
      pattern list, resolved independently, and stay as they were when nothing matches. */
  lemma PoliciesFallbackTimes(p: Policies, apiOn: bool, reply: Option<string>, parse: JsonParse,
                              pageText: string, re: Regex)
    requires OpenAiExtract(apiOn, "policies", reply, parse) == map[]
    ensures var r := PoliciesAfter(p, apiOn, reply, parse, pageText, re);
      var text := Lower(pageText);
      r.checkinTime == (if FirstMatch(CheckInPatterns, text, re).Some? then FirstMatch(CheckInPatterns, text, re) else p.checkinTime) &&
      r.checkoutTime == (if FirstMatch(CheckOutPatterns, text, re).Some? then FirstMatch(CheckOutPatterns, text, re) else p.checkoutTime) &&
      r.cancellationPolicy == p.cancellationPolicy && r.depositPolicy == p.depositPolicy && r.ageRestrictions == p.ageRestrictions
  {
    PoliciesFallbackRuns(p, apiOn, reply, parse, pageText, re);
  }

  /** On the fallback path the parking fields change exactly when `parking` occurs in the
      page text, and then parking is marked available. */
  lemma PoliciesParkingOnlyWithKeyword(p: Policies, apiOn: bool, reply: Option<string>, parse: JsonParse,
                                       pageText: string, re: Regex)
    requires OpenAiExtract(apiOn, "policies", reply, parse) == map[]
    ensures var r := PoliciesAfter(p, apiOn, reply, parse, pageText, re);
      (!Contains(Lower(pageText), "parking") ==>
        r.parkingAvailable == p.parkingAvailable && r.parkingCost == p.parkingCost && r.parkingType == p.parkingType) &&
      (Contains(Lower(pageText), "parking") ==> r.parkingAvailable == Some(true))
  {
    PoliciesFallbackRuns(p, apiOn, reply, parse, pageText, re);
    LowerKeepsLowercase("parking");
  }

  /** A dollar amount in the parking window wins over "Free", even when the window says
      the parking is free. */
  lemma DollarOverridesFree(p: Policies, apiOn: bool, reply: Option<string>, parse: JsonParse,
                            pageText: string, re: Regex, amount: string)
    requires OpenAiExtract(apiOn, "policies", reply, parse) == map[]
    requires var ctx := KeywordContext(Lower(pageText), "parking", 100);
      Contains(ctx, "free") && re(DollarAmount, ctx) == Some(amount)
    ensures PoliciesAfter(p, apiOn, reply, parse, pageText, re).parkingCost == Some("$" + amount)
  {
    PoliciesFallbackRuns(p, apiOn, reply, parse, pageText, re);
  }

  /** The "free" branch takes precedence: with no dollar amount in the window, free parking
      sets the cost to "Free" and leaves the type alone, even when "valet" is mentioned. */
  lemma FreeParkingPrecedence(p: Policies, ctx: string, re: Regex)
    requires ctx != "" && re(DollarAmount, ctx).None?
    requires Contains(ctx, "free") || Contains(ctx, "complimentary") || Contains(ctx, "no charge")
    ensures Parking(p, ctx, re) == p.(parkingAvailable := Some(true), parkingCost := Some("Free"))
  {
    if Contains(ctx, "free") {
      assert Contains(ctx, FreeWords[0]);
    } else if Contains(ctx, "complimentary") {
      assert Contains(ctx, FreeWords[1]);
    } else {
      assert Contains(ctx, FreeWords[2]);
    }
  }

  /** Without a free word, valet wins over self-parking, and either sets only the type;
      a window with none of them only marks parking available; a dollar amount, when
      present, is the cost whatever the branch. */
  lemma ParkingWindowChain(p: Policies, ctx: string, re: Regex)
    requires ctx != ""
    requires !Contains(ctx, "free") && !Contains(ctx, "complimentary") && !Contains(ctx, "no charge")
    ensures var r := Parking(p, ctx, re);
      r.parkingAvailable == Some(true) &&
      r.parkingCost == (if re(DollarAmount, ctx).Some? then Some("$" + re(DollarAmount, ctx).value) else p.parkingCost) &&
      r.parkingType ==
        (if Contains(ctx, "valet") then Some("Valet")
         else if Contains(ctx, "self-park") || Contains(ctx, "self park") || Contains(ctx, "self service") then Some("Self-park")
         else p.parkingType)
  {
    assert !AnyIn(FreeWords, ctx) by {
      assert forall j :: 0 <= j < |FreeWords| ==> !Contains(ctx, FreeWords[j]);
    }
    assert AnyIn(SelfParkWords, ctx) <==>
      Contains(ctx, "self-park") || Contains(ctx, "self park") || Contains(ctx, "self service") by {
      assert forall j :: 0 <= j < |SelfParkWords| ==> SelfParkWords[j] in ["self-park", "self park", "self service"];
      if Contains(ctx, "self-park") { assert Contains(ctx, SelfParkWords[0]); }
      if Contains(ctx, "self park") { assert Contains(ctx, SelfParkWords[1]); }
      if Contains(ctx, "self service") { assert Contains(ctx, SelfParkWords[2]); }
    }
  }
}
