# Hotel scraper core, modelled in Dafny

This project models the extraction core of **hotel-scraper-intelligent**, a Python tool that
loads a hotel's web page and fills in a record of its contact details, policies, amenities,
dining, nearby places and services, then exports that record for retrieval-augmented
generation (RAG) pipelines. Three scrapers and one exporter are modelled:

- `intelligent_scraper.py`, the AI-enhanced scraper. It covers the `IntelligentHotelInfo`
  record, every `_extract_*_ai` extractor, the OpenAI fallback, the parser for replies from
  the text generator, the basic fallback extraction and the confidence score.
- Parts of `intelligent_exporter.py`: dictionary flattening for CSV, hotel-name cleaning for
  file names, format expansion, the export loop, and the lines of the summary file.
- Parts of `hotel_scraper.py`, the Selenium scraper: its record, the name, phone, policy,
  amenity, nearby-place and service extractors, and the cleaned name its exporter uses.
- Parts of `hotel_scraper_simple.py`, the requests-based scraper: its record, the title-tag
  name, the regex and keyword extraction of `_extract_basic_info`, the RAG file name and the
  success count of `scrape_hotels`.

Records whose fields the Python code mutates are Dafny classes. Each extractor is a method
that modifies only the fields it writes (`modifies h`field`). Its `ensures` ties the new
field values to a pure function of the old values and the page. The lemmas are stated about
those pure functions: precedence of keyword chains, what is left untouched, bounds,
membership, first-match semantics, round trips and counts.

Pages, regular expressions, the spaCy recogniser, the text generator, the OpenAI reply and
JSON decoding are inputs of the model:
- A regular expression is `Patterns.Regex`, a function from a pattern name and a text to the
  group the source reads. Each distinct regex in the source is one `Pattern` constructor.
- The recogniser is a function from a text to its entities.
- JSON decoding is a function from a string to an optional string dictionary.
- Clock values (timestamps) are plain string parameters. An output directory is the text
  `str(Path(output_dir))` that pathlib has already normalised, and `Strings.PathJoin` models
  pathlib's `/` on it.

The one regex that is modelled character by character is the title pattern
`<title[^>]*>([^<]+)</title>` of the requests-based scraper. It cannot backtrack to a
different match, so it is a deterministic scan.

Case folding, `title` and `isalnum` are their ASCII versions. `strip`, `lstrip` and `rstrip` use
Python's whole whitespace set (`str.isspace`).

## Model

| member | source | states |
|---|---|---|
| IntelligentRecord.IntelligentHotelInfo.constructor | intelligent_scraper.py:83-176 | every one of the sixteen list fields passed as `None` becomes `[]`, a list passed in is kept, the identity fields are stored, and every other field takes its declared default (absent, score 0.0) |
| IntelligentRecord.NewRecord | intelligent_scraper.py:353-357 | a record built from the three identity fields alone has all sixteen list fields empty |
| IntelligentText.FirstLabelledFromSpec | intelligent_scraper.py:508-512 | the chosen entity text is `None` exactly when no entity carries one of the labels; otherwise it is the text of the first entity that does |
| IntelligentText.KeywordContext | intelligent_scraper.py:633-641 | the window is `""` exactly when the lower-cased keyword (non-empty) does not occur; otherwise it holds the keyword, is a substring of the text and is at most `len(keyword) + 2*size` long |
| IntelligentText.KeywordContextWindow | intelligent_scraper.py:635-641 | the window is the slice from `max(0, p - size)` to `min(len(text), p + len(keyword) + size)` around the first occurrence `p` |
| IntelligentText.MeaningfulBlocks | intelligent_scraper.py:921-927 | a block is kept exactly when it is longer than 20 characters and mentions no navigation word; kept blocks come from the page |
| IntelligentText.MeaningfulContentEmpty | intelligent_scraper.py:921-929 | a page without a meaningful block gives the empty content |
| IntelligentText.NoneMeaningful | intelligent_scraper.py:921-927 | with no meaningful block the filtered list is empty |
| IntelligentText.MeaningfulContentFirstTen | intelligent_scraper.py:929 | once ten meaningful blocks are found, further blocks never change the content |
| IntelligentText.ExtractMeaningfulContent | intelligent_scraper.py:909-929 | the filter loop returns the space-joined first ten meaningful blocks |
| IntelligentText.UpToFenceBody | intelligent_scraper.py:470-473 | cutting a fenced reply at the first closing fence gives a fence-free prefix that is all of the rest or is followed by a fence |
| IntelligentText.StripFences | intelligent_scraper.py:470-473 | an unfenced reply is unchanged; after a leading "```json" or "```" fence the result is the fenced body |
| IntelligentText.OpenAiExtract | intelligent_scraper.py:390-482 | a non-empty result only comes from an enabled API, a known extraction kind, a reply, and a reply that decodes after trimming and fence removal; a decoded reply is returned as it is |
| IntelligentText.OpenAiFailures | intelligent_scraper.py:392-393 | a disabled API, an unknown kind, a failed call or an undecodable reply each give `{}` (also lines 449-451 and 476-482) |
| IntelligentText.Candidates | intelligent_scraper.py:487-500 | seven name candidates in strategy order, the h1 first, the title sixth, the schema.org name last |
| IntelligentText.RefineName | intelligent_scraper.py:507-513 | with the recogniser off the name is kept; with it on, the name becomes the text of the first ORG or GPE entity of the name when there is one, and is kept when there is none |
| IntelligentText.HotelNameFromFirst | intelligent_scraper.py:502-513 | from any start, the first candidate longer than three characters decides the name |
| IntelligentText.HotelNameFromNone | intelligent_scraper.py:502-517 | from any start, with no qualifying candidate left the name is "Unknown Hotel" |
| IntelligentText.HotelNameFirstQualifying | intelligent_scraper.py:502-513 | the first candidate longer than three characters wins, refined by the recogniser when on, and is the candidate itself when off |
| IntelligentText.HotelNameUnknown | intelligent_scraper.py:517 | with no qualifying candidate the name is "Unknown Hotel" |
| IntelligentText.ExtractHotelNameAi | intelligent_scraper.py:484-517 | the strategy loop returns the name chosen from the seven candidates |
| IntelligentText.FenceBody | intelligent_scraper.py:470-473 | a fenced reply's body; UpToFenceBody and StripFences prove how the fences are removed |
| IntelligentText.HotelName | intelligent_scraper.py:484-517 | `_extract_hotel_name_ai`; HotelNameFirstQualifying, HotelNameUnknown and ExtractHotelNameAi prove that it is the first qualifying candidate, else "Unknown Hotel" |
| IntelligentText.MeaningfulContent | intelligent_scraper.py:909-929 | `_extract_meaningful_content`; ExtractMeaningfulContent, MeaningfulContentEmpty and MeaningfulContentFirstTen prove its properties |
| IntelligentContact.Copied | intelligent_scraper.py:528-530 | a field takes the model's value exactly when the key is present with a non-empty value, and is kept otherwise |
| IntelligentContact.ExtractContactInfoAi | intelligent_scraper.py:519-568 | the contact fields after the call are the contact function of the old fields, the model reply, the recogniser and the page |
| IntelligentContact.CopyContact | intelligent_scraper.py:528-534 | the copy loop sets each contact field and the hotel name from truthy model values only |
| IntelligentContact.ContactModelFirst | intelligent_scraper.py:526-536 | a non-empty model result decides the contact fields alone: a different page, recogniser or pattern set gives the same record |
| IntelligentContact.ContactModelCopiesTruthy | intelligent_scraper.py:528-534 | any field the model copy changes takes the model's non-empty value for that key |
| IntelligentContact.NerKeepsTruthyAddress | intelligent_scraper.py:545-549 | an address already set survives the entity loop |
| IntelligentContact.NerEmailSource | intelligent_scraper.py:545-547 | the email after the entity loop is the old one or the text of a PERSON entity holding `@` |
| IntelligentContact.ContactFallbackPhone | intelligent_scraper.py:552-562 | on the fallback path the phone is the match of one of the three patterns, is kept when none matches, and name, city, state and ZIP code are untouched |
| IntelligentContact.ContactFallbackKeepsEmail | intelligent_scraper.py:565-568 | on the fallback path with the recogniser off, a set email is never replaced by the email pattern |
| IntelligentContact.ExtractPoliciesAi | intelligent_scraper.py:570-631 | the policy and parking fields after the call are the policy function of the old fields, the model reply and the page |
| IntelligentContact.CopyPolicies | intelligent_scraper.py:579-587 | the copy loop sets each of the seven policy fields from truthy model values only |
| IntelligentContact.AnalyseParking | intelligent_scraper.py:617-631 | the parking branch over the context window equals the parking function |
| IntelligentContact.PoliciesFallbackRuns | intelligent_scraper.py:589-590 | with an empty model result, the fallback runs on the lower-cased page text |
| IntelligentContact.PoliciesModelFirst | intelligent_scraper.py:577-587 | a non-empty model result decides the policy fields alone and never touches parking |
| IntelligentContact.PoliciesFallbackTimes | intelligent_scraper.py:593-614 | check-in and check-out are each the first match of their own pattern list, or unchanged; cancellation, deposit and age policies are untouched |
| IntelligentContact.PoliciesParkingOnlyWithKeyword | intelligent_scraper.py:617-619 | the parking fields change only when "parking" occurs, and then parking is available |
| IntelligentContact.DollarOverridesFree | intelligent_scraper.py:621-631 | a dollar amount in the window becomes the cost even when the window says free |
| IntelligentContact.FreeParkingPrecedence | intelligent_scraper.py:617-631 | without a dollar amount, a window saying free, complimentary or no charge marks parking available and sets the cost to "Free", and changes nothing else, even with valet mentioned |
| IntelligentContact.ParkingWindowChain | intelligent_scraper.py:617-631 | without a free word, valet wins over the three self-park words and either sets only the type; parking is marked available; the cost is the dollar amount when there is one and is kept otherwise |
| IntelligentContact.ContactFallback | intelligent_scraper.py:538-568 | the pattern and entity fallback; ContactFallbackPhone and ContactFallbackKeepsEmail prove how phone and email are set |
| IntelligentContact.ContactAfter | intelligent_scraper.py:519-568 | `_extract_contact_info_ai`; ExtractContactInfoAi computes it, and ContactModelFirst, ContactFallbackPhone and ContactFallbackKeepsEmail prove its two paths |
| IntelligentContact.Parking | intelligent_scraper.py:617-631 | the parking analysis of one window; AnalyseParking, FreeParkingPrecedence and ParkingWindowChain prove each of its branches |
| IntelligentContact.PoliciesAfter | intelligent_scraper.py:570-631 | `_extract_policies_ai`; ExtractPoliciesAi computes it, and PoliciesFallbackRuns, PoliciesModelFirst, PoliciesFallbackTimes, PoliciesParkingOnlyWithKeyword and DollarOverridesFree prove its paths |
| IntelligentCategories.AmenitiesPerField | intelligent_scraper.py:643-700 | the category loop equals computing WiFi, fitness, pool, spa and pets each on its own, since the categories write disjoint fields |
| IntelligentCategories.WifiSetIffKeyword | intelligent_scraper.py:664-668 | WiFi is set, to "Free WiFi available" or "WiFi available", exactly when a WiFi keyword occurs in the lower-cased text, and is kept otherwise |
| IntelligentCategories.PoolTypeChoice | intelligent_scraper.py:678-685 | a recorded pool type is one of the four pool words or "Standard" |
| IntelligentCategories.SpaServicesGrow | intelligent_scraper.py:687-692 | the spa list only grows, keeps its old prefix, and grows only by spa service names |
| IntelligentCategories.PetsFriendlyPrecedence | intelligent_scraper.py:694-698 | a window that says welcome gives an allowed pet policy whatever else it says |
| IntelligentCategories.ExtractAmenitiesAi | intelligent_scraper.py:643-700 | the amenity fields after the call are the amenity function of the old fields and the page |
| IntelligentCategories.RecordAmenity | intelligent_scraper.py:664-698 | one turn of the category chain equals the per-category update of the window |
| IntelligentCategories.Restaurants | intelligent_scraper.py:707-729 | at most one restaurant per element, each built from an element longer than 20 characters, and every such element gives one |
| IntelligentCategories.ExtractDiningInfoAi | intelligent_scraper.py:702-766 | the dining fields after the call are the dining function of the old fields, the first five elements and the page |
| IntelligentCategories.BuildRestaurants | intelligent_scraper.py:707-729 | the element loop builds exactly the restaurant list of the elements |
| IntelligentCategories.RecordRoomService | intelligent_scraper.py:733-743 | room service is set from the 100-character window exactly as the room-service function says |
| IntelligentCategories.RecordBreakfast | intelligent_scraper.py:745-766 | the keyword loop stops at the first breakfast keyword found and records the breakfast function's value |
| IntelligentCategories.DiningRestaurantsBounded | intelligent_scraper.py:708-731 | at most five restaurants, each a dictionary with a listed cuisine or "International" |
| IntelligentCategories.ContinentalBreakfastShadowed | intelligent_scraper.py:746-748 | "continental breakfast" is never the chosen keyword because "breakfast" comes first and is contained in it |
| IntelligentCategories.BreakfastComplimentaryPrecedence | intelligent_scraper.py:750-756 | a window with free and buffet gives a complimentary continental breakfast |
| IntelligentCategories.Places | intelligent_scraper.py:780-802 | at most one place per entity, each coming from an entity of that category, named after it, with distance "Unknown" |
| IntelligentCategories.PlaceKindChain | intelligent_scraper.py:781-802 | an ORG, GPE or FAC entity is an attraction when its text names one, a restaurant only when it names no attraction, a shopping place only when it names neither |
| IntelligentCategories.PlacesAppend | intelligent_scraper.py:780-802 | the places of a list of entities are those of its first part followed by those of the rest, so they keep entity order |
| IntelligentCategories.PlacesComplete | intelligent_scraper.py:780-802 | every entity of the category is listed |
| IntelligentCategories.ExtractNearbyInfoAi | intelligent_scraper.py:768-806 | the nearby fields after the call are the nearby function of the old fields and the entities |
| IntelligentCategories.NearbyShape | intelligent_scraper.py:772-806 | with the recogniser off nothing changes; otherwise each of the three lists is the first ten places of its own category among the entities of the first 3000 characters, each named after an entity of that category |
| IntelligentCategories.ServiceEntry | intelligent_scraper.py:826 | a service entry always ends with "..." |
| IntelligentCategories.ServicesUpTo | intelligent_scraper.py:821-827 | the first `n` categories give at most `n` entries |
| IntelligentCategories.ServiceStep | intelligent_scraper.py:823-827 | one category gives at most one entry |
| IntelligentCategories.ServicesEmptyIff | intelligent_scraper.py:821-827 | no entry exactly when no category has a keyword in the text |
| IntelligentCategories.ServiceEntriesFromKeywords | intelligent_scraper.py:822-827 | each entry is built from the first keyword, found in the text, of one category |
| IntelligentCategories.NoServicesIffNoKeyword | intelligent_scraper.py:808-829 | the page gives no service exactly when it mentions no keyword of any category |
| IntelligentCategories.ExtractServicesAi | intelligent_scraper.py:808-829 | `concierge_services` is replaced by the service list of the page |
| IntelligentCategories.BuildServices | intelligent_scraper.py:821-827 | the category loop builds exactly the service list |
| IntelligentCategories.ExtractRoomInfoAi | intelligent_scraper.py:831-859 | room types and room amenities are replaced by the room function of the room texts |
| IntelligentCategories.ScanAmenities | intelligent_scraper.py:853-856 | the inner amenity loop equals the amenity scan as written |
| IntelligentCategories.RoomAmenityKeywordsLowerInitials | intelligent_scraper.py:853 | every room amenity keyword starts with a lower-case letter |
| IntelligentCategories.MentionsTitled | intelligent_scraper.py:856 | the title-cased mentions of such keywords all start with an upper-case letter |
| IntelligentCategories.MentionsHas | intelligent_scraper.py:854-856 | a keyword that occurs is present, title-cased, among the mentions |
| IntelligentCategories.AmenityScanNeverDeduplicates | intelligent_scraper.py:855 | the `not in amenities` test compares a lower-case keyword with title-cased entries, so it never holds and every mention is appended |
| IntelligentCategories.RoomsFromAmenities | intelligent_scraper.py:839-856 | the room loop's amenity list is the old list followed by every room's mentions |
| IntelligentCategories.RoomAmenitiesAreAllMentions | intelligent_scraper.py:839-859 | `room_amenities` is every amenity each of the first five rooms mentions, repeats included |
| IntelligentCategories.RoomAmenitiesOfPair | intelligent_scraper.py:839-859 | for two rooms the list is the first room's mentions and then the second's |
| IntelligentCategories.RoomAmenityDuplicated | intelligent_scraper.py:853-856 | two rooms that mention the same amenity list it twice |
| IntelligentCategories.JuniorSuiteShadowed | intelligent_scraper.py:843-850 | "junior suite" is never the room type because "suite" comes first and is contained in it |
| IntelligentCategories.AmenitiesAfter | intelligent_scraper.py:643-700 | `_extract_amenities_ai`; ExtractAmenitiesAi computes it, and AmenitiesPerField, WifiSetIffKeyword, PoolTypeChoice and SpaServicesGrow prove each field |
| IntelligentCategories.BreakfastFrom | intelligent_scraper.py:746-756 | the breakfast chain; BreakfastComplimentaryPrecedence and ContinentalBreakfastShadowed prove its precedence |
| IntelligentCategories.DiningAfter | intelligent_scraper.py:702-766 | `_extract_dining_info_ai`; ExtractDiningInfoAi computes it and DiningRestaurantsBounded proves its bounds |
| IntelligentCategories.PlaceKind | intelligent_scraper.py:781-802 | the class of one entity; PlaceKindChain proves the three branches |
| IntelligentCategories.NearbyAfter | intelligent_scraper.py:768-806 | `_extract_nearby_info_ai`; ExtractNearbyInfoAi computes it and NearbyShape proves its three lists |
| IntelligentCategories.ServicesAfter | intelligent_scraper.py:808-829 | `_extract_services_ai`; ExtractServicesAi computes it and NoServicesIffNoKeyword proves when it is empty |
| IntelligentCategories.RoomsAfter | intelligent_scraper.py:831-859 | `_extract_room_info_ai`; ExtractRoomInfoAi computes it, and RoomAmenitiesAreAllMentions, RoomAmenitiesOfPair and RoomAmenityDuplicated prove its amenities |
| AiResponse.CommaList | intelligent_scraper.py:955 | one stripped item per comma-separated piece, each with no whitespace at its ends and each a substring of the value |
| AiResponse.PlaceTexts | intelligent_scraper.py:961 | one nearby entry per comma-separated item, in order |
| AiResponse.ParseAiResponse | intelligent_scraper.py:931-964 | the fields the reply can set, after the call, are the parse function of the old fields and the reply |
| AiResponse.ApplyLineTo | intelligent_scraper.py:936-941 | one line updates the record exactly as the line function says |
| AiResponse.ApplyPairTo | intelligent_scraper.py:942-964 | one key and value update the record exactly as the `if/elif` chain says |
| AiResponse.SetFieldTo | intelligent_scraper.py:943-964 | the assignment for one known key changes that field alone |
| AiResponse.SplitLineAtFirstColon | intelligent_scraper.py:936-940 | a stripped line made of a colon-free key, `':'` and a value splits into the stripped key and the stripped value |
| AiResponse.SplitLineShape | intelligent_scraper.py:936-940 | a line yields a pair exactly when its stripped text contains `':'`; the key then holds no `':'` and neither part has whitespace at its ends |
| AiResponse.UnfilledOrUnknownChangesNothing | intelligent_scraper.py:942-964 | a key the parser does not know, or a value equal to its key's placeholder, changes nothing |
| AiResponse.PoliciesOnlyIfEmpty | intelligent_scraper.py:962-964 | `POLICIES` sets the cancellation policy only while it is empty or absent |
| AiResponse.CancellationPolicyKept | intelligent_scraper.py:935-964 | once the cancellation policy is set, no reply replaces it |
| AiResponse.LineKeepsCancellation | intelligent_scraper.py:936-964 | no single line replaces a set cancellation policy |
| AiResponse.PairKeepsCancellation | intelligent_scraper.py:942-964 | no single pair replaces a set cancellation policy |
| AiResponse.ColonFreeLine | intelligent_scraper.py:937 | a line without `':'` changes nothing |
| AiResponse.ColonFreeLines | intelligent_scraper.py:935-937 | lines without `':'` change nothing |
| AiResponse.ColonFreeResponse | intelligent_scraper.py:931-964 | a reply without any `':'` leaves every field as it was |
| AiResponse.BasicContentExtraction | intelligent_scraper.py:966-995 | phone, email and room amenities after the call are the fallback function of the old values and the page text |
| AiResponse.BasicKeepsFilled | intelligent_scraper.py:976-995 | a phone number, email address or amenity list already present is kept |
| AiResponse.BasicAmenitiesFound | intelligent_scraper.py:987-995 | an empty amenity list stays empty exactly when none of the eight amenity keywords occurs in the lower-cased text |
| AiResponse.SplitLine | intelligent_scraper.py:936-940 | the split of a line at its first colon; SplitLineAtFirstColon and SplitLineShape prove that key and value are the stripped parts before and after the first colon |
| AiResponse.ApplyPair | intelligent_scraper.py:942-964 | the effect of one key and value; ApplyPairTo, UnfilledOrUnknownChangesNothing, PoliciesOnlyIfEmpty and PairKeepsCancellation prove which field it sets and when it changes nothing |
| AiResponse.ParseLines | intelligent_scraper.py:935-964 | the loop over the lines; CancellationPolicyKept and ColonFreeLines prove that the cancellation policy survives and that colon-free lines change nothing |
| AiResponse.ParseResponse | intelligent_scraper.py:931-964 | `_parse_ai_response`; ParseAiResponse computes it and ColonFreeResponse proves that a colon-free reply changes nothing |
| AiResponse.BasicAfter | intelligent_scraper.py:966-995 | `_basic_content_extraction`; BasicContentExtraction computes it, and BasicKeepsFilled and BasicAmenitiesFound prove what it keeps and adds |
| Confidence.WeightsSumToOne | intelligent_scraper.py:1000-1014 | there are thirteen weights and they add up to exactly one |
| Confidence.AmenityCount | intelligent_scraper.py:1043-1049 | at most five amenity fields count |
| Confidence.PolicyCount | intelligent_scraper.py:1052-1056 | at most three policy fields count |
| Confidence.Saturated | intelligent_scraper.py:1036-1060 | a capped list term lies between 0 and its weight, is zero for an empty list and is the full weight at or beyond its cap |
| Confidence.Score | intelligent_scraper.py:1062 | the score lies between 0 and 1 |
| Confidence.CalculateConfidenceScore | intelligent_scraper.py:997-1062 | the accumulating method returns the score function of the record, which lies between 0 and 1 |
| Confidence.CapNeverBinds | intelligent_scraper.py:1016-1062 | the uncapped sum never exceeds the sum of the weights, so `min(score, 1.0)` never changes it |
| Confidence.NameTerm | intelligent_scraper.py:1019-1020 | the name "Unknown Hotel" earns nothing, like an empty one; any other name earns its weight |
| Confidence.EmptyRecordScoresZero | intelligent_scraper.py:1016-1062 | a record with nothing found scores exactly zero |
| Confidence.CompleteRecordScoresOne | intelligent_scraper.py:1016-1062 | a record complete in every scored respect scores exactly one |
| Confidence.ParkingFalseEarns | intelligent_scraper.py:1029-1030 | parking known to be unavailable still earns the parking weight |
| Confidence.ListTermsSaturate | intelligent_scraper.py:1035-1060 | beyond three restaurants, five attractions, three room types and five services, more entries add nothing |
| Confidence.CountTermsLinear | intelligent_scraper.py:1035-1060 | below saturation each list and count contributes its weight times the fraction of its cap reached |
| Confidence.MoreIsNotLess | intelligent_scraper.py:1016-1062 | filling in a field, or adding entries to a list, never lowers the score |
| Confidence.SaturatedMonotone | intelligent_scraper.py:1036 | a capped term never decreases as its count grows |
| Confidence.RawScore | intelligent_scraper.py:1016-1062 | the uncapped score; CapNeverBinds proves that it never exceeds the sum of the weights, so the cap never changes it, and CountTermsLinear how each list and count adds to it |
| Flatten.Shown | intelligent_exporter.py:126 | one text per list element, in order |
| Flatten.FlattenDictItems | intelligent_exporter.py:108-130 | the entry loop, recursing into nested dictionaries and lists of dictionaries, builds exactly the flattened item list |
| Flatten.FlattenListItems | intelligent_exporter.py:119-123 | the `enumerate(v[:5])` loop builds the items of at most the first five elements |
| Flatten.EntriesAreScalars | intelligent_exporter.py:111-128 | every flattened value is a scalar: no dictionary or list survives |
| Flatten.ValueIsScalars | intelligent_exporter.py:114-128 | every item one entry contributes holds a scalar |
| Flatten.ItemsAreScalars | intelligent_exporter.py:119-123 | every item a list of dictionaries contributes holds a scalar |
| Flatten.EntriesUnderParent | intelligent_exporter.py:112 | below a non-empty prefix every key begins with the prefix and the separator |
| Flatten.ValueUnderKey | intelligent_exporter.py:114-128 | every key an entry contributes begins with the key it is stored under |
| Flatten.ItemsUnderKey | intelligent_exporter.py:119-123 | every key a list of dictionaries contributes begins with the list's key |
| Flatten.ScalarKept | intelligent_exporter.py:112-128 | a scalar entry appears unchanged under its joined key, which at the top level is its own key |
| Flatten.ListCappedAtFive | intelligent_exporter.py:117-119 | elements after the fifth of a list of dictionaries never reach the row |
| Flatten.ItemsAgree | intelligent_exporter.py:119 | only the elements looked at decide the items of a list |
| Flatten.SimpleListJoined | intelligent_exporter.py:124-126 | an empty list becomes one empty text, and a list of scalars one entry with their texts joined by `"; "` |
| Flatten.LastEntryWins | intelligent_exporter.py:130 | on a key collision `dict(items)` keeps the value of the last entry |
| Flatten.DictKeys | intelligent_exporter.py:130 | the row's keys are exactly the keys of the items |
| Flatten.DictOf | intelligent_exporter.py:130 | `dict(items)`; LastEntryWins, DictKeys and DictValuesFromItems prove that its keys are exactly the items' keys, that each value belongs to an item under that key, and that on a collision the last item wins |
| Flatten.DictValuesFromItems | intelligent_exporter.py:130 | every value of `dict(items)` is the value of an item under that key |
| Flatten.FlattenEntries | intelligent_exporter.py:111-128 | the items of the loop over a dictionary's entries; FlattenDictItems computes them, and EntriesAreScalars, EntriesUnderParent and ScalarKept prove that they are scalars, lie under the prefix and keep scalar entries unchanged |
| Flatten.FlattenValue | intelligent_exporter.py:114-128 | the items one entry contributes; ValueIsScalars, ValueUnderKey, ListCappedAtFive and SimpleListJoined prove that they are scalars, lie under the entry's key, stop after five list elements and join scalar lists with `"; "` |
| Flatten.FlattenItems | intelligent_exporter.py:119-123 | the items of a list of dictionaries; FlattenListItems computes them, and ItemsAreScalars, ItemsUnderKey and ItemsAgree prove that they are scalars, lie under the list's key and depend only on the elements looked at |
| Flatten.FlattenDict | intelligent_exporter.py:108-130 | the `_flatten_dict` row; FlattenDictScalars and LastEntryWins prove its properties |
| Flatten.FlattenDictScalars | intelligent_exporter.py:108-130 | every value of the flattened row is a scalar, and its keys are exactly the keys of the items the loop produced |
| IntelligentExporter.AllIsEveryKnownFormat | intelligent_exporter.py:35-38 | `"all"` stands for the six known formats, each once, in a fixed order; any other string is a list of that one format |
| IntelligentExporter.ExportedExactly | intelligent_exporter.py:45-80 | the result maps exactly the requested formats that are known and do not raise, each to its own path; a failing format stops no other |
| IntelligentExporter.ExportHotelData | intelligent_exporter.py:32-80 | the export loop returns the exported map of the expanded formats, the cleaned name and the timestamp, the summary failing exactly when its lines raise |
| IntelligentExporter.Facts | intelligent_exporter.py:402-412 | each set fact is listed with its label, and nothing else is |
| IntelligentExporter.Bullets | intelligent_exporter.py:415-416 | each fact becomes one bulleted line, in order |
| IntelligentExporter.RestaurantLines | intelligent_exporter.py:434-440 | the lines are absent exactly when some restaurant is a bare string, on which `.get` raises; otherwise one line per restaurant |
| IntelligentExporter.SummaryRaisesIff | intelligent_exporter.py:432-440 | the summary raises exactly when one of the first three restaurants is a bare string |
| IntelligentExporter.SummaryHeader | intelligent_exporter.py:398-417 | the name line, a rule of `=` fifteen longer than the name, a blank, QUICK FACTS, the bulleted facts and a blank |
| IntelligentExporter.QuickFactsWhenSet | intelligent_exporter.py:402-412 | a set phone or WiFi is listed; no fact is listed exactly when none of the five is set |
| IntelligentExporter.DiningAtMostThree | intelligent_exporter.py:432-440 | a count line naming all restaurants, then at most three restaurant lines |
| IntelligentExporter.ExpandFormats | intelligent_exporter.py:35-38 | the format list; AllIsEveryKnownFormat proves that `"all"` gives the six known formats once each and any other string gives itself |
| IntelligentExporter.ExportedFrom | intelligent_exporter.py:45-80 | `exported_files` after the loop; ExportedExactly proves that it maps exactly the known, non-failing requested formats to their own paths, and ExportHotelData that the loop computes it |
| IntelligentExporter.SummaryLines | intelligent_exporter.py:393-450 | the lines of `_export_summary`, or a raise; SummaryRaisesIff, SummaryHeader, QuickFactsWhenSet, AmenityLinesShape and DiningAtMostThree prove when it raises and what each section holds |
| IntelligentExporter.DiningLines | intelligent_exporter.py:432-440 | the DINING section; DiningAtMostThree proves the count line and at most three restaurant lines, and SummaryRaisesIff when a bare-string restaurant makes it raise |
| IntelligentExporter.AmenityLines | intelligent_exporter.py:418-429 | the AMENITIES section; AmenityLinesShape proves its properties |
| IntelligentExporter.AmenityLinesShape | intelligent_exporter.py:418-429 | the AMENITIES line is written exactly when fitness center, pool or spa is present, starts with its label, names the fitness center first when present, and is followed by a blank line |
| IntelligentExporter.FilePath | intelligent_exporter.py:47-50 | `str(self.output_dir / filename)` for one format; PathJoinSpec proves that it ends with the file name, which is the name alone below `"."` |
| Patterns.FirstMatchFromSpec | intelligent_scraper.py:557-561 | from pattern `i` on, no result exactly when no pattern matches; otherwise the result of a matching pattern with no match before it |
| Patterns.FirstMatchSpec | intelligent_scraper.py:557-561 | the search over a pattern list is `None` exactly when no pattern matches, and otherwise the result of the first pattern that matches |
| Patterns.SearchPatterns | intelligent_scraper.py:557-561 | the loop that breaks at the first `re.search` that matches returns the first match |
| Patterns.FirstKeywordFromSpec | intelligent_scraper.py:747-748 | from keyword `i` on, no keyword exactly when none occurs; otherwise a keyword that occurs with none before it occurring |
| Patterns.FirstKeywordSpec | intelligent_scraper.py:746-748 | `None` exactly when no keyword occurs; otherwise the first listed keyword that occurs |
| Patterns.FirstKeywordFromOccurs | intelligent_scraper.py:747-748 | the chosen keyword occurs in the text |
| Patterns.FirstKeywordNoneIff | intelligent_scraper.py:747-748 | no keyword is chosen exactly when `any` of them occurs fails |
| Patterns.ShadowedKeyword | intelligent_scraper.py:843-845 | a keyword listed after one of its own substrings is never chosen |
| Patterns.FindFirstKeyword | intelligent_scraper.py:746-748 | the loop that breaks at the first keyword found returns the first keyword that occurs |
| Patterns.KeywordsIn | intelligent_scraper.py:990-992 | the keywords that occur in the text, and no others |
| Patterns.CollectMentions | intelligent_scraper.py:990-992 | the appending loop builds exactly the list of title-cased keywords that occur |
| Patterns.MentionsEmptyIff | intelligent_scraper.py:990-995 | nothing is found exactly when no keyword occurs |
| Patterns.MentionsMembers | intelligent_scraper.py:990-992 | the found list holds the title-cased keywords that occur and nothing else, at most one per keyword |
| Patterns.MentionsDistinct | intelligent_scraper.py:987-992 | distinct lower-case keywords give a list without repeats |
| Patterns.FirstMatch | intelligent_scraper.py:557-561 | the first pattern in a list that matches; FirstMatchSpec and SearchPatterns prove that it is the earliest matching pattern's match, else none |
| Patterns.FirstKeyword | intelligent_scraper.py:746-748 | the first keyword in a list that occurs; FirstKeywordSpec, FirstKeywordNoneIff, ShadowedKeyword and FindFirstKeyword prove its properties |
| Patterns.Mentions | intelligent_scraper.py:990-992 | the keywords that occur, in order; CollectMentions, MentionsEmptyIff, MentionsMembers and MentionsDistinct prove its properties |
| Strings.FindFromSpec | intelligent_scraper.py:635 | `find` from `i` is -1 exactly when the text does not occur from `i` on, and otherwise its first occurrence there |
| Strings.FindSpec | intelligent_scraper.py:635 | `find` is -1 exactly when the text does not occur, and otherwise the index of its first occurrence |
| Strings.ContainsTransitive | intelligent_scraper.py:640 | a substring of a substring of a text is a substring of it |
| Strings.SplitOn | intelligent_scraper.py:933 | `split` gives at least one piece |
| Strings.SplitJoin | intelligent_scraper.py:933 | joining the pieces of a split with the separator gives the text back |
| Strings.SplitPiecesFree | intelligent_scraper.py:933 | no piece of a split contains the separator |
| Strings.SplitPiecesContained | intelligent_scraper.py:933 | every piece of a split occurs in the text that was split |
| Strings.UpTo | intelligent_scraper.py:471-473 | the text before the first separator is a separator-free prefix that is all of the text or is followed by the separator |
| Strings.SplitFirstPiece | intelligent_scraper.py:471-473 | the first piece of a split is the text before the first separator |
| Strings.SplitAfterLeadingSeparator | intelligent_scraper.py:471-473 | a text that begins with the separator splits into an empty piece and then the text up to the next separator |
| Strings.SplitStrip | intelligent_scraper.py:955 | one stripped text per piece of the split |
| Strings.LStrip | intelligent_scraper.py:936 | `lstrip` drops exactly the leading whitespace |
| Strings.RStrip | hotel_scraper.py:350 | `rstrip` drops exactly the trailing whitespace |
| Strings.Strip | intelligent_scraper.py:936 | `strip` gives a substring with no whitespace at either end |
| Strings.StripNoSpaceEnds | intelligent_scraper.py:936 | a text without whitespace at its ends is kept by `strip` |
| Strings.StripIdempotent | intelligent_scraper.py:936-940 | stripping twice is stripping once |
| Strings.Lower | intelligent_scraper.py:645 | `lower` keeps the length |
| Strings.LowerKeepsLowercase | intelligent_scraper.py:635 | text with no upper-case letter is kept by `lower` |
| Strings.Title | intelligent_scraper.py:826 | `title` keeps the length |
| Strings.TitleAfter | intelligent_scraper.py:856 | title-casing keeps non-letters and changes only the case of letters; a first letter not after a letter becomes upper-case |
| Strings.LowerTitle | intelligent_scraper.py:856 | lower-casing undoes title-casing |
| Strings.TitleDiffers | intelligent_scraper.py:855-856 | title-casing a word starting with a lower-case letter always changes it |
| Strings.Take | intelligent_scraper.py:675 | a slice `[:n]` is the prefix of length `min(len, n)` |
| Strings.Repeat | intelligent_exporter.py:399 | `"=" * n` is `n` copies of `=` |
| Strings.NatToString | intelligent_exporter.py:433 | the decimal text of a count is non-empty and all digits |
| Strings.NameChars | intelligent_exporter.py:41 | the filter keeps only letters, digits, space, `-` and `_` |
| Strings.NameCharsAppend | intelligent_exporter.py:41 | the filter keeps characters in their order |
| Strings.NameCharsKeepsClean | intelligent_exporter.py:41 | a text made only of allowed characters passes the filter unchanged |
| Strings.NameCharsSingle | intelligent_exporter.py:41 | one character survives exactly when it is allowed |
| Strings.CleanName | intelligent_exporter.py:41 | the cleaned name has only allowed characters, no whitespace at its ends, and is a contiguous run of the name's allowed characters |
| Strings.CleanNameIdempotent | intelligent_exporter.py:41 | cleaning a cleaned name changes nothing |
| Strings.CleanNameKeepsCleanName | intelligent_exporter.py:41 | a name of allowed characters with no whitespace at its ends is kept |
| Strings.PathJoin | intelligent_exporter.py:84 | pathlib's `/` on a normalised directory text; PathJoinSpec proves its properties |
| Strings.PathJoinSpec | intelligent_exporter.py:84 | the joined path ends with the file name; below `"."` it is the file name itself; below any other directory it starts with that directory and adds at most one `/` |
| HotelScraper.HotelInfo.constructor | hotel_scraper.py:89-99 | each of the five lists passed as `None` becomes `[]`, a list passed in is kept, the identity fields are stored and every optional field starts absent |
| HotelScraper.FirstTextFrom | hotel_scraper.py:166-169 | none exactly when no text from `i` on is non-empty; otherwise the first non-empty one |
| HotelScraper.SelectorTexts | hotel_scraper.py:161-167 | the element texts of the six selectors, in their order |
| HotelScraper.HotelName | hotel_scraper.py:161-171 | "Unknown Hotel" when no selector gives non-empty text; otherwise the text of the first selector that does |
| HotelScraper.ExtractHotelName | hotel_scraper.py:159-171 | the selector loop returns that name |
| HotelScraper.PhoneChoice | hotel_scraper.py:176-187 | the ten-digit pattern wins over the parenthesised one; with neither the phone is kept |
| HotelScraper.ExtractContactInfo | hotel_scraper.py:176-187 | the phone after the call is the phone search's result on the page text |
| HotelScraper.ExtractPolicies | hotel_scraper.py:201-240 | times and parking after the call are the policy function of the old fields and the page |
| HotelScraper.TimesResolvedIndependently | hotel_scraper.py:206-228 | check-in and check-out are each the group of their own first matching pattern on the lower-cased text, kept when none matches |
| HotelScraper.ParkingPrecedence | hotel_scraper.py:231-240 | parking changes only when `parking` is mentioned; then free wins over valet, valet over self-park, and nothing else is ever written |
| HotelScraper.ParkingAvailableWhen | hotel_scraper.py:231-240 | parking becomes available exactly when `parking` and one of its three kinds are mentioned, and is never set to false |
| HotelScraper.SetWifi | hotel_scraper.py:247-250 | WiFi after the step is the WiFi chain of the old value |
| HotelScraper.SetPetPolicy | hotel_scraper.py:258-261 | the pet policy after the step is the pet chain of the old value |
| HotelScraper.ExtractAmenities | hotel_scraper.py:242-261 | the amenity fields after the call are the amenity function of the old fields and the page |
| HotelScraper.AmenityFlagsSet | hotel_scraper.py:253-255 | the three flags are always set afterwards, each true exactly when one of its words occurs |
| HotelScraper.WifiPrecedence | hotel_scraper.py:247-250 | free WiFi wins whatever else the text says; plain WiFi only without a free form; no mention keeps the old value |
| HotelScraper.PetPrecedence | hotel_scraper.py:258-261 | a welcome wins over "no pets"; the ban only without a welcome; no mention keeps the old value |
| HotelScraper.FirstReporting | hotel_scraper.py:312-315 | a found index is at or after the start and its sentence reports the keyword |
| HotelScraper.FirstReportingNone | hotel_scraper.py:312-315 | nothing is found exactly when no sentence reports the keyword |
| HotelScraper.FirstReportingFirst | hotel_scraper.py:312-315 | no sentence before the one found reports the keyword |
| HotelScraper.FindSentence | hotel_scraper.py:312-315 | the sentence loop returns the first reporting sentence, stripped and cut to 150 characters |
| HotelScraper.AttractionFor | hotel_scraper.py:309-315 | one keyword adds what the attraction function says |
| HotelScraper.CollectAttractions | hotel_scraper.py:307-315 | the keyword loop builds the attractions of the keywords in order |
| HotelScraper.ExtractNearbyInfo | hotel_scraper.py:297-317 | `nearby_attractions` is replaced by the first five collected attractions |
| HotelScraper.AttractionShape | hotel_scraper.py:309-315 | one keyword adds at most one entry, at most 150 characters taken from the page |
| HotelScraper.AttractionsShape | hotel_scraper.py:307-315 | at most one entry per keyword, each at most 150 characters taken from the page |
| HotelScraper.TakeFive | hotel_scraper.py:317 | the cut list has at most five entries, all from the full list |
| HotelScraper.NearbyBounds | hotel_scraper.py:302-317 | at most five attractions, each at most 150 characters taken from the page |
| HotelScraper.ExtractServices | hotel_scraper.py:319-333 | `concierge_services` is replaced by the title-cased service keywords the lower-cased page mentions |
| HotelScraper.ServiceKeywordsDistinctLower | hotel_scraper.py:324-327 | the eight service keywords are distinct and lower-case |
| HotelScraper.ServicesShape | hotel_scraper.py:324-333 | at most eight services, no repeats, exactly the title-cased keywords the page mentions |
| HotelScraper.CleanNameRStrip | hotel_scraper.py:350 | only allowed characters, no trailing whitespace, and a prefix of the allowed characters followed only by whitespace |
| HotelScraper.LeadingSpaceKept | hotel_scraper.py:350 | unlike the intelligent exporter's `strip`, `rstrip` keeps a leading space |
| HotelScraper.PoliciesAfter | hotel_scraper.py:201-240 | `_extract_policies`; ExtractPolicies computes it, and TimesResolvedIndependently, ParkingPrecedence and ParkingAvailableWhen prove how times and parking are set |
| HotelScraper.ParkingAfter | hotel_scraper.py:231-240 | the parking chain; ParkingPrecedence and ParkingAvailableWhen prove its precedence and when parking becomes available |
| HotelScraper.AmenitiesAfter | hotel_scraper.py:242-261 | `_extract_amenities`; ExtractAmenities computes it, and AmenityFlagsSet, WifiPrecedence and PetPrecedence prove its flags and chains |
| HotelScraper.WifiAfter | hotel_scraper.py:247-250 | the WiFi chain; SetWifi computes it and WifiPrecedence proves that free WiFi wins |
| HotelScraper.PetAfter | hotel_scraper.py:258-261 | the pet chain; SetPetPolicy computes it and PetPrecedence proves the order of its tests |
| HotelScraper.Attraction | hotel_scraper.py:309-315 | one attraction entry; AttractionFor and AttractionShape prove its fields |
| HotelScraper.NearbyAfter | hotel_scraper.py:297-317 | `_extract_nearby_info`; ExtractNearbyInfo computes it and NearbyBounds proves its bounds |
| HotelScraperSimple.HotelInfo.constructor | hotel_scraper_simple.py:56-62 | each of the three lists passed as `None` becomes `[]`, a list passed in is kept, the identity fields are stored and every optional field starts absent |
| HotelScraperSimple.FindChar | hotel_scraper_simple.py:112 | the first index at or after `i` holding the character, or -1 when there is none |
| HotelScraperSimple.TitleAtSound | hotel_scraper_simple.py:112 | a match the scan finds at `p` is one the pattern `<title[^>]*>([^<]+)</title>` (any case) describes |
| HotelScraperSimple.LowerLessThan | hotel_scraper_simple.py:112 | under `re.I`, `<` matches only `<` |
| HotelScraperSimple.TitleAtComplete | hotel_scraper_simple.py:112 | every match the pattern describes at `p` is the one the scan finds there, with the same group |
| HotelScraperSimple.FirstFrom | hotel_scraper_simple.py:112 | the search returns a position in range that satisfies the test |
| HotelScraperSimple.FirstFromNone | hotel_scraper_simple.py:112-113 | the search finds nothing exactly when no position satisfies the test |
| HotelScraperSimple.FirstFromIs | hotel_scraper_simple.py:112 | the search returns the first position that satisfies the test |
| HotelScraperSimple.NoEarlierTitle | hotel_scraper_simple.py:112 | with no match described before `p`, the scan finds none before `p` |
| HotelScraperSimple.HotelNameBasicFromTitle | hotel_scraper_simple.py:110-114 | the name is the stripped group of the leftmost match the pattern describes |
| HotelScraperSimple.HotelNameBasicUnknown | hotel_scraper_simple.py:112-115 | the name is "Unknown Hotel" when the scan finds nothing, which happens exactly when the pattern describes no match |
| HotelScraperSimple.SetParking | hotel_scraper_simple.py:149-156 | the parking fields after the step are the parking chain of the old fields |
| HotelScraperSimple.SetWifiAndPets | hotel_scraper_simple.py:159-172 | WiFi and pet policy after the step are the WiFi and pet chains of the old values |
| HotelScraperSimple.SetDining | hotel_scraper_simple.py:175-182 | room service and breakfast after the step are their chains of the old values |
| HotelScraperSimple.SetSearches | hotel_scraper_simple.py:121-146 | the phone is the ten-digit match, else kept; each time is its first pattern's match, else kept |
| HotelScraperSimple.SetFlags | hotel_scraper_simple.py:165-166 | fitness center and pool become booleans, true exactly when one of their words occurs |
| HotelScraperSimple.ExtractBasicInfo | hotel_scraper_simple.py:117-182 | every field the extractor writes is its search or plain substring chain on the page, which arrives lower-cased |
| HotelScraperSimple.SetSearchesAndParking | hotel_scraper_simple.py:121-156 | phone, times and parking after the step are their search and chain results |
| HotelScraperSimple.SetAmenitiesAndDining | hotel_scraper_simple.py:159-182 | WiFi, flags, pets, room service and breakfast after the step are their chain results |
| HotelScraperSimple.BasicSearches | hotel_scraper_simple.py:121-146 | the phone is the ten-digit match when there is one; check-in and check-out are each the group of their own first matching pattern, kept when none matches |
| HotelScraperSimple.ParkingPrecedence | hotel_scraper_simple.py:149-156 | free or complimentary parking sets the cost, else valet sets the type, else a bare mention sets availability only; no mention leaves all three alone |
| HotelScraperSimple.BreakfastAndRoomService | hotel_scraper_simple.py:175-182 | complimentary breakfast wins over plain breakfast; no mention keeps the old value; room service is set exactly when mentioned |
| HotelScraperSimple.Results | hotel_scraper_simple.py:352-364 | one outcome per hotel |
| HotelScraperSimple.ErrorIsNotSuccess | hotel_scraper_simple.py:360-369 | an error status is never `"success"` |
| HotelScraperSimple.OutcomeSuccessIff | hotel_scraper_simple.py:191-207 | the status is success exactly when the hotel was scraped and the format is json, txt or markdown; only then is there a file name; the name recorded is the one given |
| HotelScraperSimple.SuccessCountIsSaved | hotel_scraper_simple.py:352-369 | the success count is the number of hotels scraped and saved, never more than the number of hotels, and zero for an unknown format |
| HotelScraperSimple.ScrapeHotels | hotel_scraper_simple.py:341-369 | the loop returns one outcome per hotel and the count of those scraped and saved |
| HotelScraperSimple.TitleAt | hotel_scraper_simple.py:112 | the scan for a title match at one position; TitleAtSound and TitleAtComplete prove that it finds exactly the matches the pattern describes there |
| HotelScraperSimple.HotelNameBasic | hotel_scraper_simple.py:110-115 | `_extract_hotel_name_basic`; HotelNameBasicFromTitle and HotelNameBasicUnknown prove that it is the stripped group of the leftmost match, else "Unknown Hotel" |
| HotelScraperSimple.ParkingAfter | hotel_scraper_simple.py:149-156 | the parking chain; SetParking computes it and ParkingPrecedence proves its precedence |
| HotelScraperSimple.BreakfastAfter | hotel_scraper_simple.py:180-182 | the breakfast chain; SetDining computes it and BreakfastAndRoomService proves that complimentary breakfast wins |
| HotelScraperSimple.SaveForRag | hotel_scraper_simple.py:191-207 | the path `save_for_rag` returns, or its raise; SaveForRagKnown and SaveForRagPath prove its properties |
| HotelScraperSimple.RagFileName | hotel_scraper_simple.py:196-203 | `filename` of `save_for_rag`, bound only for json, txt and markdown; RagFileNameShape proves its properties |
| HotelScraperSimple.RagFileNameShape | hotel_scraper_simple.py:196-203 | a file name starts with the cleaned name and the timestamp, and its ending's length differs for each of the three formats, so no two share a name |
| HotelScraperSimple.SaveForRagKnown | hotel_scraper_simple.py:196-207 | a path exists exactly for json, txt and markdown; any other format leaves `filename` unbound |
| HotelScraperSimple.SaveForRagPath | hotel_scraper_simple.py:188-207 | a path ends with the file name; below `"."` it is the file name alone, and below any other directory it starts with that directory |
| HotelScraperSimple.OutcomeFor | hotel_scraper_simple.py:354-364 | one entry of `results`; OutcomeSuccessIff proves when it is a success and that only then it has a file name |
| HotelScraperSimple.SuccessCount | hotel_scraper_simple.py:369 | `successful`; SuccessCountIsSaved proves that it counts exactly the hotels scraped and saved |

## Left out

- Browser and page loading: the Selenium driver, the retry loop and scrolling. Pages arrive as strings and element texts.
- `scrape_hotel` of hotel_scraper.py (hotel_scraper.py:123-157): it calls the extractors in order, and the call to the unmodelled `_extract_dining_info` raises `NameError`, so the nearby and service extractors never run through it. Each extractor is modelled on its own.
- `scrape_hotel_intelligent` (intelligent_scraper.py:309-384): it runs the seven extractors concurrently with `asyncio.gather`, so their writes to the shared record may interleave at each `await`; it then runs `_generate_ai_insights` and the scorer. The model states each extractor as a step on its own and does not model the interleaving.
- BeautifulSoup queries (`select_one`, `find_all`, `get_text`): their results are inputs (element texts, a selector function, the page text).
- `decompose` in `_extract_meaningful_content` (intelligent_scraper.py:912-913) deletes the nav, header, footer, script, style and aside elements from the shared page in place. It runs whenever the OpenAI path is on (lines 523 and 574) and in `_generate_ai_insights` (line 867), and every later `get_text` (lines 539, 590, 645, 734, 770, 810, 971) sees the trimmed page. The model does not capture this update in place: each extractor's page-text parameter stands for the page's text at the moment that extractor reads it, trimmed or not, and the model does not relate the texts that different extractors see.
- IntelligentText.RefineName: the recogniser is a total function, so the model cannot express `self.nlp(name)` raising, which in the source skips on to the next candidate (intelligent_scraper.py:503-515). A candidate that raises while it is computed is modelled as a missing one.
- Regular-expression semantics, except the title pattern: each regex is an abstract matcher and the contracts state which pattern or branch wins, not what a pattern matches.
- The spaCy recogniser, the transformers text generator and `_generate_ai_insights` (intelligent_scraper.py:861-907): model loading and inference are foreign code. The recogniser's entities and the generator's reply are inputs; the reply parser it calls is modelled.
- The OpenAI HTTP call and `json.loads`: the reply is an input and decoding is an abstract function returning an optional dictionary. JSON values that are not strings are not modelled.
- The record fields no modelled code reads or writes: `coordinates`, `parking_spaces`, `shuttle_service`, `public_transit_info`, `distance_to_airport`, `smoking_policy`, `room_sizes`, `walkability_score`, `laundry_service`, `luggage_storage`, `meeting_facilities`, `sentiment_score`, `price_range_indicator` and `content_completeness_score` of `IntelligentHotelInfo`, and the same kind of fields of the two `HotelInfo` records (`city`, `state`, `zip_code`, the early and late policies, shuttle, transit, smoking, room service, breakfast, the three policies, laundry and luggage of hotel_scraper.py).
- Dictionary key order: `_flatten_dict` works on an ordered list of entries, but the CSV column order produced by pandas is not modelled.
- Case folding, `isalnum` and `title` are modelled for ASCII only, and so is `re.I` for the title tag. Non-ASCII letters are treated as other characters.
- IntelligentCategories.ExtractAmenitiesAi: the `business` and `accessibility` categories of `_extract_amenities_ai` match keywords but set no field, so the model computes nothing for them.
- Confidence.Score: the score is exact `real` arithmetic, not IEEE doubles, so the results "exactly zero", "exactly one" and "the weights sum to one" hold of the real-number sum; the float sum may differ in its last bits. The `:.2f` and `:.0%` formatting of the score is left out.
- Writing files, pandas, jsonlines and the rich console: `_export_json`, `_export_jsonl`, `_export_csv`, `_export_rag_text`, `_export_markdown` and the `display_*` renderers are I/O. An export either yields its path or raises, and which writers raise is a parameter. Of `_export_summary` only the line list is modelled, not the partial file left behind when it raises.
- Clocks and directories: `datetime.now()` is a string parameter, and `mkdir` is left out.
- IntelligentExporter.FilePath and HotelScraperSimple.SaveForRag: the directory parameter stands for `str(Path(output_dir))`, already normalised. pathlib's normalisation of the raw argument is not modelled. It collapses repeated slashes, drops `.` segments and a trailing `/`, and reads `""` as `"."`. `Strings.PathJoin` models only what `/` does to that normalised text.
- hotel_scraper.py `_extract_dining_info` and the address part of `_extract_contact_info` (hotel_scraper.py:189-199) depend on DOM traversal. The former would also raise `NameError`, since `re` is not imported at module level.
- HotelScraper.ExtractContactInfo: states only the phone, because the address is left out as above.
- `save_hotel_data` of hotel_scraper.py and `save_for_rag` of hotel_scraper_simple.py beyond their file names: the file contents are I/O.
- `scrape_hotel_basic` of hotel_scraper_simple.py: its HTTP request is replaced by a scrape function that yields the record's hotel name or raises.
- HotelScraperSimple.ScrapeHotels: the printed report and `display_summary` are left out; an error status carries an abstract message instead of `str(e)`.
- app.py, worker.py, the demo scripts and the environment probes: web, task-queue and scripting code outside the extraction core.
