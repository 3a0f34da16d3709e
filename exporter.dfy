/**
 * `IntelligentDataExporter.export_hotel_data` and the text of `_export_summary`.
 *
 * Writing files is left out: an export of one format either yields its file path or
 * raises, and which formats raise for reasons outside the model (the file system, the
 * JSON, CSV and Markdown writers) is a parameter. The summary export is modelled line by
 * line, so the way it raises on the record itself is part of the model. The RAG-text and
 * Markdown exports raise on the record too (`.get` on a bare-string restaurant or nearby
 * entry, intelligent_exporter.py:230 and 365); those are folded into the failure
 * parameter, which the model leaves unconstrained.
 */
module IntelligentExporter {
  import opened Wrappers
  import opened Strings
  import opened IntelligentRecord

  // ---------------------------------------------------------------------
  // Formats
  // ---------------------------------------------------------------------

  /** The `formats` argument: one string, or a list of strings. */
  datatype Formats = OneFormat(name: string) | FormatList(names: seq<string>)

  const AllFormats: seq<string> := ["json", "jsonl", "csv", "rag_text", "markdown", "summary"]

  /** `[formats] if formats != "all" else [...all six...]`, and a list as it is. */
  function ExpandFormats(f: Formats): seq<string>
  {
    match f
    case OneFormat(n) => if n == "all" then AllFormats else [n]
    case FormatList(ns) => ns
  }

  /** The file-name ending of each format the exporter knows. */
  function Suffix(fmt: string): Option<string>
  {
    if fmt == "json" then Some(".json")
    else if fmt == "jsonl" then Some(".jsonl")
    else if fmt == "csv" then Some(".csv")
    else if fmt == "rag_text" then Some("_rag.txt")
    else if fmt == "markdown" then Some(".md")
    else if fmt == "summary" then Some("_summary.txt")
    else None
  }

  /** `"all"` stands for exactly the formats the exporter knows, each once, in a fixed
      order; any other single string is a list of that one format. */
  lemma AllIsEveryKnownFormat(n: string)
    ensures forall fmt :: fmt in ExpandFormats(OneFormat("all")) <==> Suffix(fmt).Some?
    ensures ExpandFormats(OneFormat("all")) == ["json", "jsonl", "csv", "rag_text", "markdown", "summary"]
    ensures n != "all" ==> ExpandFormats(OneFormat(n)) == [n]
  {
  }

  // ---------------------------------------------------------------------
  // The export loop
  // ---------------------------------------------------------------------

  /** `str(output_dir / f"{clean}_{timestamp}{suffix}")`. */
  function FilePath(outputDir: string, clean: string, timestamp: string, suffix: string): string
  {
    PathJoin(outputDir, clean + "_" + timestamp + suffix)
  }

  /** Whether the export of one format raises. */
  type Fails = string -> bool

  /** `exported_files` after the loop over `formats`: each known format whose export does
      not raise maps to its path; unknown formats and failed exports add nothing. */
  function ExportedFrom(formats: seq<string>, outputDir: string, clean: string, timestamp: string,
                        fails: Fails): map<string, string>
  {
    if formats == [] then map[]
    else
      var m := ExportedFrom(formats[..|formats| - 1], outputDir, clean, timestamp, fails);
      var fmt := formats[|formats| - 1];
      match Suffix(fmt)
      case None => m
      case Some(suffix) => if fails(fmt) then m else m[fmt := FilePath(outputDir, clean, timestamp, suffix)]
  }

  /** The result holds exactly the requested formats that are known and do not raise, each
      with its own path: a failing format stops none of the others. */
  lemma {:induction false} ExportedExactly(formats: seq<string>, outputDir: string, clean: string,
                                           timestamp: string, fails: Fails)
    ensures forall fmt :: fmt in ExportedFrom(formats, outputDir, clean, timestamp, fails) <==>
      (fmt in formats && Suffix(fmt).Some? && !fails(fmt))
    ensures forall fmt :: fmt in ExportedFrom(formats, outputDir, clean, timestamp, fails) ==>
      ExportedFrom(formats, outputDir, clean, timestamp, fails)[fmt] ==
        FilePath(outputDir, clean, timestamp, Suffix(fmt).value)
    decreases |formats|
  {
    if formats != [] {
      var front := formats[..|formats| - 1];
      ExportedExactly(front, outputDir, clean, timestamp, fails);
      assert formats == front + [formats[|formats| - 1]];
    }
  }

  /** `export_hotel_data`: expand the formats, clean the name, and export each format in
      turn, skipping those that raise. The summary raises on the record itself as
      `SummaryLines` says; every other failure is `ioFails`. */
  method ExportHotelData(h: IntelligentHotelInfo, formats: Formats, outputDir: string, timestamp: string,
                         quality: string, ioFails: Fails) returns (exported: map<string, string>)
    ensures exported == ExportedFrom(ExpandFormats(formats), outputDir, CleanName(h.hotelName), timestamp,
      ExportFails(SummaryOf(h), quality, ioFails))
  {
    var fs := ExpandFormats(formats);
    var clean := CleanName(h.hotelName);
    var summary := SummaryOf(h);
    var fails := ExportFails(summary, quality, ioFails);
    exported := map[];
    for i := 0 to |fs|
      invariant exported == ExportedFrom(fs[..i], outputDir, clean, timestamp, fails)
    {
      assert fs[..i + 1][..i] == fs[..i];
      var fmt := fs[i];
      var suffix := Suffix(fmt);
      if suffix.Some? && !fails(fmt) {
        exported := exported[fmt := FilePath(outputDir, clean, timestamp, suffix.value)];
      }
    }
    assert fs[..|fs|] == fs;
  }

  /** A format's export raises when its writer fails, or, for the summary, when the
      summary lines raise. */
  function ExportFails(s: Summary, quality: string, ioFails: Fails): Fails
  {
    fmt => ioFails(fmt) || (fmt == "summary" && SummaryLines(s, quality).None?)
  }

  // ---------------------------------------------------------------------
  // _export_summary
  // ---------------------------------------------------------------------

  /** What the summary reads from the record. */
  datatype Summary = Summary(
    name: string, phone: Option<string>, checkinTime: Option<string>, checkoutTime: Option<string>,
    parkingCost: Option<string>, wifiInfo: Option<string>, fitness: bool, pool: bool, spa: bool,
    restaurants: seq<Restaurant>, keySellingPoints: seq<string>, scrapedAt: string)

  function SummaryOf(h: IntelligentHotelInfo): Summary
    reads h
  {
    Summary(h.hotelName, h.phone, h.checkinTime, h.checkoutTime, h.parkingCost, h.wifiInfo,
      h.fitnessCenter.Some?, h.pool.Some?, h.spaServices != [], h.restaurants, h.keySellingPoints,
      h.scrapedAt)
  }

  /** `[label + value for (label, value) in facts if value]`. */
  function Facts(facts: seq<(string, Option<string>)>): (r: seq<string>)
    ensures |r| <= |facts|
    ensures forall i :: 0 <= i < |facts| && Truthy(facts[i].1) ==> facts[i].0 + facts[i].1.value in r
    ensures forall x :: x in r ==> exists i :: 0 <= i < |facts| && Truthy(facts[i].1) && x == facts[i].0 + facts[i].1.value
  {
    if facts == [] then []
    else
      var rest := Facts(facts[1..]);
      assert forall i :: 1 <= i < |facts| ==> facts[i] == facts[1..][i - 1];
      (if Truthy(facts[0].1) then [facts[0].0 + facts[0].1.value] else []) + rest
  }

  /** The QUICK FACTS candidates, in the order they are listed. */
  function QuickFactCandidates(s: Summary): seq<(string, Option<string>)>
  {
    [("Phone: ", s.phone), ("Check-in: ", s.checkinTime), ("Check-out: ", s.checkoutTime),
     ("Parking: ", s.parkingCost), ("WiFi: ", s.wifiInfo)]
  }

  function Bullets(xs: seq<string>): (r: seq<string>)
    ensures |r| == |xs|
    ensures forall i :: 0 <= i < |r| ==> r[i] == "• " + xs[i]
  {
    seq(|xs|, i requires 0 <= i < |xs| => "• " + xs[i])
  }

  /** The AMENITIES line and the blank after it, or nothing when no amenity is present. */
  function AmenityLines(s: Summary): seq<string>
  {
    var names := (if s.fitness then ["Fitness Center"] else []) + (if s.pool then ["Pool"] else []) +
      (if s.spa then ["Spa Services"] else []);
    if names == [] then [] else ["AMENITIES: " + Join(names, ", "), ""]
  }

  /** The line for one restaurant, or `None` where `restaurant.get` raises because the
      entry is a bare string. */
  function RestaurantLine(r: Restaurant): Option<string>
  {
    match r
    case Restaurant(name, cuisine, _, _) => Some("• " + name + (if cuisine != "" then " (" + cuisine + ")" else ""))
    case RestaurantText(_) => None
  }

  function RestaurantLines(rs: seq<Restaurant>): (r: Option<seq<string>>)
    ensures r.None? <==> exists i :: 0 <= i < |rs| && rs[i].RestaurantText?
    ensures r.Some? ==> |r.value| == |rs|
  {
    if rs == [] then Some([])
    else
      assert forall i :: 1 <= i < |rs| ==> rs[i] == rs[1..][i - 1];
      match (RestaurantLine(rs[0]), RestaurantLines(rs[1..]))
      case (Some(l), Some(ls)) => Some([l] + ls)
      case _ => None
  }

  /** The DINING section: a count line, one line for each of the first three restaurants and
      a blank, or nothing when there is no restaurant. */
  function DiningLines(rs: seq<Restaurant>): Option<seq<string>>
  {
    if rs == [] then Some([])
    else
      match RestaurantLines(Take(rs, 3))
      case None => None
      case Some(ls) => Some(["DINING: " + NatToString(|rs|) + " restaurant(s)"] + ls + [""])
  }

  /** The lines `_export_summary` writes, each followed by a newline in the file, or `None`
      where it raises. `quality` is the formatted confidence score. */
  function SummaryLines(s: Summary, quality: string): Option<seq<string>>
  {
    match DiningLines(s.restaurants)
    case None => None
    case Some(dining) =>
      Some(["HOTEL SUMMARY: " + s.name, Repeat('=', |s.name| + 15), "", "QUICK FACTS:"]
        + Bullets(Facts(QuickFactCandidates(s))) + [""]
        + SummaryRest(s, quality, dining))
  }

  /** Everything after QUICK FACTS: amenities, dining, key features, quality and date. */
  function SummaryRest(s: Summary, quality: string, dining: seq<string>): seq<string>
  {
    AmenityLines(s)
      + dining
      + (if s.keySellingPoints != [] then ["KEY FEATURES: " + Join(s.keySellingPoints, ", "), ""] else [])
      + ["DATA QUALITY: " + quality, "SCRAPED: " + s.scrapedAt]
  }

  /** The summary raises exactly when one of the first three restaurants is a bare string;
      later entries are never looked at. */
  lemma SummaryRaisesIff(s: Summary, quality: string)
    ensures SummaryLines(s, quality).None? <==>
      exists i :: 0 <= i < |s.restaurants| && i < 3 && s.restaurants[i].RestaurantText?
  {
    var rs := s.restaurants;
    if rs != [] {
      var t := Take(rs, 3);
      assert forall i :: 0 <= i < |t| ==> t[i] == rs[i];
    }
  }

  /** The header is the name, then a rule of `=` as long as the name plus fifteen; after a
      blank come QUICK FACTS, which list phone, check-in, check-out, parking cost and WiFi,
      in that order, each exactly when it is set. */
  lemma SummaryHeader(s: Summary, quality: string)
    requires SummaryLines(s, quality).Some?
    ensures var ls := SummaryLines(s, quality).value;
      var facts := Facts(QuickFactCandidates(s));
      |ls| >= 5 + |facts| &&
      ls[0] == "HOTEL SUMMARY: " + s.name &&
      |ls[1]| == |s.name| + 15 && (forall i :: 0 <= i < |ls[1]| ==> ls[1][i] == '=') &&
      ls[2] == "" && ls[3] == "QUICK FACTS:" &&
      ls[4..4 + |facts|] == Bullets(facts) && ls[4 + |facts|] == ""
  {
    var ls := SummaryLines(s, quality).value;
    var facts := Facts(QuickFactCandidates(s));
    var head := ["HOTEL SUMMARY: " + s.name, Repeat('=', |s.name| + 15), "", "QUICK FACTS:"];
    var front := head + Bullets(facts) + [""];
    var rest := SummaryRest(s, quality, DiningLines(s.restaurants).value);
    assert ls == front + rest;
    assert ls[..|front|] == front;
    assert front[4..4 + |facts|] == Bullets(facts);
  }

  /** Each set quick fact is listed, and nothing else is. */
  lemma QuickFactsWhenSet(s: Summary)
    ensures Truthy(s.phone) ==> "Phone: " + s.phone.value in Facts(QuickFactCandidates(s))
    ensures Truthy(s.wifiInfo) ==> "WiFi: " + s.wifiInfo.value in Facts(QuickFactCandidates(s))
    ensures Facts(QuickFactCandidates(s)) == [] <==>
      !Truthy(s.phone) && !Truthy(s.checkinTime) && !Truthy(s.checkoutTime) &&
      !Truthy(s.parkingCost) && !Truthy(s.wifiInfo)
  {
    var c := QuickFactCandidates(s);
    assert |c| == 5 && c[0].1 == s.phone && c[1].1 == s.checkinTime && c[2].1 == s.checkoutTime;
    assert c[3].1 == s.parkingCost && c[4].1 == s.wifiInfo;
    if Truthy(s.checkinTime) {
      assert c[1].0 + c[1].1.value in Facts(c);
    }
    if Truthy(s.checkoutTime) {
      assert c[2].0 + c[2].1.value in Facts(c);
    }
    if Truthy(s.parkingCost) {
      assert c[3].0 + c[3].1.value in Facts(c);
    }
    if Facts(c) != [] {
      assert Facts(c)[0] in Facts(c);
    }
  }

  /** At most three restaurants are printed, after a line counting all of them. */
  lemma DiningAtMostThree(rs: seq<Restaurant>)
    requires DiningLines(rs).Some? && rs != []
    ensures var d := DiningLines(rs).value;
      |d| == 2 + (if |rs| <= 3 then |rs| else 3) &&
      d[0] == "DINING: " + NatToString(|rs|) + " restaurant(s)"
  {
  }

  /** A heading followed by a non-empty join starts with the heading and its first piece. */
  lemma JoinedAfterHeading(heading: string, parts: seq<string>, sep: string)
    requires parts != []
    ensures StartsWith(heading + Join(parts, sep), heading)
    ensures StartsWith(heading + Join(parts, sep), heading + parts[0])
  {
    var rest := if |parts| == 1 then "" else sep + Join(parts[1..], sep);
    assert Join(parts, sep) == parts[0] + rest;
    var line := heading + Join(parts, sep);
    assert line == (heading + parts[0]) + rest;
    assert line[..|heading + parts[0]|] == heading + parts[0];
    assert line[..|heading|] == heading;
  }

  /** The AMENITIES line is written exactly when one of the three amenities is present; it
      starts the line with its label, names Fitness Center first when present, and is
      followed by a blank line. */
  lemma AmenityLinesShape(s: Summary)
    ensures AmenityLines(s) == [] <==> !s.fitness && !s.pool && !s.spa
    ensures AmenityLines(s) != [] ==>
      |AmenityLines(s)| == 2 && AmenityLines(s)[1] == "" && StartsWith(AmenityLines(s)[0], "AMENITIES: ")
    ensures s.fitness ==> StartsWith(AmenityLines(s)[0], "AMENITIES: Fitness Center")
  {
    if s.fitness || s.pool || s.spa {
      var names := (if s.fitness then ["Fitness Center"] else []) + (if s.pool then ["Pool"] else []) +
        (if s.spa then ["Spa Services"] else []);
      JoinedAfterHeading("AMENITIES: ", names, ", ");
    }
  }
}
