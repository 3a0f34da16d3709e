/**
 * The text helpers of the AI-enhanced scraper: the keyword context window, the
 * meaningful-content filter, hotel-name selection and the remote-model extraction with
 * its fence stripping and fallbacks.
 *
 * The page, the named-entity recogniser and the model's reply are inputs: a page is the
 * strings BeautifulSoup would return, a recogniser is a function from text to entities,
 * and a reply is the text the chat endpoint returns (or `None` when the call raises).
 */
module IntelligentText {
  import opened Wrappers
  import opened Strings

  // ---------------------------------------------------------------------
  // Named entities
  // ---------------------------------------------------------------------

  /** A spaCy entity: `ent.text` and `ent.label_`. */
  datatype Entity = Entity(text: string, tag: string)

  /** `[(ent.text, ent.label_) for ent in nlp(text).ents]`. */
  type Ner = string -> seq<Entity>

  function FirstLabelledFrom(ents: seq<Entity>, labels: seq<string>, i: nat): Option<string>
    requires i <= |ents|
    decreases |ents| - i
  {
    if i == |ents| then None
    else if ents[i].tag in labels then Some(ents[i].text)
    else FirstLabelledFrom(ents, labels, i + 1)
  }

  /** The text of the first entity whose label is one of `labels`. */
  function FirstLabelled(ents: seq<Entity>, labels: seq<string>): Option<string>
  {
    FirstLabelledFrom(ents, labels, 0)
  }

  lemma {:induction false} FirstLabelledFromSpec(ents: seq<Entity>, labels: seq<string>, i: nat)
    requires i <= |ents|
    ensures FirstLabelledFrom(ents, labels, i).None? <==> forall j :: i <= j < |ents| ==> ents[j].tag !in labels
    ensures FirstLabelledFrom(ents, labels, i).Some? ==>
      exists k :: i <= k < |ents| && ents[k].tag in labels && FirstLabelledFrom(ents, labels, i) == Some(ents[k].text) &&
        forall j :: i <= j < k ==> ents[j].tag !in labels
    decreases |ents| - i
  {
    if i < |ents| && ents[i].tag !in labels {
      FirstLabelledFromSpec(ents, labels, i + 1);
    }
  }

  // ---------------------------------------------------------------------
  // _extract_context_around_keyword
  // ---------------------------------------------------------------------

  function Min(a: int, b: int): int { if a <= b then a else b }

  /** `text[max(0, p - size) : min(len(text), p + len(keyword) + size)]` where `p` is the
      first position of `keyword.lower()` in `text`, or `""` when it does not occur. */
  function KeywordContext(text: string, keyword: string, size: nat): (r: string)
    ensures !Contains(text, Lower(keyword)) ==> r == ""
    ensures Contains(text, Lower(keyword)) ==> Contains(r, Lower(keyword))
    ensures |keyword| > 0 ==> (r == "" <==> !Contains(text, Lower(keyword)))
    ensures Contains(text, r)
    ensures |r| <= |keyword| + 2 * size
  {
    var k := Lower(keyword);
    var p := Find(text, k);
    FindSpec(text, k);
    if p < 0 then ""
    else
      var start := if p - size > 0 then p - size else 0;
      var end := if p + |keyword| + size < |text| then p + |keyword| + size else |text|;
      assert OccursAt(text, k, p) && |k| == |keyword|;
      SliceOfSlice(text, start, end, p - start, p - start + |k|);
      ContainsAt(text[start..end], k, p - start);
      ContainsSlice(text, start, end);
      text[start..end]
  }

  lemma SliceOfSlice(s: string, i: nat, j: nat, a: nat, b: nat)
    requires i <= j <= |s| && a <= b <= j - i
    ensures s[i..j][a..b] == s[i + a..i + b]
  {
    assert |s[i..j][a..b]| == b - a == |s[i + a..i + b]|;
    forall t | 0 <= t < b - a
      ensures s[i..j][a..b][t] == s[i + a..i + b][t]
    {
      assert s[i..j][a..b][t] == s[i..j][a + t] == s[i + a + t];
    }
  }

  /** Where the keyword occurs, the window reaches `size` characters to each side of its
      first occurrence, or to the end of the text when that is nearer. */
  lemma KeywordContextWindow(text: string, keyword: string, size: nat, p: nat)
    requires p == Find(text, Lower(keyword))
    ensures p + |keyword| <= |text|
    ensures KeywordContext(text, keyword, size) ==
      text[p - Min(p, size)..p + |keyword| + Min(|text| - p - |keyword|, size)]
  {
    var k := Lower(keyword);
    FindSpec(text, k);
    assert OccursAt(text, k, p) && |k| == |keyword|;
    var start := if p - size > 0 then p - size else 0;
    var end := if p + |keyword| + size < |text| then p + |keyword| + size else |text|;
    assert start == p - Min(p, size);
    assert end == p + |keyword| + Min(|text| - p - |keyword|, size);
    assert KeywordContext(text, keyword, size) == text[start..end];
  }

  // ---------------------------------------------------------------------
  // _extract_meaningful_content: the block filter
  // ---------------------------------------------------------------------

  /** The words that mark a block as navigation. */
  const NavWords: seq<string> := ["overview", "menu", "click here", "read more", "view all"]

  /** A block is kept when it is longer than 20 characters and its lower-cased text holds
      none of the navigation words. */
  predicate IsMeaningful(block: string)
  {
    |block| > 20 && forall j :: 0 <= j < |NavWords| ==> !Contains(Lower(block), NavWords[j])
  }

  /** The meaningful blocks, in page order. */
  function MeaningfulBlocks(blocks: seq<string>): (r: seq<string>)
    ensures |r| <= |blocks|
    ensures forall b :: b in r ==> b in blocks && IsMeaningful(b)
    ensures forall b :: b in blocks && IsMeaningful(b) ==> b in r
  {
    if blocks == [] then []
    else
      var init := blocks[..|blocks| - 1];
      var last := blocks[|blocks| - 1];
      assert blocks == init + [last];
      MeaningfulBlocks(init) + (if IsMeaningful(last) then [last] else [])
  }

  /** `' '.join(meaningful_text[:10])`. */
  function MeaningfulContent(blocks: seq<string>): string
  {
    Join(Take(MeaningfulBlocks(blocks), 10), " ")
  }

  /** A page with no meaningful block gives the empty content. */
  lemma MeaningfulContentEmpty(blocks: seq<string>)
    requires forall j :: 0 <= j < |blocks| ==> !IsMeaningful(blocks[j])
    ensures MeaningfulContent(blocks) == ""
  {
    NoneMeaningful(blocks);
  }

  lemma {:induction false} NoneMeaningful(blocks: seq<string>)
    requires forall j :: 0 <= j < |blocks| ==> !IsMeaningful(blocks[j])
    ensures MeaningfulBlocks(blocks) == []
  {
    if blocks != [] {
      NoneMeaningful(blocks[..|blocks| - 1]);
    }
  }

  /** Only the first ten meaningful blocks are used: an eleventh never changes the content. */
  lemma MeaningfulContentFirstTen(blocks: seq<string>, more: string)
    requires |MeaningfulBlocks(blocks)| >= 10
    ensures MeaningfulContent(blocks + [more]) == MeaningfulContent(blocks)
  {
    assert (blocks + [more])[..|blocks + [more]| - 1] == blocks;
    var m := MeaningfulBlocks(blocks);
    var m2 := MeaningfulBlocks(blocks + [more]);
    assert m2 == m + (if IsMeaningful(more) then [more] else []);
    assert Take(m2, 10) == m2[..10] == m[..10] == Take(m, 10);
  }

  /** The filter loop over the content elements. */
  method ExtractMeaningfulContent(blocks: seq<string>) returns (content: string)
    ensures content == MeaningfulContent(blocks)
  {
    var meaningful: seq<string> := [];
    for i := 0 to |blocks|
      invariant meaningful == MeaningfulBlocks(blocks[..i])
    {
      assert blocks[..i + 1][..i] == blocks[..i];
      var text := blocks[i];
      if IsMeaningful(text) {
        meaningful := meaningful + [text];
      }
    }
    assert blocks[..|blocks|] == blocks;
    content := Join(Take(meaningful, 10), " ");
  }

  // ---------------------------------------------------------------------
  // _extract_with_openai: fences, parse and fallbacks
  // ---------------------------------------------------------------------

  const Fence: string := "```"
  const JsonFence: string := "```json"

  /** What follows an opening fence is cut at the closing `` ``` ``: `r` is a prefix of
      `rest`, holds no fence, and is all of `rest` or is followed by a fence. */
  predicate FenceBody(rest: string, r: string)
  {
    StartsWith(rest, r) && !Contains(r, Fence) && (r == rest || StartsWith(rest[|r|..], Fence))
  }

  lemma UpToFenceBody(rest: string, piece: string)
    requires StartsWith(rest, piece)
    requires piece == rest || StartsWith(rest[|piece|..], Fence)
    ensures FenceBody(rest, UpTo(piece, Fence))
  {
    var r := UpTo(piece, Fence);
    assert rest[..|r|] == piece[..|r|];
    if r != piece {
      assert rest[|r|..][..|Fence|] == piece[|r|..][..|Fence|];
    }
  }

  /** The reply with a leading `` ```json `` or `` ``` `` fence removed:
      `text.split("```json")[1].split("```")[0]` or `text.split("```")[1].split("```")[0]`. */
  function StripFences(text: string): (r: string)
    ensures !StartsWith(text, Fence) ==> r == text
    ensures StartsWith(text, JsonFence) ==> FenceBody(text[|JsonFence|..], r)
    ensures StartsWith(text, Fence) && !StartsWith(text, JsonFence) ==> FenceBody(text[|Fence|..], r)
  {
    if StartsWith(text, JsonFence) then
      SplitAfterLeadingSeparator(text, JsonFence);
      var piece := SplitOn(text, JsonFence)[1];
      SplitFirstPiece(piece, Fence);
      var rest := text[|JsonFence|..];
      assert piece == rest || StartsWith(rest[|piece|..], JsonFence);
      assert piece != rest ==> rest[|piece|..][..|Fence|] == rest[|piece|..][..|JsonFence|][..|Fence|];
      UpToFenceBody(rest, piece);
      SplitOn(piece, Fence)[0]
    else if StartsWith(text, Fence) then
      SplitAfterLeadingSeparator(text, Fence);
      var piece := SplitOn(text, Fence)[1];
      SplitFirstPiece(piece, Fence);
      UpToFenceBody(text[|Fence|..], piece);
      SplitOn(piece, Fence)[0]
    else text
  }

  /** The four extraction kinds that have a prompt. */
  const ExtractionKinds: seq<string> := ["hotel_info", "policies", "amenities", "dining"]

  /** `json.loads`, reduced to a dictionary of strings, or `None` on a decode error. */
  type JsonParse = string -> Option<map<string, string>>

  /** `_extract_with_openai`. `apiOn` is `USE_OPENAI_API and OPENAI_AVAILABLE`; `reply` is
      the message content the endpoint returns, `None` when the call raises. Every failure
      gives the empty dictionary. */
  function OpenAiExtract(apiOn: bool, kind: string, reply: Option<string>, parse: JsonParse): (r: map<string, string>)
    ensures r != map[] ==>
      (apiOn && kind in ExtractionKinds && reply.Some? && parse(StripFences(Strip(reply.value))) == Some(r))
    ensures apiOn && kind in ExtractionKinds && reply.Some? && parse(StripFences(Strip(reply.value))).Some? ==>
      Some(r) == parse(StripFences(Strip(reply.value)))
  {
    if !apiOn || kind !in ExtractionKinds then map[]
    else match reply
      case None => map[]
      case Some(text) =>
        match parse(StripFences(Strip(text)))
        case None => map[]
        case Some(d) => d
  }

  /** Each of the failure paths yields `{}`. */
  lemma OpenAiFailures(apiOn: bool, kind: string, reply: Option<string>, parse: JsonParse)
    requires !apiOn || kind !in ExtractionKinds || reply.None? || parse(StripFences(Strip(reply.value))).None?
    ensures OpenAiExtract(apiOn, kind, reply, parse) == map[]
  {
  }

  // ---------------------------------------------------------------------
  // _extract_hotel_name_ai
  // ---------------------------------------------------------------------

  /** What the seven strategies read from the page, in the order they are tried; `None`
      where the element is missing, has no `content`, or the strategy raises. */
  datatype NameSources = NameSources(
    h1: Option<string>, dataTestIdHotel: Option<string>, hotelNameClass: Option<string>,
    ogTitle: Option<string>, twitterTitle: Option<string>, title: Option<string>,
    schemaName: Option<string>)

  function Candidates(p: NameSources): (r: seq<Option<string>>)
    ensures |r| == 7 && r[0] == p.h1 && r[5] == p.title && r[6] == p.schemaName
  {
    [p.h1, p.dataTestIdHotel, p.hotelNameClass, p.ogTitle, p.twitterTitle, p.title, p.schemaName]
  }

  const UnknownHotel: string := "Unknown Hotel"
  const NameLabels: seq<string> := ["ORG", "GPE"]

  /** `if name and len(name) > 3`. */
  predicate Qualifies(c: Option<string>)
  {
    c.Some? && |c.value| > 3
  }

  /** With the recogniser on, the first ORG or GPE entity of the name replaces it when there
      is one, and the name is kept when there is none; with it off the name is kept. */
  function RefineName(name: string, nlpOn: bool, ner: Ner): (r: string)
    ensures !nlpOn ==> r == name
    ensures r == name || exists j :: 0 <= j < |ner(name)| && ner(name)[j].tag in NameLabels && r == ner(name)[j].text
    ensures nlpOn && (forall j :: 0 <= j < |ner(name)| ==> ner(name)[j].tag !in NameLabels) ==> r == name
    ensures nlpOn && (exists j :: 0 <= j < |ner(name)| && ner(name)[j].tag in NameLabels) ==>
      exists k :: 0 <= k < |ner(name)| && ner(name)[k].tag in NameLabels && r == ner(name)[k].text &&
        forall j :: 0 <= j < k ==> ner(name)[j].tag !in NameLabels
  {
    FirstLabelledFromSpec(ner(name), NameLabels, 0);
    if nlpOn then FirstLabelled(ner(name), NameLabels).GetOr(name) else name
  }

  function HotelNameFrom(cands: seq<Option<string>>, nlpOn: bool, ner: Ner, i: nat): string
    requires i <= |cands|
    decreases |cands| - i
  {
    if i == |cands| then UnknownHotel
    else if Qualifies(cands[i]) then RefineName(cands[i].value, nlpOn, ner)
    else HotelNameFrom(cands, nlpOn, ner, i + 1)
  }

  /** The name chosen from the candidates. */
  function HotelName(cands: seq<Option<string>>, nlpOn: bool, ner: Ner): string
  {
    HotelNameFrom(cands, nlpOn, ner, 0)
  }

  lemma {:induction false} HotelNameFromFirst(cands: seq<Option<string>>, nlpOn: bool, ner: Ner, i: nat, k: nat)
    requires i <= k < |cands| && Qualifies(cands[k])
    requires forall j :: i <= j < k ==> !Qualifies(cands[j])
    ensures HotelNameFrom(cands, nlpOn, ner, i) == RefineName(cands[k].value, nlpOn, ner)
    decreases k - i
  {
    if i < k {
      HotelNameFromFirst(cands, nlpOn, ner, i + 1, k);
    }
  }

  lemma {:induction false} HotelNameFromNone(cands: seq<Option<string>>, nlpOn: bool, ner: Ner, i: nat)
    requires i <= |cands|
    requires forall j :: i <= j < |cands| ==> !Qualifies(cands[j])
    ensures HotelNameFrom(cands, nlpOn, ner, i) == UnknownHotel
    decreases |cands| - i
  {
    if i < |cands| {
      HotelNameFromNone(cands, nlpOn, ner, i + 1);
    }
  }

  /** The first candidate longer than three characters wins, refined by the recogniser when
      it is on; candidates before it are skipped whatever they hold. */
  lemma HotelNameFirstQualifying(cands: seq<Option<string>>, nlpOn: bool, ner: Ner, k: nat)
    requires k < |cands| && Qualifies(cands[k])
    requires forall j :: 0 <= j < k ==> !Qualifies(cands[j])
    ensures HotelName(cands, nlpOn, ner) == RefineName(cands[k].value, nlpOn, ner)
    ensures !nlpOn ==> HotelName(cands, nlpOn, ner) == cands[k].value
  {
    HotelNameFromFirst(cands, nlpOn, ner, 0, k);
  }

  /** With no qualifying candidate the name is the sentinel. */
  lemma HotelNameUnknown(cands: seq<Option<string>>, nlpOn: bool, ner: Ner)
    requires forall j :: 0 <= j < |cands| ==> !Qualifies(cands[j])
    ensures HotelName(cands, nlpOn, ner) == UnknownHotel
  {
    HotelNameFromNone(cands, nlpOn, ner, 0);
  }

  /** The strategy loop. */
  method ExtractHotelNameAi(page: NameSources, nlpOn: bool, ner: Ner) returns (name: string)
    ensures name == HotelName(Candidates(page), nlpOn, ner)
  {
    var strategies := Candidates(page);
    for i := 0 to |strategies|
      invariant HotelName(strategies, nlpOn, ner) == HotelNameFrom(strategies, nlpOn, ner, i)
    {
      var candidate := strategies[i];
      if candidate.Some? && |candidate.value| > 3 {
        if nlpOn {
          var entities := ner(candidate.value);
          var org := FirstLabelled(entities, NameLabels);
          if org.Some? {
            return org.value;
          }
        }
        return candidate.value;
      }
    }
    return UnknownHotel;
  }
}
