/**
 * Regular-expression searches and keyword choices, the two ways the extractors look at
 * page text.
 *
 * A regex search is abstract: `Regex` is any function that, for one of the patterns the
 * source uses and a text, returns the text of the group the source reads from the
 * leftmost match (`match.group()` or `match.group(1)`) or `None` when `re.search`
 * finds nothing. What is proved is which pattern wins, never what a pattern matches.
 */
module Patterns {
  import opened Wrappers
  import opened Strings

  /** One constructor per distinct pattern text in the source. */
  datatype Pattern =
    | PhoneNanp      // \b(?:\+?1[-.\s]?)?\(?([0-9]{3})\)?[-.\s]?([0-9]{3})[-.\s]?([0-9]{4})\b   group()
    | PhoneTenDigit  // \b\d{3}[-.]?\d{3}[-.]?\d{4}\b                                         group()
    | PhoneParen     // \(\d{3}\)\s*\d{3}[-.]?\d{4}                                           group()
    | PhoneSpaced    // \b\d{3}[-.\s]?\d{3}[-.\s]?\d{4}\b                                     group()
    | Email          // \b[A-Za-z0-9._%+-]+@[A-Za-z0-9.-]+\.[A-Z|a-z]{2,}\b                   group()
    | CheckInTime    // check[- ]?in(?:\s+time)?:?\s*(TIME)                                   group(1)
    | ArrivalOptTime // arrival(?:\s+time)?:?\s*(TIME)                                        group(1)
    | CheckInStarts  // checkin\s+(?:starts?|begins?)\s+(?:at\s+)?(TIME)                      group(1)
    | CheckOutTime   // check[- ]?out(?:\s+time)?:?\s*(TIME)                                  group(1)
    | DepartureOptTime // departure(?:\s+time)?:?\s*(TIME)                                    group(1)
    | CheckOutBy     // checkout\s+(?:is\s+)?(?:by\s+)?(TIME)                                 group(1)
    | CheckInColon   // check[- ]?in:?\s*(TIME)                                               group(1)
    | ArrivalTime    // arrival time:?\s*(TIME)                                               group(1)
    | CheckOutColon  // check[- ]?out:?\s*(TIME)                                              group(1)
    | DepartureTime  // departure time:?\s*(TIME)                                             group(1)
    | HoursRange     // (TIME.*?TIME)                                                         group(1)
    | DollarAmount   // \$(\d+(?:\.\d{2})?)                                                   group(1)
  // where TIME is \d{1,2}:?\d{0,2}\s*[ap]m

  /** `re.search(pattern, text)`, reduced to the group the caller reads. */
  type Regex = (Pattern, string) -> Option<string>

  // ---------------------------------------------------------------------
  // First matching pattern in list order (`for pattern in ...: ... break`)
  // ---------------------------------------------------------------------

  function FirstMatchFrom(ps: seq<Pattern>, text: string, re: Regex, i: nat): Option<string>
    requires i <= |ps|
    decreases |ps| - i
  {
    if i == |ps| then None
    else if re(ps[i], text).Some? then re(ps[i], text)
    else FirstMatchFrom(ps, text, re, i + 1)
  }

  /** The result of the first pattern of `ps` that matches `text`. */
  function FirstMatch(ps: seq<Pattern>, text: string, re: Regex): Option<string>
  {
    FirstMatchFrom(ps, text, re, 0)
  }

  lemma {:induction false} FirstMatchFromSpec(ps: seq<Pattern>, text: string, re: Regex, i: nat)
    requires i <= |ps|
    ensures FirstMatchFrom(ps, text, re, i).None? <==> forall j :: i <= j < |ps| ==> re(ps[j], text).None?
    ensures FirstMatchFrom(ps, text, re, i).Some? ==>
      exists k :: i <= k < |ps| && FirstMatchFrom(ps, text, re, i) == re(ps[k], text) &&
        forall j :: i <= j < k ==> re(ps[j], text).None?
    decreases |ps| - i
  {
    if i < |ps| && re(ps[i], text).None? {
      FirstMatchFromSpec(ps, text, re, i + 1);
    }
  }

  /** `FirstMatch` is `None` exactly when no pattern matches; otherwise it is the result of
      some pattern that matches while every earlier one does not. */
  lemma FirstMatchSpec(ps: seq<Pattern>, text: string, re: Regex)
    ensures FirstMatch(ps, text, re).None? <==> forall j :: 0 <= j < |ps| ==> re(ps[j], text).None?
    ensures FirstMatch(ps, text, re).Some? ==>
      exists k :: 0 <= k < |ps| && FirstMatch(ps, text, re) == re(ps[k], text) &&
        forall j :: 0 <= j < k ==> re(ps[j], text).None?
  {
    FirstMatchFromSpec(ps, text, re, 0);
  }

  /** The search loop: try the patterns in order and stop at the first match. */
  method SearchPatterns(ps: seq<Pattern>, text: string, re: Regex) returns (m: Option<string>)
    ensures m == FirstMatch(ps, text, re)
  {
    m := None;
    for i := 0 to |ps|
      invariant m.None? && FirstMatch(ps, text, re) == FirstMatchFrom(ps, text, re, i)
    {
      var r := re(ps[i], text);
      if r.Some? {
        m := r;
        break;
      }
    }
  }

  // ---------------------------------------------------------------------
  // First keyword in list order (`next(k for k in ks if k in text)`, `for ... break`)
  // ---------------------------------------------------------------------

  function FirstKeywordFrom(ks: seq<string>, text: string, i: nat): Option<string>
    requires i <= |ks|
    decreases |ks| - i
  {
    if i == |ks| then None
    else if Contains(text, ks[i]) then Some(ks[i])
    else FirstKeywordFrom(ks, text, i + 1)
  }

  /** The first keyword of `ks` that occurs in `text`. */
  function FirstKeyword(ks: seq<string>, text: string): Option<string>
  {
    FirstKeywordFrom(ks, text, 0)
  }

  lemma {:induction false} FirstKeywordFromSpec(ks: seq<string>, text: string, i: nat)
    requires i <= |ks|
    ensures FirstKeywordFrom(ks, text, i).None? <==> forall j :: i <= j < |ks| ==> !Contains(text, ks[j])
    ensures FirstKeywordFrom(ks, text, i).Some? ==>
      exists k :: i <= k < |ks| && FirstKeywordFrom(ks, text, i) == Some(ks[k]) && Contains(text, ks[k]) &&
        forall j :: i <= j < k ==> !Contains(text, ks[j])
    decreases |ks| - i
  {
    if i < |ks| && !Contains(text, ks[i]) {
      FirstKeywordFromSpec(ks, text, i + 1);
    }
  }

  /** `FirstKeyword` is `None` exactly when no keyword occurs; otherwise it is a keyword that
      occurs and every keyword listed before it does not. */
  lemma FirstKeywordSpec(ks: seq<string>, text: string)
    ensures FirstKeyword(ks, text).None? <==> forall j :: 0 <= j < |ks| ==> !Contains(text, ks[j])
    ensures FirstKeyword(ks, text).Some? ==>
      exists k :: 0 <= k < |ks| && FirstKeyword(ks, text) == Some(ks[k]) && Contains(text, ks[k]) &&
        forall j :: 0 <= j < k ==> !Contains(text, ks[j])
  {
    FirstKeywordFromSpec(ks, text, 0);
  }

  /** The chosen keyword occurs in the text. */
  lemma {:induction false} FirstKeywordFromOccurs(ks: seq<string>, text: string, i: nat)
    requires i <= |ks|
    ensures FirstKeywordFrom(ks, text, i).Some? ==> Contains(text, FirstKeywordFrom(ks, text, i).value)
    decreases |ks| - i
  {
    if i < |ks| && !Contains(text, ks[i]) {
      FirstKeywordFromOccurs(ks, text, i + 1);
    }
  }

  /** No keyword is chosen exactly when none occurs. */
  lemma FirstKeywordNoneIff(ks: seq<string>, text: string)
    ensures FirstKeyword(ks, text).None? <==> !AnyIn(ks, text)
  {
    FirstKeywordSpec(ks, text);
  }

  /** A keyword listed after one of its own substrings can never be chosen: whenever it
      occurs, a keyword listed before it is chosen instead. */
  lemma ShadowedKeyword(ks: seq<string>, text: string, i: nat, j: nat)
    requires i < j < |ks| && Contains(ks[j], ks[i])
    requires Contains(text, ks[j])
    ensures FirstKeyword(ks, text).Some? && FirstKeyword(ks, text).value in ks[..j]
  {
    ContainsTransitive(text, ks[j], ks[i]);
    FirstKeywordSpec(ks, text);
    var k :| 0 <= k < |ks| && FirstKeyword(ks, text) == Some(ks[k]) && Contains(text, ks[k]) &&
      forall m :: 0 <= m < k ==> !Contains(text, ks[m]);
    assert k <= i;
    assert ks[k] == ks[..j][k];
  }

  /** The keyword loop: try the keywords in order and stop at the first that occurs. */
  method FindFirstKeyword(ks: seq<string>, text: string) returns (k: Option<string>)
    ensures k == FirstKeyword(ks, text)
  {
    k := None;
    for i := 0 to |ks|
      invariant k.None? && FirstKeyword(ks, text) == FirstKeywordFrom(ks, text, i)
    {
      if Contains(text, ks[i]) {
        k := Some(ks[i]);
        break;
      }
    }
  }

  // ---------------------------------------------------------------------
  // Every keyword that occurs (`[k for k in ks if k in text]`)
  // ---------------------------------------------------------------------

  /** The keywords of `ks` that occur in `text`, in list order. */
  function KeywordsIn(ks: seq<string>, text: string): (r: seq<string>)
    ensures |r| <= |ks|
    ensures forall k :: k in r <==> k in ks && Contains(text, k)
  {
    if ks == [] then []
    else (if Contains(text, ks[0]) then [ks[0]] else []) + KeywordsIn(ks[1..], text)
  }

  /** `any(k in text for k in ks)`. */
  predicate AnyIn(ks: seq<string>, text: string)
  {
    exists j :: 0 <= j < |ks| && Contains(text, ks[j])
  }

  lemma AppendAssoc<T>(a: seq<T>, b: seq<T>, c: seq<T>)
    ensures (a + b) + c == a + (b + c)
  {
  }

  /** `[k.title() for k in ks if k in t]`. */
  function Mentions(ks: seq<string>, t: string): seq<string>
  {
    if ks == [] then [] else (if Contains(t, ks[0]) then [Title(ks[0])] else []) + Mentions(ks[1..], t)
  }

  /** The loop `for k in ks: if k in t: found.append(k.title())`. */
  method CollectMentions(ks: seq<string>, t: string) returns (found: seq<string>)
    ensures found == Mentions(ks, t)
  {
    found := [];
    for i := 0 to |ks|
      invariant found + Mentions(ks[i..], t) == Mentions(ks, t)
    {
      assert ks[i..][1..] == ks[i + 1..];
      var rest := Mentions(ks[i + 1..], t);
      if Contains(t, ks[i]) {
        AppendAssoc(found, [Title(ks[i])], rest);
        found := found + [Title(ks[i])];
      } else {
        assert Mentions(ks[i..], t) == rest;
      }
    }
    assert found + Mentions(ks[|ks|..], t) == found + [];
  }

  /** No keyword is reported exactly when none occurs. */
  lemma {:induction false} MentionsEmptyIff(ks: seq<string>, t: string)
    ensures Mentions(ks, t) == [] <==> !AnyIn(ks, t)
  {
    if ks != [] {
      MentionsEmptyIff(ks[1..], t);
      if AnyIn(ks[1..], t) {
        var j :| 0 <= j < |ks[1..]| && Contains(t, ks[1..][j]);
        assert Contains(t, ks[j + 1]);
      }
      if AnyIn(ks, t) && !Contains(t, ks[0]) {
        var j :| 0 <= j < |ks| && Contains(t, ks[j]);
        assert ks[1..][j - 1] == ks[j];
      }
    }
  }

  /** The mentions are the title-cased keywords that occur, and no others. */
  lemma {:induction false} MentionsMembers(ks: seq<string>, t: string)
    ensures |Mentions(ks, t)| <= |ks|
    ensures forall x :: x in Mentions(ks, t) <==> exists j :: 0 <= j < |ks| && Contains(t, ks[j]) && x == Title(ks[j])
  {
    if ks != [] {
      MentionsMembers(ks[1..], t);
      assert forall j :: 1 <= j < |ks| ==> ks[1..][j - 1] == ks[j];
      forall x | exists j :: 0 <= j < |ks| && Contains(t, ks[j]) && x == Title(ks[j])
        ensures x in Mentions(ks, t)
      {
        var j :| 0 <= j < |ks| && Contains(t, ks[j]) && x == Title(ks[j]);
        if j > 0 {
          assert Contains(t, ks[1..][j - 1]) && x == Title(ks[1..][j - 1]);
        }
      }
    }
  }

  /** Distinct lower-case keywords give distinct mentions, since title-casing keeps the
      lower-cased form. */
  lemma {:induction false} MentionsDistinct(ks: seq<string>, t: string)
    requires forall i, j :: 0 <= i < j < |ks| ==> ks[i] != ks[j]
    requires forall i :: 0 <= i < |ks| ==> Lower(ks[i]) == ks[i]
    ensures forall i, j :: 0 <= i < j < |Mentions(ks, t)| ==> Mentions(ks, t)[i] != Mentions(ks, t)[j]
  {
    if ks != [] {
      var rest := ks[1..];
      assert forall j :: 1 <= j < |ks| ==> rest[j - 1] == ks[j];
      MentionsDistinct(rest, t);
      MentionsMembers(rest, t);
      if Contains(t, ks[0]) {
        var m := Mentions(rest, t);
        forall j | 0 <= j < |rest|
          ensures Title(rest[j]) != Title(ks[0])
        {
          LowerTitle(ks[0], false);
          LowerTitle(rest[j], false);
          assert rest[j] == ks[j + 1];
        }
        assert Title(ks[0]) !in m;
        assert Mentions(ks, t) == [Title(ks[0])] + m;
      }
    }
  }
}
