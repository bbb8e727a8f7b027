/** The business directory page (app/findwork/page.tsx): URL slugs generated from
    business names and made unique by probing, the Taiwan country-name override pair,
    the query/country filter, the sorted list of countries offered, the card
    formatters, and the page state around a save. */
module Findwork {
  import opened Wrappers
  import opened Text
  import opened Seqs

  /** A `business_profile` row as the page holds it. Optional text columns are "" when
      absent; the page only tests them for truthiness. */
  datatype Business = Business(
    id: string,
    businessId: string,
    title: string,
    businessName: string,
    description: string,
    businessCountry: string,
    businessCity: string,
    slug: string)

  /** The values the form submits. */
  datatype BusinessValues = BusinessValues(
    description: string,
    businessName: string,
    title: string,
    businessCountry: string,
    businessCity: string)

  /** What the upsert (conflict on `business_id`) writes. */
  datatype UpsertRow = UpsertRow(
    businessId: string,
    businessName: string,
    title: string,
    description: string,
    businessCountry: string,
    businessCity: string,
    slug: string)

  // ---------------------------------------------------------------------------
  // generateSlug (lines 44-50)

  /** A character of the class `\w`: an ASCII letter, a digit or `_`. */
  predicate IsWordChar(c: char)
  {
    'a' <= c <= 'z' || 'A' <= c <= 'Z' || '0' <= c <= '9' || c == '_'
  }

  /** A character a generated slug may contain. */
  predicate IsSlugChar(c: char)
  {
    'a' <= c <= 'z' || '0' <= c <= '9' || c == '_' || c == '-'
  }

  /** A character of `[\w ]`, which the deletion keeps. */
  predicate KeptBySlug(c: char)
  {
    IsWordChar(c) || c == ' '
  }

  /** `replace(/[^\w ]+/g, '')`: every character outside `[\w ]` is deleted. */
  function StripSpecial(s: string): (r: string)
    ensures |r| <= |s|
  {
    if s == [] then [] else Kept(s[0]) + StripSpecial(s[1..])
  }

  /** The deletion is the order-preserving filter by `[\w ]`. */
  lemma {:induction false} StripSpecialIsFilter(s: string)
    ensures StripSpecial(s) == Filter(KeptBySlug, s)
  {
    if s != [] {
      StripSpecialIsFilter(s[1..]);
    }
  }

  /** What deletion leaves of one character. */
  function Kept(c: char): string
  {
    if KeptBySlug(c) then [c] else []
  }

  /** Deletion keeps exactly the characters of `[\w ]`. */
  lemma {:induction false} StripSpecialChars(s: string)
    ensures forall c :: c in StripSpecial(s) <==> c in s && (IsWordChar(c) || c == ' ')
  {
    if s != [] {
      assert s == [s[0]] + s[1..];
      StripSpecialChars(s[1..]);
    }
  }

  /** `replace(/ +/g, '-')` over the rest of a text, `inRun` telling whether the
      character before it was a space: the first space of every run becomes `-`, the
      others are dropped. */
  function Hyphen(s: string, inRun: bool): (r: string)
    ensures |r| <= |s|
  {
    if s == [] then []
    else if s[0] == ' ' then (if inRun then Hyphen(s[1..], true) else "-" + Hyphen(s[1..], true))
    else [s[0]] + Hyphen(s[1..], false)
  }

  /** A run of `n` spaces. */
  function Spaces(n: nat): (r: string)
    ensures |r| == n
    ensures forall i :: 0 <= i < n ==> r[i] == ' '
  {
    if n == 0 then [] else " " + Spaces(n - 1)
  }

  /** A run of spaces becomes one `-`, or nothing when it continues a run; what follows is
      scanned as inside a run. */
  lemma {:induction false} HyphenRun(n: nat, t: string, inRun: bool)
    requires n >= 1
    ensures Hyphen(Spaces(n) + t, inRun) == (if inRun then "" else "-") + Hyphen(t, true)
  {
    var s := Spaces(n) + t;
    assert s[0] == ' ';
    assert s[1..] == Spaces(n - 1) + t;
    if n > 1 {
      HyphenRun(n - 1, t, true);
    } else {
      assert Spaces(0) + t == t;
    }
  }

  /** A piece without spaces passes through unchanged; after a non-empty one the scan is
      outside a run. */
  lemma {:induction false} HyphenWord(w: string, t: string, inRun: bool)
    requires ' ' !in w
    ensures Hyphen(w + t, inRun) == w + Hyphen(t, if w == [] then inRun else false)
  {
    if w == [] {
      assert w + t == t;
    } else {
      assert (w + t)[0] == w[0];
      assert (w + t)[1..] == w[1..] + t;
      assert ' ' !in w[1..];
      HyphenWord(w[1..], t, false);
      assert w == [w[0]] + w[1..];
    }
  }

  /** Words separated by runs of spaces: word `i` is followed by `gaps[i]` spaces. */
  function Spaced(words: seq<string>, gaps: seq<nat>): string
    requires |words| >= 1 && |gaps| == |words| - 1
  {
    if |words| == 1 then words[0] else words[0] + Spaces(gaps[0]) + Spaced(words[1..], gaps[1..])
  }

  /** Non-empty words without spaces, separated by runs of spaces, come out joined by
      single hyphens. */
  lemma {:induction false} HyphenWords(words: seq<string>, gaps: seq<nat>, t: string, inRun: bool)
    requires |words| >= 1 && |gaps| == |words| - 1
    requires forall i :: 0 <= i < |words| ==> words[i] != [] && ' ' !in words[i]
    requires forall i :: 0 <= i < |gaps| ==> gaps[i] >= 1
    ensures Hyphen(Spaced(words, gaps) + t, inRun) == Join(words, '-') + Hyphen(t, false)
  {
    if |words| == 1 {
      HyphenWord(words[0], t, inRun);
    } else {
      var rest := Spaced(words[1..], gaps[1..]);
      assert Spaced(words, gaps) + t == words[0] + (Spaces(gaps[0]) + (rest + t));
      HyphenWord(words[0], Spaces(gaps[0]) + (rest + t), inRun);
      HyphenRun(gaps[0], rest + t, false);
      HyphenWords(words[1..], gaps[1..], t, true);
      assert Join(words, '-') == words[0] + "-" + Join(words[1..], '-');
    }
  }

  /** Whether a text followed by more text leaves the scan inside a run of spaces. */
  function EndsInRun(s: string, inRun: bool): bool
  {
    if s == [] then inRun else s[|s| - 1] == ' '
  }

  /** Hyphenation leaves no space, and every other character it outputs comes from its input. */
  lemma {:induction false} HyphenChars(s: string, inRun: bool)
    ensures forall c :: c in Hyphen(s, inRun) ==> c != ' ' && (c == '-' || c in s)
  {
    if s != [] {
      HyphenChars(s[1..], s[0] == ' ');
      assert forall c :: c in s[1..] ==> c in s;
    }
  }

  /** `generateSlug`: lower-case, delete everything outside `[\w ]`, turn each run of
      spaces into `-`, then trim. */
  function GenerateSlug(text: string): (r: string)
    ensures forall c :: c in r ==> IsSlugChar(c)
  {
    var stripped := StripSpecial(ToLower(text));
    HyphenChars(stripped, false);
    StrippedSlugChars(text);
    TrimWithoutWhitespace(Hyphen(stripped, false));
    Trim(Hyphen(stripped, false))
  }

  /** What survives deletion is a lower-case letter, a digit, `_` or a space. */
  lemma StrippedSlugChars(text: string)
    ensures forall c :: c in StripSpecial(ToLower(text)) ==> IsSlugChar(c) || c == ' '
    ensures forall c :: c in Hyphen(StripSpecial(ToLower(text)), false) ==> IsSlugChar(c)
    ensures forall i :: 0 <= i < |Hyphen(StripSpecial(ToLower(text)), false)| ==> !IsWhitespace(Hyphen(StripSpecial(ToLower(text)), false)[i])
  {
    var lowered := ToLower(text);
    StripSpecialChars(lowered);
    forall c | c in StripSpecial(lowered) ensures IsSlugChar(c) || c == ' ' {
      var i :| 0 <= i < |lowered| && lowered[i] == c;
    }
    HyphenChars(StripSpecial(lowered), false);
    var r := Hyphen(StripSpecial(lowered), false);
    forall i | 0 <= i < |r| ensures !IsWhitespace(r[i]) {
      assert r[i] in r;
    }
  }

  /** The final `trim` never removes anything: the slug is the hyphenated text itself. */
  lemma SlugTrimIsNoOp(text: string)
    ensures GenerateSlug(text) == Hyphen(StripSpecial(ToLower(text)), false)
  {
    StrippedSlugChars(text);
    TrimWithoutWhitespace(Hyphen(StripSpecial(ToLower(text)), false));
  }

  /** A leading run of spaces becomes one `-`. */
  lemma HyphenLead(lead: nat, t: string)
    ensures Hyphen(Spaces(lead) + t, false) == (if lead > 0 then "-" else "") + Hyphen(t, lead > 0)
  {
    if lead > 0 {
      HyphenRun(lead, t, false);
    } else {
      assert Spaces(lead) + t == t;
    }
  }

  /** A trailing run of spaces becomes one `-`. */
  lemma HyphenTrail(trail: nat)
    ensures Hyphen(Spaces(trail), false) == (if trail > 0 then "-" else "")
  {
    if trail > 0 {
      assert Spaces(trail) + "" == Spaces(trail);
      HyphenRun(trail, "", false);
    }
  }

  /** The replacement over outer runs of `lead` and `trail` spaces around non-empty words
      without spaces separated by runs of spaces: the words joined by single hyphens, with
      one more hyphen for each outer run. */
  lemma HyphenSpacedWords(lead: nat, words: seq<string>, gaps: seq<nat>, trail: nat)
    requires |words| >= 1 && |gaps| == |words| - 1
    requires forall i :: 0 <= i < |words| ==> words[i] != [] && ' ' !in words[i]
    requires forall i :: 0 <= i < |gaps| ==> gaps[i] >= 1
    ensures Hyphen(Spaces(lead) + Spaced(words, gaps) + Spaces(trail), false)
            == (if lead > 0 then "-" else "") + Join(words, '-') + (if trail > 0 then "-" else "")
  {
    var middle := Spaced(words, gaps);
    var outer := Spaces(trail);
    var pre: string := if lead > 0 then "-" else "";
    var post: string := if trail > 0 then "-" else "";
    var joined := Join(words, '-');
    Regroup(Spaces(lead), middle, outer);
    HyphenLead(lead, middle + outer);
    assert Hyphen(Spaces(lead) + middle + outer, false) == pre + Hyphen(middle + outer, lead > 0);
    HyphenWords(words, gaps, outer, lead > 0);
    assert Hyphen(middle + outer, lead > 0) == joined + Hyphen(outer, false);
    HyphenTrail(trail);
    assert Hyphen(outer, false) == post;
    Regroup(pre, joined, post);
  }

  /** The slug of a name whose lower-cased, deleted form is `lead` spaces, non-empty words
      without spaces separated by runs of spaces, and `trail` spaces: the words joined by
      single hyphens, with one more hyphen for each outer run. */
  lemma SlugOfWords(text: string, lead: nat, words: seq<string>, gaps: seq<nat>, trail: nat)
    requires |words| >= 1 && |gaps| == |words| - 1
    requires forall i :: 0 <= i < |words| ==> words[i] != [] && ' ' !in words[i]
    requires forall i :: 0 <= i < |gaps| ==> gaps[i] >= 1
    requires Filter(KeptBySlug, ToLower(text)) == Spaces(lead) + Spaced(words, gaps) + Spaces(trail)
    ensures GenerateSlug(text) == (if lead > 0 then "-" else "") + Join(words, '-') + (if trail > 0 then "-" else "")
  {
    SlugTrimIsNoOp(text);
    StripSpecialIsFilter(ToLower(text));
    HyphenSpacedWords(lead, words, gaps, trail);
  }

  function NotHyphen(c: char): bool { c != '-' }

  function NotSpace(c: char): bool { c != ' ' }

  /** Hyphenating a text without `-` loses only spaces: deleting the hyphens from the
      result gives the text with its spaces deleted. */
  lemma {:induction false} HyphenKeepsNonSpaces(s: string, inRun: bool)
    requires '-' !in s
    ensures Filter(NotHyphen, Hyphen(s, inRun)) == Filter(NotSpace, s)
  {
    if s != [] {
      assert '-' !in s[1..];
      HyphenKeepsNonSpaces(s[1..], s[0] == ' ');
      var tail := Hyphen(s[1..], s[0] == ' ');
      if s[0] == ' ' && !inRun {
        FilterAppend(NotHyphen, "-", tail);
        assert "-"[1..] == [];
      } else if s[0] != ' ' {
        FilterAppend(NotHyphen, [s[0]], tail);
        assert [s[0]][1..] == [];
      }
    }
  }

  /** Deleting the hyphens of a slug gives its name, lower-cased, with everything outside
      `[\w]` deleted: hyphens stand only for runs of spaces. */
  lemma SlugWithoutHyphens(text: string)
    ensures Filter(NotHyphen, GenerateSlug(text)) == Filter(NotSpace, StripSpecial(ToLower(text)))
  {
    var lowered := ToLower(text);
    var stripped := StripSpecial(lowered);
    assert '-' !in stripped by {
      StripSpecialChars(lowered);
      assert !IsWordChar('-');
    }
    var hyphened := Hyphen(stripped, false);
    SlugTrimIsNoOp(text);
    assert GenerateSlug(text) == hyphened;
    HyphenKeepsNonSpaces(stripped, false);
    assert Filter(NotHyphen, hyphened) == Filter(NotSpace, stripped);
  }

  /** Hyphenation never outputs two hyphens in a row, and none first inside a run. */
  lemma {:induction false} HyphenNoDoubleHyphen(s: string, inRun: bool)
    requires '-' !in s
    ensures forall i :: 0 <= i < |Hyphen(s, inRun)| - 1 ==> !(Hyphen(s, inRun)[i] == '-' && Hyphen(s, inRun)[i + 1] == '-')
    ensures inRun && Hyphen(s, inRun) != [] ==> Hyphen(s, inRun)[0] != '-'
  {
    if s != [] {
      assert '-' !in s[1..];
      HyphenNoDoubleHyphen(s[1..], s[0] == ' ');
      var tail := Hyphen(s[1..], s[0] == ' ');
      if s[0] != ' ' || !inRun {
        var r := Hyphen(s, inRun);
        assert r == [r[0]] + tail;
        forall i | 0 <= i < |r| - 1 ensures !(r[i] == '-' && r[i + 1] == '-') {
          assert r[i + 1] == tail[i];
          if i > 0 {
            assert r[i] == tail[i - 1];
          }
        }
      }
    }
  }

  /** Each run of spaces yields exactly one `-`, so a slug never holds two in a row. */
  lemma SlugHasNoDoubleHyphen(text: string)
    ensures forall i :: 0 <= i < |GenerateSlug(text)| - 1 ==>
              !(GenerateSlug(text)[i] == '-' && GenerateSlug(text)[i + 1] == '-')
  {
    StripSpecialChars(ToLower(text));
    SlugTrimIsNoOp(text);
    HyphenNoDoubleHyphen(StripSpecial(ToLower(text)), false);
  }

  // ---------------------------------------------------------------------------
  // Slug probing (lines 186-221)

  /** The slugs tried in turn: `baseSlug`, then `${baseSlug}-${counter}`. */
  function Candidate(base: string, counter: nat): string
  {
    if counter == 0 then base else base + "-" + NatToString(counter)
  }

  /** The loop's bound on `counter`. */
  const ProbeLimit: nat := 100

  /** The counter at which probing from `counter` on stops: the first candidate no other
      business holds, or the limit when every candidate up to the limit is held. */
  function FirstFree(base: string, taken: set<string>, counter: nat): (r: nat)
    requires counter <= ProbeLimit
    ensures counter <= r <= ProbeLimit
    ensures forall j :: counter <= j < r ==> Candidate(base, j) in taken
    ensures r < ProbeLimit ==> Candidate(base, r) !in taken
    decreases ProbeLimit - counter
  {
    if counter == ProbeLimit then ProbeLimit
    else if Candidate(base, counter) !in taken then counter
    else FirstFree(base, taken, counter + 1)
  }

  /** The `while (slugExists && counter < 100)` loop. `taken` is the set of slugs held by
      businesses other than the user's; `lookups` counts the queries made. */
  method ProbeSlug(base: string, taken: set<string>) returns (slug: string, counter: nat, lookups: nat)
    ensures counter == FirstFree(base, taken, 0)
    ensures slug == Candidate(base, counter)
    ensures lookups == if counter < ProbeLimit then counter + 1 else ProbeLimit
  {
    slug := base;
    var slugExists := true;
    counter := 0;
    lookups := 0;
    while slugExists && counter < ProbeLimit
      invariant counter <= ProbeLimit
      invariant slug == Candidate(base, counter)
      invariant forall j :: 0 <= j < counter ==> Candidate(base, j) in taken
      invariant slugExists ==> lookups == counter
      invariant !slugExists ==> lookups == counter + 1 && slug !in taken && counter < ProbeLimit
      decreases ProbeLimit - counter, slugExists
    {
      lookups := lookups + 1;
      if slug in taken {
        counter := counter + 1;
        slug := base + "-" + NatToString(counter);
      } else {
        slugExists := false;
      }
    }
    FirstFreeIsFirst(base, taken, 0, counter);
  }

  /** The number of slug queries a probe from `base` sends: up to and including the first
      free candidate, or all 100 when the limit is reached. */
  function ProbeLookups(base: string, taken: set<string>): (n: nat)
    ensures 1 <= n <= ProbeLimit
  {
    if FirstFree(base, taken, 0) < ProbeLimit then FirstFree(base, taken, 0) + 1 else ProbeLimit
  }

  /** `FirstFree` is pinned down by its properties. */
  lemma {:induction false} FirstFreeIsFirst(base: string, taken: set<string>, from: nat, k: nat)
    requires from <= k <= ProbeLimit
    requires forall j :: from <= j < k ==> Candidate(base, j) in taken
    requires k < ProbeLimit ==> Candidate(base, k) !in taken
    ensures FirstFree(base, taken, from) == k
    decreases k - from
  {
    if from < k {
      FirstFreeIsFirst(base, taken, from + 1, k);
    }
  }

  /** When all 100 probed candidates are held the loop stops with `base-100` unchecked:
      if that one is held too, the saved slug duplicates another business's. */
  lemma {:induction false} ExhaustedProbeMayCollide(base: string, taken: set<string>)
    requires forall j :: 0 <= j <= ProbeLimit ==> Candidate(base, j) in taken
    ensures FirstFree(base, taken, 0) == ProbeLimit
    ensures Candidate(base, FirstFree(base, taken, 0)) in taken
  {
    FirstFreeIsFirst(base, taken, 0, ProbeLimit);
  }

  /** The slug chosen by a save: probed for a new profile or a changed name, otherwise the
      stored slug, or the base slug when the stored one is empty. */
  function ChosenSlug(stored: Option<Business>, name: string, taken: set<string>): (slug: string)
    ensures stored.None? || stored.value.businessName != name ==>
              slug == Candidate(GenerateSlug(name), FirstFree(GenerateSlug(name), taken, 0))
    ensures (stored.None? || stored.value.businessName != name) && FirstFree(GenerateSlug(name), taken, 0) < ProbeLimit
            ==> slug !in taken
    ensures stored.Some? && stored.value.businessName == name && stored.value.slug != "" ==> slug == stored.value.slug
    ensures stored.Some? && stored.value.businessName == name && stored.value.slug == "" ==> slug == GenerateSlug(name)
  {
    var base := GenerateSlug(name);
    if stored.None? || stored.value.businessName != name then Candidate(base, FirstFree(base, taken, 0))
    else if stored.value.slug != "" then stored.value.slug
    else base
  }

  /** The slug step of the save: probe when the business is new or renamed, otherwise
      keep the stored slug (or the generated one when none is stored) without any lookup.
      `lookups` counts the slug queries sent. */
  method ChooseSlug(stored: Option<Business>, name: string, taken: set<string>) returns (slug: string, lookups: nat)
    ensures slug == ChosenSlug(stored, name, taken)
    ensures stored.Some? && stored.value.businessName == name ==> lookups == 0
    ensures stored.None? || stored.value.businessName != name ==> lookups == ProbeLookups(GenerateSlug(name), taken)
  {
    var baseSlug := GenerateSlug(name);
    if stored.None? || stored.value.businessName != name {
      var counter;
      slug, counter, lookups := ProbeSlug(baseSlug, taken);
      assert slug == Candidate(baseSlug, FirstFree(baseSlug, taken, 0)) == ChosenSlug(stored, name, taken);
      assert lookups == ProbeLookups(baseSlug, taken);
    } else {
      lookups := 0;
      slug := if stored.value.slug != "" then stored.value.slug else baseSlug;
      assert slug == ChosenSlug(stored, name, taken);
    }
  }

  // ---------------------------------------------------------------------------
  // Country-name overrides (lines 53-69)

  const TaiwanListed := "Taiwan, Province of China"
  const TaiwanShown := "Taiwan"

  /** `getOriginalCountryName`. */
  function OriginalCountryName(name: string): (r: string)
    ensures name != TaiwanShown ==> r == name
  {
    if name == TaiwanShown then TaiwanListed else name
  }

  /** `getCustomizedCountryName`. */
  function CustomizedCountryName(name: string): (r: string)
    ensures name != TaiwanListed ==> r == name
  {
    if name == TaiwanListed then TaiwanShown else name
  }

  /** Mapping to the shown name and back restores any name but the shown "Taiwan". */
  lemma OriginalOfCustomized(x: string)
    ensures OriginalCountryName(CustomizedCountryName(x)) == x <==> x != TaiwanShown
  {
  }

  /** Mapping to the listed name and back restores any name but the listed Taiwan entry. */
  lemma CustomizedOfOriginal(y: string)
    ensures CustomizedCountryName(OriginalCountryName(y)) == y <==> y != TaiwanListed
  {
  }

  /** The rows as the page keeps them: a present country is shown under its customised name. */
  function ProcessCountries(data: seq<Business>): (r: seq<Business>)
    ensures |r| == |data|
    ensures forall i :: 0 <= i < |r| ==>
              r[i] == data[i].(businessCountry := if data[i].businessCountry != "" then CustomizedCountryName(data[i].businessCountry) else "")
  {
    if data == [] then []
    else
      var b := data[0];
      [b.(businessCountry := if b.businessCountry != "" then CustomizedCountryName(b.businessCountry) else "")] + ProcessCountries(data[1..])
  }

  // ---------------------------------------------------------------------------
  // The filter effect (lines 137-161)

  /** The query test over title, description and business name, ignoring case. */
  predicate BusinessMatchesQuery(b: Business, query: string)
  {
    IncludesIgnoringCase(b.title, query) || IncludesIgnoringCase(b.description, query)
    || IncludesIgnoringCase(b.businessName, query)
  }

  /** Both tests, each vacuous when its filter is empty. */
  predicate BusinessMatchesFilters(b: Business, query: string, country: string)
  {
    (query == "" || BusinessMatchesQuery(b, query)) && (country == "" || b.businessCountry == country)
  }

  function QueryMatcher(query: string): Business -> bool
  {
    (b: Business) => BusinessMatchesQuery(b, query)
  }

  function CountryMatcher(country: string): Business -> bool
  {
    (b: Business) => b.businessCountry == country
  }

  /** `BusinessMatchesFilters` as a filter predicate. */
  function BusinessMatcher(query: string, country: string): Business -> bool
  {
    (b: Business) => BusinessMatchesFilters(b, query, country)
  }

  /** `results.filter(...)` by the query, when one is set. */
  function QueryPass(businesses: seq<Business>, query: string): seq<Business>
  {
    if query != "" then Filter(QueryMatcher(query), businesses) else businesses
  }

  /** `results.filter(...)` by the country, when one is selected. */
  function CountryPass(businesses: seq<Business>, country: string): seq<Business>
  {
    if country != "" then Filter(CountryMatcher(country), businesses) else businesses
  }

  /** The query filter, then the country filter, each applied only when set. */
  function FilterBusinesses(businesses: seq<Business>, query: string, country: string): (r: seq<Business>)
    ensures forall b :: b in r <==> b in businesses && BusinessMatchesFilters(b, query, country)
    ensures IsSubsequence(r, businesses)
  {
    BusinessFilterIsOnePass(businesses, query, country);
    FilterIsSubsequence(BusinessMatcher(query, country), businesses);
    CountryPass(QueryPass(businesses, query), country)
  }

  /** The two passes are one order-preserving pass with the conjunction. */
  lemma {:induction false} BusinessFilterIsOnePass(businesses: seq<Business>, query: string, country: string)
    ensures CountryPass(QueryPass(businesses, query), country) == Filter(BusinessMatcher(query, country), businesses)
  {
    var both := BusinessMatcher(query, country);
    if query != "" && country != "" {
      BothPasses(businesses, query, country);
    } else if query != "" {
      FilterCongruent(QueryMatcher(query), both, businesses);
    } else if country != "" {
      FilterCongruent(CountryMatcher(country), both, businesses);
    } else {
      FilterKeepsAll(both, businesses);
    }
  }

  lemma BothPasses(businesses: seq<Business>, query: string, country: string)
    requires query != "" && country != ""
    ensures Filter(CountryMatcher(country), Filter(QueryMatcher(query), businesses))
            == Filter(BusinessMatcher(query, country), businesses)
  {
    FilterTwice(QueryMatcher(query), CountryMatcher(country), BusinessMatcher(query, country), businesses);
  }

  /** With no query and no country every business is listed, in load order. */
  lemma EmptyBusinessFiltersKeepAll(businesses: seq<Business>)
    ensures FilterBusinesses(businesses, "", "") == businesses
  {
  }

  // ---------------------------------------------------------------------------
  // availableCountries (lines 304-310)

  /** Strictly ascending in the default sort order, hence duplicate-free. */
  predicate StrictlySorted(s: seq<string>)
  {
    forall i, j :: 0 <= i < j < |s| ==> LexLess(s[i], s[j])
  }

  /** Inserts `x` into a strictly sorted list unless it is already there. */
  function InsertSorted(s: seq<string>, x: string): (r: seq<string>)
    requires StrictlySorted(s)
    ensures StrictlySorted(r)
    ensures forall y :: y in r <==> y in s || y == x
  {
    if s == [] then [x]
    else if x == s[0] then s
    else if LexLess(x, s[0]) then
      var r := [x] + s;
      assert StrictlySorted(r) by {
        forall j | 0 < j < |r| ensures LexLess(r[0], r[j]) {
          if j > 1 {
            LexTransitive(x, s[0], s[j - 1]);
          }
        }
      }
      r
    else
      LexTotal(x, s[0]);
      assert StrictlySorted(s[1..]);
      var rest := InsertSorted(s[1..], x);
      var r := [s[0]] + rest;
      assert StrictlySorted(r) by {
        forall j | 0 <= j < |rest| ensures LexLess(s[0], rest[j]) {
          var y := rest[j];
          assert y in rest;
          if y != x {
            var k :| 0 <= k < |s[1..]| && s[1..][k] == y;
            assert y == s[k + 1];
          }
        }
        forall i, j | 0 <= i < j < |r| ensures LexLess(r[i], r[j]) {
          assert r[j] == rest[j - 1];
          if i > 0 {
            assert r[i] == rest[i - 1];
          }
        }
      }
      r
  }

  /** `[...new Set(countries)].sort()`: the distinct non-empty countries in sorted order. */
  function SortedCountries(businesses: seq<Business>): (r: seq<string>)
    ensures StrictlySorted(r)
    ensures forall c :: c in r <==> exists b :: b in businesses && b.businessCountry == c && c != ""
  {
    if businesses == [] then []
    else
      var rest := SortedCountries(businesses[1..]);
      assert forall b :: b in businesses <==> b == businesses[0] || b in businesses[1..];
      if businesses[0].businessCountry != "" then InsertSorted(rest, businesses[0].businessCountry) else rest
  }

  /** The offered countries never repeat. */
  lemma {:induction false} SortedIsDuplicateFree(s: seq<string>)
    requires StrictlySorted(s)
    ensures NoDuplicates(s)
  {
    forall i, j | 0 <= i < j < |s| ensures s[i] != s[j] {
      if s[i] == s[j] {
        LexIrreflexive(s[i]);
      }
    }
  }

  // ---------------------------------------------------------------------------
  // Formatters (lines 280-301)

  /** How many characters a card shows of a description. */
  const CardDescriptionLength: nat := 200

  /** `truncateText`: the text when it fits, else its first `maxLength` characters and "...". */
  function TruncateText(text: string, maxLength: nat): (r: string)
    ensures |text| <= maxLength ==> r == text
    ensures |text| > maxLength ==> |r| == maxLength + 3 && r[..maxLength] == text[..maxLength] && r[maxLength..] == "..."
  {
    if |text| <= maxLength then text else text[..maxLength] + "..."
  }

  /** `formatLocation`: "city, country", or whichever of the two is present, or nothing. */
  function FormatLocation(b: Business): (r: Option<string>)
    ensures r.None? <==> b.businessCity == "" && b.businessCountry == ""
    ensures r.Some? ==> Includes(r.value, b.businessCity) && Includes(r.value, b.businessCountry)
    ensures r.Some? && b.businessCity != "" && b.businessCountry != "" ==>
              r.value == b.businessCity + ", " + b.businessCountry
    ensures b.businessCity == "" && b.businessCountry != "" ==> r == Some(b.businessCountry)
    ensures b.businessCity != "" && b.businessCountry == "" ==> r == Some(b.businessCity)
  {
    if b.businessCity != "" && b.businessCountry != "" then
      var text := b.businessCity + ", " + b.businessCountry;
      assert text[..|b.businessCity|] == b.businessCity;
      assert OccursAt(text, b.businessCountry, |b.businessCity| + 2);
      IncludesAt(text, b.businessCountry, |b.businessCity| + 2);
      Some(text)
    else if b.businessCountry != "" then
      IncludesSelf(b.businessCountry);
      IncludesEmpty(b.businessCountry);
      Some(b.businessCountry)
    else if b.businessCity != "" then
      IncludesSelf(b.businessCity);
      IncludesEmpty(b.businessCity);
      Some(b.businessCity)
    else None
  }

  const FindworkPath := "/findwork/"

  /** `getBusinessUrl`: the slug when present, else the id. */
  function BusinessUrl(b: Business): (r: string)
    ensures |r| >= |FindworkPath| && r[..|FindworkPath|] == FindworkPath
    ensures b.slug != "" ==> r[|FindworkPath|..] == b.slug
    ensures b.slug == "" ==> r[|FindworkPath|..] == b.id
  {
    FindworkPath + (if b.slug != "" then b.slug else b.id)
  }

  /** Two businesses with slugs share a URL only when they share the slug. */
  lemma UrlDeterminesSlug(b1: Business, b2: Business)
    requires b1.slug != "" && b2.slug != ""
    ensures BusinessUrl(b1) == BusinessUrl(b2) <==> b1.slug == b2.slug
  {
    if BusinessUrl(b1) == BusinessUrl(b2) {
      assert BusinessUrl(b1)[|FindworkPath|..] == BusinessUrl(b2)[|FindworkPath|..];
    }
  }

  // ---------------------------------------------------------------------------
  // Page state

  /** The upsert the save sends, with the stored (listed) country name. */
  function SavePayload(userId: string, values: BusinessValues, slug: string): UpsertRow
  {
    UpsertRow(userId, values.businessName, values.title, values.description,
              if values.businessCountry != "" then OriginalCountryName(values.businessCountry) else "",
              values.businessCity, slug)
  }

  class FindworkPage {
    var businessProfiles: seq<Business>
    var filteredBusinessProfiles: seq<Business>
    var userBusinessProfile: Option<Business>
    var hasBusinessProfile: bool
    var isModalOpen: bool
    var isLoading: bool

    constructor ()
      ensures businessProfiles == [] && filteredBusinessProfiles == [] && userBusinessProfile.None?
      ensures !hasBusinessProfile && !isModalOpen && isLoading
    {
      businessProfiles := [];
      filteredBusinessProfiles := [];
      userBusinessProfile := None;
      hasBusinessProfile := false;
      isModalOpen := false;
      isLoading := true;
    }

    /** `fetchBusinessProfiles`: on success both lists become the fetched rows with shown
        country names; on a store error they stay as they were. */
    method FetchBusinessProfiles(data: seq<Business>, fetchError: bool)
      modifies this`businessProfiles, this`filteredBusinessProfiles, this`isLoading
      ensures !isLoading
      ensures fetchError ==> businessProfiles == old(businessProfiles) && filteredBusinessProfiles == old(filteredBusinessProfiles)
      ensures !fetchError ==> businessProfiles == ProcessCountries(data) && filteredBusinessProfiles == businessProfiles
    {
      isLoading := true;
      if !fetchError {
        var processedData := ProcessCountries(data);
        businessProfiles := processedData;
        filteredBusinessProfiles := processedData;
      }
      isLoading := false;
    }

    /** The filter effect: skipped while nothing is loaded. */
    method ApplyFilters(searchQuery: string, selectedCountry: string)
      modifies this`filteredBusinessProfiles
      ensures businessProfiles == [] ==> filteredBusinessProfiles == old(filteredBusinessProfiles)
      ensures businessProfiles != [] ==> filteredBusinessProfiles == FilterBusinesses(businessProfiles, searchQuery, selectedCountry)
    {
      if |businessProfiles| == 0 {
        return;
      }
      filteredBusinessProfiles := FilterBusinesses(businessProfiles, searchQuery, selectedCountry);
    }

    /** `handleSaveBusinessProfile`. `otherSlugs` holds the slugs of businesses other than
        the user's; `upsertFails` stands for a store error on the upsert. Returns the row
        sent to the store, if the save got that far. */
    method SaveBusinessProfile(user: Option<string>, values: BusinessValues, otherSlugs: set<string>, upsertFails: bool)
      returns (sent: Option<UpsertRow>)
      modifies this`userBusinessProfile, this`hasBusinessProfile, this`isModalOpen
      ensures user.None? ==> sent.None?
      ensures user.Some? ==> sent == Some(SavePayload(user.value, values, ChosenSlug(old(userBusinessProfile), values.businessName, otherSlugs)))
      ensures user.None? || upsertFails ==>
                userBusinessProfile == old(userBusinessProfile) && hasBusinessProfile == old(hasBusinessProfile)
                && isModalOpen == old(isModalOpen)
      ensures user.Some? && !upsertFails ==>
                hasBusinessProfile && !isModalOpen
                && userBusinessProfile == Some(Business(
                     if old(userBusinessProfile).Some? then old(userBusinessProfile).value.id else "",
                     user.value, values.title, values.businessName, values.description,
                     values.businessCountry, values.businessCity,
                     ChosenSlug(old(userBusinessProfile), values.businessName, otherSlugs)))
    {
      if user.None? {
        return None;
      }
      var slug, lookups := ChooseSlug(userBusinessProfile, values.businessName, otherSlugs);
      var originalCountryName := if values.businessCountry != "" then OriginalCountryName(values.businessCountry) else "";
      sent := Some(UpsertRow(user.value, values.businessName, values.title, values.description,
                             originalCountryName, values.businessCity, slug));
      if upsertFails {
        return;
      }
      userBusinessProfile := Some(Business(
        if userBusinessProfile.Some? then userBusinessProfile.value.id else "",
        user.value, values.title, values.businessName, values.description,
        values.businessCountry, values.businessCity, slug));
      hasBusinessProfile := true;
      isModalOpen := false;
    }
  }

  // ---------------------------------------------------------------------------
  // Worked examples

  /** Deleting special characters works piece by piece. */
  lemma {:induction false} StripSpecialAppend(a: string, b: string)
    ensures StripSpecial(a + b) == StripSpecial(a) + StripSpecial(b)
  {
    if a == [] {
      assert a + b == b;
    } else {
      assert (a + b)[0] == a[0];
      assert (a + b)[1..] == a[1..] + b;
      StripSpecialAppend(a[1..], b);
      assert StripSpecial(a + b) == Kept(a[0]) + (StripSpecial(a[1..]) + StripSpecial(b));
    }
  }

  /** Hyphenation works piece by piece, the second piece starting in the state the first leaves. */
  lemma {:induction false} HyphenAppend(a: string, b: string, inRun: bool)
    ensures Hyphen(a + b, inRun) == Hyphen(a, inRun) + Hyphen(b, EndsInRun(a, inRun))
  {
    if a == [] {
      assert a + b == b;
    } else {
      assert (a + b)[0] == a[0];
      assert (a + b)[1..] == a[1..] + b;
      HyphenAppend(a[1..], b, a[0] == ' ');
      assert EndsInRun(a[1..], a[0] == ' ') == EndsInRun(a, inRun);
    }
  }

  /** "Joe's Café!!" becomes "joes-caf": the apostrophe, the accented letter and the
      exclamation marks are deleted and the space becomes a hyphen. */
  lemma JoesCafeSlug()
    ensures GenerateSlug("Joe's Café!!") == "joes-caf"
  {
    JoesCafeLowered();
    JoesCafeStripped();
    JoesCafeHyphenated();
    SlugOf("Joe's Café!!", "joe's café!!", "joes caf", "joes-caf");
  }

  lemma JoesCafeLowered()
    ensures ToLower("Joe's Café!!") == "joe's café!!"
  {
    LowerJoes();
    LowerCafe();
    LowerThree("Joe's", " ", "Café!!", "joe's", " ", "café!!");
    JoesCafePieces();
  }

  /** Lower-casing over three pieces whose results are known. */
  lemma LowerThree(a: string, b: string, c: string, ra: string, rb: string, rc: string)
    requires ToLower(a) == ra && ToLower(b) == rb && ToLower(c) == rc
    ensures ToLower(a + b + c) == ra + rb + rc
  {
    ToLowerAppend(a + b, c);
    ToLowerAppend(a, b);
  }

  lemma JoesCafeStripped()
    ensures StripSpecial("joe's café!!") == "joes caf"
  {
    StripJoes();
    StripCafe();
    StripThree("joe's", " ", "café!!", "joes", " ", "caf");
    JoesCafePieces();
  }

  /** Deletion over three pieces whose results are known. */
  lemma StripThree(a: string, b: string, c: string, ra: string, rb: string, rc: string)
    requires StripSpecial(a) == ra && StripSpecial(b) == rb && StripSpecial(c) == rc
    ensures StripSpecial(a + b + c) == ra + rb + rc
  {
    StripSpecialAppend(a + b, c);
    StripSpecialAppend(a, b);
  }

  lemma JoesCafeHyphenated()
    ensures Hyphen("joes caf", false) == "joes-caf"
  {
    HyphenJoes();
    HyphenCaf();
    HyphenThree("joes", "caf", "joes", "caf");
    JoesCafePieces();
  }

  /** Hyphenation of two space-free words joined by one space. */
  lemma HyphenThree(a: string, c: string, ra: string, rc: string)
    requires a != [] && a[|a| - 1] != ' '
    requires Hyphen(a, false) == ra && Hyphen(c, true) == rc
    ensures Hyphen(a + " " + c, false) == ra + "-" + rc
  {
    HyphenAppend(a + " ", c, false);
    HyphenAppend(a, " ", false);
  }

  lemma JoesCafePieces()
    ensures "Joe's Café!!" == "Joe's" + " " + "Café!!"
    ensures "joe's café!!" == "joe's" + " " + "café!!"
    ensures "joes caf" == "joes" + " " + "caf"
    ensures "joes-caf" == "joes" + "-" + "caf"
  {
  }

  lemma LowerJoes() ensures ToLower("Joe's") == "joe's" {}
  lemma LowerCafe() ensures ToLower("Café!!") == "café!!" {}
  lemma StripJoes() ensures StripSpecial("joe's") == "joes" {}
  lemma StripCafe() ensures StripSpecial("café!!") == "caf" {}
  lemma HyphenJoes() ensures Hyphen("joes", false) == "joes" {}
  lemma HyphenCaf() ensures Hyphen("caf", true) == "caf" {}

  /** `generateSlug` is not idempotent: its own hyphen is deleted on a second pass. */
  lemma SlugNotIdempotent()
    ensures GenerateSlug("a b") == "a-b" && GenerateSlug("a-b") == "ab"
  {
    SlugOf("a b", "a b", "a b", "a-b");
    SlugOf("a-b", "a-b", "ab", "ab");
  }

  /** Leading and trailing spaces survive as leading and trailing hyphens. */
  lemma SlugKeepsOuterSpaces()
    ensures GenerateSlug(" a ") == "-a-"
  {
    SlugOf(" a ", " a ", " a ", "-a-");
  }

  /** Evaluates a slug through its three stages. */
  lemma SlugOf(text: string, lowered: string, stripped: string, slug: string)
    requires ToLower(text) == lowered
    requires StripSpecial(lowered) == stripped
    requires Hyphen(stripped, false) == slug
    ensures GenerateSlug(text) == slug
  {
    SlugTrimIsNoOp(text);
  }
}
