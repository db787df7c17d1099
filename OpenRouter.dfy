/**
 * The deterministic part of `OpenRouterService` (backend/services/openrouter_service.py):
 * the keyword fallback that turns a query into search parameters, the cleaning
 * and defaulting of the language model's reply, and the fixed enhancements and
 * suggestions used when the model is not configured or its reply is unusable.
 *
 * The HTTP request to OpenRouter is not modelled: its answer is a parameter
 * `upstream` (None when the request failed or the status was not 200), and
 * `json.loads` is a parameter `loads` (None when it raises JSONDecodeError).
 */
module OpenRouter {
  import opened Wrappers
  import opened PyText
  import opened PyJson

  /** The service's configuration: the API key read from the environment, if any. */
  datatype Service = Service(apiKey: Option<string>) {

    /** `is_available()`, which is also every `if not self.api_key` test: a key is set and not empty. */
    predicate IsAvailable() {
      apiKey.Some? && apiKey.value != []
    }
  }

  /** What `_make_request` returns: nothing without a key, otherwise the upstream answer. */
  function MakeRequest(svc: Service, upstream: Option<string>): Option<string> {
    if svc.IsAvailable() then upstream else None
  }

  /** `if response:` on what `_make_request` returned: present and not empty. */
  predicate HasText(response: Option<string>) {
    response.Some? && response.value != []
  }

  // ---------------------------------------------------------------------------
  // _fallback_query_processing

  const DefaultLocation: string := "San Francisco"
  const DefaultAdults: int := 2
  const MaxAdults: int := 16

  /** The seven words that select a location (a list in the source; only membership is asked). */
  const CityKeywords: set<string> := {"francisco", "miami", "york", "angeles", "chicago", "boston", "seattle"}

  /** The seven locations the fallback can produce. */
  const FallbackCities: set<string> :=
    {"San Francisco", "Miami", "New York", "Los Angeles", "Chicago", "Boston", "Seattle"}

  /** A word of the query selects a location when its lower-case form is a keyword. */
  predicate IsCityKeyword(word: string) {
    Lower(word) in CityKeywords
  }

  /** The location a matching word selects, by the substring tests of the source in their order. */
  function CityName(word: string): string {
    var w := Lower(word);
    if IsSubstring("francisco", w) then "San Francisco"
    else if IsSubstring("miami", w) then "Miami"
    else if IsSubstring("york", w) then "New York"
    else if IsSubstring("angeles", w) then "Los Angeles"
    else Title(word)
  }

  /** `p in s` is false when no position where `p` could start holds its first character. */
  lemma NotSubstringByFirstChar(p: string, s: string)
    requires p != []
    requires forall k | 0 <= k <= |s| - |p| :: s[k] != p[0]
    ensures !IsSubstring(p, s)
  {
    forall k | 0 <= k <= |s| - |p| ensures !OccursAt(p, s, k) {
      assert s[k..k + |p|][0] == s[k];
    }
  }

  /** A string always occurs in itself. */
  lemma SubstringOfItself(s: string)
    ensures IsSubstring(s, s)
  {
    assert OccursAt(s, s, 0);
  }

  lemma FranciscoCity(word: string)
    requires Lower(word) == "francisco"
    ensures CityName(word) == "San Francisco"
  {
    SubstringOfItself(Lower(word));
  }

  lemma MiamiCity(word: string)
    requires Lower(word) == "miami"
    ensures CityName(word) == "Miami"
  {
    var w := Lower(word);
    NotSubstringByFirstChar("francisco", w);
    SubstringOfItself(w);
  }

  lemma YorkCity(word: string)
    requires Lower(word) == "york"
    ensures CityName(word) == "New York"
  {
    var w := Lower(word);
    NotSubstringByFirstChar("francisco", w);
    NotSubstringByFirstChar("miami", w);
    SubstringOfItself(w);
  }

  lemma AngelesCity(word: string)
    requires Lower(word) == "angeles"
    ensures CityName(word) == "Los Angeles"
  {
    var w := Lower(word);
    NotSubstringByFirstChar("francisco", w);
    NotSubstringByFirstChar("miami", w);
    NotSubstringByFirstChar("york", w);
    SubstringOfItself(w);
  }

  /** The keywords without a spelled-out name (chicago, boston, seattle) pass all four
      substring tests and are title-cased. */
  lemma TitledCity(word: string)
    requires Lower(word) in {"chicago", "boston", "seattle"}
    ensures CityName(word) == Title(word)
    ensures CityName(word) == [UpperChar(Lower(word)[0])] + Lower(word)[1..]
  {
    var w := Lower(word);
    NotSubstringByFirstChar("francisco", w);
    NotSubstringByFirstChar("miami", w);
    NotSubstringByFirstChar("york", w);
    NotSubstringByFirstChar("angeles", w);
    TitleOfLetters(word, w);
  }

  /** The keyword-to-location table, keyword by keyword. */
  function KeywordCity(keyword: string): string {
    if keyword == "francisco" then "San Francisco"
    else if keyword == "miami" then "Miami"
    else if keyword == "york" then "New York"
    else if keyword == "angeles" then "Los Angeles"
    else if keyword == "chicago" then "Chicago"
    else if keyword == "boston" then "Boston"
    else "Seattle"
  }

  /** Title-casing chicago, boston and seattle gives the table entries. */
  lemma TitledKeywords(k: string)
    requires k in {"chicago", "boston", "seattle"}
    ensures k != [] && [UpperChar(k[0])] + k[1..] == KeywordCity(k)
  {
  }

  /** The substring tests of the source select exactly the table entry of the keyword,
      whatever the case of the word in the query, and so one of the seven cities. */
  lemma CityNameTable(word: string)
    requires IsCityKeyword(word)
    ensures CityName(word) == KeywordCity(Lower(word))
    ensures CityName(word) in FallbackCities
  {
    var w := Lower(word);
    if w == "francisco" {
      FranciscoCity(word);
    } else if w == "miami" {
      MiamiCity(word);
    } else if w == "york" {
      YorkCity(word);
    } else if w == "angeles" {
      AngelesCity(word);
    } else {
      TitledCity(word);
      TitledKeywords(w);
    }
  }

  /** The location the keyword scan settles on: the first keyword word decides, and the
      default stands when there is none. */
  function FirstCity(words: seq<string>): string {
    if words == [] then DefaultLocation
    else if IsCityKeyword(words[0]) then CityName(words[0])
    else FirstCity(words[1..])
  }

  /** With no keyword among the words, the location is "San Francisco". */
  lemma {:induction false} NoKeywordDefaultsToSanFrancisco(words: seq<string>)
    requires forall i | 0 <= i < |words| :: !IsCityKeyword(words[i])
    ensures FirstCity(words) == DefaultLocation
  {
    if words != [] {
      NoKeywordDefaultsToSanFrancisco(words[1..]);
    }
  }

  /** The first keyword word decides the location; later keywords are ignored. */
  lemma {:induction false} FirstKeywordDecides(words: seq<string>, i: nat)
    requires i < |words| && IsCityKeyword(words[i])
    requires forall j | 0 <= j < i :: !IsCityKeyword(words[j])
    ensures FirstCity(words) == CityName(words[i])
  {
    if i > 0 {
      FirstKeywordDecides(words[1..], i - 1);
    }
  }

  /** The location is always one of the seven fallback cities. */
  lemma {:induction false} FirstCityIsKnown(words: seq<string>)
    ensures FirstCity(words) in FallbackCities
  {
    if words != [] {
      if IsCityKeyword(words[0]) {
        CityNameTable(words[0]);
      } else {
        FirstCityIsKnown(words[1..]);
      }
    }
  }

  /** The example query as its three words. */
  lemma ExampleWords()
    ensures Words("Miami, beach house") == ["Miami,", "beach", "house"]
  {
    var ws := ["Miami,", "beach", "house"];
    assert IsWord(ws[0]) && IsWord(ws[1]) && IsWord(ws[2]);
    assert JoinSpace(ws[2..]) == "house";
    assert JoinSpace(ws[1..]) == "beach " + "house";
    assert JoinSpace(ws) == "Miami, beach house";
    WordsOfJoin(ws);
  }

  /** Each keyword has its own first letter and length. */
  const KeywordShapes: set<(char, int)> :=
    {('f', 9), ('m', 5), ('y', 4), ('a', 7), ('c', 7), ('b', 6), ('s', 7)}

  /** A text whose first letter and length match no keyword is not a keyword. */
  lemma NotKeywordByShape(k: string)
    requires k == [] || (k[0], |k|) !in KeywordShapes
    ensures k !in CityKeywords
  {
  }

  lemma ExampleWordsAreNotKeywords(ws: seq<string>)
    requires ws == ["Miami,", "beach", "house"]
    ensures forall i | 0 <= i < |ws| :: !IsCityKeyword(ws[i])
  {
    forall i | 0 <= i < |ws| ensures !IsCityKeyword(ws[i]) {
      var k := Lower(ws[i]);
      assert (k[0], |k|) in {('m', 6), ('b', 5), ('h', 5)};
      NotKeywordByShape(k);
    }
  }

  /** Every keyword is made of lower-case letters only, so a text holding anything else at
      some position is not a keyword. */
  lemma KeywordsAreLetters(k: string, j: nat)
    requires j < |k| && !IsLower(k[j])
    ensures k !in CityKeywords
  {
  }

  /** A word holding any character other than a letter (punctuation, a digit, a hyphen) is never
      a keyword: lower-casing keeps that character, and no keyword has one. */
  lemma NonLetterWordIsNoKeyword(word: string, i: nat)
    requires i < |word| && !IsLetter(word[i])
    ensures !IsCityKeyword(word)
  {
    var w := Lower(word);
    assert w[i] == word[i] && !IsLower(w[i]);
    KeywordsAreLetters(w, i);
  }

  /** A keyword with punctuation attached is not a keyword: "Miami, beach house" falls back
      to San Francisco. */
  lemma PunctuatedKeywordIgnored()
    ensures FirstCity(Words("Miami, beach house")) == DefaultLocation
  {
    ExampleWords();
    ExampleWordsAreNotKeywords(["Miami,", "beach", "house"]);
    NoKeywordDefaultsToSanFrancisco(["Miami,", "beach", "house"]);
  }

  /** The party size the fallback reads: the first run of digits, capped at 16, or 2 when the
      query has no digit. There is no lower cap. */
  function FallbackAdults(query: string): (n: int)
    ensures 0 <= n <= MaxAdults
    ensures NoDigit(query) ==> n == DefaultAdults
  {
    match FirstDigitRun(query)
    case None => DefaultAdults
    case Some(d) => Min(DigitsValue(d), MaxAdults)
  }

  /** Any run of digits with no digit before it gives min(its value, 16) adults; leading zeros
      do not matter. */
  lemma AdultsOfDigitRun(pre: string, d: string, post: string)
    requires NoDigit(pre)
    requires d != [] && AllDigits(d)
    requires post == [] || !IsDigit(post[0])
    ensures FallbackAdults(pre + d + post) == Min(DigitsValue(d), MaxAdults)
  {
    FirstDigitRunOf(pre, d, post);
  }

  /** A number written in the query, with no digit before it, gives min(number, 16) adults. */
  lemma AdultsOfWrittenNumber(pre: string, n: nat, post: string)
    requires NoDigit(pre)
    requires post == [] || !IsDigit(post[0])
    ensures FallbackAdults(pre + DecimalString(n) + post) == Min(n, MaxAdults)
  {
    AdultsOfDigitRun(pre, DecimalString(n), post);
    DecimalRoundTrip(n);
  }

  /** "0 guests" gives 0 adults: the cap is only an upper one. */
  lemma ZeroAdultsAccepted()
    ensures FallbackAdults("0 guests") == 0
  {
    assert "0 guests" == "" + DecimalString(0) + " guests" by {
      assert DecimalString(0) == "0";
    }
    AdultsOfWrittenNumber("", 0, " guests");
  }

  /** The record the fallback returns. */
  function FallbackParams(query: string): (p: map<string, Json>)
    ensures p.Keys == {"location", "adults", "children", "infants", "pets"}
    ensures p["children"] == JNum(0) && p["infants"] == JNum(0) && p["pets"] == JNum(0)
    ensures p["location"].JStr? && p["location"].s in FallbackCities
    ensures p["adults"].JNum? && 0 <= p["adults"].n <= MaxAdults
  {
    FirstCityIsKnown(Words(query));
    ParamsRecord(FirstCity(Words(query)), FallbackAdults(query))
  }

  /** The dict `_fallback_query_processing` returns. */
  function ParamsRecord(location: string, adults: int): map<string, Json> {
    map[
      "location" := JStr(location),
      "adults" := JNum(adults),
      "children" := JNum(0),
      "infants" := JNum(0),
      "pets" := JNum(0)
    ]
  }

  /** The record built from the scanned location and the party size is the fallback record. */
  lemma FallbackParamsOf(query: string, location: string, adults: int)
    requires location == FirstCity(Words(query))
    requires adults == FallbackAdults(query)
    ensures ParamsRecord(location, adults) == FallbackParams(query)
  {
  }

  /** CPython's default limit on the digits `int()` converts from a string
      (`sys.int_info.default_max_str_digits`); a longer string raises ValueError. */
  const MaxStrDigits: nat := 4300

  /** `int(numbers[0])` raises: the first run of digits is longer than the limit. */
  predicate IntConversionFails(query: string) {
    match FirstDigitRun(query)
    case None => false
    case Some(d) => |d| > MaxStrDigits
  }

  /** What `_fallback_query_processing` does with a string query: the record, unless reading
      the party size raises. */
  function Fallback(query: string): (r: Outcome<map<string, Json>>)
    ensures r.Raised? <==> IntConversionFails(query)
    ensures r.Returned? ==> r.value == FallbackParams(query)
  {
    if IntConversionFails(query) then Raised else Returned(FallbackParams(query))
  }

  /** The fallback raises only on a query longer than 4300 characters, and never on one without
      a digit: every ordinary query gets the fallback record. */
  lemma FallbackRaisesOnlyOnLongQuery(query: string)
    ensures Fallback(query).Raised? ==> |query| > MaxStrDigits
    ensures NoDigit(query) ==> Fallback(query) == Returned(FallbackParams(query))
  {
    FirstDigitRunWithin(query);
  }

  /** A query whose first number has more than 4300 digits makes the fallback raise. */
  lemma FallbackRaisesOnHugeNumber(pre: string, d: string, post: string)
    requires NoDigit(pre)
    requires AllDigits(d) && |d| > MaxStrDigits
    requires post == [] || !IsDigit(post[0])
    ensures Fallback(pre + d + post) == Raised
  {
    FirstDigitRunOf(pre, d, post);
  }

  /** `_fallback_query_processing`: scan the words for a keyword, stopping at the first one,
      then read the party size. */
  method FallbackQueryProcessing(userQuery: string) returns (r: Outcome<map<string, Json>>)
    ensures r == Fallback(userQuery)
  {
    var location := DefaultLocation;
    var words := Words(userQuery);
    var i := 0;
    while i < |words|
      invariant 0 <= i <= |words|
      invariant location == DefaultLocation
      invariant FirstCity(words[i..]) == FirstCity(words)
    {
      if IsCityKeyword(words[i]) {
        location := CityName(words[i]);
        break;
      }
      i := i + 1;
    }
    assert location == FirstCity(words);
    var adults := DefaultAdults;
    var numbers := FirstDigitRun(userQuery);
    if numbers.Some? {
      if |numbers.value| > MaxStrDigits {
        return Raised;
      }
      adults := Min(DigitsValue(numbers.value), MaxAdults);
    }
    FallbackParamsOf(userQuery, location, adults);
    r := Returned(ParamsRecord(location, adults));
  }

  // ---------------------------------------------------------------------------
  // process_search_query

  /** Removing a Markdown code fence from the stripped reply, with Python slices that never fail. */
  function StripFence(s: string): (r: string)
    ensures StartsWith(s, "```json") ==> r == (if |s| >= 10 then s[7..|s| - 3] else "")
    ensures !StartsWith(s, "```json") && StartsWith(s, "```") ==>
      r == (if |s| >= 6 then s[3..|s| - 3] else "")
    ensures !StartsWith(s, "```") ==> r == s
  {
    if StartsWith(s, "```json") then PySlice(s, 7, -3)
    else if StartsWith(s, "```") then PySlice(s, 3, -3)
    else s
  }

  /** The text handed to `json.loads`: the reply stripped, then unfenced. */
  function CleanReply(reply: string): string {
    StripFence(Strip(reply))
  }

  /** A reply that begins and ends with a backtick is not changed by `strip()`. */
  lemma StripKeepsFenced(s: string)
    requires s != [] && s[0] == '`' && s[|s| - 1] == '`'
    ensures Strip(s) == s
  {
    StripUnpadded(s);
  }

  lemma JsonFenceBody(s: string, body: string)
    requires s == "```json" + body + "```"
    ensures StripFence(s) == body
  {
    assert s[..7] == "```json";
    assert s[7..|s| - 3] == body;
  }

  lemma PlainFenceBody(s: string, body: string)
    requires s == "```" + body + "```"
    requires !StartsWith(body, "json")
    ensures StripFence(s) == body
  {
    assert s[..3] == "```";
    assert !StartsWith(s, "```json") by {
      if |body| >= 4 {
        assert s[3..7] == body[..4];
      } else {
        assert s[3 + |body|] == '`';
      }
      assert |s| < 7 || s[..7][3..7] == s[3..7];
    }
    assert s[3..|s| - 3] == body;
  }

  /** A reply fenced as "```json ... ```" is cleaned back to its body. */
  lemma JsonFenceRoundTrip(body: string)
    ensures CleanReply("```json" + body + "```") == body
  {
    var s := "```json" + body + "```";
    StripKeepsFenced(s);
    JsonFenceBody(s, body);
  }

  /** A reply fenced as "``` ... ```" is cleaned back to its body, unless the body itself
      begins with "json", which is then taken for the language tag. */
  lemma PlainFenceRoundTrip(body: string)
    requires !StartsWith(body, "json")
    ensures CleanReply("```" + body + "```") == body
  {
    var s := "```" + body + "```";
    StripKeepsFenced(s);
    PlainFenceBody(s, body);
  }

  /** The four counts set with `setdefault` after a successful parse. */
  const QueryDefaultKeys: set<string> := {"adults", "children", "infants", "pets"}

  /** The parsed parameters with `setdefault` applied for adults=2, children=0, infants=0, pets=0. */
  function WithQueryDefaults(m: map<string, Json>): (r: map<string, Json>)
    ensures r.Keys == m.Keys + QueryDefaultKeys
    ensures forall k | k in m :: r[k] == m[k]
    ensures "adults" !in m ==> r["adults"] == JNum(2)
    ensures "children" !in m ==> r["children"] == JNum(0)
    ensures "infants" !in m ==> r["infants"] == JNum(0)
    ensures "pets" !in m ==> r["pets"] == JNum(0)
  {
    var m1 := SetDefault(m, "adults", JNum(2));
    var m2 := SetDefault(m1, "children", JNum(0));
    var m3 := SetDefault(m2, "infants", JNum(0));
    SetDefault(m3, "pets", JNum(0))
  }

  /** Applying the defaults twice changes nothing more. */
  lemma QueryDefaultsIdempotent(m: map<string, Json>)
    ensures WithQueryDefaults(WithQueryDefaults(m)) == WithQueryDefaults(m)
  {
  }

  /** The four `setdefault` calls of `process_search_query` as they run, on the parsed dict. */
  method ApplyQueryDefaults(params: Dict)
    modifies params
    ensures params.items == WithQueryDefaults(old(params.items))
  {
    var _ := params.SetDefaultItem("adults", JNum(2));
    var _ := params.SetDefaultItem("children", JNum(0));
    var _ := params.SetDefaultItem("infants", JNum(0));
    var _ := params.SetDefaultItem("pets", JNum(0));
  }

  /** The fallback as called on whatever the handler passed: a query that is not a string
      has no `.lower()`, so the call raises. */
  function FallbackFor(userQuery: Json): Outcome<map<string, Json>> {
    if userQuery.JStr? then Fallback(userQuery.s) else Raised
  }

  /** `process_search_query`. A reply that parses to something other than an object raises
      (it has no `setdefault`); an unusable or missing reply falls back to the keyword parser. */
  function ProcessSearchQuery(svc: Service, userQuery: Json, upstream: Option<string>,
                              loads: string -> Option<Json>): (r: Outcome<map<string, Json>>)
    ensures r.Returned? ==> QueryDefaultKeys <= r.value.Keys
    ensures !svc.IsAvailable() ==> r == FallbackFor(userQuery)
    ensures svc.IsAvailable() && !(HasText(upstream) && loads(CleanReply(upstream.value)).Some?) ==>
      r == FallbackFor(userQuery)
    ensures (svc.IsAvailable() && HasText(upstream) && loads(CleanReply(upstream.value)).Some? &&
             loads(CleanReply(upstream.value)).value.JObj?) ==>
      r == Returned(WithQueryDefaults(loads(CleanReply(upstream.value)).value.fields))
    ensures r.Raised? <==>
      if HasText(MakeRequest(svc, upstream)) && loads(CleanReply(upstream.value)).Some?
      then !loads(CleanReply(upstream.value)).value.JObj?
      else FallbackFor(userQuery).Raised?
  {
    var response := MakeRequest(svc, upstream);
    if HasText(response) then
      match loads(CleanReply(response.value))
      case None => FallbackFor(userQuery)
      case Some(JObj(m)) => Returned(WithQueryDefaults(m))
      case Some(_) => Raised
    else FallbackFor(userQuery)
  }

  /** After a successful parse, keys the reply already had keep their values. */
  lemma ParsedKeysKept(svc: Service, userQuery: Json, upstream: Option<string>,
                       loads: string -> Option<Json>, m: map<string, Json>, key: string)
    requires svc.IsAvailable() && HasText(upstream)
    requires loads(CleanReply(upstream.value)) == Some(JObj(m))
    requires key in m
    ensures ProcessSearchQuery(svc, userQuery, upstream, loads).Returned?
    ensures ProcessSearchQuery(svc, userQuery, upstream, loads).value[key] == m[key]
  {
  }

  // ---------------------------------------------------------------------------
  // enhance_search_results

  const MatchReasons: seq<string> := [
    "Properties match your location preference",
    "Accommodates your group size",
    "Variety of price points available"
  ]

  /** The fallback summary for `count` properties. */
  function SearchSummary(count: nat): string {
    "Found " + DecimalString(count) + " properties matching your search criteria."
  }

  /** The number in the fallback summary is the count it was given. */
  lemma SummaryReportsCount(count: nat)
    ensures FirstDigitRun(SearchSummary(count)) == Some(DecimalString(count))
    ensures DigitsValue(DecimalString(count)) == count
  {
    var post := " properties matching your search criteria.";
    assert SearchSummary(count) == "Found " + DecimalString(count) + post;
    FirstDigitRunOf("Found ", DecimalString(count), post);
    DecimalRoundTrip(count);
  }

  /** The fallback branch of `enhance_search_results` on the results value: `ai_summary` and
      `match_reasons` are set and every other key is left alone. It raises when the results are
      not a dict (no `.get`) or their `properties` has no length. */
  function AddSearchInsights(data: Json): (r: Outcome<Json>)
    ensures r.Returned? <==> data.JObj? && Len(Get(data.fields, "properties", JArr([]))).Some?
    ensures r.Returned? ==> r.value.JObj?
    ensures r.Returned? ==> r.value.fields.Keys == data.fields.Keys + {"ai_summary", "match_reasons"}
    ensures r.Returned? ==> forall k | k in data.fields && k != "ai_summary" && k != "match_reasons" ::
      r.value.fields[k] == data.fields[k]
    ensures r.Returned? ==> r.value.fields["match_reasons"] == JArr(Strings(MatchReasons))
    ensures r.Returned? ==>
      r.value.fields["ai_summary"] == JStr(SearchSummary(Len(Get(data.fields, "properties", JArr([]))).value))
  {
    match data
    case JObj(m) =>
      var count := Len(Get(m, "properties", JArr([])));
      if count.None? then Raised
      else
        Returned(JObj(m["ai_summary" := JStr(SearchSummary(count.value))]
                       ["match_reasons" := JArr(Strings(MatchReasons))]))
    case _ => Raised
  }

  /** With a `properties` list of `n` entries, the fallback summary reports `n`. */
  lemma SearchInsightsCount(m: map<string, Json>, xs: seq<Json>)
    requires "properties" in m && m["properties"] == JArr(xs)
    ensures AddSearchInsights(JObj(m)).Returned?
    ensures AddSearchInsights(JObj(m)).value.fields["ai_summary"] == JStr(SearchSummary(|xs|))
  {
  }

  /** The fallback branch of `enhance_search_results` as it runs, on the dict object itself.
      The summary is computed before any key is written, so a raise leaves the dict untouched. */
  method AddSearchInsightsInPlace(data: Dict) returns (raised: bool)
    modifies data
    ensures raised <==> AddSearchInsights(JObj(old(data.items))).Raised?
    ensures raised ==> data.items == old(data.items)
    ensures !raised ==> JObj(data.items) == AddSearchInsights(JObj(old(data.items))).value
  {
    var count := Len(Get(data.items, "properties", JArr([])));
    if count.None? {
      return true;
    }
    data.SetItem("ai_summary", JStr(SearchSummary(count.value)));
    data.SetItem("match_reasons", JArr(Strings(MatchReasons)));
    raised := false;
  }

  /** `enhance_search_results`: the input itself without a key, the parsed reply when it parses,
      the fallback enhancement otherwise. */
  function EnhanceSearchResults(svc: Service, data: Json, upstream: Option<string>,
                                loads: string -> Option<Json>): (r: Outcome<Json>)
    ensures !svc.IsAvailable() ==> r == Returned(data)
    ensures svc.IsAvailable() && !(HasText(upstream) && loads(upstream.value).Some?) ==>
      r == AddSearchInsights(data)
    ensures svc.IsAvailable() && HasText(upstream) && loads(upstream.value).Some? ==>
      r == Returned(loads(upstream.value).value)
    ensures r.Raised? ==> svc.IsAvailable() && !(HasText(upstream) && loads(upstream.value).Some?)
  {
    if !svc.IsAvailable() then Returned(data)
    else
      var response := MakeRequest(svc, upstream);
      if HasText(response) && loads(response.value).Some? then Returned(loads(response.value).value)
      else AddSearchInsights(data)
  }

  // ---------------------------------------------------------------------------
  // enhance_property_details

  const AiHighlights: seq<string> := ["Great location", "Well-equipped amenities", "Excellent value"]
  const BestFor: string := "Travelers seeking comfort and convenience"
  const LocalTips: seq<string> := ["Explore nearby attractions", "Try local restaurants"]

  /** The fallback branch of `enhance_property_details`: three keys are set and every other key is left
      alone. Item assignment raises on anything but a dict. */
  function AddDetailInsights(data: Json): (r: Outcome<Json>)
    ensures r.Returned? <==> data.JObj?
    ensures r.Returned? ==> r.value.JObj?
    ensures r.Returned? ==> r.value.fields.Keys == data.fields.Keys + {"ai_highlights", "best_for", "local_tips"}
    ensures r.Returned? ==> forall k | k in data.fields && k !in {"ai_highlights", "best_for", "local_tips"} ::
      r.value.fields[k] == data.fields[k]
    ensures r.Returned? ==> r.value.fields["ai_highlights"] == JArr(Strings(AiHighlights))
    ensures r.Returned? ==> r.value.fields["best_for"] == JStr(BestFor)
    ensures r.Returned? ==> r.value.fields["local_tips"] == JArr(Strings(LocalTips))
  {
    match data
    case JObj(m) =>
      Returned(JObj(m["ai_highlights" := JArr(Strings(AiHighlights))]
                     ["best_for" := JStr(BestFor)]
                     ["local_tips" := JArr(Strings(LocalTips))]))
    case _ => Raised
  }

  /** The fallback branch of `enhance_property_details` as it runs, on the dict object itself. */
  method AddDetailInsightsInPlace(data: Dict)
    modifies data
    ensures JObj(data.items) == AddDetailInsights(JObj(old(data.items))).value
  {
    data.SetItem("ai_highlights", JArr(Strings(AiHighlights)));
    data.SetItem("best_for", JStr(BestFor));
    data.SetItem("local_tips", JArr(Strings(LocalTips)));
  }

  /** `enhance_property_details`. */
  function EnhancePropertyDetails(svc: Service, data: Json, upstream: Option<string>,
                                  loads: string -> Option<Json>): (r: Outcome<Json>)
    ensures !svc.IsAvailable() ==> r == Returned(data)
    ensures svc.IsAvailable() && !(HasText(upstream) && loads(upstream.value).Some?) ==>
      r == AddDetailInsights(data)
    ensures svc.IsAvailable() && HasText(upstream) && loads(upstream.value).Some? ==>
      r == Returned(loads(upstream.value).value)
    ensures r.Raised? <==> svc.IsAvailable() && !(HasText(upstream) && loads(upstream.value).Some?) && !data.JObj?
  {
    if !svc.IsAvailable() then Returned(data)
    else
      var response := MakeRequest(svc, upstream);
      if HasText(response) && loads(response.value).Some? then Returned(loads(response.value).value)
      else AddDetailInsights(data)
  }

  // ---------------------------------------------------------------------------
  // generate_search_suggestions

  const DefaultSuggestions: seq<string> := [
    "Find a place in San Francisco",
    "Beach house in Miami",
    "Apartment in New York",
    "Villa with pool",
    "Pet-friendly accommodation"
  ]

  /** The five completions of the partial query used when the model's reply is unusable. */
  function CompletionsOf(prefix: string): (r: seq<string>)
    ensures |r| == 5
    ensures forall i | 0 <= i < 5 :: StartsWith(r[i], prefix) && |r[i]| > |prefix|
  {
    [
      prefix + " in San Francisco",
      prefix + " in Miami",
      prefix + " in New York",
      prefix + " with pool",
      prefix + " for families"
    ]
  }

  /** How the f-string shows the partial query: a string as itself, any other value by `str()`,
      which is supplied by the caller. */
  function Display(v: Json, pyStr: Json -> string): string {
    if v.JStr? then v.s else pyStr(v)
  }

  /** `generate_search_suggestions`. Without a key the length is never taken; with one, a partial
      query without a length raises. */
  function GenerateSearchSuggestions(svc: Service, partialQuery: Json, upstream: Option<string>,
                                     loads: string -> Option<Json>, pyStr: Json -> string): (r: Outcome<seq<Json>>)
    ensures !svc.IsAvailable() ==> r == Returned(Strings(DefaultSuggestions))
    ensures r.Raised? <==> svc.IsAvailable() && Len(partialQuery).None?
    ensures r.Returned? ==> |r.value| <= 5
  {
    if !svc.IsAvailable() then Returned(Strings(DefaultSuggestions))
    else
      var n := Len(partialQuery);
      if n.None? then Raised
      else if n.value < 2 then Returned(Strings(DefaultSuggestions))
      else
        var response := MakeRequest(svc, upstream);
        if HasText(response) && loads(response.value).Some? && loads(response.value).value.JArr? then
          var xs := loads(response.value).value.items;
          Returned(xs[..Min(5, |xs|)])
        else
          Returned(Strings(CompletionsOf(Display(partialQuery, pyStr))))
  }

  /** A text shorter than two characters gets the five fixed suggestions. */
  lemma ShortQueryGetsDefaults(svc: Service, s: string, upstream: Option<string>,
                               loads: string -> Option<Json>, pyStr: Json -> string)
    requires |s| < 2
    ensures GenerateSearchSuggestions(svc, JStr(s), upstream, loads, pyStr) == Returned(Strings(DefaultSuggestions))
  {
  }

  /** A list reply is cut to its first five entries, in order. */
  lemma ModelListIsCut(svc: Service, s: string, upstream: Option<string>,
                       loads: string -> Option<Json>, pyStr: Json -> string, xs: seq<Json>)
    requires svc.IsAvailable() && |s| >= 2
    requires HasText(upstream) && loads(upstream.value) == Some(JArr(xs))
    ensures GenerateSearchSuggestions(svc, JStr(s), upstream, loads, pyStr) == Returned(xs[..Min(5, |xs|)])
  {
  }

  /** Otherwise a text of two or more characters gets five strings that each begin with it. */
  lemma CompletionsBeginWithQuery(svc: Service, s: string, upstream: Option<string>,
                                  loads: string -> Option<Json>, pyStr: Json -> string)
    requires svc.IsAvailable() && |s| >= 2
    requires !(HasText(upstream) && loads(upstream.value).Some? && loads(upstream.value).value.JArr?)
    ensures var r := GenerateSearchSuggestions(svc, JStr(s), upstream, loads, pyStr);
      r.Returned? && |r.value| == 5 &&
      forall i | 0 <= i < 5 :: r.value[i].JStr? && StartsWith(r.value[i].s, s)
  {
  }
}
