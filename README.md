# AI Airbnb search backend: request handling and language-model fallbacks

This project models, in Dafny, the deterministic core of the Flask backend of an AI-assisted
rental search:

- `OpenRouterService` (`backend/services/openrouter_service.py`). This is the client of the
  OpenRouter language-model API. The model covers what the service does with whatever the
  language model answers, or fails to answer:
  - the keyword fallback that turns a free-text query into search parameters
    (location, party size, zero children, infants and pets);
  - the removal of a Markdown code fence from a reply;
  - the `setdefault` defaults applied to a parsed reply;
  - the fixed enhancements and suggestions used when no API key is configured or the reply does
    not parse.
- The three handlers of `backend/app.py` that contain logic:
  - `search_properties` (`POST /api/v1/search`);
  - `get_property_details` (`GET /api/v1/property/<id>`);
  - `get_search_suggestions` (`POST /api/v1/suggestions`).

  Modelled are the request checks with Python's own `in` semantics, the assembly of the search
  response and the status code of every outcome. The search response holds at most five
  properties, their count, the query and a summary message. The outcomes include the exceptions
  each handler catches.

Python is modelled where the backend relies on it:

- Exceptions are `Outcome.Raised`.
- Truthiness, `len`, `dict.get`, `setdefault` and slicing are written out, with negative slice
  bounds.
- `str.split`, `strip`, `lower` and `title` are written out for ASCII text.
- Of `re.findall(r'\d+')` only what the code reads is written out: whether the list is
  empty, and its first item. `int` and `str` of a number are written out.

Modules:

- `Wrappers`: `Option`.
- `PyText`: the string built-ins.
- `PyJson`: decoded JSON values, the built-ins on them, and a `Dict` class for dictionaries
  updated in place.
- `OpenRouter`: the service.
- `App`: the handlers.

The parts that work step by step are methods proved against the pure functions the handlers
use:

- the keyword scan, a loop that stops at the first keyword;
- the four `setdefault` calls on the parsed dict;
- the in-place fallback enhancements.

Outside inputs are parameters of the model:

- The reply of the language model is `upstream: Option<string>`. `None` stands for every case
  where `_make_request` returns `None`.
- `json.loads` is `loads: string -> Option<Json>`. `None` stands for `JSONDecodeError`.
- The outcome of the call to the property server is a `McpResult`.
- `str()` of a non-string value is `pyStr`.
- The measured processing time is `processingTime`.

The comment at app.py:93 reads "Ensure exactly 5 properties for carousel", but the slice
`properties[:5]` below it only cuts: the handler returns at most five listings of whatever list
the enhanced or original results hold, and the reported `total` is the length of the cut list.
The model follows the slice.

## Model

| member | source | states |
|---|---|---|
| PyText.WordsAreWords | backend/services/openrouter_service.py:127 | every item of `split()` is a non-empty word without whitespace |
| PyText.WordsOfJoin | backend/services/openrouter_service.py:127 | splitting words joined by single spaces gives back exactly those words, in order |
| PyText.Lower | backend/services/openrouter_service.py:128 | `lower()` keeps the length and maps every character to its lower-case form |
| PyText.TitleOfLetters | backend/services/openrouter_service.py:138 | `title()` of a word whose lower-case form is all letters is that form with its first letter capitalised |
| PyText.TitleAfterLetter | backend/services/openrouter_service.py:138 | after a cased character, `title()` lower-cases every following letter |
| PyText.TrimStart | backend/services/openrouter_service.py:95 | the left strip is no longer than its input and does not begin with whitespace |
| PyText.TrimStartRemovesSpace | backend/services/openrouter_service.py:95 | the left strip keeps a suffix of the input and every removed character is whitespace |
| PyText.TrimEnd | backend/services/openrouter_service.py:95 | removes exactly the trailing whitespace: a prefix of the input, all removed characters whitespace, the last kept one not |
| PyText.StripUnpadded | backend/services/openrouter_service.py:95 | `strip()` leaves a string without whitespace at either end unchanged |
| PyText.PySlice | backend/services/openrouter_service.py:97-99 | `s[start:stop]` with a negative stop never fails: the characters from `start` to `len(s)+stop`, or empty when they cross |
| PyText.FirstDigitRun | backend/services/openrouter_service.py:144-145 | `re.findall(r'\d+')` is empty exactly when the text has no digit; its first item is a non-empty run of digits |
| PyText.FirstDigitRunWithin | backend/services/openrouter_service.py:144-145 | the first digit run is never longer than the text it is found in |
| PyText.FirstDigitRunOf | backend/services/openrouter_service.py:144-146 | the first item is the digit run that follows a digit-free prefix, ending where the digits end |
| PyText.DecimalRoundTrip | backend/services/openrouter_service.py:146 | `int(str(n)) == n` |
| PyText.DecimalString | backend/services/openrouter_service.py:191 | `str(n)` of a natural number is non-empty, all digits, without a leading zero |
| PyJson.Len | backend/services/openrouter_service.py:191 | `len` is defined exactly on strings, lists and dicts, and otherwise raises; it counts the characters, the items or the keys |
| PyJson.TakePrefix | backend/app.py:94 | `v[:n]` is defined exactly on strings and lists; a string keeps its first `min(n, len)` characters and a list its first `min(n, len)` items, in order |
| PyJson.SetDefault | backend/services/openrouter_service.py:104-107 | `setdefault` adds the key only when absent and never changes an existing value |
| PyJson.Dict.SetDefaultItem | backend/services/openrouter_service.py:104-107 | the dict afterwards is `SetDefault` of the dict before; returns the value now stored |
| OpenRouter.CityNameTable | backend/services/openrouter_service.py:128-138 | the substring tests select the table city of the keyword in any letter case: francisco, miami, york and angeles by name, chicago, boston and seattle title-cased |
| OpenRouter.TitledCity | backend/services/openrouter_service.py:129-138 | chicago, boston and seattle fail all four substring tests and are title-cased |
| OpenRouter.NoKeywordDefaultsToSanFrancisco | backend/services/openrouter_service.py:126-139 | with no keyword word, the location is "San Francisco" |
| OpenRouter.FirstKeywordDecides | backend/services/openrouter_service.py:127-139 | the first keyword word decides the location; later ones are ignored |
| OpenRouter.FirstCityIsKnown | backend/services/openrouter_service.py:126-139 | the fallback location is always one of the seven cities |
| OpenRouter.KeywordsAreLetters | backend/services/openrouter_service.py:127 | a text with anything but a lower-case letter at some position is not one of the seven keywords |
| OpenRouter.NonLetterWordIsNoKeyword | backend/services/openrouter_service.py:126-127 | a word holding any non-letter (punctuation, digit, hyphen) never matches a keyword, whatever its letter case |
| OpenRouter.PunctuatedKeywordIgnored | backend/services/openrouter_service.py:127-128 | a keyword with punctuation attached ("Miami,") does not match, so the default location stands |
| OpenRouter.FallbackAdults | backend/services/openrouter_service.py:142-146 | the party size is between 0 and 16, and 2 when the query has no digit |
| OpenRouter.AdultsOfDigitRun | backend/services/openrouter_service.py:142-146 | when the first digit run of the query is `d`, the party size is `min(int(d), 16)`, leading zeros included ("007" gives 7) |
| OpenRouter.AdultsOfWrittenNumber | backend/services/openrouter_service.py:144-146 | the first number written in the query gives `min(number, 16)` adults |
| OpenRouter.ZeroAdultsAccepted | backend/services/openrouter_service.py:146 | "0 guests" gives 0 adults: the cap is only an upper one |
| OpenRouter.FallbackParams | backend/services/openrouter_service.py:148-154 | the record has exactly the five keys, zero children, infants and pets, a known city and 0 to 16 adults |
| OpenRouter.FallbackRaisesOnlyOnLongQuery | backend/services/openrouter_service.py:142-154 | only a query longer than 4300 characters can make the fallback raise, and a query without a digit always gets the fallback record |
| OpenRouter.FallbackRaisesOnHugeNumber | backend/services/openrouter_service.py:144-146 | a query whose first number has more than 4300 digits makes the fallback raise |
| OpenRouter.FallbackQueryProcessing | backend/services/openrouter_service.py:120-154 | the loop with its early exit computes the fallback outcome: the record, or the raise of `int()` on an over-long number |
| OpenRouter.StripFence | backend/services/openrouter_service.py:96-99 | a "```json" fence loses 7 leading and 3 trailing characters, another "```" fence 3 and 3, and short fenced replies become empty; an unfenced reply is unchanged |
| OpenRouter.JsonFenceRoundTrip | backend/services/openrouter_service.py:95-97 | a reply "```json" + body + "```" is cleaned back to the body |
| OpenRouter.PlainFenceRoundTrip | backend/services/openrouter_service.py:95-99 | a reply "```" + body + "```" is cleaned back to the body unless the body starts with "json" |
| OpenRouter.WithQueryDefaults | backend/services/openrouter_service.py:104-107 | the parsed keys are kept with their values, and adults 2, children 0, infants 0 and pets 0 are added where absent |
| OpenRouter.QueryDefaultsIdempotent | backend/services/openrouter_service.py:104-107 | applying the defaults twice changes nothing more |
| OpenRouter.ApplyQueryDefaults | backend/services/openrouter_service.py:104-107 | the four in-place `setdefault` calls leave the dict equal to `WithQueryDefaults` of the old one |
| OpenRouter.ProcessSearchQuery | backend/services/openrouter_service.py:59-118 | a returned record always holds the four counts; without a key, or with a key but no usable reply (empty, failed, or not JSON after the fence is stripped), the fallback answers; a reply that parses to an object is returned with the four defaults added; it raises exactly when the reply parses to a non-object, or when the fallback raises |
| OpenRouter.ParsedKeysKept | backend/services/openrouter_service.py:101-109 | a parsed object is returned with all its own values kept |
| OpenRouter.SummaryReportsCount | backend/services/openrouter_service.py:191 | the number in the fallback summary is the count it was given |
| OpenRouter.AddSearchInsights | backend/services/openrouter_service.py:190-198 | the fallback enhancement succeeds exactly on a dict whose `properties` has a length; it adds `ai_summary`, the summary of that length, and the three match reasons, and leaves every other key alone |
| OpenRouter.SearchInsightsCount | backend/services/openrouter_service.py:191 | with a list of `n` properties, the summary reports `n` |
| OpenRouter.AddSearchInsightsInPlace | backend/services/openrouter_service.py:190-198 | on the dict object: raises exactly when the function does, and then leaves the dict untouched; otherwise the dict becomes the function's result |
| OpenRouter.EnhanceSearchResults | backend/services/openrouter_service.py:156-198 | without a key the input comes back unchanged; with a key and a reply that parses, the parsed value is returned as it is; with an unusable reply it is the fallback enhancement; only that fallback can raise |
| OpenRouter.AddDetailInsights | backend/services/openrouter_service.py:229-241 | the fallback adds the three fixed highlights, the fixed `best_for` text and the two fixed local tips, leaves every other key alone, and raises exactly on a non-dict |
| OpenRouter.AddDetailInsightsInPlace | backend/services/openrouter_service.py:229-241 | on the dict object: the dict becomes the function's result |
| OpenRouter.EnhancePropertyDetails | backend/services/openrouter_service.py:200-241 | without a key the input comes back unchanged; with a key and a reply that parses, the parsed value is returned as it is; with an unusable reply it is the fallback; it raises exactly when that fallback meets a non-dict |
| OpenRouter.CompletionsOf | backend/services/openrouter_service.py:282-288 | five completions, each strictly extending the partial query |
| OpenRouter.GenerateSearchSuggestions | backend/services/openrouter_service.py:243-288 | without a key the five fixed suggestions; it raises exactly when a key is set and the partial query has no length; never more than five suggestions |
| OpenRouter.ShortQueryGetsDefaults | backend/services/openrouter_service.py:246-253 | a partial query shorter than two characters gets the fixed suggestions |
| OpenRouter.ModelListIsCut | backend/services/openrouter_service.py:273-277 | a list reply is cut to its first five entries, in order |
| OpenRouter.CompletionsBeginWithQuery | backend/services/openrouter_service.py:281-288 | otherwise five strings that each begin with the partial query |
| App.RequestField | backend/app.py:60-64 | a value is read exactly when the body is a dict holding the key; a false body or a dict without the key is "missing" |
| App.SearchPayload | backend/app.py:93-109 | the response holds at most five properties, `total` is their number, and the query is echoed; it fails exactly when a results value is not a dict or the chosen properties cannot be sliced |
| App.TopFiveOfChosen | backend/app.py:94-108 | the first `min(5, n)` properties of the chosen list, in order, with that count as `total` and in the default message unless an `ai_summary` exists |
| App.FoundMessageReportsCount | backend/app.py:108 | the number in the default message is the number of properties returned |
| App.ServerResponse | backend/app.py:75-123 | a property-server timeout gives 504 and only it; a failed connection gives 503 and only it; another status gives 500 "Property search failed"; another exception or an undecodable 200 body gives 500 "Internal server error"; a decoded 200 reply gives 200 with the `SearchPayload` of the enhanced data when enhancement and assembly succeed, and 500 "Internal server error" when either raises |
| App.SearchProperties | backend/app.py:53-123 | the status is one of 200, 400, 500, 503 or 504; 400 exactly when the query is missing; 500 "Internal server error" when reading the query raises or processing it raises (the `int()` digit limit included) |
| App.MissingQueryRejected | backend/app.py:61-62 | a body without `query` gets 400 whatever the services would answer |
| App.ParamsNeverEmpty | backend/app.py:68-70 | the "Failed to process search query" answer never occurs |
| App.SearchReachesServer | backend/app.py:64-85 | once the query is read and processed, the property server's outcome decides the answer |
| App.SearchWithoutKey | backend/app.py:53-113 | without an API key, a text query whose first number `int()` can read and whose server reply is a decoded 200 whose chosen properties can be sliced is answered 200 with the payload built from that reply, unchanged by enhancement |
| App.GetPropertyDetails | backend/app.py:125-153 | 404 exactly when the server says 404; 504 and 503 exactly for a timeout and a failed connection; another non-200 status gives 500 "Failed to fetch property details"; 200 exactly for a decoded 200 reply whose enhancement succeeds, with the enhanced property as body; another exception, an undecodable body or a raising enhancement gives 500 "Internal server error" |
| App.DetailsWithoutKey | backend/app.py:140-145 | without an API key the details pass through unchanged with 200 |
| App.GetSearchSuggestions | backend/app.py:155-175 | 400 exactly when `partial_query` is missing; 200 exactly when it is read and the suggestions are generated, with that list (at most five) and the fixed timestamp; 500 "Failed to generate suggestions" exactly when reading the field or generating raises |

## Left out

- Network: the HTTP request in `_make_request` (openrouter_service.py:33-57), with its payload,
  headers and response decoding, is not modelled. Only its outcome is, as a parameter.
- Network: the requests to the property server (app.py:75-79 and 130-133) are not modelled.
  Only their outcomes are, as a `McpResult`.
- The prompts sent to the language model and the `json.dumps` of the data inside them are not
  modelled. They do not affect any result.
- The language model's content is assumed to be a string or absent. A non-string `content`
  field is not modelled.
- `json.loads` is a parameter. The model does not fix which strings parse.
- `requests`' `.json()` is modelled only as decoded or not decoded (`McpResponse.body`).
- The processing time comes from the clock (app.py:56 and 97) and is rounded as a float. It is
  a parameter.
- Floating-point numbers are not modelled. JSON numbers are integers.
- Text is ASCII. The model does not cover:
  - Unicode whitespace in `split` and `strip`;
  - Unicode case mappings in `lower` and `title`, such as the Kelvin sign lower-casing to "k";
  - Unicode digits matched by `\d`.
- Dictionary insertion order is not modelled. `jsonify` sorts keys, so it is not observable in
  the modelled outputs.
- `request.get_json()` raising on a malformed body or a wrong content type is not modelled. The
  request body is the decoded value, with JNull standing for none.
- The module `re` import and `query_lower` (openrouter_service.py:123, 143) are not modelled.
  The only effect of line 123, raising on a non-string query, is modelled.
- The health check, the 404 and 500 error handlers, Flask routing, CORS, environment variables
  and logging in app.py are not modelled. They hold no logic beyond fixed replies.
- The exceptions of `json.loads` other than `JSONDecodeError` are not modelled: `loads` either
  returns a value or signals `JSONDecodeError`. Two such exceptions escape the
  `except json.JSONDecodeError` clauses (openrouter_service.py:111, 186, 226, 278): a
  `RecursionError` on a reply nested too deeply, and a `ValueError` on a reply holding an integer
  literal longer than 4300 digits. The four members below are weaker for it: where their
  contracts say they raise "exactly when" or "only when", these two replies are missing.
- OpenRouter.ProcessSearchQuery: does not raise on a reply nested too deeply to decode or
  holding an integer literal longer than 4300 digits; the search handler would answer those
  with 500.
- OpenRouter.EnhanceSearchResults: does not raise on a reply nested too deeply to decode or
  holding an integer literal longer than 4300 digits; the search handler would answer 500.
- OpenRouter.EnhancePropertyDetails: does not raise on a reply nested too deeply to decode or
  holding an integer literal longer than 4300 digits; the details handler would answer 500.
- OpenRouter.GenerateSearchSuggestions: does not raise on a reply nested too deeply to decode
  or holding an integer literal longer than 4300 digits; the suggestions handler would answer
  500.
- The limit on the digits `int()` converts is CPython's default of 4300
  (`sys.int_info.default_max_str_digits`); a process that sets another limit is not modelled.
- App.SearchProperties: its contract gives the set of statuses, the 400 case and the 500
  answers for a raising read or processing of the query. Once the query is processed, the
  answer is stated by `SearchReachesServer` together with `ServerResponse`, and
  `ParamsNeverEmpty` shows the "Failed to process search query" answer never happens.
