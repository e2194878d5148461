# Automated AI Web Researcher — search core in Dafny

This project models the search core of the Automated-AI-Web-Researcher-Ollama research assistant in Dafny. It covers three parts:

- **The provider registry** (`search_providers/factory.py`). This is a fixed table from lower-case names to the Bing, Brave, Exa, Tavily and arXiv provider classes. The factory builds a provider by name, whatever the name's letter case, and raises on an unknown name.
- **The search orchestrator** (`search_manager.py`). It builds the configured providers once. Each search tries a sticky "current" provider first, then the fallback order. One provider is tried at a time, and each provider at most once. Every backend payload is normalized into one canonical response: `success`, `error`, `results`, `answer` and `provider`. A fallback provider that succeeds becomes the new current provider.
- **The retrieval loop** (`Self_Improving_Search.py`, class `EnhancedSelfImprovingSearch`). It runs up to `max_attempts` attempts. Each attempt goes through these steps:
  1. formulate the query;
  2. search, with a per-instance request counter and cool-down;
  3. ask the text generator to pick result numbers, with up to three tries and a robots-filtered fallback;
  4. scrape the allowed pages;
  5. evaluate the scraped text and decide: answer, refine, or answer anyway;
  6. generate the final answer, with up to three tries and a fixed apology.

  When no attempt answers, the loop returns one synthesized answer instead.

Python values are modelled by `Py.Json`. An exception is the `Raised` case of `Py.Outcome`; exception types are not distinguished, because every handler in the core catches `Exception`.

Everything outside the core is an oracle, held by one `Oracles.Environment` object:

- the search backends;
- the provider's `is_configured` probe;
- the text generator;
- the scraped-content evaluator;
- the robots policy;
- the page fetcher;
- the clock.

Every call that can answer differently each time reads the environment's `tick` and advances it by one.

Each `for` or `while` loop of the core is a `while` loop in a `method`, proved against a specification:

- the fallback loop of `search` (`SearchManager.TryFallbacks`), the selection retries (`AskForPages`), the scraping loop (`ScrapeContent`) and the answer retries (`GenerateFinalAnswer`) are each proved equal to a recursive specification function (`SearchFrom`, `SelectFrom`, `ScrapeFrom`, `AnswerFrom`), and the properties the source promises are proved about those functions as lemmas;
- the loops of `format_results` (`FormatResultBlocks`) and `format_scraped_content` (`FormatScraped`) are proved equal to the recursive functions `FormatResults` and `FormatScrapedContent`, which the selection and answer specifications use;
- the loop of `_initialize_providers` (`SearchManager.InitializeProviders`) is proved against the predicate `ProvidersFrom`;
- the attempt loop of `search_and_improve` (`AttemptLoop`, called by `RunAttempts`) is proved equal to the recursive ghost function `RunSpec`. Each step of `RunSpec` is one attempt, `AttemptSpec`: the orchestrator's search from the state the attempt before left, then `ProcessSpec` on its response. The attempt budget, the stop at the first answer and where an answer came from are proved about `RunSpec` as lemmas.

The list comprehensions of the core (the normalizer's item lists, the selection's picks and its fallback) are recursive functions.

One attempt after its search is the function `ProcessSpec` of the oracles. It is split as the source's `try` block is: `ProcessSpec` checks the results, `GatherSpec` takes the selection and scrapes, and `ConcludeSpec` evaluates and answers. Each is the specification of a method (`ProcessResults`, `Gather`, `Conclude`), and lemmas state which exit each takes and when.

The files are:

- `py.dfy`: the Python values and built-ins;
- `text.dfy`: `lower`, `strip`, `isdigit` and the whitespace regular expression;
- `providers.dfy`: the registry;
- `config.dfy`: the configuration values read from `system_config.py`;
- `oracles.dfy`: the environment;
- `search.dfy`: the normalizer and the orchestrator;
- `retrieval.dfy`: the retrieval loop.

## Model

| member | source | states |
|---|---|---|
| Py.Update | Self_Improving_Search.py:285 | after `d.update(other)` the keys are exactly the old keys together with the keys of `other` |
| Py.Lookup | Self_Improving_Search.py:285 | reading a key finds a value exactly when the key is present |
| Py.LastLookup | Self_Improving_Search.py:283-285 | the value a dict built from pairs holds for a key, the last pair winning, is found exactly when the key occurs |
| Py.AssignLookup | Self_Improving_Search.py:285 | after `d[k] = v`, `k` maps to `v` and every other key keeps its value |
| Py.UpdateLookup | Self_Improving_Search.py:285 | after `d.update(other)`, a key of `other` maps to the value `other` gives it and every other key keeps its old value |
| Text.Lower | search_providers/factory.py:37 | lowering keeps the length and maps each character to its lower-case form |
| Text.LowerIdempotent | search_providers/factory.py:37 | lowering a lowered name changes nothing, so differently cased names meet in one key |
| Text.TrimStart | Self_Improving_Search.py:366 | the result is a suffix of the input; what was removed is all whitespace; the result does not start with whitespace |
| Text.TrimEnd | Self_Improving_Search.py:366 | the result is a prefix of the input; what was removed is all whitespace; the result does not end with whitespace |
| Text.StripEmptyIffAllSpace | Self_Improving_Search.py:365-366 | `strip()` gives the empty string exactly when every character is whitespace; otherwise the result starts and ends with visible characters |
| Text.CollapseKeepsVisible | Self_Improving_Search.py:348 | replacing whitespace runs by one space keeps all non-whitespace characters, in order |
| Text.CollapseIsCollapsed | Self_Improving_Search.py:348 | the result holds no whitespace other than single spaces, and never two whitespace characters in a row; it is empty only for empty input |
| Text.CollapseFixesCollapsed | Self_Improving_Search.py:348 | a string already in collapsed form is left unchanged |
| Text.CollapseIdempotent | Self_Improving_Search.py:348 | collapsing twice is collapsing once |
| Text.CollapseIsScan | Self_Improving_Search.py:348 | the substitution of `\s+` by one space equals a left-to-right scan that emits one space when a run opens and nothing more until it closes |
| Text.ScanSplit | Self_Improving_Search.py:348 | scanning `x + y` is scanning `x`, then scanning `y` in the state `x` left |
| Text.ScanOfRun | Self_Improving_Search.py:348 | a run of whitespace emits exactly one space when no run is open, and nothing otherwise |
| Text.CollapseSplit | Self_Improving_Search.py:348 | a string ending in a visible character collapses independently of what follows it |
| Text.CollapseLeadingRun | Self_Improving_Search.py:348 | a whitespace run followed by a visible character or by nothing becomes one space |
| Text.CollapseRun | Self_Improving_Search.py:348 | each maximal whitespace run, of any length and any whitespace characters, is replaced by exactly one space in its place, the text on both sides collapsing on its own |
| Providers.GetProvider | search_providers/factory.py:37-41 | a provider is built exactly when the lowered name is registered, of the registered class and with the caller's keyword arguments; otherwise the call raises |
| Providers.GetAvailableProviders | search_providers/factory.py:44-52 | the registry holds exactly bing, brave, exa, tavily and arxiv, each mapped to its own class |
| Providers.RegisteredNamesResolve | search_providers/factory.py:17-41 | every registered name builds its own class |
| Providers.CaseInsensitive | search_providers/factory.py:37 | names equal up to letter case build the same provider or both raise |
| Providers.LowerFormResolvesAlike | search_providers/factory.py:37 | a name and its lower-case form resolve alike |
| Providers.DuckDuckGoIsUnknown | search_providers/factory.py:37-39 | any casing of "duckduckgo" raises |
| Providers.DuckDuckGoNotRegistered | search_providers/factory.py:17-23 | "duckduckgo", the configured default, has no registered class |
| Providers.UnknownNameRaises | search_providers/factory.py:37-39 | a name whose lower-case form is none of the five raises |
| Oracles.Environment.Search | search_manager.py:195 | a provider call returns the backend's answer at the current tick and advances the tick by one |
| Oracles.Environment.Generate | Self_Improving_Search.py:245 | a generation call returns the generator's answer at the current tick and advances the tick by one |
| Oracles.Environment.Evaluate | Self_Improving_Search.py:141 | an evaluation returns the evaluator's answer at the current tick and advances the tick by one |
| Oracles.Environment.Fetch | Self_Improving_Search.py:283 | a page fetch returns the fetcher's answer at the current tick and advances the tick by one |
| Oracles.Environment.Now | Self_Improving_Search.py:178 | a clock reading returns the clock at the current tick and advances the tick by one |
| Search.MapItems | search_manager.py:110-116 | a list comprehension keeps the length; item `i` is made from payload item `i`; it raises exactly when some item raises |
| Search.NormalizeFailures | search_manager.py:69-83 | a non-dict payload gives the fixed "Invalid results format from <provider>" failure; a dict with `error` gives a failure carrying that error; both have no results |
| Search.NormalizeSuccess | search_manager.py:77-94 | success holds exactly for a dict without `error`; then `error` is None and `answer` is copied only when present; `provider` is always the given name |
| Search.UnknownProviderIsEmptySuccess | search_manager.py:85-152 | a provider name outside the six branches, compared exactly, gives an empty success |
| Search.DuckDuckGoAlwaysEmpty | search_manager.py:141-150 | the duckduckgo branch always yields an empty result list |
| Search.ArxivErrorShapeIsSuccess | search_manager.py:77-140 | the arXiv provider's `{"status": "error", ...}` failure has no `error` key and normalizes to an empty success |
| Search.TavilyPassesResultsThrough | search_manager.py:97-108 | tavily without `articles` passes `results` on unchanged, an empty list when absent |
| Search.MapItemMeaning | search_manager.py:100-150 | a canonical item takes its title, url, content cut to 500, score and date from the fields the provider's table names, with their defaults; a numeric score field gives its value and a boolean one 1.0 or 0.0; its content is a string or a list |
| Search.MapIterableContent | search_manager.py:100-150 | every item a comprehension produces has a string or list content |
| Search.NormalizedContentSliceable | search_manager.py:77-150 | every item of a normalized success has a string or list content, so slicing it cannot raise |
| Search.ListBranchKeepsOrder | search_manager.py:97-140 | on the mapped branches a list of results keeps its length and order, item by item; any other value produces no items |
| Search.FieldTables | search_manager.py:97-140 | the url, content, score and date fields each provider's branch reads |
| Search.BingScoresAreOne | search_manager.py:117-124 | every normalized bing item has the constant score 1.0 and no published date |
| Search.SearchManager.InitializeProviders | search_manager.py:25-48 | the providers kept are exactly the names of the fallback order that the factory builds and that report themselves configured |
| Search.SearchManager.constructor | search_manager.py:18-23 | the providers are initialized from the configuration's fallback order, the current provider is the configured default, and the manager's invariant holds |
| Search.DefaultProviderNeverAdmitted | search_manager.py:23-48 | the default "duckduckgo" is never among the configured providers, whatever the keys |
| Search.FreshManagerStartsInFallback | search_manager.py:158-186 | with the repository's configuration, a new manager's first search goes straight to the fallback order |
| Search.FirstOccurrencesMeaning | search_manager.py:182-186 | the fallback loop reaches exactly the configured names of the order that were not tried yet, each once |
| Search.TryOrderProperties | search_manager.py:158-186 | one search tries each provider at most once and only configured ones; it tries the current provider first exactly when it is configured, and every configured provider unless one succeeds first |
| Search.MergeCallerWins | search_manager.py:191-192 | merged parameters have the keys of both; the caller's value wins on a shared key, and a provider without settings gets the caller's arguments alone |
| Search.SearchFromOutcome | search_manager.py:182-219 | the calls stop at the first success; the winner is the last provider called and the response is its successful normalized one; with no winner every provider was called and the response is "All search providers failed" |
| Search.SearchFromFailuresFirst | search_manager.py:182-211 | every call before the winner, or every call when nobody wins, did not succeed |
| Search.SearchFromWins | search_manager.py:199-201 | a provider that succeeds ends the search with its own response after one call |
| Search.WinnerIsConfigured | search_manager.py:182-201 | when only configured names are tried, the winner is a configured provider |
| Search.SearchManager.Search | search_manager.py:154-219 | the response, the providers called, the number of backend calls and the new current provider are those of trying the current provider and then the fallback order; the current provider changes only to a winner, which is a configured provider |
| Search.SearchManager.TryFallbacks | search_manager.py:181-219 | the fallback loop's response and calls are those of trying the untried configured names in order; the winner becomes the current provider |
| Search.SearchManager.GetCurrentProvider | search_manager.py:221-223 | the current provider's name |
| Search.SearchManager.GetAvailableProviders | search_manager.py:225-227 | the configured providers' names, each once, in the order they were inserted, which is the order of their first occurrence in the fallback order |
| Search.FirstOccurrencesOrdered | search_manager.py:28-42 | the names kept follow the order they first occur in: the key order of the providers dict |
| Retrieval.TimeRangeTable | Self_Improving_Search.py:192-205 | `max_results` 10 and `min_relevance_score` 0.6 are always present; `days` is 1, 7, 30 or 365 exactly for d, w, m or y in any case; nothing else is added |
| Retrieval.TimeRangeCaseInsensitive | Self_Improving_Search.py:205 | time-range codes equal up to case give the same parameters |
| Retrieval.FormulatedQueryIsUnrefined | Self_Improving_Search.py:166-168 | every attempt searches the user's own query with no time range |
| Retrieval.NextCountCases | Self_Improving_Search.py:178-190 | a request cools down exactly when the counter has reached the limit within the cool-down window; the counter then restarts at 1, and otherwise goes up by one |
| Retrieval.BelowLimitNeverCools | Self_Improving_Search.py:182-190 | while the counter is below the limit, no request cools down and each one sees the counter one higher, whatever the timing |
| Retrieval.LimitCoolsWithinWindow | Self_Improving_Search.py:182-190 | the request that reaches the limit cools down when it arrives within the window, and the next one sees the counter at 1 |
| Retrieval.FormatResultsFromMeaning | Self_Improving_Search.py:264-275 | the listing has one entry per result in order, entry `i` numbered `first + i`; it raises exactly when some result cannot be formatted |
| Retrieval.FormatResultsNumbersEachResult | Self_Improving_Search.py:264-275 | entry `i` is numbered `i + 1` and shows result `i`'s title and URL; a string content gives as snippet its first at most 200 characters; the date and score appear exactly when truthy |
| Retrieval.FormatResultsAsWrittenRejectsLists | Self_Improving_Search.py:266 | as written, the listing raises for every list of results |
| Retrieval.AscendingFromMeaning | Self_Improving_Search.py:249 | the ascending walk holds exactly the set's members in range, strictly increasing |
| Retrieval.SelectedNumbersMeaning | Self_Improving_Search.py:249 | the selected numbers are exactly the digits among the reply's first 40 characters, each once, between 0 and 9 |
| Retrieval.PickOneCases | Self_Improving_Search.py:250 | digit `d` in 1..n picks result `d`'s URL; 0 picks the last result's, as Python's index -1 does; a digit past the end raises |
| Retrieval.PickUrlsMeaning | Self_Improving_Search.py:250 | the picks are the numbers' URLs in order; picking raises exactly when one number's pick raises |
| Retrieval.PickedUrlsComeFromResults | Self_Improving_Search.py:250 | every picked URL is the `url` of one of the results |
| Retrieval.RobotsSplit | Self_Improving_Search.py:252 | the allowed URLs are exactly those the robots policy accepts, the refused ones exactly the rest, and together they are as many as the URLs |
| Retrieval.UrlsOfMeaning | Self_Improving_Search.py:260 | URL `i` is result `i`'s `url`; it raises exactly when some result has none |
| Retrieval.ChosenUrlsAllowed | Self_Improving_Search.py:249-253 | every URL a reply chooses is allowed and is the `url` of one of the results |
| Retrieval.FallbackFacts | Self_Improving_Search.py:260-261 | the fallback gives at most two URLs, each allowed and the `url` of one of the results |
| Retrieval.AllowedFrom | Self_Improving_Search.py:260 | the allowed URLs from a position on are empty exactly when none there is allowed, and otherwise start with the first allowed one |
| Retrieval.FirstTwoOfAllowed | Self_Improving_Search.py:260 | the first two allowed URLs are, in order, the first allowed URL and the next allowed one after it, as many as there are up to two |
| Retrieval.FallbackValue | Self_Improving_Search.py:260-261 | the fallback raises exactly when some result has no `url`; otherwise it is the first two allowed URLs of the results, in order |
| Retrieval.FallbackEmptyIffNoneAllowed | Self_Improving_Search.py:260-261 | the fallback is empty exactly when every result has a `url` and the robots policy allows none |
| Retrieval.FirstRaiseEnds | Self_Improving_Search.py:243-250 | a raising generation call, or a reply whose picks raise, ends the selection with a raise after one call |
| Retrieval.FirstGoodReplyWins | Self_Improving_Search.py:252-254 | a reply that chooses at least one allowed URL is the selection, after one call |
| Retrieval.SelectFromCalls | Self_Improving_Search.py:242-261 | at most `retries` calls; an empty selection comes only from an empty fallback after every retry |
| Retrieval.SelectFromOrigin | Self_Improving_Search.py:242-261 | the selection is a raise, the fallback, or the choice made from one of the replies received |
| Retrieval.SelectionUrlsAllowed | Self_Improving_Search.py:228-261 | at most three calls; every selected URL is allowed and the `url` of a result; an empty selection means three calls, an empty fallback, and every result having a `url` the robots policy refuses |
| Retrieval.ScrapeProperties | Self_Improving_Search.py:277-303 | exactly the allowed URLs are fetched, one call each in order; the content's keys are the fetched pages' keys; the refused URLs are the blocked list |
| Retrieval.ScrapeCalls | Self_Improving_Search.py:277-303 | the scrape makes at most one call per allowed URL, and exactly one per allowed URL when it does not raise |
| Retrieval.ScrapeKeys | Self_Improving_Search.py:277-303 | the keys of the scraped content are the earlier keys followed by the new keys of the fetched pages, in order |
| Retrieval.ScrapeBlocked | Self_Improving_Search.py:277-303 | the URLs skipped are exactly those the robots policy refuses, in order |
| Retrieval.ScrapeValues | Self_Improving_Search.py:280-285 | each key of the scraped content holds the value of the last fetched page that has it, and keys no page has keep their earlier value |
| Retrieval.FormatScrapedContent | Self_Improving_Search.py:345-350 | the formatted text is empty exactly when nothing was scraped |
| Retrieval.EntryCollapsesWhitespace | Self_Improving_Search.py:347-349 | an entry is its header followed by the page with every visible character kept and whitespace runs reduced to single spaces; formatting again changes nothing |
| Retrieval.AnswerPromptShape | Self_Improving_Search.py:312-321 | the question shown is the first at most 200 characters of the user's; the AI summary appears exactly when the answer is truthy; the content is empty exactly when nothing was scraped |
| Retrieval.AnswerFromProperties | Self_Improving_Search.py:331-343 | at most `retries` calls, all but the last returning ""; the answer is the last call's raise or non-empty reply, or the apology exactly when every reply was empty; it is never empty |
| Retrieval.SynthesisAsWrittenCanBeEmpty | Self_Improving_Search.py:365-366 | as written, a reply of one space gives the empty answer |
| Retrieval.SynthesisNeverEmpty | Self_Improving_Search.py:360-369 | the synthesized answer is never empty: the stripped reply when it has a visible character, the apology when the call raised or the reply is blank |
| Retrieval.AsList | Self_Improving_Search.py:121 | canonical items are listed one dict per item in order; a passed-through value can be listed exactly when it is a list |
| Retrieval.NormalizedItemsFormat | Self_Improving_Search.py:260-275 | canonical items can always be listed and always have a URL |
| Retrieval.NormalizedResultsListable | Self_Improving_Search.py:121-275 | a normalized success whose results were mapped to canonical items can be listed for the selection prompt, and every listed result has a URL |
| Retrieval.DecideCases | Self_Improving_Search.py:148-157 | only "refine" refines; an AI summary reaches the answer only on "answer" from tavily, and is then the response's own answer; any other token answers without one |
| Retrieval.EnhancedSelfImprovingSearch.constructor | Self_Improving_Search.py:58-75 | a fresh orchestrator from the default configuration; limits 60 requests per minute, 5 concurrent, 60 s cool-down; counter and times at zero |
| Retrieval.EnhancedSelfImprovingSearch.PerformSearch | Self_Improving_Search.py:170-207 | an empty query fails with "Empty query" and touches nothing; otherwise the counter is updated by the cool-down rule, the last request time is the second clock reading, the response is the orchestrator's search with the time-range parameters, and the current provider changes only to a configured one |
| Retrieval.EnhancedSelfImprovingSearch.FormatResultBlocks | Self_Improving_Search.py:264-275 | the loop's listing is `FormatResults` of the results: one entry per result numbered from 1, or a raise when some result cannot be formatted |
| Retrieval.EnhancedSelfImprovingSearch.FinalAnswerPrompt | Self_Improving_Search.py:311-329 | the prompt built is `AnswerPromptFor`: the question cut to 200 characters, the AI summary exactly when the AI answer is truthy, and the formatted scraped content |
| Retrieval.EnhancedSelfImprovingSearch.FormatScraped | Self_Improving_Search.py:345-350 | the loop's text is `FormatScrapedContent` of the content: each page's entry in order, one per line |
| Retrieval.FormatScrapedSnoc | Self_Improving_Search.py:345-350 | one more page adds its entry on a new line after the others |
| Retrieval.EnhancedSelfImprovingSearch.SelectRelevantPages | Self_Improving_Search.py:228-261 | the outcome and the number of generation calls are those of the selection specification |
| Retrieval.EnhancedSelfImprovingSearch.AskForPages | Self_Improving_Search.py:242-261 | the retry loop's outcome and calls are those of three tries followed by the fallback |
| Retrieval.EnhancedSelfImprovingSearch.ScrapeContent | Self_Improving_Search.py:277-303 | the content, the blocked list and the number of fetches are those of the scraping specification |
| Retrieval.EnhancedSelfImprovingSearch.GenerateFinalAnswer | Self_Improving_Search.py:311-343 | the answer and the calls are those of three tries followed by the apology; an answer is never empty |
| Retrieval.EnhancedSelfImprovingSearch.SynthesizeFinalAnswer | Self_Improving_Search.py:352-369 | one generation call with the synthesis prompt; the answer is that reply read by the synthesis rule, never empty |
| Retrieval.ProcessSpecRouting | Self_Improving_Search.py:113-121 | after the search an attempt never exits for an empty query; it exits for no results exactly when the search failed or its results are falsy, with no call and nothing evaluated; unlistable results raise; otherwise it goes on with the selection made from the listed results |
| Retrieval.ProcessSpecAnswered | Self_Improving_Search.py:113-157 | an answered attempt has a non-empty answer, coming from `generate_final_answer` right after an evaluation, during the attempt, that did not say "refine" |
| Retrieval.GatherRouting | Self_Improving_Search.py:123-135 | the exit is "no URLs" exactly when the selection is empty; the "no URLs" and "no content" exits evaluate nothing; an evaluated attempt evaluated the non-empty content scraped from the selected URLs, right after the scrape; refining or answering always follows an evaluation |
| Retrieval.GatherAnswered | Self_Improving_Search.py:123-157 | an answer after the selection is non-empty and comes from `generate_final_answer` right after an evaluation that did not say "refine" |
| Retrieval.GatherConcluded | Self_Improving_Search.py:123-139 | proof step for `Gather`: once URLs were selected and content scraped, an attempt ends as the evaluation and answer that follow, with the calls of all three steps |
| Retrieval.ConcludeRouting | Self_Improving_Search.py:139-157 | the content is evaluated exactly when the evaluator does not raise; the attempt refines exactly when `Decide` reads the decision as refine; otherwise the answer is `generate_final_answer`'s with the AI answer `Decide` gives, and the attempt answers exactly when that call does not raise |
| Retrieval.ConcludeAfterEvaluation | Self_Improving_Search.py:139-157 | proof step for `Conclude`: after the evaluator's answer and its reading by `Decide`, the attempt refines after one call, or goes on to `generate_final_answer` |
| Retrieval.EnhancedSelfImprovingSearch.AttemptSpecProperties | Self_Improving_Search.py:94-162 | an attempt takes the empty-query exit exactly for an empty query, and then changes nothing; it never moves the clock back; the current provider stays or becomes a configured one; an answer is non-empty and comes from `generate_final_answer` after an evaluation during the attempt that did not say "refine" |
| Retrieval.EnhancedSelfImprovingSearch.RunSpecBudget | Self_Improving_Search.py:89-164 | the loop makes at most `max_attempts` attempts; no attempt before the last answered; the loop answered exactly when its last attempt did; without an answer it used every attempt |
| Retrieval.EnhancedSelfImprovingSearch.RunFromBudget | Self_Improving_Search.py:89-164 | the same, counted from an attempt already made |
| Retrieval.EnhancedSelfImprovingSearch.RunSpecAnswered | Self_Improving_Search.py:89-162 | the loop's answer is non-empty and comes from `generate_final_answer` after an evaluation during the loop that did not say "refine" |
| Retrieval.EnhancedSelfImprovingSearch.RunSpecEmptyQuery | Self_Improving_Search.py:89-106 | with an empty query every attempt takes the empty-query exit, nothing is answered and the state is left as it was |
| Retrieval.EnhancedSelfImprovingSearch.RunSpecState | Self_Improving_Search.py:89-162 | over the loop the clock never goes back and the current provider stays or becomes a configured one |
| Retrieval.EnhancedSelfImprovingSearch.RunSpecStep | Self_Improving_Search.py:89-162 | proof step: one more attempt, from the state the attempt before left |
| Retrieval.EnhancedSelfImprovingSearch.Attempt | Self_Improving_Search.py:94-162 | the attempt is `AttemptSpec` from the state it begins in: its exit, answer, where the answer came from, and the clock, provider and request fields it leaves; the formulated query and time range are recorded; the attempt stops at once, with no outside call and no change to the request counter, exactly when the query is empty; otherwise the counter follows the cool-down rule, the search is that of the orchestrator, and the exit, the answer and where it came from are those of `ProcessSpec` on the search's response; the current provider changes only to a configured one; an answered attempt's answer comes from `generate_final_answer` after an evaluation during the attempt that did not say "refine" |
| Retrieval.EnhancedSelfImprovingSearch.SearchAndProcess | Self_Improving_Search.py:107-157 | for a non-empty query, `AttemptSpec` from the state it begins in: the request counter, the orchestrator's search, and then the exit, the answer and the calls of `ProcessSpec` on its response |
| Retrieval.EnhancedSelfImprovingSearch.ProcessResults | Self_Improving_Search.py:113-157 | the exit, the answer, where it came from and the calls are those of `ProcessSpec`; never the empty-query exit; an answer comes from `generate_final_answer` after an evaluation during this step that did not say "refine" |
| Retrieval.EnhancedSelfImprovingSearch.Gather | Self_Improving_Search.py:123-157 | the exit, the answer, where it came from and the calls are those of `GatherSpec` for the selection made |
| Retrieval.EnhancedSelfImprovingSearch.Conclude | Self_Improving_Search.py:139-157 | the exit, the answer, where it came from and the calls are those of `ConcludeSpec` for the selected URLs and scraped content |
| Retrieval.EnhancedSelfImprovingSearch.Turn | Self_Improving_Search.py:94-162 | one turn of the loop is `AttemptSpec` from the state it begins in, and records the query |
| Retrieval.EnhancedSelfImprovingSearch.AttemptLoop | Self_Improving_Search.py:89-162 | the loop's answer, trace of exits, where the answer came from and the state it leaves are those of `RunSpec` with the attempt budget |
| Retrieval.EnhancedSelfImprovingSearch.RunAttempts | Self_Improving_Search.py:89-162 | the loop is `RunSpec` with the attempt budget; at most `max_attempts` attempts; it stops at the first answered one, and otherwise uses the whole budget; the query record, the request fields for an empty query, and the current provider are kept as each attempt leaves them |
| Retrieval.EnhancedSelfImprovingSearch.SearchAndImprove | Self_Improving_Search.py:88-164 | the attempts are `RunSpec` with the attempt budget, and without an answer one synthesis call follows; the answer is never empty; at most `max_attempts` attempts; only the last attempt may answer, and its answer comes from `generate_final_answer` after an evaluation during the run that did not say "refine"; otherwise every attempt was used and the answer is the synthesis of the last generation call; an empty query only synthesizes and leaves the request fields alone; the last query and time range are recorded; the current provider changes only to a configured one |

## Left out

- Printing, logging, colours and `OutputRedirector` capture are not modelled; they have no effect on results. This covers `print_thinking`, `print_searching`, `display_search_results` and `display_scraped_content`; the two display helpers catch their own errors or only print.
- `initialize_llm` and the LLM wrapper are not part of this model. Generation is an oracle of the tick, the prompt's data and `max_tokens`; the `stop` argument is ignored.
- The prompts are modelled by the data they interpolate (`Oracles.Prompt`), not by their template text.
- `evaluate_scraped_content` is called by `search_and_improve` but is not defined in `Self_Improving_Search.py`. It is modelled as an oracle that returns an evaluation and a decision, or raises.
- `time.sleep`: the cool-down in `perform_search` and the pause between providers in `search` are delays only.
- `time.time()` is an integer clock oracle. Fractional seconds are not modelled.
- Retrieval.NextCountCases: the counter runs on whole-second clock readings, so a cool-down boundary inside a second is not captured.
- `can_fetch` (the robots policy) is a fixed function of the URL for the whole run. `get_web_content` is a fetch oracle; web_scraper is not part of this model.
- The provider classes, their `search` methods and `is_configured` are oracles. ArXiv's own parsing is not modelled.
- `concurrent_requests` is stored but never used by the core.
- Retrieval.SelectedNumbersMeaning: a Python set of small integers is iterated in ascending order here, while CPython's order depends on hash slots. Which URLs are selected does not depend on it, but their order does, and that order also fixes the order of the fetches, the order of the keys of the scraped content in the answer prompt, and which page's value a key holds when two pages share it (`FetchedValue`).
- Text.IsDigit: only the ASCII digits count. Other Unicode digits that `isdigit` accepts are not modelled.
- Text.Lower: only the ASCII letters are lowered; `str.lower` on other scripts is not modelled.
- Py.Float: `float()` of a numeric string is treated as raising. Parsing numeric strings is not modelled.
- The check `isinstance(search_results, dict)` in `search_and_improve` always holds, because `perform_search` always returns a dict. The model omits that branch.
- The factory's docstring says an invalid type gives None, but the code raises ValueError. The model follows the code.
- Retrieval.EnhancedSelfImprovingSearch.SelectRelevantPages: follows the corrected half of the first Findings row and indexes the list of results directly; as written every list of results raises, which `FormatResultsAsWrittenRejectsLists` shows.
- Retrieval.EnhancedSelfImprovingSearch.AskForPages: follows the corrected half of the first Findings row and takes the chosen number's result from the list itself, not from `search_results['results']`.
- Retrieval.EnhancedSelfImprovingSearch.FormatResultBlocks: iterates the list of results itself, as the corrected half of the first Findings row does, not `results['results']`.
- Retrieval.EnhancedSelfImprovingSearch.Attempt: records the formulated query and time range after the search, not before it. Within an attempt they are only printed (Self_Improving_Search.py:217-218), so the state an attempt leaves is the same.
- Retrieval.EnhancedSelfImprovingSearch.Attempt: uses `SelectRelevantPages`, so it also follows the corrected half of the first Findings row.
- Retrieval.EnhancedSelfImprovingSearch.SynthesizeFinalAnswer: follows the corrected half of the second Findings row, so a blank reply gives the apology. `LLMWrapper.generate` strips every reply it returns (llm_wrapper.py:69, 96, 110, 126), so the readings differ only for a generator that does not strip.
- Retrieval.EnhancedSelfImprovingSearch.SearchAndImprove: follows the corrected halves of both Findings rows, through `Attempt` and `SynthesizeFinalAnswer`.

## Findings

| source | as written | input that shows it | evidently intended | confidence | as-written member | corrected member |
|---|---|---|---|---|---|---|
| Self_Improving_Search.py:121-261 | `search_and_improve` passes the list `search_results['results']` to `select_relevant_pages`, which lists it with `results['results']` (line 266) and picks with `search_results['results'][i-1]` (line 250); subscripting a list with a string raises TypeError, so every attempt with results ends in the `except` branch | any non-empty list of results, e.g. `[{"url": "u"}]` | the list is indexed directly: `results[i-1]['url']` and `enumerate(results, 1)` | not executed | Retrieval.FormatResultsAsWrittenRejectsLists | Retrieval.SelectionUrlsAllowed |
| Self_Improving_Search.py:365-366 | `if response_text: return response_text.strip()` returns "" for a reply made only of whitespace | the reply `" "` | a blank reply falls through to the apology, so the answer is never empty | not executed | Retrieval.SynthesisAsWrittenCanBeEmpty | Retrieval.SynthesisNeverEmpty |
