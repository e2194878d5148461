/** search_manager.py: the normalizer that turns each backend's raw payload into one canonical
    response, and the orchestrator that tries a sticky current provider first and then the
    fallback order. */
module Search {
  import opened Py
  import opened Text
  import opened Providers
  import opened Config
  import opened Oracles

  /** Normalized `content` is cut to this many characters. */
  const ContentLimit: nat := 500

  /** One canonical result: `{'title', 'url', 'content', 'score', 'published_date'}`. */
  datatype Item = Item(title: Json, url: Json, content: Json, score: real, publishedDate: Json)

  /** The canonical `results` field: a list of canonical items, or a backend value passed on as it is. */
  datatype ResultList = Items(items: seq<Item>) | Passthrough(raw: Json)

  /** The canonical response `{'success', 'error', 'results', 'answer'?, 'provider'}`;
      `error` is `JNull` for None, `answer` is absent unless the payload had one. */
  datatype SearchResponse = SearchResponse(
    success: bool,
    error: Json,
    results: ResultList,
    answer: Option<Json>,
    provider: Option<string>)

  /** Where a canonical score comes from: a payload field read with `float(r.get(key, 0.0))`, or a constant. */
  datatype ScoreRule = FromField(key: string) | Fixed(value: real)

  /** A provider's field-mapping table. The title always comes from `title`. */
  datatype FieldTable = FieldTable(urlKey: string, contentKey: string, score: ScoreRule, dated: bool)

  const TavilyArticlesTable := FieldTable("url", "content", FromField("score"), true)
  const BraveTable := FieldTable("url", "description", FromField("relevance_score"), true)
  const BingTable := FieldTable("url", "content", Fixed(1.0), false)
  const ExaTable := FieldTable("url", "text", FromField("relevance_score"), true)
  const ArxivTable := FieldTable("link", "summary", FromField("score"), true)
  const DuckDuckGoTable := FieldTable("link", "snippet", Fixed(1.0), false)

  /** The providers whose branch maps `results.get('results', [])` item by item. */
  function ListTable(provider: string): Option<FieldTable>
  {
    if provider == "brave" then Some(BraveTable)
    else if provider == "bing" then Some(BingTable)
    else if provider == "exa" then Some(ExaTable)
    else if provider == "arxiv" then Some(ArxivTable)
    else None
  }

  /** One item of a list comprehension in `_normalize_results`. */
  function MapItem(t: FieldTable, r: Json): Outcome<Item>
  {
    match r
    case JObj(f) =>
      var content := Prefix(GetOr(f, t.contentKey, JStr("")), ContentLimit);
      var score := match t.score
        case Fixed(v) => Ok(v)
        case FromField(k) => Float(GetOr(f, k, JNum(0.0)));
      if content.Raised? || score.Raised? then Raised
      else Ok(Item(
        GetOr(f, "title", JStr("")),
        GetOr(f, t.urlKey, JStr("")),
        content.value,
        score.value,
        if t.dated then GetOr(f, "published_date", JNull) else JNull))
    case _ => Raised
  }

  /** A list comprehension over a list: the items in order, or a raise if any item raises. */
  function MapItems(t: FieldTable, xs: seq<Json>): (o: Outcome<seq<Item>>)
    ensures o.Ok? ==> |o.value| == |xs| && forall i :: 0 <= i < |xs| ==> MapItem(t, xs[i]) == Ok(o.value[i])
    ensures o.Raised? <==> exists i :: 0 <= i < |xs| && MapItem(t, xs[i]).Raised?
  {
    if xs == [] then Ok([])
    else
      match MapItem(t, xs[0])
      case Raised => Raised
      case Ok(it) =>
        match MapItems(t, xs[1..])
        case Raised =>
          assert forall i :: 0 <= i < |xs| - 1 ==> xs[1..][i] == xs[i + 1];
          Raised
        case Ok(rest) =>
          assert forall i :: 0 <= i < |xs| - 1 ==> xs[1..][i] == xs[i + 1];
          Ok([it] + rest)
  }

  /** A list comprehension over any value: a list is mapped item by item; iterating a non-empty
      string or dict yields strings, whose `.get` raises; None, numbers and booleans are not iterable. */
  function MapIterable(t: FieldTable, source: Json): Outcome<seq<Item>>
  {
    match source
    case JList(xs) => MapItems(t, xs)
    case JStr(s) => if s == "" then Ok([]) else Raised
    case JObj(m) => if m == map[] then Ok([]) else Raised
    case _ => Raised
  }

  /** The provider branch of `_normalize_results`, for a payload that is a dict without `error`. */
  function NormalizedResults(m: map<string, Json>, provider: string): Outcome<ResultList>
  {
    if provider == "tavily" then
      if "articles" in m then
        match MapIterable(TavilyArticlesTable, m["articles"])
        case Raised => Raised
        case Ok(items) => Ok(Items(items))
      else Ok(Passthrough(GetOr(m, "results", JList([]))))
    else if ListTable(provider).Some? then
      match MapIterable(ListTable(provider).value, GetOr(m, "results", JList([])))
      case Raised => Raised
      case Ok(items) => Ok(Items(items))
    else if provider == "duckduckgo" then
      // the payload is a dict, so the branch replaces it by an empty list
      match MapItems(DuckDuckGoTable, [])
      case Raised => Raised
      case Ok(items) => Ok(Items(items))
    else Ok(Items([]))
  }

  /** The failure response for a payload that is not a dict. */
  function InvalidFormat(provider: string): SearchResponse
  {
    SearchResponse(false, JStr("Invalid results format from " + provider), Items([]), None, Some(provider))
  }

  /** `SearchManager._normalize_results(results, provider)`. It raises only when an item of a
      mapped list is malformed; `search` catches that. */
  function Normalize(raw: Json, provider: string): Outcome<SearchResponse>
  {
    match raw
    case JObj(m) =>
      if "error" in m then Ok(SearchResponse(false, m["error"], Items([]), None, Some(provider)))
      else
        (match NormalizedResults(m, provider)
         case Raised => Raised
         case Ok(results) =>
           Ok(SearchResponse(true, JNull, results, if "answer" in m then Some(m["answer"]) else None, Some(provider))))
    case _ => Ok(InvalidFormat(provider))
  }

  // ---------------------------------------------------------------------------
  // Properties of the normalizer

  /** A payload that is not a dict, or a dict with an `error` key, normalizes to a failure with
      no results and the provider's name; the error is the fixed message or the payload's own error. */
  lemma NormalizeFailures(raw: Json, provider: string)
    ensures !raw.JObj? ==> Normalize(raw, provider) == Ok(SearchResponse(
      false, JStr("Invalid results format from " + provider), Items([]), None, Some(provider)))
    ensures raw.JObj? && "error" in raw.fields ==> Normalize(raw, provider) == Ok(SearchResponse(
      false, raw.fields["error"], Items([]), None, Some(provider)))
  {
  }

  /** A response is successful exactly when the payload is a dict without `error`; then `error` is
      None, `provider` is the given name and `answer` is copied only when the payload has one. */
  lemma NormalizeSuccess(raw: Json, provider: string, resp: SearchResponse)
    requires Normalize(raw, provider) == Ok(resp)
    ensures resp.success <==> raw.JObj? && "error" !in raw.fields
    ensures resp.provider == Some(provider)
    ensures resp.success ==> resp.error == JNull
    ensures resp.success ==> resp.answer == (if "answer" in raw.fields then Some(raw.fields["answer"]) else None)
    ensures !resp.success ==> resp.results == Items([]) && resp.answer == None
  {
  }

  /** A provider name outside the six branches (compared exactly, so "Bing" too) gives an empty
      success and never raises. */
  lemma UnknownProviderIsEmptySuccess(m: map<string, Json>, provider: string)
    requires "error" !in m
    requires provider !in {"tavily", "brave", "bing", "exa", "arxiv", "duckduckgo"}
    ensures Normalize(JObj(m), provider) == Ok(SearchResponse(
      true, JNull, Items([]), if "answer" in m then Some(m["answer"]) else None, Some(provider)))
  {
  }

  /** The duckduckgo branch always yields no results: a dict payload is replaced by an empty list. */
  lemma DuckDuckGoAlwaysEmpty(m: map<string, Json>)
    requires "error" !in m
    ensures Normalize(JObj(m), "duckduckgo") == Ok(SearchResponse(
      true, JNull, Items([]), if "answer" in m then Some(m["answer"]) else None, Some("duckduckgo")))
  {
  }

  /** The arXiv provider reports failures as `{"status": "error", "message": ...}`, which has no
      `error` key, so the normalizer reports success with no results. */
  lemma ArxivErrorShapeIsSuccess(message: Json)
    ensures Normalize(JObj(map["status" := JStr("error"), "message" := message]), "arxiv")
      == Ok(SearchResponse(true, JNull, Items([]), None, Some("arxiv")))
  {
    var m := map["status" := JStr("error"), "message" := message];
    assert "results" !in m && "answer" !in m && "error" !in m;
  }

  /** Tavily without `articles` passes `results` on unchanged (an empty list when absent). */
  lemma TavilyPassesResultsThrough(m: map<string, Json>)
    requires "error" !in m && "articles" !in m
    ensures Normalize(JObj(m), "tavily") == Ok(SearchResponse(
      true, JNull, Passthrough(GetOr(m, "results", JList([]))),
      if "answer" in m then Some(m["answer"]) else None, Some("tavily")))
  {
  }

  /** `content` is the source field cut to at most 500 characters: a string source gives its first
      `min(500, n)` characters, a missing field gives "". */
  ghost predicate ContentFrom(source: Json, content: Json)
  {
    && (source.JStr? ==> content.JStr? && |content.s| <= ContentLimit
                         && |content.s| == (if |source.s| <= ContentLimit then |source.s| else ContentLimit)
                         && content.s == source.s[..|content.s|])
    && (source.JList? ==> content.JList?
                          && |content.elems| == (if |source.elems| <= ContentLimit then |source.elems| else ContentLimit)
                          && content.elems == source.elems[..|content.elems|])
  }

  /** What a canonical item holds, given the payload item it was made from and the provider's table. */
  ghost predicate ItemMadeFrom(t: FieldTable, r: Json, it: Item)
  {
    && r.JObj?
    && it.title == GetOr(r.fields, "title", JStr(""))
    && it.url == GetOr(r.fields, t.urlKey, JStr(""))
    && ContentFrom(GetOr(r.fields, t.contentKey, JStr("")), it.content)
    && (t.score.Fixed? ==> it.score == t.score.value)
    && (t.score.FromField? && t.score.key !in r.fields ==> it.score == 0.0)
    && (t.score.FromField? && t.score.key in r.fields && r.fields[t.score.key].JNum? ==>
          it.score == r.fields[t.score.key].n)
    && (t.score.FromField? && t.score.key in r.fields && r.fields[t.score.key].JBool? ==>
          it.score == (if r.fields[t.score.key].b then 1.0 else 0.0))
    && it.publishedDate == (if t.dated then GetOr(r.fields, "published_date", JNull) else JNull)
  }

  lemma MapItemMeaning(t: FieldTable, r: Json, it: Item)
    requires MapItem(t, r) == Ok(it)
    ensures ItemMadeFrom(t, r, it)
    ensures it.content.JStr? || it.content.JList?
  {
  }

  /** Every item a list comprehension produces has a string or list content. */
  lemma MapIterableContent(t: FieldTable, source: Json, items: seq<Item>)
    requires MapIterable(t, source) == Ok(items)
    ensures forall i :: 0 <= i < |items| ==> items[i].content.JStr? || items[i].content.JList?
  {
    if source.JList? {
      forall i | 0 <= i < |items| ensures items[i].content.JStr? || items[i].content.JList? {
        MapItemMeaning(t, source.elems[i], items[i]);
      }
    }
  }

  /** A normalized list of canonical items always has a string or list content in every item, so
      the listing can slice it. */
  lemma NormalizedContentSliceable(raw: Json, provider: string, resp: SearchResponse)
    requires Normalize(raw, provider) == Ok(resp) && resp.results.Items?
    ensures forall i :: 0 <= i < |resp.results.items| ==>
      resp.results.items[i].content.JStr? || resp.results.items[i].content.JList?
  {
    if raw.JObj? && "error" !in raw.fields {
      var m := raw.fields;
      assert NormalizedResults(m, provider) == Ok(resp.results);
      if provider == "tavily" {
        if "articles" in m {
          MapIterableContent(TavilyArticlesTable, m["articles"], resp.results.items);
        }
      } else if ListTable(provider).Some? {
        MapIterableContent(ListTable(provider).value, GetOr(m, "results", JList([])), resp.results.items);
      }
    }
  }

  /** The table each list branch uses, or None for the branches that do not map item by item. */
  function TableFor(provider: string, m: map<string, Json>): Option<FieldTable>
  {
    if provider == "tavily" then (if "articles" in m then Some(TavilyArticlesTable) else None)
    else ListTable(provider)
  }

  /** For the brave, bing, exa and arxiv branches, and tavily with `articles`, a successful
      normalization of a list keeps its length and order, and item `i` is made from payload item
      `i` by the provider's table. */
  lemma ListBranchKeepsOrder(m: map<string, Json>, provider: string, resp: SearchResponse)
    requires "error" !in m && TableFor(provider, m).Some?
    requires Normalize(JObj(m), provider) == Ok(resp)
    ensures var source := if provider == "tavily" then m["articles"] else GetOr(m, "results", JList([]));
      && resp.results.Items?
      && (source.JList? ==>
            && |resp.results.items| == |source.elems|
            && forall i :: 0 <= i < |source.elems| ==>
                 ItemMadeFrom(TableFor(provider, m).value, source.elems[i], resp.results.items[i]))
      && (!source.JList? ==> resp.results.items == [])
  {
    var t := TableFor(provider, m).value;
    var source := if provider == "tavily" then m["articles"] else GetOr(m, "results", JList([]));
    assert NormalizedResults(m, provider) == Ok(resp.results);
    assert MapIterable(t, source).Ok? && resp.results == Items(MapIterable(t, source).value);
    if source.JList? {
      var items := resp.results.items;
      forall i | 0 <= i < |source.elems|
        ensures ItemMadeFrom(t, source.elems[i], items[i])
      {
        MapItemMeaning(t, source.elems[i], items[i]);
      }
    }
  }

  /** The mapping tables of the five list branches, field by field. */
  lemma FieldTables()
    ensures TableFor("brave", map[]) == Some(FieldTable("url", "description", FromField("relevance_score"), true))
    ensures TableFor("bing", map[]) == Some(FieldTable("url", "content", Fixed(1.0), false))
    ensures TableFor("exa", map[]) == Some(FieldTable("url", "text", FromField("relevance_score"), true))
    ensures TableFor("arxiv", map[]) == Some(FieldTable("link", "summary", FromField("score"), true))
    ensures TableFor("tavily", map["articles" := JList([])]) == Some(FieldTable("url", "content", FromField("score"), true))
  {
  }

  /** Every normalized bing item has the constant score 1.0 and no published date. */
  lemma BingScoresAreOne(m: map<string, Json>, resp: SearchResponse, i: int)
    requires "error" !in m && Normalize(JObj(m), "bing") == Ok(resp)
    requires resp.results.Items? && 0 <= i < |resp.results.items|
    ensures resp.results.items[i].score == 1.0 && resp.results.items[i].publishedDate == JNull
  {
    var source := GetOr(m, "results", JList([]));
    assert NormalizedResults(m, "bing") == Ok(resp.results);
    assert source.JList?;
    assert MapItems(BingTable, source.elems) == Ok(resp.results.items);
    MapItemMeaning(BingTable, source.elems[i], resp.results.items[i]);
  }

  // ---------------------------------------------------------------------------
  // The orchestrator

  /** API keys given to the `SearchManager` constructor. */
  datatype ApiKeys = ApiKeys(tavily: Option<string>, brave: Option<string>, bing: Option<string>, exa: Option<string>)

  function KeyArg(key: Option<string>): Json
  {
    if key.Some? then JStr(key.value) else JNull
  }

  /** The keyword arguments `_initialize_providers` passes to the factory for a name; the name is
      compared exactly, and names other than the four with keys get none. */
  function ConstructorArgs(name: string, keys: ApiKeys): Kwargs
  {
    if name == "tavily" then map["api_key" := KeyArg(keys.tavily)]
    else if name == "brave" then map["api_key" := KeyArg(keys.brave)]
    else if name == "bing" then map["api_key" := KeyArg(keys.bing)]
    else if name == "exa" then map["api_key" := KeyArg(keys.exa)]
    else map[]
  }

  /** A name is kept when the factory builds a provider for it and that provider reports itself configured. */
  ghost predicate Admitted(name: string, keys: ApiKeys, probe: Provider -> Outcome<bool>)
  {
    var built := GetProvider(name, ConstructorArgs(name, keys));
    built.Ok? && probe(built.value) == Ok(true)
  }

  /** The providers map `_initialize_providers` builds: exactly the admitted names of the fallback order. */
  ghost predicate ProvidersFrom(providers: map<string, Provider>, order: seq<string>, keys: ApiKeys,
                                probe: Provider -> Outcome<bool>)
  {
    && (forall name :: name in providers <==> name in order && Admitted(name, keys, probe))
    && (forall name :: name in providers ==>
          GetProvider(name, ConstructorArgs(name, keys)) == Ok(providers[name]))
  }

  /** The configured default "duckduckgo" is never admitted, whatever the keys and whatever the
      providers report, so it is never among `providers`. */
  lemma DefaultProviderNeverAdmitted(providers: map<string, Provider>, keys: ApiKeys,
                                     probe: Provider -> Outcome<bool>)
    requires ProvidersFrom(providers, FallbackOrder, keys, probe)
    ensures DefaultProvider !in providers
  {
    DuckDuckGoNotRegistered(ConstructorArgs("duckduckgo", keys));
  }

  predicate NoDuplicates(s: seq<string>)
  {
    forall i, j :: 0 <= i < j < |s| ==> s[i] != s[j]
  }

  /** The names of `order` that are in `keys` and not in `skip`, each at its first occurrence:
      the providers `search`'s fallback loop reaches, and the key order of `providers`. */
  function FirstOccurrences(order: seq<string>, keys: set<string>, skip: set<string>): seq<string>
  {
    if order == [] then []
    else if order[0] !in keys || order[0] in skip then FirstOccurrences(order[1..], keys, skip)
    else [order[0]] + FirstOccurrences(order[1..], keys, skip + {order[0]})
  }

  /** The names kept are exactly the names of `order` in `keys` and not in `skip`, once each. */
  lemma {:induction false} FirstOccurrencesMeaning(order: seq<string>, keys: set<string>, skip: set<string>)
    ensures var r := FirstOccurrences(order, keys, skip);
      && (forall n :: n in r <==> n in keys && n !in skip && n in order)
      && NoDuplicates(r)
  {
    if order != [] {
      var head := order[0];
      var tail := order[1..];
      assert forall n :: n in order <==> n == head || n in tail;
      if head !in keys || head in skip {
        FirstOccurrencesMeaning(tail, keys, skip);
      } else {
        FirstOccurrencesMeaning(tail, keys, skip + {head});
        var rest := FirstOccurrences(tail, keys, skip + {head});
        var r := [head] + rest;
        forall i, j | 0 <= i < j < |r| ensures r[i] != r[j] {
          assert r[j] == rest[j - 1] && rest[j - 1] in rest;
          if i > 0 { assert r[i] == rest[i - 1]; }
        }
      }
    }
  }

  /** The position of the first occurrence of `x` in `s`. */
  function IndexOf(s: seq<string>, x: string): (i: nat)
    requires x in s
    ensures i < |s| && s[i] == x && x !in s[..i]
  {
    if s[0] == x then 0 else 1 + IndexOf(s[1..], x)
  }

  /** The names kept follow `order`: each comes before the next at its first occurrence there. */
  lemma {:induction false} FirstOccurrencesOrdered(order: seq<string>, keys: set<string>, skip: set<string>)
    ensures var r := FirstOccurrences(order, keys, skip);
      forall i, j :: 0 <= i < j < |r| ==> r[i] in order && r[j] in order && IndexOf(order, r[i]) < IndexOf(order, r[j])
  {
    if order != [] {
      var head := order[0];
      var tail := order[1..];
      var r := FirstOccurrences(order, keys, skip);
      var skip' := if head !in keys || head in skip then skip else skip + {head};
      var rest := FirstOccurrences(tail, keys, skip');
      FirstOccurrencesOrdered(tail, keys, skip');
      FirstOccurrencesMeaning(tail, keys, skip');
      forall k | 0 <= k < |rest|
        ensures rest[k] in tail && rest[k] != head && IndexOf(order, rest[k]) == 1 + IndexOf(tail, rest[k])
      {
        assert rest[k] in rest;
      }
      if head !in keys || head in skip {
        assert r == rest;
      } else {
        assert r == [head] + rest;
        forall i, j | 0 <= i < j < |r|
          ensures r[i] in order && r[j] in order && IndexOf(order, r[i]) < IndexOf(order, r[j])
        {
          assert r[j] == rest[j - 1];
          if i > 0 { assert r[i] == rest[i - 1]; }
        }
      }
    }
  }

  /** The providers one `search` call tries, in order: the current provider when it is configured,
      then the fallback order. */
  function TryOrder(current: string, order: seq<string>, keys: set<string>): seq<string>
  {
    if current in keys then [current] + FirstOccurrences(order, keys, {current})
    else FirstOccurrences(order, keys, {})
  }

  /** `search` tries each provider at most once, tries only configured providers, tries the
      current provider first when it is configured, and tries every configured provider of the
      fallback order unless one succeeds first. */
  lemma TryOrderProperties(current: string, order: seq<string>, keys: set<string>)
    ensures NoDuplicates(TryOrder(current, order, keys))
    ensures forall n :: n in TryOrder(current, order, keys) ==> n in keys && (n == current || n in order)
    ensures forall n :: n in keys && (n == current || n in order) ==> n in TryOrder(current, order, keys)
    ensures current in keys <==> TryOrder(current, order, keys) != [] && TryOrder(current, order, keys)[0] == current
  {
    var r := TryOrder(current, order, keys);
    FirstOccurrencesMeaning(order, keys, {current});
    FirstOccurrencesMeaning(order, keys, {});
    if current in keys {
      var rest := FirstOccurrences(order, keys, {current});
      assert r == [current] + rest;
      forall i, j | 0 <= i < j < |r| ensures r[i] != r[j] {
        if i == 0 {
          assert r[j] == rest[j - 1];
          assert rest[j - 1] in rest;
        } else {
          assert r[i] == rest[i - 1] && r[j] == rest[j - 1];
        }
      }
    } else if r != [] {
      assert r[0] in r;
    }
  }

  /** The provider a search adopts is always one of the configured providers. */
  lemma WinnerIsConfigured(backend: (nat, string, string, Kwargs) -> Outcome<Json>, settings: map<string, Kwargs>,
                           query: string, kwargs: Kwargs, tries: seq<string>, keys: set<string>, t: nat)
    requires forall n :: n in tries ==> n in keys
    ensures var run := SearchFrom(backend, settings, query, kwargs, tries, t);
      run.winner.Some? ==> run.winner.value in keys
  {
    SearchFromOutcome(backend, settings, query, kwargs, tries, t);
  }

  /** `{**provider_settings.get(name, {}), **kwargs}`: the caller's keyword arguments win. */
  function Merge(settings: map<string, Kwargs>, name: string, kwargs: Kwargs): Kwargs
  {
    (if name in settings then settings[name] else map[]) + kwargs
  }

  /** The merged arguments hold the configured settings' keys and the caller's; on a shared key
      the caller's value wins, and a provider without settings gets the caller's arguments alone. */
  lemma MergeCallerWins(settings: map<string, Kwargs>, name: string, kwargs: Kwargs)
    ensures var params := Merge(settings, name, kwargs);
      && params.Keys == (if name in settings then settings[name].Keys else {}) + kwargs.Keys
      && (forall k :: k in kwargs ==> params[k] == kwargs[k])
      && (forall k :: name in settings && k in settings[name] && k !in kwargs ==> params[k] == settings[name][k])
      && (name !in settings ==> params == kwargs)
  {
  }

  /** The response of a provider call when it counts as a success; None when the call raised,
      normalization raised, or the normalized response is a failure. */
  function Succeeded(raw: Outcome<Json>, name: string): Option<SearchResponse>
  {
    match raw
    case Raised => None
    case Ok(payload) =>
      match Normalize(payload, name)
      case Raised => None
      case Ok(resp) => if resp.success then Some(resp) else None
  }

  /** The fixed response when every provider failed. */
  const AllFailed := SearchResponse(false, JStr("All search providers failed"), Items([]), None, None)

  /** What a run of `search`'s provider loop produced: the response, the provider that
      succeeded (None when none did) and the number of backend calls made. */
  datatype Run = Run(response: SearchResponse, winner: Option<string>, calls: nat)

  /** The result of trying `tries` in order, the first call at tick `t`. */
  function SearchFrom(backend: (nat, string, string, Kwargs) -> Outcome<Json>, settings: map<string, Kwargs>,
                      query: string, kwargs: Kwargs, tries: seq<string>, t: nat): Run
    decreases |tries|
  {
    if tries == [] then Run(AllFailed, None, 0)
    else
      var name := tries[0];
      match Succeeded(backend(t, name, query, Merge(settings, name, kwargs)), name)
      case Some(resp) => Run(resp, Some(name), 1)
      case None =>
        var later := SearchFrom(backend, settings, query, kwargs, tries[1..], t + 1);
        later.(calls := later.calls + 1)
  }

  /** The call to provider `name` at tick `t` does not count as a success. */
  ghost predicate CallFails(backend: (nat, string, string, Kwargs) -> Outcome<Json>, settings: map<string, Kwargs>,
                            query: string, kwargs: Kwargs, name: string, t: nat)
  {
    Succeeded(backend(t, name, query, Merge(settings, name, kwargs)), name).None?
  }

  /** The calls stop at the first success: the winner is the last provider called and the response
      is its successful one with its name; with no winner every provider was called and the
      response is the fixed failure. */
  lemma {:induction false} SearchFromOutcome(backend: (nat, string, string, Kwargs) -> Outcome<Json>,
                                             settings: map<string, Kwargs>, query: string, kwargs: Kwargs,
                                             tries: seq<string>, t: nat)
    ensures var run := SearchFrom(backend, settings, query, kwargs, tries, t);
      && run.calls <= |tries|
      && (run.winner.None? ==> run.response == AllFailed && run.calls == |tries|)
      && (run.winner.Some? ==>
            && 1 <= run.calls && run.winner.value == tries[run.calls - 1]
            && run.response.success && run.response.provider == run.winner
            && Succeeded(backend(t + run.calls - 1, run.winner.value, query,
                                 Merge(settings, run.winner.value, kwargs)), run.winner.value) == Some(run.response))
    decreases |tries|
  {
    if tries != [] {
      var name := tries[0];
      var raw := backend(t, name, query, Merge(settings, name, kwargs));
      SearchFromStep(backend, settings, query, kwargs, tries, t);
      match Succeeded(raw, name)
      case Some(resp) =>
        NormalizeSuccess(raw.value, name, resp);
      case None =>
        SearchFromOutcome(backend, settings, query, kwargs, tries[1..], t + 1);
    }
  }

  /** Every call before the winner failed, and with no winner every call failed. */
  lemma {:induction false} SearchFromFailuresFirst(backend: (nat, string, string, Kwargs) -> Outcome<Json>,
                                                   settings: map<string, Kwargs>, query: string, kwargs: Kwargs,
                                                   tries: seq<string>, t: nat)
    ensures var run := SearchFrom(backend, settings, query, kwargs, tries, t);
      forall j :: 0 <= j < |tries| && (if run.winner.None? then j < run.calls else j < run.calls - 1) ==>
        CallFails(backend, settings, query, kwargs, tries[j], t + j)
    decreases |tries|
  {
    if tries != [] {
      SearchFromStep(backend, settings, query, kwargs, tries, t);
      if CallFails(backend, settings, query, kwargs, tries[0], t) {
        SearchFromFailuresFirst(backend, settings, query, kwargs, tries[1..], t + 1);
        assert forall j :: 0 <= j < |tries| - 1 ==> tries[1..][j] == tries[j + 1];
      }
    }
  }
  /** One step of the fallback loop over `order[i..]`: a name that is skipped leaves the remaining
      tries as they are; a name that is tried is the next try. */
  lemma FirstOccurrencesStep(order: seq<string>, i: nat, keys: set<string>, skip: set<string>)
    requires i < |order|
    ensures order[i..][1..] == order[i + 1..]
    ensures FirstOccurrences(order[i..], keys, skip) ==
      if order[i] !in keys || order[i] in skip then FirstOccurrences(order[i + 1..], keys, skip)
      else [order[i]] + FirstOccurrences(order[i + 1..], keys, skip + {order[i]})
  {
    assert order[i..][0] == order[i];
    assert order[i..][1..] == order[i + 1..];
  }

  /** The first provider of the order that succeeds ends the search with its response. */
  lemma SearchFromWins(backend: (nat, string, string, Kwargs) -> Outcome<Json>, settings: map<string, Kwargs>,
                       query: string, kwargs: Kwargs, tries: seq<string>, t: nat)
    requires tries != []
    requires Succeeded(backend(t, tries[0], query, Merge(settings, tries[0], kwargs)), tries[0]).Some?
    ensures SearchFrom(backend, settings, query, kwargs, tries, t) ==
      Run(Succeeded(backend(t, tries[0], query, Merge(settings, tries[0], kwargs)), tries[0]).value, Some(tries[0]), 1)
  {
  }

  /** A provider that fails passes the search to the rest of the order, at the next tick. */
  lemma SearchFromFallsThrough(backend: (nat, string, string, Kwargs) -> Outcome<Json>, settings: map<string, Kwargs>,
                               query: string, kwargs: Kwargs, tries: seq<string>, t: nat, next: nat, rest: seq<string>)
    requires tries != [] && rest == tries[1..] && next == t + 1
    requires Succeeded(backend(t, tries[0], query, Merge(settings, tries[0], kwargs)), tries[0]).None?
    ensures var later := SearchFrom(backend, settings, query, kwargs, rest, next);
      && SearchFrom(backend, settings, query, kwargs, tries, t).response == later.response
      && SearchFrom(backend, settings, query, kwargs, tries, t).winner == later.winner
      && SearchFrom(backend, settings, query, kwargs, tries, t).calls == later.calls + 1
  {
  }

  lemma SearchFromStep(backend: (nat, string, string, Kwargs) -> Outcome<Json>, settings: map<string, Kwargs>,
                       query: string, kwargs: Kwargs, tries: seq<string>, t: nat)
    requires tries != []
    ensures var first := Succeeded(backend(t, tries[0], query, Merge(settings, tries[0], kwargs)), tries[0]);
      var later := SearchFrom(backend, settings, query, kwargs, tries[1..], t + 1);
      SearchFrom(backend, settings, query, kwargs, tries, t) ==
        if first.Some? then Run(first.value, Some(tries[0]), 1) else later.(calls := later.calls + 1)
  {
  }

  class SearchManager {
    const config: SearchConfig
    const providers: map<string, Provider>
    /** The sticky provider: the default at first, then the last fallback that succeeded. */
    var currentProvider: string

    /** `_initialize_providers`: build every name of the fallback order through the factory and keep
        the ones that report themselves configured; a failing construction is skipped. */
    static method InitializeProviders(order: seq<string>, keys: ApiKeys, probe: Provider -> Outcome<bool>)
      returns (providers: map<string, Provider>)
      ensures ProvidersFrom(providers, order, keys, probe)
    {
      providers := map[];
      var i := 0;
      while i < |order|
        invariant 0 <= i <= |order|
        invariant forall name :: name in providers <==> name in order[..i] && Admitted(name, keys, probe)
        invariant forall name :: name in providers ==>
          GetProvider(name, ConstructorArgs(name, keys)) == Ok(providers[name])
      {
        var name := order[i];
        var built := GetProvider(name, ConstructorArgs(name, keys));
        if built.Ok? {
          var configured := probe(built.value);
          if configured == Ok(true) {
            providers := providers[name := built.value];
          }
        }
        assert order[..i + 1] == order[..i] + [name];
        i := i + 1;
      }
      assert order[..i] == order;
    }

    constructor (config: SearchConfig, keys: ApiKeys, env: Environment)
      ensures this.config == config
      ensures ProvidersFrom(providers, config.fallbackOrder, keys, env.probe)
      ensures currentProvider == config.defaultProvider
      ensures Valid()
    {
      this.config := config;
      var built := InitializeProviders(config.fallbackOrder, keys, env.probe);
      providers := built;
      currentProvider := config.defaultProvider;
    }

    /** Every configured provider comes from the fallback order. */
    ghost predicate Valid()
    {
      forall name :: name in providers ==> name in config.fallbackOrder
    }

    /** `search(query, **kwargs)`: try the current provider when it is configured, then the
        fallback order, each provider at most once; adopt a fallback provider only when it succeeds;
        return the fixed failure when none does. No exception escapes. */
    method Search(env: Environment, query: string, kwargs: Kwargs) returns (resp: SearchResponse, ghost called: seq<string>)
      modifies this, env
      ensures var tries := TryOrder(old(currentProvider), config.fallbackOrder, providers.Keys);
        var run := SearchFrom(env.backend, config.providerSettings, query, kwargs, tries, old(env.tick));
        && resp == run.response
        && run.calls <= |tries| && called == tries[..run.calls]
        && env.tick == old(env.tick) + run.calls
        && currentProvider == (if run.winner.Some? then run.winner.value else old(currentProvider))
      ensures currentProvider == old(currentProvider) || currentProvider in providers
    {
      ghost var tries := TryOrder(currentProvider, config.fallbackOrder, providers.Keys);
      TryOrderProperties(currentProvider, config.fallbackOrder, providers.Keys);
      WinnerIsConfigured(env.backend, config.providerSettings, query, kwargs, tries, providers.Keys, env.tick);
      var tried: set<string> := {};
      if currentProvider in providers {
        var name := currentProvider;
        var params := Merge(config.providerSettings, name, kwargs);
        var raw := env.Search(name, query, params);
        var outcome := Succeeded(raw, name);
        SearchFromStep(env.backend, config.providerSettings, query, kwargs, tries, old(env.tick));
        if outcome.Some? {
          resp := outcome.value;
          called := [name];
          return;
        }
        tried := {name};
        ghost var rest;
        resp, rest := TryFallbacks(env, query, kwargs, tried);
        called := [name] + rest;
      } else {
        resp, called := TryFallbacks(env, query, kwargs, tried);
      }
    }

    /** The fallback loop of `search`: each configured name of the fallback order not in `tried`,
        at its first occurrence, until one succeeds; the winner becomes the current provider. */
    method TryFallbacks(env: Environment, query: string, kwargs: Kwargs, tried0: set<string>)
      returns (resp: SearchResponse, ghost called: seq<string>)
      modifies this, env
      ensures var tries := FirstOccurrences(config.fallbackOrder, providers.Keys, tried0);
        var run := SearchFrom(env.backend, config.providerSettings, query, kwargs, tries, old(env.tick));
        && resp == run.response
        && run.calls <= |tries| && called == tries[..run.calls]
        && env.tick == old(env.tick) + run.calls
        && currentProvider == (if run.winner.Some? then run.winner.value else old(currentProvider))
    {
      var order := config.fallbackOrder;
      ghost var keys, settings, backend := providers.Keys, config.providerSettings, env.backend;
      ghost var tries := FirstOccurrences(order, keys, tried0);
      ghost var spec := SearchFrom(backend, settings, query, kwargs, tries, env.tick);
      ghost var t0 := env.tick;
      var tried := tried0;
      ghost var rest, n := tries, 0;
      var i := 0;
      while i < |order|
        invariant 0 <= i <= |order|
        invariant currentProvider == old(currentProvider)
        invariant env.tick == t0 + n
        invariant rest == FirstOccurrences(order[i..], keys, tried)
        invariant n <= |tries| && rest == tries[n..]
        invariant var later := SearchFrom(backend, settings, query, kwargs, rest, env.tick);
                  spec.response == later.response && spec.winner == later.winner && spec.calls == later.calls + n
      {
        var name := order[i];
        FirstOccurrencesStep(order, i, keys, tried);
        if name !in providers || name in tried {
          i := i + 1;
          continue;
        }
        tried := tried + {name};
        var params := Merge(config.providerSettings, name, kwargs);
        ghost var now := env.tick;
        var raw := env.Search(name, query, params);
        var outcome := Succeeded(raw, name);
        if outcome.Some? {
          SearchFromWins(backend, settings, query, kwargs, rest, now);
          currentProvider := name;
          resp := outcome.value;
          called := tries[..n + 1];
          return;
        }
        ghost var previous := rest;
        rest, n := rest[1..], n + 1;
        SearchFromFallsThrough(backend, settings, query, kwargs, previous, now, env.tick, rest);
        assert rest == tries[n..];
        // sleep(cooldown_period / len(providers)) before the next provider: a delay, not modelled
        i := i + 1;
      }
      called := tries[..n];
      resp := AllFailed;
    }

    /** `get_current_provider()`. */
    function GetCurrentProvider(): (name: string)
      reads this
      ensures name == currentProvider
    {
      currentProvider
    }

    /** `get_available_providers()`: the configured names, once each, in the order they were added,
        which is the order of their first occurrence in the fallback order. */
    function GetAvailableProviders(): (names: seq<string>)
      requires Valid()
      ensures NoDuplicates(names)
      ensures forall n :: n in names <==> n in providers
      ensures forall i, j :: 0 <= i < j < |names| ==>
        IndexOf(config.fallbackOrder, names[i]) < IndexOf(config.fallbackOrder, names[j])
    {
      FirstOccurrencesMeaning(config.fallbackOrder, providers.Keys, {});
      FirstOccurrencesOrdered(config.fallbackOrder, providers.Keys, {});
      FirstOccurrences(config.fallbackOrder, providers.Keys, {})
    }
  }

  /** A new manager built from the repository's configuration starts with a current provider that
      is not configured, so its first search goes straight to the fallback order. */
  lemma FreshManagerStartsInFallback(providers: map<string, Provider>, keys: ApiKeys,
                                     probe: Provider -> Outcome<bool>)
    requires ProvidersFrom(providers, FallbackOrder, keys, probe)
    ensures TryOrder(DefaultProvider, FallbackOrder, providers.Keys) == FirstOccurrences(FallbackOrder, providers.Keys, {})
  {
    DefaultProviderNeverAdmitted(providers, keys, probe);
  }
}
