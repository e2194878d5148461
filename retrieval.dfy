/** Self_Improving_Search.py: the bounded retrieval loop of `EnhancedSelfImprovingSearch` — formulate,
    search, select, scrape, evaluate, decide — with its request counter, its selection, scraping
    and answer retries, and the text it hands to the generator. */
module Retrieval {
  import opened Py
  import opened Text
  import opened Config
  import opened Oracles
  import opened Search

  // ---------------------------------------------------------------------------
  // Query formulation and search parameters

  /** `formulate_query(query, attempt)`: a placeholder that keeps the query and asks for no time range. */
  function FormulateQuery(query: string, attempt: int): (string, string)
  {
    (query, "none")
  }

  /** The `time_params` table, looked up with the lowered code. */
  function TimeRangeDays(code: string): Option<int>
  {
    var c := Lower(code);
    if c == "d" then Some(1)
    else if c == "w" then Some(7)
    else if c == "m" then Some(30)
    else if c == "y" then Some(365)
    else None
  }

  /** The parameters every search carries, from `RESEARCH_CONFIG['search']`. */
  function BaseParams(): Kwargs
  {
    map["max_results" := JNum(ResearchDefaults.maxResultsPerSearch as real),
        "min_relevance_score" := JNum(ResearchDefaults.minRelevanceScore)]
  }

  /** `search_params` after `update(time_params.get(time_range.lower(), {}))`. */
  function SearchParams(timeRange: string): Kwargs
  {
    var days := TimeRangeDays(timeRange);
    if days.Some? then BaseParams()["days" := JNum(days.value as real)] else BaseParams()
  }

  /** `max_results` 10 and `min_relevance_score` 0.6 are always present; `days` is present exactly
      for the codes d, w, m and y in either case, with 1, 7, 30 and 365 days; nothing else is added. */
  lemma TimeRangeTable(code: string)
    ensures var p := SearchParams(code);
      && "max_results" in p && p["max_results"] == JNum(10.0)
      && "min_relevance_score" in p && p["min_relevance_score"] == JNum(0.6)
      && p.Keys <= {"max_results", "min_relevance_score", "days"}
      && ("days" in p <==> Lower(code) == "d" || Lower(code) == "w" || Lower(code) == "m" || Lower(code) == "y")
      && (Lower(code) == "d" ==> p["days"] == JNum(1.0))
      && (Lower(code) == "w" ==> p["days"] == JNum(7.0))
      && (Lower(code) == "m" ==> p["days"] == JNum(30.0))
      && (Lower(code) == "y" ==> p["days"] == JNum(365.0))
  {
  }

  /** Codes that differ only in letter case give the same parameters. */
  lemma TimeRangeCaseInsensitive(a: string, b: string)
    requires Lower(a) == Lower(b)
    ensures SearchParams(a) == SearchParams(b)
  {
  }

  /** Every attempt searches the user's own query, and its time range "none" adds no `days`. */
  lemma FormulatedQueryIsUnrefined(query: string, attempt: int)
    ensures FormulateQuery(query, attempt).0 == query
    ensures SearchParams(FormulateQuery(query, attempt).1) == BaseParams()
  {
    assert Lower("none") == "none";
  }

  // ---------------------------------------------------------------------------
  // The request counter of `perform_search`

  /** A request cools down when the counter has reached the limit and the previous request ended
      less than `cooldown` seconds ago. */
  predicate CoolsDown(count: int, last: int, now: int, rpm: int, cooldown: int)
  {
    count >= rpm && now - last < cooldown
  }

  /** The counter after a request: reset by a cool-down, then incremented. */
  function NextCount(count: int, last: int, now: int, rpm: int, cooldown: int): int
  {
    (if CoolsDown(count, last, now, rpm, cooldown) then 0 else count) + 1
  }

  /** A request adds one to the counter unless it cools down, and then the counter restarts at 1. */
  lemma NextCountCases(count: int, last: int, now: int, rpm: int, cooldown: int)
    ensures CoolsDown(count, last, now, rpm, cooldown) <==> count >= rpm && now - last < cooldown
    ensures NextCount(count, last, now, rpm, cooldown) == count + 1 <==> !CoolsDown(count, last, now, rpm, cooldown) || count == 0
    ensures CoolsDown(count, last, now, rpm, cooldown) ==> NextCount(count, last, now, rpm, cooldown) == 1
    ensures count < rpm ==> NextCount(count, last, now, rpm, cooldown) == count + 1
  {
  }

  /** The counter value seen by each of a run of requests; `arrivals[k]` holds the clock reading
      taken before request `k` and the one taken after its cool-down check. */
  function CountsSeen(count: int, last: int, arrivals: seq<(int, int)>, rpm: int, cooldown: int): (cs: seq<int>)
    ensures |cs| == |arrivals|
    decreases |arrivals|
  {
    if arrivals == [] then []
    else [count] + CountsSeen(NextCount(count, last, arrivals[0].0, rpm, cooldown), arrivals[0].1, arrivals[1..], rpm, cooldown)
  }

  /** When the previous request of the run ended. */
  function PreviousEnd(last: int, arrivals: seq<(int, int)>, k: int): int
    requires 0 <= k <= |arrivals|
  {
    if k == 0 then last else arrivals[k - 1].1
  }

  /** Starting from counter `count`, requests pass without a cool-down while the counter is below
      the limit, whatever their timing: request `k` sees `count + k` for every `k` with
      `count + k <= rpm`, and no request before it cools down. */
  lemma {:induction false} BelowLimitNeverCools(count: int, last: int, arrivals: seq<(int, int)>, rpm: int, cooldown: int, k: int)
    requires 0 <= count && 0 <= k < |arrivals| && count + k <= rpm
    ensures CountsSeen(count, last, arrivals, rpm, cooldown)[k] == count + k
    ensures forall j :: 0 <= j < k ==>
      !CoolsDown(CountsSeen(count, last, arrivals, rpm, cooldown)[j], PreviousEnd(last, arrivals, j), arrivals[j].0, rpm, cooldown)
    decreases |arrivals|
  {
    var cs := CountsSeen(count, last, arrivals, rpm, cooldown);
    if k > 0 {
      var next := NextCount(count, last, arrivals[0].0, rpm, cooldown);
      assert next == count + 1;
      var rest := arrivals[1..];
      BelowLimitNeverCools(next, arrivals[0].1, rest, rpm, cooldown, k - 1);
      var cs' := CountsSeen(next, arrivals[0].1, rest, rpm, cooldown);
      assert cs == [count] + cs';
      forall j | 0 <= j < k
        ensures !CoolsDown(cs[j], PreviousEnd(last, arrivals, j), arrivals[j].0, rpm, cooldown)
      {
        if j > 0 {
          assert cs[j] == cs'[j - 1];
          assert PreviousEnd(last, arrivals, j) == PreviousEnd(arrivals[0].1, rest, j - 1);
          assert arrivals[j] == rest[j - 1];
        }
      }
    }
  }

  /** The request that brings a run to the limit (request `rpm - count`) cools down when it
      arrives within `cooldown` of the previous request, and the one after it sees the counter at 1. */
  lemma LimitCoolsWithinWindow(count: int, last: int, arrivals: seq<(int, int)>, rpm: int, cooldown: int)
    requires 0 <= count <= rpm && rpm - count < |arrivals|
    requires arrivals[rpm - count].0 - PreviousEnd(last, arrivals, rpm - count) < cooldown
    ensures CoolsDown(CountsSeen(count, last, arrivals, rpm, cooldown)[rpm - count],
                      PreviousEnd(last, arrivals, rpm - count), arrivals[rpm - count].0, rpm, cooldown)
    ensures rpm - count + 1 < |arrivals| ==> CountsSeen(count, last, arrivals, rpm, cooldown)[rpm - count + 1] == 1
  {
    var k := rpm - count;
    BelowLimitNeverCools(count, last, arrivals, rpm, cooldown, k);
    if k + 1 < |arrivals| {
      CountsSeenStep(count, last, arrivals, rpm, cooldown, k);
    }
  }

  /** Consecutive entries of `CountsSeen` are related by `NextCount`. */
  lemma {:induction false} CountsSeenStep(count: int, last: int, arrivals: seq<(int, int)>, rpm: int, cooldown: int, k: int)
    requires 0 <= k && k + 1 < |arrivals|
    ensures var cs := CountsSeen(count, last, arrivals, rpm, cooldown);
      cs[k + 1] == NextCount(cs[k], PreviousEnd(last, arrivals, k), arrivals[k].0, rpm, cooldown)
    decreases |arrivals|
  {
    var next := NextCount(count, last, arrivals[0].0, rpm, cooldown);
    var rest := arrivals[1..];
    var cs := CountsSeen(count, last, arrivals, rpm, cooldown);
    var cs' := CountsSeen(next, arrivals[0].1, rest, rpm, cooldown);
    assert cs == [count] + cs';
    if k > 0 {
      CountsSeenStep(next, arrivals[0].1, rest, rpm, cooldown, k - 1);
      assert cs[k] == cs'[k - 1] && cs[k + 1] == cs'[k];
      assert PreviousEnd(last, arrivals, k) == PreviousEnd(arrivals[0].1, rest, k - 1);
      assert arrivals[k] == rest[k - 1];
    } else {
      assert cs'[0] == next;
    }
  }

  // ---------------------------------------------------------------------------
  // Selection: the listing, the digit parsing, the picked URLs and the fallback

  /** One entry of `format_results`: only a dict has `get`, and its content must be sliceable. */
  function Block(r: Json, number: nat): Outcome<ResultBlock>
  {
    match r
    case JObj(f) =>
      var snippet := Prefix(GetOr(f, "content", JStr("N/A")), 200);
      if snippet.Raised? then Raised
      else Ok(ResultBlock(
        number,
        GetOr(f, "title", JStr("N/A")),
        snippet.value,
        GetOr(f, "url", JStr("N/A")),
        if Truthy(GetOr(f, "published_date", JNull)) then Some(f["published_date"]) else None,
        if Truthy(GetOr(f, "score", JNull)) then Some(f["score"]) else None))
    case _ => Raised
  }

  /** `format_results` over the list of results, numbering from `first`. */
  function FormatResultsFrom(results: seq<Json>, first: nat): Outcome<seq<ResultBlock>>
  {
    if results == [] then Ok([])
    else
      match Block(results[0], first)
      case Raised => Raised
      case Ok(b) =>
        match FormatResultsFrom(results[1..], first + 1)
        case Raised => Raised
        case Ok(rest) => Ok([b] + rest)
  }

  /** The listing has one block per result, block `i` the block of result `i` numbered `first + i`,
      and it raises exactly when some result cannot be formatted. */
  lemma {:induction false} FormatResultsFromMeaning(results: seq<Json>, first: nat)
    ensures var o := FormatResultsFrom(results, first);
      && (o.Ok? ==> |o.value| == |results| && forall i :: 0 <= i < |results| ==> Block(results[i], first + i) == Ok(o.value[i]))
      && (o.Raised? <==> exists i :: 0 <= i < |results| && Block(results[i], first + i).Raised?)
  {
    if results != [] {
      FormatResultsFromMeaning(results[1..], first + 1);
      assert forall i :: 0 <= i < |results| - 1 ==> results[1..][i] == results[i + 1];
      var o := FormatResultsFrom(results, first);
      if o.Ok? {
        var rest := FormatResultsFrom(results[1..], first + 1).value;
        assert o.value == [Block(results[0], first).value] + rest;
        forall i | 0 <= i < |results| ensures Block(results[i], first + i) == Ok(o.value[i]) {
          if i > 0 { assert o.value[i] == rest[i - 1]; }
        }
      }
    }
  }

  /** `format_results(results)` as the selection uses it once it is handed the list: the entries are
      numbered from 1, each shows its result's title, URL and a snippet of at most 200 characters,
      and the published date and score only when they are truthy. */
  function FormatResults(results: seq<Json>): Outcome<seq<ResultBlock>>
  {
    FormatResultsFrom(results, 1)
  }

  lemma FormatResultsNumbersEachResult(results: seq<Json>, blocks: seq<ResultBlock>, i: int)
    requires FormatResults(results) == Ok(blocks) && 0 <= i < |results|
    ensures |blocks| == |results|
    ensures results[i].JObj?
    ensures blocks[i].number == i + 1
    ensures blocks[i].url == GetOr(results[i].fields, "url", JStr("N/A"))
    ensures blocks[i].title == GetOr(results[i].fields, "title", JStr("N/A"))
    ensures blocks[i].published.Some? <==> Truthy(GetOr(results[i].fields, "published_date", JNull))
    ensures blocks[i].score.Some? <==> Truthy(GetOr(results[i].fields, "score", JNull))
    ensures blocks[i].snippet.JStr? ==> |blocks[i].snippet.s| <= 200
    ensures var c := GetOr(results[i].fields, "content", JStr("N/A"));
      c.JStr? ==> && blocks[i].snippet.JStr? && |blocks[i].snippet.s| == (if |c.s| <= 200 then |c.s| else 200)
                  && c.s[..|blocks[i].snippet.s|] == blocks[i].snippet.s
  {
    FormatResultsFromMeaning(results, 1);
    assert Block(results[i], 1 + i) == Ok(blocks[i]);
  }

  /** `format_results` as written: it subscripts its argument with `'results'` before iterating. */
  function FormatResultsAsWritten(arg: Json): Outcome<seq<ResultBlock>>
  {
    match Subscript(arg, "results")
    case Raised => Raised
    case Ok(inner) =>
      match inner
      case JList(xs) => FormatResults(xs)
      case JStr(s) => if s == "" then Ok([]) else Raised
      case JObj(m) => if m == map[] then Ok([]) else Raised
      case _ => Raised
  }

  /** `search_and_improve` hands `select_relevant_pages` a list, and `format_results` subscripts
      that list with a string, so as written every selection raises before any generation call. */
  lemma FormatResultsAsWrittenRejectsLists(results: seq<Json>)
    ensures FormatResultsAsWritten(JList(results)) == Raised
  {
  }

  /** The digits among the first 40 characters of a reply. */
  function DigitSet(reply: string): set<int>
  {
    set i | 0 <= i < |reply| && i < 40 && IsDigit(reply[i]) :: reply[i] as int - '0' as int
  }

  /** The members of `S` from `k` up to 9, ascending. */
  function AscendingFrom(S: set<int>, k: int): seq<int>
    requires 0 <= k <= 10
    decreases 10 - k
  {
    if k == 10 then []
    else (if k in S then [k] else []) + AscendingFrom(S, k + 1)
  }

  /** A value below every element of an ascending sequence keeps it ascending when put first. */
  lemma PrependAscending(k: int, present: bool, rest: seq<int>, r: seq<int>)
    requires r == (if present then [k] else []) + rest
    requires forall a :: 0 <= a < |rest| ==> k < rest[a]
    requires forall a, b :: 0 <= a < b < |rest| ==> rest[a] < rest[b]
    ensures forall a :: 0 <= a < |r| ==> k <= r[a]
    ensures forall a, b :: 0 <= a < b < |r| ==> r[a] < r[b]
  {
    if present {
      forall a | 0 <= a < |r| ensures k <= r[a] {
        if a > 0 {
          assert r[a] == rest[a - 1];
        }
      }
      forall a, b | 0 <= a < b < |r| ensures r[a] < r[b] {
        assert r[b] == rest[b - 1];
        if a > 0 {
          assert r[a] == rest[a - 1];
        }
      }
    } else {
      assert r == rest;
    }
  }

  /** The members of `S` between `k` and 9 are exactly the elements. */
  lemma {:induction false} AscendingFromMembers(S: set<int>, k: int)
    requires 0 <= k <= 10
    ensures forall d :: d in AscendingFrom(S, k) <==> d in S && k <= d < 10
    decreases 10 - k
  {
    if k < 10 {
      AscendingFromMembers(S, k + 1);
      PrependMembers(k, k in S, AscendingFrom(S, k + 1), AscendingFrom(S, k));
    }
  }

  /** The members of `rest` with `k` put in front of it when `present`. */
  lemma PrependMembers(k: int, present: bool, rest: seq<int>, r: seq<int>)
    requires r == (if present then [k] else []) + rest
    ensures forall d :: d in r <==> (present && d == k) || d in rest
  {
  }

  /** The elements ascend strictly. */
  lemma {:induction false} AscendingFromSorted(S: set<int>, k: int)
    requires 0 <= k <= 10
    ensures forall a :: 0 <= a < |AscendingFrom(S, k)| ==> k <= AscendingFrom(S, k)[a]
    ensures forall a, b :: 0 <= a < b < |AscendingFrom(S, k)| ==> AscendingFrom(S, k)[a] < AscendingFrom(S, k)[b]
    decreases 10 - k
  {
    if k < 10 {
      AscendingFromSorted(S, k + 1);
      PrependAscending(k, k in S, AscendingFrom(S, k + 1), AscendingFrom(S, k));
    }
  }

  /** The members of `S` between `k` and 9, each once, in ascending order. */
  lemma AscendingFromMeaning(S: set<int>, k: int)
    requires 0 <= k <= 10
    ensures var r := AscendingFrom(S, k);
      && (forall d :: d in r <==> d in S && k <= d < 10)
      && (forall a, b :: 0 <= a < b < |r| ==> r[a] < r[b])
  {
    AscendingFromMembers(S, k);
    AscendingFromSorted(S, k);
  }

  /** `{int(char) for char in response_text[:40] if char.isdigit()}`, iterated in ascending order. */
  function SelectedNumbers(reply: string): seq<int>
  {
    AscendingFrom(DigitSet(reply), 0)
  }

  /** The numbers are the digits among the reply's first 40 characters, each once, ascending. */
  lemma SelectedNumbersMeaning(reply: string)
    ensures var ns := SelectedNumbers(reply);
      && (forall d :: d in ns <==> exists i :: 0 <= i < |reply| && i < 40 && IsDigit(reply[i]) && reply[i] as int - '0' as int == d)
      && (forall a, b :: 0 <= a < b < |ns| ==> ns[a] < ns[b])
      && (forall d :: d in ns ==> 0 <= d <= 9)
  {
    AscendingFromMeaning(DigitSet(reply), 0);
    DigitSetMeaning(reply);
  }

  /** `DigitSet` holds exactly the digit values of the first 40 characters, each between 0 and 9. */
  lemma DigitSetMeaning(reply: string)
    ensures forall d :: d in DigitSet(reply) <==>
      exists i :: 0 <= i < |reply| && i < 40 && IsDigit(reply[i]) && reply[i] as int - '0' as int == d
    ensures forall d :: d in DigitSet(reply) ==> 0 <= d <= 9
  {
  }

  /** `results[d - 1]['url']`: the index may be negative, as Python allows; a failing index or
      subscript raises. */
  function PickOne(results: seq<Json>, d: int): Outcome<Json>
  {
    match At(results, d - 1)
    case Raised => Raised
    case Ok(r) => Subscript(r, "url")
  }

  /** Digit `d` between 1 and the number of results picks result `d`'s URL; digit 0 picks the
      last result's, as Python's index -1 does; a digit past the end raises. */
  lemma PickOneCases(results: seq<Json>, d: int)
    ensures 1 <= d <= |results| ==> PickOne(results, d) == Subscript(results[d - 1], "url")
    ensures d == 0 && results != [] ==> PickOne(results, d) == Subscript(results[|results| - 1], "url")
    ensures d > |results| ==> PickOne(results, d) == Raised
  {
  }

  /** `[results[i - 1]['url'] for i in numbers]`; the first failing pick raises. */
  function PickUrls(results: seq<Json>, numbers: seq<int>): Outcome<seq<Json>>
  {
    if numbers == [] then Ok([])
    else
      match PickOne(results, numbers[0])
      case Raised => Raised
      case Ok(url) =>
        match PickUrls(results, numbers[1..])
        case Raised => Raised
        case Ok(rest) => Ok([url] + rest)
  }

  /** The picks are the numbers' URLs in the numbers' order, and the picking raises exactly when
      some number's pick raises. */
  lemma {:induction false} PickUrlsMeaning(results: seq<Json>, numbers: seq<int>)
    ensures var o := PickUrls(results, numbers);
      && (o.Ok? ==> |o.value| == |numbers| && forall k :: 0 <= k < |numbers| ==> PickOne(results, numbers[k]) == Ok(o.value[k]))
      && (o.Raised? <==> exists k :: 0 <= k < |numbers| && PickOne(results, numbers[k]).Raised?)
  {
    if numbers != [] {
      PickUrlsMeaning(results, numbers[1..]);
      assert forall k :: 0 <= k < |numbers| - 1 ==> numbers[1..][k] == numbers[k + 1];
      var o := PickUrls(results, numbers);
      if o.Ok? {
        var rest := PickUrls(results, numbers[1..]).value;
        assert o.value == [PickOne(results, numbers[0]).value] + rest;
        forall k | 0 <= k < |numbers| ensures PickOne(results, numbers[k]) == Ok(o.value[k]) {
          if k > 0 { assert o.value[k] == rest[k - 1]; }
        }
      }
    }
  }

  /** The URLs the robots policy allows, in order. */
  function Allowed(urls: seq<Json>, canFetch: Json -> bool): seq<Json>
  {
    if urls == [] then []
    else (if canFetch(urls[0]) then [urls[0]] else []) + Allowed(urls[1..], canFetch)
  }

  /** The URLs the robots policy refuses, in order. */
  function Refused(urls: seq<Json>, canFetch: Json -> bool): seq<Json>
  {
    if urls == [] then []
    else (if canFetch(urls[0]) then [] else [urls[0]]) + Refused(urls[1..], canFetch)
  }

  /** The robots filter splits the URLs: the allowed ones are exactly those `canFetch` accepts and
      the refused ones exactly the rest, and together they number as many as the URLs. */
  lemma {:induction false} RobotsSplit(urls: seq<Json>, canFetch: Json -> bool)
    ensures forall u :: u in Allowed(urls, canFetch) <==> u in urls && canFetch(u)
    ensures forall u :: u in Refused(urls, canFetch) <==> u in urls && !canFetch(u)
    ensures |Allowed(urls, canFetch)| + |Refused(urls, canFetch)| == |urls|
  {
    if urls != [] {
      RobotsSplit(urls[1..], canFetch);
      assert urls == [urls[0]] + urls[1..];
    }
  }

  /** `result['url']` of every result; the whole comprehension raises if one result has none. */
  function UrlsOf(results: seq<Json>): Outcome<seq<Json>>
  {
    if results == [] then Ok([])
    else
      match Subscript(results[0], "url")
      case Raised => Raised
      case Ok(u) =>
        match UrlsOf(results[1..])
        case Raised => Raised
        case Ok(rest) => Ok([u] + rest)
  }

  /** URL `i` is result `i`'s `url`, and the comprehension raises exactly when some result has none. */
  lemma {:induction false} UrlsOfMeaning(results: seq<Json>)
    ensures var o := UrlsOf(results);
      && (o.Ok? ==> |o.value| == |results| && forall i :: 0 <= i < |results| ==> Subscript(results[i], "url") == Ok(o.value[i]))
      && (o.Raised? <==> exists i :: 0 <= i < |results| && Subscript(results[i], "url").Raised?)
  {
    if results != [] {
      UrlsOfMeaning(results[1..]);
      assert forall i :: 0 <= i < |results| - 1 ==> results[1..][i] == results[i + 1];
      var o := UrlsOf(results);
      if o.Ok? {
        var rest := UrlsOf(results[1..]).value;
        assert o.value == [Subscript(results[0], "url").value] + rest;
        forall i | 0 <= i < |results| ensures Subscript(results[i], "url") == Ok(o.value[i]) {
          if i > 0 { assert o.value[i] == rest[i - 1]; }
        }
      }
    }
  }

  /** The fallback of `select_relevant_pages`: the first two allowed URLs in ranking order. */
  function FallbackUrls(results: seq<Json>, canFetch: Json -> bool): Outcome<seq<Json>>
  {
    match UrlsOf(results)
    case Raised => Raised
    case Ok(urls) =>
      var allowed := Allowed(urls, canFetch);
      Ok(if |allowed| <= 2 then allowed else allowed[..2])
  }

  /** What one reply leads to: a raise when the picking raises, else the allowed URLs among the
      picks, in order. An empty choice sends the loop to its next retry. */
  function Choose(results: seq<Json>, canFetch: Json -> bool, reply: string): Outcome<seq<Json>>
  {
    match PickUrls(results, SelectedNumbers(reply))
    case Raised => Raised
    case Ok(picked) => Ok(Allowed(picked, canFetch))
  }

  /** `Choose` for one list of results and one robots policy, as a function of the reply. */
  function Chooser(results: seq<Json>, canFetch: Json -> bool): string -> Outcome<seq<Json>>
  {
    reply => Choose(results, canFetch, reply)
  }

  lemma PickedUrlsComeFromResults(results: seq<Json>, numbers: seq<int>, picked: seq<Json>)
    requires PickUrls(results, numbers) == Ok(picked)
    ensures forall u :: u in picked ==> exists i :: 0 <= i < |results| && Subscript(results[i], "url") == Ok(u)
  {
    PickUrlsMeaning(results, numbers);
    forall u | u in picked
      ensures exists i :: 0 <= i < |results| && Subscript(results[i], "url") == Ok(u)
    {
      var k :| 0 <= k < |picked| && picked[k] == u;
      var d := numbers[k] - 1;
      assert PickOne(results, numbers[k]) == Ok(u);
      if 0 <= d < |results| {
        assert Subscript(results[d], "url") == Ok(u);
      } else {
        assert Subscript(results[|results| + d], "url") == Ok(u);
      }
    }
  }

  /** Every URL a reply chooses is allowed by the robots policy and is the `url` of one of the results. */
  lemma ChosenUrlsAllowed(results: seq<Json>, canFetch: Json -> bool, reply: string)
    ensures var c := Choose(results, canFetch, reply);
      c.Ok? ==> forall u :: u in c.value ==>
        (canFetch(u) && exists i :: 0 <= i < |results| && Subscript(results[i], "url") == Ok(u))
  {
    var p := PickUrls(results, SelectedNumbers(reply));
    if p.Ok? {
      RobotsSplit(p.value, canFetch);
      PickedUrlsComeFromResults(results, SelectedNumbers(reply), p.value);
    }
  }

  /** The fallback returns at most two URLs, each allowed and the `url` of one of the results. */
  lemma FallbackFacts(results: seq<Json>, canFetch: Json -> bool)
    ensures var f := FallbackUrls(results, canFetch);
      f.Ok? ==> |f.value| <= 2 && forall u :: u in f.value ==>
        (canFetch(u) && exists i :: 0 <= i < |results| && Subscript(results[i], "url") == Ok(u))
  {
    var f := FallbackUrls(results, canFetch);
    if f.Ok? {
      UrlsOfMeaning(results);
      var urls := UrlsOf(results).value;
      RobotsSplit(urls, canFetch);
      var allowed := Allowed(urls, canFetch);
      forall u | u in f.value
        ensures canFetch(u) && exists i :: 0 <= i < |results| && Subscript(results[i], "url") == Ok(u)
      {
        assert u in allowed;
        var i :| 0 <= i < |urls| && urls[i] == u;
        assert Subscript(results[i], "url") == Ok(u);
      }
    }
  }

  /** URL `j` is the first one from index `start` on that the robots policy allows. */
  ghost predicate FirstAllowedAt(urls: seq<Json>, canFetch: Json -> bool, start: int, j: int)
  {
    0 <= start <= j < |urls| && canFetch(urls[j]) && forall i :: start <= i < j ==> !canFetch(urls[i])
  }

  /** The allowed URLs from index `start` on are empty exactly when none there is allowed, and
      otherwise begin with the first allowed one, followed by the allowed URLs after it. */
  lemma {:induction false} AllowedFrom(urls: seq<Json>, canFetch: Json -> bool, start: int)
    requires 0 <= start <= |urls|
    ensures Allowed(urls[start..], canFetch) == [] <==> forall i :: start <= i < |urls| ==> !canFetch(urls[i])
    ensures Allowed(urls[start..], canFetch) != [] ==> exists j ::
      FirstAllowedAt(urls, canFetch, start, j) && Allowed(urls[start..], canFetch) == [urls[j]] + Allowed(urls[j + 1..], canFetch)
    decreases |urls| - start
  {
    if start < |urls| {
      var tail := urls[start..];
      assert tail[0] == urls[start] && tail[1..] == urls[start + 1..];
      AllowedFrom(urls, canFetch, start + 1);
      if canFetch(urls[start]) {
        assert FirstAllowedAt(urls, canFetch, start, start);
      } else if Allowed(urls[start + 1..], canFetch) != [] {
        var j :| FirstAllowedAt(urls, canFetch, start + 1, j) &&
          Allowed(urls[start + 1..], canFetch) == [urls[j]] + Allowed(urls[j + 1..], canFetch);
        assert FirstAllowedAt(urls, canFetch, start, j);
      }
    }
  }

  /** `picked` is the first two allowed URLs in order: empty exactly when none is allowed, else the
      first allowed URL, then the next allowed one exactly when there is one after it. */
  ghost predicate FirstTwoAllowed(urls: seq<Json>, canFetch: Json -> bool, picked: seq<Json>)
  {
    && |picked| <= 2
    && (picked == [] <==> forall i :: 0 <= i < |urls| ==> !canFetch(urls[i]))
    && (picked != [] ==> exists j ::
          && FirstAllowedAt(urls, canFetch, 0, j) && picked[0] == urls[j]
          && (|picked| == 2 <==> exists k :: j < k < |urls| && canFetch(urls[k]))
          && (|picked| == 2 ==> exists k :: FirstAllowedAt(urls, canFetch, j + 1, k) && picked[1] == urls[k]))
  }

  /** The first two of the allowed URLs are the first two allowed URLs in order. */
  lemma FirstTwoOfAllowed(urls: seq<Json>, canFetch: Json -> bool)
    ensures var allowed := Allowed(urls, canFetch);
      FirstTwoAllowed(urls, canFetch, if |allowed| <= 2 then allowed else allowed[..2])
  {
    var allowed := Allowed(urls, canFetch);
    assert urls[0..] == urls;
    AllowedFrom(urls, canFetch, 0);
    if allowed == [] {
      NoneAllowed(urls, canFetch);
    } else {
      var j :| FirstAllowedAt(urls, canFetch, 0, j) && allowed == [urls[j]] + Allowed(urls[j + 1..], canFetch);
      AllowedFrom(urls, canFetch, j + 1);
      var after := Allowed(urls[j + 1..], canFetch);
      if after == [] {
        TakeTwoOfOne(urls[j], after, allowed);
        OnlyOneAllowed(urls, canFetch, j);
      } else {
        var k :| FirstAllowedAt(urls, canFetch, j + 1, k) && after == [urls[k]] + Allowed(urls[k + 1..], canFetch);
        TakeTwoOfMore(urls[j], urls[k], Allowed(urls[k + 1..], canFetch), after, allowed);
        SecondAllowed(urls, canFetch, j, k);
      }
    }
  }

  lemma TakeTwoOfOne(a: Json, after: seq<Json>, s: seq<Json>)
    requires after == [] && s == [a] + after
    ensures (if |s| <= 2 then s else s[..2]) == [a]
  {
  }

  lemma TakeTwoOfMore(a: Json, b: Json, rest: seq<Json>, after: seq<Json>, s: seq<Json>)
    requires after == [b] + rest && s == [a] + after
    ensures (if |s| <= 2 then s else s[..2]) == [a, b]
  {
  }

  lemma NoneAllowed(urls: seq<Json>, canFetch: Json -> bool)
    requires forall i :: 0 <= i < |urls| ==> !canFetch(urls[i])
    ensures FirstTwoAllowed(urls, canFetch, [])
  {
  }

  lemma OnlyOneAllowed(urls: seq<Json>, canFetch: Json -> bool, j: int)
    requires FirstAllowedAt(urls, canFetch, 0, j)
    requires forall i :: j + 1 <= i < |urls| ==> !canFetch(urls[i])
    ensures FirstTwoAllowed(urls, canFetch, [urls[j]])
  {
  }

  lemma SecondAllowed(urls: seq<Json>, canFetch: Json -> bool, j: int, k: int)
    requires FirstAllowedAt(urls, canFetch, 0, j) && FirstAllowedAt(urls, canFetch, j + 1, k)
    ensures FirstTwoAllowed(urls, canFetch, [urls[j], urls[k]])
  {
    assert j < k < |urls| && canFetch(urls[k]);
  }

  /** The fallback raises exactly when some result has no `url`, and otherwise is the first two
      allowed URLs of the results in ranking order. */
  lemma FallbackValue(results: seq<Json>, canFetch: Json -> bool)
    ensures var f := FallbackUrls(results, canFetch);
      && (f.Ok? <==> UrlsOf(results).Ok?)
      && (f.Ok? ==> FirstTwoAllowed(UrlsOf(results).value, canFetch, f.value))
  {
    if UrlsOf(results).Ok? {
      FirstTwoOfAllowed(UrlsOf(results).value, canFetch);
    }
  }

  /** The fallback is empty exactly when every result has a `url` and the robots policy allows none. */
  lemma FallbackEmptyIffNoneAllowed(results: seq<Json>, canFetch: Json -> bool)
    ensures FallbackUrls(results, canFetch) == Ok([]) <==>
      forall i :: 0 <= i < |results| ==> Subscript(results[i], "url").Ok? && !canFetch(Subscript(results[i], "url").value)
  {
    FallbackValue(results, canFetch);
    UrlsOfMeaning(results);
  }

  /** What a selection produced and how many generation calls it made. */
  datatype Selection = Selection(urls: Outcome<seq<Json>>, calls: nat)

  /** The retry loop of `select_relevant_pages` with `retries` tries left, the next call at tick `t`:
      each reply is turned into URLs by `choose`; the first raise or the first non-empty choice ends
      the loop, and `fallback` is the outcome when every try chose nothing. */
  function SelectFrom(generate: (nat, Prompt, int) -> Outcome<string>, choose: string -> Outcome<seq<Json>>,
                      fallback: Outcome<seq<Json>>, prompt: Prompt, t: nat, retries: nat): Selection
    decreases retries
  {
    if retries == 0 then Selection(fallback, 0)
    else
      match generate(t, prompt, 200)
      case Raised => Selection(Raised, 1)
      case Ok(reply) =>
        match choose(reply)
        case Raised => Selection(Raised, 1)
        case Ok(allowed) =>
          if allowed != [] then Selection(Ok(allowed), 1)
          else
            var later := SelectFrom(generate, choose, fallback, prompt, t + 1, retries - 1);
            later.(calls := later.calls + 1)
  }

  /** `select_relevant_pages(results, user_query)`, handed the list of results: the listing is
      built first, so a result it cannot format raises before any generation call; then three tries. */
  function SelectSpec(generate: (nat, Prompt, int) -> Outcome<string>, canFetch: Json -> bool,
                      results: seq<Json>, userQuery: string, t: nat): Selection
  {
    match FormatResults(results)
    case Raised => Selection(Raised, 0)
    case Ok(listing) =>
      SelectFrom(generate, Chooser(results, canFetch), FallbackUrls(results, canFetch),
                 SelectionPrompt(userQuery, listing), t, 3)
  }

  /** A raising call, or a reply whose picking raises, ends the selection after one call. */
  lemma FirstRaiseEnds(generate: (nat, Prompt, int) -> Outcome<string>, choose: string -> Outcome<seq<Json>>,
                       fallback: Outcome<seq<Json>>, prompt: Prompt, t: nat, retries: nat)
    requires retries > 0
    requires generate(t, prompt, 200).Raised? || choose(generate(t, prompt, 200).value).Raised?
    ensures SelectFrom(generate, choose, fallback, prompt, t, retries) == Selection(Raised, 1)
  {
  }

  /** The first reply decides when it chooses at least one URL. */
  lemma FirstGoodReplyWins(generate: (nat, Prompt, int) -> Outcome<string>, choose: string -> Outcome<seq<Json>>,
                           fallback: Outcome<seq<Json>>, prompt: Prompt, t: nat, retries: nat)
    requires retries > 0 && generate(t, prompt, 200).Ok?
    requires choose(generate(t, prompt, 200).value).Ok? && choose(generate(t, prompt, 200).value).value != []
    ensures SelectFrom(generate, choose, fallback, prompt, t, retries) == Selection(choose(generate(t, prompt, 200).value), 1)
  {
  }

  /** A reply that chooses nothing passes the decision to the next retry, at the next tick. */
  lemma SelectFromRetries(generate: (nat, Prompt, int) -> Outcome<string>, choose: string -> Outcome<seq<Json>>,
                          fallback: Outcome<seq<Json>>, prompt: Prompt, t: nat, next: nat, retries: nat, left: nat)
    requires next == t + 1 && retries == left + 1 && generate(t, prompt, 200).Ok?
    requires choose(generate(t, prompt, 200).value) == Ok([])
    ensures var later := SelectFrom(generate, choose, fallback, prompt, next, left);
      && SelectFrom(generate, choose, fallback, prompt, t, retries).urls == later.urls
      && SelectFrom(generate, choose, fallback, prompt, t, retries).calls == later.calls + 1
  {
  }

  /** A selection makes at most `retries` generation calls, and an empty selection only comes
      from the fallback after every retry chose nothing. */
  lemma {:induction false} SelectFromCalls(generate: (nat, Prompt, int) -> Outcome<string>, choose: string -> Outcome<seq<Json>>,
                                           fallback: Outcome<seq<Json>>, prompt: Prompt, t: nat, retries: nat)
    ensures var s := SelectFrom(generate, choose, fallback, prompt, t, retries);
      && s.calls <= retries
      && (s.urls == Ok([]) ==> s.calls == retries && fallback == Ok([]))
    decreases retries
  {
    if retries > 0 {
      SelectFromCalls(generate, choose, fallback, prompt, t + 1, retries - 1);
    }
  }

  /** A selection's URLs are a raise, the fallback, or what `choose` made of one of the replies. */
  lemma {:induction false} SelectFromOrigin(generate: (nat, Prompt, int) -> Outcome<string>, choose: string -> Outcome<seq<Json>>,
                                            fallback: Outcome<seq<Json>>, prompt: Prompt, t: nat, retries: nat)
    ensures var s := SelectFrom(generate, choose, fallback, prompt, t, retries);
      || s.urls == Raised
      || s.urls == fallback
      || exists k: nat :: t <= k < t + retries && generate(k, prompt, 200).Ok? && s.urls == choose(generate(k, prompt, 200).value)
    decreases retries
  {
    if retries > 0 && generate(t, prompt, 200).Ok? {
      var c := choose(generate(t, prompt, 200).value);
      if c.Ok? && c.value == [] {
        SelectFromOrigin(generate, choose, fallback, prompt, t + 1, retries - 1);
      }
    }
  }

  /** Every URL `select_relevant_pages` returns is allowed by the robots policy and is the `url` of
      one of the results; it makes at most three generation calls, and comes back empty only when
      all three replies chose nothing and the fallback found no allowed URL. */
  lemma SelectionUrlsAllowed(generate: (nat, Prompt, int) -> Outcome<string>, canFetch: Json -> bool,
                             results: seq<Json>, userQuery: string, t: nat)
    ensures var s := SelectSpec(generate, canFetch, results, userQuery, t);
      && s.calls <= 3
      && (s.urls == Ok([]) ==>
            && s.calls == 3 && FallbackUrls(results, canFetch) == Ok([])
            && forall i :: 0 <= i < |results| ==> Subscript(results[i], "url").Ok? && !canFetch(Subscript(results[i], "url").value))
      && (s.urls.Ok? ==> forall u :: u in s.urls.value ==>
            (canFetch(u) && exists i :: 0 <= i < |results| && Subscript(results[i], "url") == Ok(u)))
  {
    var s := SelectSpec(generate, canFetch, results, userQuery, t);
    if FormatResults(results).Ok? {
      var prompt := SelectionPrompt(userQuery, FormatResults(results).value);
      var choose := Chooser(results, canFetch);
      var fallback := FallbackUrls(results, canFetch);
      SelectFromCalls(generate, choose, fallback, prompt, t, 3);
      SelectFromOrigin(generate, choose, fallback, prompt, t, 3);
      FallbackFacts(results, canFetch);
      FallbackEmptyIffNoneAllowed(results, canFetch);
      if s.urls.Ok? && s.urls != fallback {
        var k: nat :| t <= k < t + 3 && generate(k, prompt, 200).Ok? && s.urls == choose(generate(k, prompt, 200).value);
        ChosenUrlsAllowed(results, canFetch, generate(k, prompt, 200).value);
      }
    }
  }

  // ---------------------------------------------------------------------------
  // Scraping

  /** What a scrape produced: the content map (or a raise from the fetcher), the URLs the robots
      policy refused, and the number of fetch calls made. */
  datatype Scrape = Scrape(content: Outcome<OrderedDict>, blocked: seq<Json>, calls: nat)

  /** The loop of `scrape_content` over `urls`, with the map and the blocked list built so far. */
  function ScrapeFrom(fetch: (nat, Json) -> Outcome<OrderedDict>, canFetch: Json -> bool,
                      urls: seq<Json>, acc: OrderedDict, blocked: seq<Json>, t: nat): Scrape
    decreases |urls|
  {
    if urls == [] then Scrape(Ok(acc), blocked, 0)
    else if !canFetch(urls[0]) then ScrapeFrom(fetch, canFetch, urls[1..], acc, blocked + [urls[0]], t)
    else
      match fetch(t, urls[0])
      case Raised => Scrape(Raised, blocked, 1)
      case Ok(page) =>
        var later := ScrapeFrom(fetch, canFetch, urls[1..], if page != [] then Update(acc, page) else acc, blocked, t + 1);
        later.(calls := later.calls + 1)
  }

  /** The keys of the pages fetched for `urls` in turn, the first at tick `t`. */
  function FetchedKeys(fetch: (nat, Json) -> Outcome<OrderedDict>, urls: seq<Json>, t: nat): set<string>
    decreases |urls|
  {
    if urls == [] then {}
    else (if fetch(t, urls[0]).Ok? then Keys(fetch(t, urls[0]).value) else {}) + FetchedKeys(fetch, urls[1..], t + 1)
  }

  /** A scrape fetches exactly the allowed URLs, one call each in order, and nothing else; the
      content's keys are the keys of the pages fetched; every refused URL is in `blocked`. */
  lemma ScrapeProperties(fetch: (nat, Json) -> Outcome<OrderedDict>, canFetch: Json -> bool,
                         urls: seq<Json>, acc: OrderedDict, blocked: seq<Json>, t: nat)
    ensures var s := ScrapeFrom(fetch, canFetch, urls, acc, blocked, t);
      && s.calls <= |Allowed(urls, canFetch)|
      && (s.content.Ok? ==>
            && s.calls == |Allowed(urls, canFetch)|
            && Keys(s.content.value) == Keys(acc) + FetchedKeys(fetch, Allowed(urls, canFetch), t)
            && s.blocked == blocked + Refused(urls, canFetch))
  {
    ScrapeCalls(fetch, canFetch, urls, acc, blocked, t);
    ScrapeKeys(fetch, canFetch, urls, acc, blocked, t);
    ScrapeBlocked(fetch, canFetch, urls, acc, blocked, t);
  }

  /** The robots filters of a non-empty list, split at its first URL. */
  lemma RobotsStep(urls: seq<Json>, canFetch: Json -> bool)
    requires urls != []
    ensures canFetch(urls[0]) ==> Allowed(urls, canFetch) == [urls[0]] + Allowed(urls[1..], canFetch)
    ensures canFetch(urls[0]) ==> Refused(urls, canFetch) == Refused(urls[1..], canFetch)
    ensures !canFetch(urls[0]) ==> Allowed(urls, canFetch) == Allowed(urls[1..], canFetch)
    ensures !canFetch(urls[0]) ==> Refused(urls, canFetch) == [urls[0]] + Refused(urls[1..], canFetch)
  {
  }

  /** A scrape makes one call per allowed URL, fewer when a fetch raises. */
  lemma {:induction false} ScrapeCalls(fetch: (nat, Json) -> Outcome<OrderedDict>, canFetch: Json -> bool,
                                       urls: seq<Json>, acc: OrderedDict, blocked: seq<Json>, t: nat)
    ensures var s := ScrapeFrom(fetch, canFetch, urls, acc, blocked, t);
      && s.calls <= |Allowed(urls, canFetch)|
      && (s.content.Ok? ==> s.calls == |Allowed(urls, canFetch)|)
    decreases |urls|
  {
    if urls != [] {
      var u, rest := urls[0], urls[1..];
      RobotsStep(urls, canFetch);
      if !canFetch(u) {
        ScrapeCalls(fetch, canFetch, rest, acc, blocked + [u], t);
      } else {
        match fetch(t, u)
        case Raised =>
        case Ok(page) =>
          ScrapeCalls(fetch, canFetch, rest, if page != [] then Update(acc, page) else acc, blocked, t + 1);
      }
    }
  }

  /** The keys of a scrape's content are those it started with and those of every page fetched. */
  lemma {:induction false} ScrapeKeys(fetch: (nat, Json) -> Outcome<OrderedDict>, canFetch: Json -> bool,
                                      urls: seq<Json>, acc: OrderedDict, blocked: seq<Json>, t: nat)
    ensures var s := ScrapeFrom(fetch, canFetch, urls, acc, blocked, t);
      s.content.Ok? ==> Keys(s.content.value) == Keys(acc) + FetchedKeys(fetch, Allowed(urls, canFetch), t)
    decreases |urls|
  {
    if urls != [] {
      var u, rest := urls[0], urls[1..];
      RobotsStep(urls, canFetch);
      if !canFetch(u) {
        ScrapeKeys(fetch, canFetch, rest, acc, blocked + [u], t);
      } else {
        assert ([u] + Allowed(rest, canFetch))[1..] == Allowed(rest, canFetch);
        match fetch(t, u)
        case Raised =>
        case Ok(page) =>
          var acc' := if page != [] then Update(acc, page) else acc;
          ScrapeKeys(fetch, canFetch, rest, acc', blocked, t + 1);
          assert Keys(acc') == Keys(acc) + Keys(page);
      }
    }
  }

  /** A scrape that does not raise blocks exactly the refused URLs, in order. */
  lemma {:induction false} ScrapeBlocked(fetch: (nat, Json) -> Outcome<OrderedDict>, canFetch: Json -> bool,
                                         urls: seq<Json>, acc: OrderedDict, blocked: seq<Json>, t: nat)
    ensures var s := ScrapeFrom(fetch, canFetch, urls, acc, blocked, t);
      s.content.Ok? ==> s.blocked == blocked + Refused(urls, canFetch)
    decreases |urls|
  {
    if urls != [] {
      var u, rest := urls[0], urls[1..];
      RobotsStep(urls, canFetch);
      if !canFetch(u) {
        ScrapeBlocked(fetch, canFetch, rest, acc, blocked + [u], t);
        assert blocked + [u] + Refused(rest, canFetch) == blocked + ([u] + Refused(rest, canFetch));
      } else {
        match fetch(t, u)
        case Raised =>
        case Ok(page) =>
          ScrapeBlocked(fetch, canFetch, rest, if page != [] then Update(acc, page) else acc, blocked, t + 1);
      }
    }
  }

  /** The value for `k` on the last page fetched for `urls` (the first at tick `t`) that has `k`. */
  function FetchedValue(fetch: (nat, Json) -> Outcome<OrderedDict>, urls: seq<Json>, t: nat, k: string): Option<string>
    decreases |urls|
  {
    if urls == [] then None
    else
      var later := FetchedValue(fetch, urls[1..], t + 1, k);
      if later.Some? then later
      else if fetch(t, urls[0]).Ok? then LastLookup(fetch(t, urls[0]).value, k)
      else None
  }

  /** `scraped_content.update(content)` page after page: a key's value in the content is its value
      on the last fetched page that has it, and its value before the scrape when no page has it. */
  lemma {:induction false} ScrapeValues(fetch: (nat, Json) -> Outcome<OrderedDict>, canFetch: Json -> bool,
                                        urls: seq<Json>, acc: OrderedDict, blocked: seq<Json>, t: nat, k: string)
    ensures var s := ScrapeFrom(fetch, canFetch, urls, acc, blocked, t);
      var v := FetchedValue(fetch, Allowed(urls, canFetch), t, k);
      s.content.Ok? ==> Lookup(s.content.value, k) == if v.Some? then v else Lookup(acc, k)
    decreases |urls|
  {
    if urls != [] {
      var u := urls[0];
      var rest := urls[1..];
      assert urls == [u] + rest;
      if !canFetch(u) {
        ScrapeValues(fetch, canFetch, rest, acc, blocked + [u], t, k);
        assert Allowed(urls, canFetch) == Allowed(rest, canFetch);
      } else {
        assert Allowed(urls, canFetch) == [u] + Allowed(rest, canFetch);
        assert ([u] + Allowed(rest, canFetch))[1..] == Allowed(rest, canFetch);
        match fetch(t, u)
        case Raised =>
        case Ok(page) =>
          var acc' := if page != [] then Update(acc, page) else acc;
          ScrapeValues(fetch, canFetch, rest, acc', blocked, t + 1, k);
          if page != [] {
            UpdateLookup(acc, page, k);
          }
      }
    }
  }

  // ---------------------------------------------------------------------------
  // The final answer

  const AnswerApology := "I apologize, but I couldn't generate a satisfactory answer based on the available information."

  /** One entry of `format_scraped_content`: the URL and the content with whitespace runs collapsed. */
  function EntryText(url: string, content: string): string
  {
    "Content from " + url + ":" + Collapse(content)
  }

  /** `format_scraped_content(scraped_content)`: the entries joined with newlines. */
  function FormatScrapedContent(d: OrderedDict): (r: string)
    ensures r == [] <==> d == []
  {
    if d == [] then []
    else if |d| == 1 then EntryText(d[0].0, d[0].1)
    else EntryText(d[0].0, d[0].1) + "\n" + FormatScrapedContent(d[1..])
  }

  /** Appending one more entry to the content appends its text on a new line. */
  lemma {:induction false} FormatScrapedSnoc(d: OrderedDict, e: (string, string))
    ensures FormatScrapedContent(d + [e]) ==
      if d == [] then EntryText(e.0, e.1) else FormatScrapedContent(d) + "\n" + EntryText(e.0, e.1)
    decreases |d|
  {
    if d == [] {
      assert d + [e] == [e];
    } else {
      assert (d + [e])[0] == d[0];
      assert (d + [e])[1..] == d[1..] + [e];
      FormatScrapedSnoc(d[1..], e);
    }
  }

  /** An entry's text after its header keeps every visible character of the page, in order, with
      each whitespace run reduced to a single space, and formatting it again changes nothing. */
  lemma EntryCollapsesWhitespace(url: string, content: string)
    ensures var header := "Content from " + url + ":";
      var e := EntryText(url, content);
      && |header| <= |e| && e[..|header|] == header
      && Visible(e[|header|..]) == Visible(content)
      && Collapsed(e[|header|..])
      && Collapse(e[|header|..]) == e[|header|..]
  {
    var header := "Content from " + url + ":";
    var e := EntryText(url, content);
    assert e[|header|..] == Collapse(content);
    CollapseKeepsVisible(content);
    CollapseIsCollapsed(content);
    CollapseIdempotent(content);
  }

  /** The prompt of `generate_final_answer`: the question cut to 200 characters, the AI summary
      only when the answer is truthy, and the formatted content. */
  function AnswerPromptFor(userQuery: string, scraped: OrderedDict, aiAnswer: Json): Prompt
  {
    AnswerPrompt(
      if |userQuery| <= 200 then userQuery else userQuery[..200],
      if Truthy(aiAnswer) then Some(aiAnswer) else None,
      FormatScrapedContent(scraped))
  }

  /** The question shown is at most 200 characters, a prefix of the user's; the summary appears
      exactly when the answer is truthy; the content appears exactly when something was scraped. */
  lemma AnswerPromptShape(userQuery: string, scraped: OrderedDict, aiAnswer: Json)
    ensures var p := AnswerPromptFor(userQuery, scraped, aiAnswer);
      && |p.question| == (if |userQuery| <= 200 then |userQuery| else 200)
      && p.question == userQuery[..|p.question|]
      && (p.aiSummary.Some? <==> Truthy(aiAnswer))
      && (p.aiSummary.Some? ==> p.aiSummary.value == aiAnswer)
      && (p.scraped == [] <==> scraped == [])
  {
  }

  /** What an answer retry loop produced and how many generation calls it made. */
  datatype Generated = Generated(answer: Outcome<string>, calls: nat)

  /** The retry loop of `generate_final_answer` with `retries` tries left. */
  function AnswerFrom(generate: (nat, Prompt, int) -> Outcome<string>, prompt: Prompt, t: nat, retries: nat): Generated
    decreases retries
  {
    if retries == 0 then Generated(Ok(AnswerApology), 0)
    else
      match generate(t, prompt, 4096)
      case Raised => Generated(Raised, 1)
      case Ok(text) =>
        if text != "" then Generated(Ok(text), 1)
        else
          var later := AnswerFrom(generate, prompt, t + 1, retries - 1);
          later.(calls := later.calls + 1)
  }

  /** An empty reply passes the answer to the next retry. */
  lemma AnswerFromRetries(generate: (nat, Prompt, int) -> Outcome<string>, prompt: Prompt,
                          t: nat, next: nat, retries: nat, left: nat)
    requires next == t + 1 && retries == left + 1 && generate(t, prompt, 4096) == Ok("")
    ensures var later := AnswerFrom(generate, prompt, next, left);
      && AnswerFrom(generate, prompt, t, retries).answer == later.answer
      && AnswerFrom(generate, prompt, t, retries).calls == later.calls + 1
  {
  }

  /** At most `retries` calls, every one but the last returning the empty string; the answer is
      what the last call returned when that was a raise or a non-empty reply, and the fixed apology
      exactly when every one of the `retries` replies was empty. Either way it is never empty. */
  lemma {:induction false} AnswerFromProperties(generate: (nat, Prompt, int) -> Outcome<string>, prompt: Prompt,
                                                t: nat, retries: nat)
    ensures var g := AnswerFrom(generate, prompt, t, retries);
      && g.calls <= retries
      && (g.answer.Ok? ==> g.answer.value != "")
      && (forall s: nat :: t <= s < t + g.calls - 1 ==> generate(s, prompt, 4096) == Ok(""))
      && (g.calls == 0 ==> retries == 0 && g.answer == Ok(AnswerApology))
      && (g.calls > 0 && generate(t + g.calls - 1, prompt, 4096) != Ok("") ==>
            g.answer == generate(t + g.calls - 1, prompt, 4096))
      && (g.calls > 0 && generate(t + g.calls - 1, prompt, 4096) == Ok("") ==>
            g.calls == retries && g.answer == Ok(AnswerApology))
    decreases retries
  {
    if retries > 0 && generate(t, prompt, 4096) == Ok("") {
      var next := t + 1;
      AnswerFromProperties(generate, prompt, next, retries - 1);
      var later := AnswerFrom(generate, prompt, next, retries - 1);
      var g := AnswerFrom(generate, prompt, t, retries);
      assert g == later.(calls := later.calls + 1);
      assert t + g.calls - 1 == next + later.calls - 1;
    }
  }

  // ---------------------------------------------------------------------------
  // The synthesized fallback answer

  const SynthesisApology := "I apologize, but after multiple attempts, I wasn't able to find a satisfactory answer to your question. Please try rephrasing your question or breaking it down into smaller, more specific queries."

  /** `synthesize_final_answer` as written: a non-empty reply is returned stripped. */
  function SynthesisAsWritten(reply: Outcome<string>): string
  {
    if reply.Ok? && reply.value != "" then Strip(reply.value) else SynthesisApology
  }

  /** A reply of only whitespace passes the `if response_text` test and strips to the empty string. */
  lemma SynthesisAsWrittenCanBeEmpty()
    ensures SynthesisAsWritten(Ok(" ")) == ""
  {
    assert IsSpace(' ');
    assert TrimStart(" ") == "";
  }

  /** The synthesized answer, with the apology also covering a reply that strips to nothing. */
  function Synthesis(reply: Outcome<string>): string
  {
    if reply.Ok? && Strip(reply.value) != "" then Strip(reply.value) else SynthesisApology
  }

  /** The synthesized answer is never empty; it is the stripped reply when the reply has a visible
      character, and the apology when the call raised or the reply is blank. */
  lemma SynthesisNeverEmpty(reply: Outcome<string>)
    ensures Synthesis(reply) != ""
    ensures reply.Ok? && !AllSpace(reply.value) ==> Synthesis(reply) == Strip(reply.value)
    ensures reply.Raised? || AllSpace(reply.value) ==> Synthesis(reply) == SynthesisApology
    ensures reply.Ok? && !AllSpace(reply.value) ==> Synthesis(reply) == SynthesisAsWritten(reply)
  {
    if reply.Ok? {
      StripEmptyIffAllSpace(reply.value);
    }
  }

  // ---------------------------------------------------------------------------
  // The loop's decisions

  /** The canonical results as the Python list `search_results['results']`. */
  function ItemJson(it: Item): Json
  {
    JObj(map["title" := it.title, "url" := it.url, "content" := it.content,
             "score" := JNum(it.score), "published_date" := it.publishedDate])
  }

  /** The results value handed to the selection, as a list; iterating any other truthy value
      raises (a string or dict yields strings, which have no `get`; a number is not iterable). */
  function AsList(results: ResultList): (o: Outcome<seq<Json>>)
    ensures results.Items? ==>
      (o.Ok? && |o.value| == |results.items| && forall i :: 0 <= i < |results.items| ==> o.value[i] == ItemJson(results.items[i]))
    ensures results.Passthrough? ==> (o.Ok? <==> results.raw.JList?)
  {
    match results
    case Items(its) => Ok(seq(|its|, i requires 0 <= i < |its| => ItemJson(its[i])))
    case Passthrough(v) => if v.JList? then Ok(v.elems) else Raised
  }

  /** A canonical item can always be listed: its content is a string or a list. */
  lemma NormalizedItemsFormat(items: seq<Item>)
    requires forall i :: 0 <= i < |items| ==> items[i].content.JStr? || items[i].content.JList?
    ensures FormatResults(AsList(Items(items)).value).Ok?
    ensures UrlsOf(AsList(Items(items)).value).Ok?
  {
    var xs := AsList(Items(items)).value;
    FormatResultsFromMeaning(xs, 1);
    UrlsOfMeaning(xs);
    forall i | 0 <= i < |xs| ensures Block(xs[i], 1 + i).Ok? && Subscript(xs[i], "url").Ok? {
      assert xs[i] == ItemJson(items[i]);
    }
  }

  /** A successful search whose results were mapped to canonical items can always be listed and
      every one of its results has a `url`. */
  lemma NormalizedResultsListable(raw: Json, provider: string, resp: SearchResponse)
    requires Normalize(raw, provider) == Ok(resp) && resp.results.Items?
    ensures FormatResults(AsList(resp.results).value).Ok?
    ensures UrlsOf(AsList(resp.results).value).Ok?
  {
    NormalizedContentSliceable(raw, provider, resp);
    NormalizedItemsFormat(resp.results.items);
  }

  /** `search_results.get('results')` is truthy. */
  predicate ResultsTruthy(results: ResultList)
  {
    match results
    case Items(its) => its != []
    case Passthrough(v) => Truthy(v)
  }

  /** What the evaluator's decision leads to: refine, or answer with the AI answer to pass on. */
  datatype Verdict = Finish(aiAnswer: Json) | Refine

  /** Lines 148-157: "answer" passes the response's `answer` when the provider is tavily, "refine"
      refines, any other token answers with the default `ai_answer=''`. */
  function Decide(decision: string, resp: SearchResponse): Verdict
  {
    if decision == "answer" then
      Finish(if resp.provider == Some("tavily") && resp.answer.Some? then resp.answer.value else JStr(""))
    else if decision == "refine" then Refine
    else Finish(JStr(""))
  }

  /** Only "refine" refines; an AI summary reaches the final prompt only on "answer" from tavily,
      and it is then the response's own answer. */
  lemma DecideCases(decision: string, resp: SearchResponse)
    ensures Decide(decision, resp).Refine? <==> decision == "refine"
    ensures Decide(decision, resp).Finish? && Truthy(Decide(decision, resp).aiAnswer) ==>
      decision == "answer" && resp.provider == Some("tavily") && resp.answer == Some(Decide(decision, resp).aiAnswer)
    ensures decision != "answer" && decision != "refine" ==> Decide(decision, resp) == Finish(JStr(""))
    ensures decision == "answer" && resp.provider != Some("tavily") ==> Decide(decision, resp) == Finish(JStr(""))
  {
  }

  /** How one attempt of the loop ended. */
  datatype AttemptExit = EmptyQuery | NoResults | NoUrls | NoContent | Refined | Errored | Answered

  /** The failure dict of `perform_search` for an empty query. */
  const EmptyQueryResponse := SearchResponse(false, JStr("Empty query"), Items([]), None, None)

  /** No keys are passed: `SearchManager()` is built with its defaults. */
  const NoKeys := ApiKeys(None, None, None, None)

  function Budget(maxAttempts: int): nat
  {
    if maxAttempts < 0 then 0 else maxAttempts
  }

  /** `generate_final_answer` over `scraped` and `aiAnswer`, called at tick `t`, returned `answer`
      and left the clock at `t'`; something was scraped. */
  ghost predicate AnsweredWith(generate: (nat, Prompt, int) -> Outcome<string>, userQuery: string,
                               scraped: OrderedDict, aiAnswer: Json, t: nat, t': nat, answer: string)
  {
    var g := AnswerFrom(generate, AnswerPromptFor(userQuery, scraped, aiAnswer), t, 3);
    scraped != [] && g.answer == Ok(answer) && t' == t + g.calls
  }

  /** What the `try` block of one attempt saw on its way to the evaluation and past it: the
      selected URLs, the scraped content, whether the evaluator returned, its decision, the AI
      answer passed on, the tick of the evaluation and the tick `generate_final_answer` was called at. */
  datatype AnswerSource = AnswerSource(selected: seq<Json>, scraped: OrderedDict, evaluated: bool,
                                       decision: string, aiAnswer: Json, evaluatedAt: nat, calledAt: nat)

  /** The source of a step that stopped before the evaluator returned. */
  function NotEvaluated(t: nat): AnswerSource
  {
    AnswerSource([], [], false, "", JNull, t, t)
  }

  /** The rest of one attempt once the search has returned: how it ended, its answer, the number
      of oracle calls it made, and what it saw. */
  datatype Step = Step(exit: AttemptExit, answer: string, calls: nat, source: AnswerSource)

  /** The state one attempt reads and leaves changed: the clock's tick, the orchestrator's sticky
      provider, and the request counter with the time of the last request. */
  datatype Requests = Requests(tick: nat, provider: string, count: int, last: int)

  /** One whole attempt: how it ended, its answer, what it saw, and the state it left. */
  datatype Round = Round(exit: AttemptExit, answer: string, source: AnswerSource, after: Requests)

  /** The attempt loop: whether an attempt answered, its answer, the exit of every attempt made,
      in order, what the answering attempt saw, and the state left. */
  datatype Rounds = Rounds(answered: bool, answer: string, trace: seq<AttemptExit>, source: AnswerSource, after: Requests)

  /** Lines 114-121 once `perform_search` has returned `results`, the first oracle call made at
      tick `t`: the results test and the listing of the results, then the selection and
      `GatherSpec`; any raise is the `except` path. */
  function ProcessSpec(generate: (nat, Prompt, int) -> Outcome<string>,
                       evaluate: (nat, string, OrderedDict) -> Outcome<(string, string)>,
                       fetch: (nat, Json) -> Outcome<OrderedDict>, canFetch: Json -> bool,
                       userQuery: string, results: SearchResponse, t: nat): Step
  {
    if !results.success || !ResultsTruthy(results.results) then Step(NoResults, "", 0, NotEvaluated(t))
    else match AsList(results.results)
      case Raised => Step(Errored, "", 0, NotEvaluated(t))
      case Ok(listed) => GatherSpec(generate, evaluate, fetch, canFetch, userQuery, results, SelectSpec(generate, canFetch, listed, userQuery, t), t)
  }

  /** Lines 123-135 once the selection begun at tick `t` has ended as `sel`: no URLs retries,
      otherwise the selected URLs are scraped, then `ConcludeSpec`. */
  function GatherSpec(generate: (nat, Prompt, int) -> Outcome<string>,
                      evaluate: (nat, string, OrderedDict) -> Outcome<(string, string)>,
                      fetch: (nat, Json) -> Outcome<OrderedDict>, canFetch: Json -> bool,
                      userQuery: string, results: SearchResponse, sel: Selection, t: nat): Step
  {
    match sel.urls
    case Raised => Step(Errored, "", sel.calls, NotEvaluated(t))
    case Ok(selected) =>
      if selected == [] then Step(NoUrls, "", sel.calls, NotEvaluated(t))
      else
        var sc := ScrapeFrom(fetch, canFetch, selected, [], [], t + sel.calls);
        match sc.content
        case Raised => Step(Errored, "", sel.calls + sc.calls, NotEvaluated(t))
        case Ok(scraped) =>
          if scraped == [] then Step(NoContent, "", sel.calls + sc.calls, NotEvaluated(t))
          else
            var c := ConcludeSpec(generate, evaluate, userQuery, results, selected, scraped, t + sel.calls + sc.calls);
            c.(calls := sel.calls + sc.calls + c.calls)
  }

  /** The end of an attempt once the evaluator answered `ev` at tick `t` and `Decide` read it as `verdict`. */
  lemma ConcludeAfterEvaluation(generate: (nat, Prompt, int) -> Outcome<string>,
                                evaluate: (nat, string, OrderedDict) -> Outcome<(string, string)>,
                                userQuery: string, results: SearchResponse, selected: seq<Json>, scraped: OrderedDict,
                                t: nat, ev: (string, string), verdict: Verdict)
    requires evaluate(t, userQuery, scraped) == Ok(ev) && verdict == Decide(ev.1, results)
    ensures var c := ConcludeSpec(generate, evaluate, userQuery, results, selected, scraped, t);
      var src := AnswerSource(selected, scraped, true, ev.1, JNull, t, t + 1);
      if verdict.Refine? then c == Step(Refined, "", 1, src)
      else
        var g := AnswerFrom(generate, AnswerPromptFor(userQuery, scraped, verdict.aiAnswer), t + 1, 3);
        c == Step(if g.answer.Ok? then Answered else Errored, if g.answer.Ok? then g.answer.value else "",
                  1 + g.calls, src.(aiAnswer := verdict.aiAnswer))
  {
  }

  /** Once pages were selected and content scraped, an attempt ends as the evaluation and answer
      that follow, with the calls of all three steps. */
  lemma GatherConcluded(generate: (nat, Prompt, int) -> Outcome<string>,
                        evaluate: (nat, string, OrderedDict) -> Outcome<(string, string)>,
                        fetch: (nat, Json) -> Outcome<OrderedDict>, canFetch: Json -> bool,
                        userQuery: string, results: SearchResponse, sel: Selection, t: nat, sc: Scrape, c: Step)
    requires sel.urls.Ok? && sel.urls.value != []
    requires sc == ScrapeFrom(fetch, canFetch, sel.urls.value, [], [], t + sel.calls)
    requires sc.content.Ok? && sc.content.value != []
    requires c == ConcludeSpec(generate, evaluate, userQuery, results, sel.urls.value, sc.content.value, t + sel.calls + sc.calls)
    ensures GatherSpec(generate, evaluate, fetch, canFetch, userQuery, results, sel, t) == c.(calls := sel.calls + sc.calls + c.calls)
  {
    assert sel.urls == Ok(sel.urls.value);
    assert sc.content == Ok(sc.content.value);
  }

  /** Lines 139-157 with the evaluator called at tick `t` on the content scraped from the
      selected URLs: "refine" refines, any other decision goes to `generate_final_answer` with
      the AI answer `Decide` gives. */
  function ConcludeSpec(generate: (nat, Prompt, int) -> Outcome<string>,
                        evaluate: (nat, string, OrderedDict) -> Outcome<(string, string)>,
                        userQuery: string, results: SearchResponse, selected: seq<Json>, scraped: OrderedDict, t: nat): Step
  {
    match evaluate(t, userQuery, scraped)
    case Raised => Step(Errored, "", 1, NotEvaluated(t))
    case Ok(ev) =>
      var src := AnswerSource(selected, scraped, true, ev.1, JNull, t, t + 1);
      match Decide(ev.1, results)
      case Refine => Step(Refined, "", 1, src)
      case Finish(ai) =>
        var g := AnswerFrom(generate, AnswerPromptFor(userQuery, scraped, ai), t + 1, 3);
        Step(if g.answer.Ok? then Answered else Errored, if g.answer.Ok? then g.answer.value else "",
             1 + g.calls, src.(aiAnswer := ai))
  }

  /** An answered attempt's trail: the evaluator, called at `src.evaluatedAt` on the scraped
      content, returned `src.decision`, which is not "refine", and `generate_final_answer` was
      called at the next tick and returned `answer`, leaving the clock at `finish`. */
  ghost predicate AnsweredAfterEvaluation(generate: (nat, Prompt, int) -> Outcome<string>,
                                          evaluate: (nat, string, OrderedDict) -> Outcome<(string, string)>,
                                          userQuery: string, src: AnswerSource, finish: nat, answer: string)
  {
    && src.evaluated && src.calledAt == src.evaluatedAt + 1
    && evaluate(src.evaluatedAt, userQuery, src.scraped).Ok?
    && evaluate(src.evaluatedAt, userQuery, src.scraped).value.1 == src.decision
    && src.decision != "refine"
    && AnsweredWith(generate, userQuery, src.scraped, src.aiAnswer, src.calledAt, finish, answer)
  }

  /** The routing of lines 139-157: the evaluator's decision is recorded; "refine" refines, and
      every other decision goes to `generate_final_answer` with the AI answer `Decide` gives, which
      answers, with a non-empty answer, unless it raises. */
  lemma ConcludeRouting(generate: (nat, Prompt, int) -> Outcome<string>,
                        evaluate: (nat, string, OrderedDict) -> Outcome<(string, string)>,
                        userQuery: string, results: SearchResponse, selected: seq<Json>, scraped: OrderedDict, t: nat)
    ensures var c := ConcludeSpec(generate, evaluate, userQuery, results, selected, scraped, t);
      var src := c.source;
      && c.exit in {Errored, Refined, Answered}
      && (src.evaluated <==> evaluate(t, userQuery, scraped).Ok?)
      && (src.evaluated ==>
            && src.selected == selected && src.scraped == scraped && src.evaluatedAt == t
            && src.decision == evaluate(t, userQuery, scraped).value.1
            && (c.exit == Refined <==> Decide(src.decision, results).Refine?)
            && (c.exit != Refined ==>
                  && Decide(src.decision, results) == Finish(src.aiAnswer)
                  && src.calledAt == t + 1
                  && var g := AnswerFrom(generate, AnswerPromptFor(userQuery, scraped, src.aiAnswer), t + 1, 3);
                  && (c.exit == Answered <==> g.answer.Ok?)
                  && c.calls == 1 + g.calls))
      && (c.exit == Answered ==> c.answer != "")
      && (c.exit == Answered && scraped != [] ==>
            AnsweredAfterEvaluation(generate, evaluate, userQuery, src, t + c.calls, c.answer))
  {
    match evaluate(t, userQuery, scraped)
    case Raised =>
    case Ok(ev) =>
      match Decide(ev.1, results)
      case Refine =>
      case Finish(ai) =>
        AnswerFromProperties(generate, AnswerPromptFor(userQuery, scraped, ai), t + 1, 3);
  }

  /** The routing of lines 123-135: the evaluator is reached only through a non-empty
      selection and a non-empty scrape of exactly the selected URLs, at the tick after both. */
  lemma GatherRouting(generate: (nat, Prompt, int) -> Outcome<string>,
                      evaluate: (nat, string, OrderedDict) -> Outcome<(string, string)>,
                      fetch: (nat, Json) -> Outcome<OrderedDict>, canFetch: Json -> bool,
                      userQuery: string, results: SearchResponse, sel: Selection, t: nat)
    ensures var s := GatherSpec(generate, evaluate, fetch, canFetch, userQuery, results, sel, t);
      && s.exit !in {EmptyQuery, NoResults}
      && (s.exit == NoUrls <==> sel.urls == Ok([]))
      && (s.exit in {NoUrls, NoContent} ==> s.source == NotEvaluated(t))
      && (s.source.evaluated ==>
            && sel.urls == Ok(s.source.selected) && s.source.selected != []
            && var sc := ScrapeFrom(fetch, canFetch, s.source.selected, [], [], t + sel.calls);
            && sc.content == Ok(s.source.scraped) && s.source.scraped != []
            && s.source.evaluatedAt == t + sel.calls + sc.calls)
      && (s.exit in {Refined, Answered} ==> s.source.evaluated)
  {
    match sel.urls
    case Raised =>
    case Ok(selected) =>
      if selected != [] {
        var sc := ScrapeFrom(fetch, canFetch, selected, [], [], t + sel.calls);
        match sc.content
        case Raised =>
        case Ok(scraped) =>
          if scraped != [] {
            var t' := t + sel.calls + sc.calls;
            var c := ConcludeSpec(generate, evaluate, userQuery, results, selected, scraped, t');
            assert GatherSpec(generate, evaluate, fetch, canFetch, userQuery, results, sel, t) == c.(calls := sel.calls + sc.calls + c.calls);
            ConcludeRouting(generate, evaluate, userQuery, results, selected, scraped, t');
          }
      }
  }

  /** An answered gathering step answers with a non-empty text, after an evaluation that
      returned a decision other than "refine" and a `generate_final_answer` call at the next tick. */
  lemma GatherAnswered(generate: (nat, Prompt, int) -> Outcome<string>,
                       evaluate: (nat, string, OrderedDict) -> Outcome<(string, string)>,
                       fetch: (nat, Json) -> Outcome<OrderedDict>, canFetch: Json -> bool,
                       userQuery: string, results: SearchResponse, sel: Selection, t: nat)
    ensures var s := GatherSpec(generate, evaluate, fetch, canFetch, userQuery, results, sel, t);
      s.exit == Answered ==>
        && s.answer != "" && t <= s.source.evaluatedAt
        && AnsweredAfterEvaluation(generate, evaluate, userQuery, s.source, t + s.calls, s.answer)
  {
    match sel.urls
    case Raised =>
    case Ok(selected) =>
      if selected != [] {
        var sc := ScrapeFrom(fetch, canFetch, selected, [], [], t + sel.calls);
        match sc.content
        case Raised =>
        case Ok(scraped) =>
          if scraped != [] {
            var t' := t + sel.calls + sc.calls;
            var c := ConcludeSpec(generate, evaluate, userQuery, results, selected, scraped, t');
            assert GatherSpec(generate, evaluate, fetch, canFetch, userQuery, results, sel, t) == c.(calls := sel.calls + sc.calls + c.calls);
            ConcludeRouting(generate, evaluate, userQuery, results, selected, scraped, t');
          }
      }
  }

  /** The routing of lines 114-121: no results retries; results that cannot be listed raise;
      listed results go to the selection, and from there as `GatherRouting` says. */
  lemma ProcessSpecRouting(generate: (nat, Prompt, int) -> Outcome<string>,
                           evaluate: (nat, string, OrderedDict) -> Outcome<(string, string)>,
                           fetch: (nat, Json) -> Outcome<OrderedDict>, canFetch: Json -> bool,
                           userQuery: string, results: SearchResponse, t: nat)
    ensures var s := ProcessSpec(generate, evaluate, fetch, canFetch, userQuery, results, t);
      && s.exit != EmptyQuery
      && (s.exit == NoResults <==> !results.success || !ResultsTruthy(results.results))
      && (s.exit == NoResults ==> s.calls == 0 && s.source == NotEvaluated(t))
      && (results.success && ResultsTruthy(results.results) ==>
            if AsList(results.results).Raised? then s == Step(Errored, "", 0, NotEvaluated(t))
            else s == GatherSpec(generate, evaluate, fetch, canFetch, userQuery, results,
                                 SelectSpec(generate, canFetch, AsList(results.results).value, userQuery, t), t))
  {
    if results.success && ResultsTruthy(results.results) && AsList(results.results).Ok? {
      var sel := SelectSpec(generate, canFetch, AsList(results.results).value, userQuery, t);
      GatherRouting(generate, evaluate, fetch, canFetch, userQuery, results, sel, t);
    }
  }

  /** An answered attempt answers with a non-empty text, after an evaluation that returned a
      decision other than "refine" and a `generate_final_answer` call at the next tick. */
  lemma ProcessSpecAnswered(generate: (nat, Prompt, int) -> Outcome<string>,
                            evaluate: (nat, string, OrderedDict) -> Outcome<(string, string)>,
                            fetch: (nat, Json) -> Outcome<OrderedDict>, canFetch: Json -> bool,
                            userQuery: string, results: SearchResponse, t: nat)
    ensures var s := ProcessSpec(generate, evaluate, fetch, canFetch, userQuery, results, t);
      s.exit == Answered ==>
        && s.answer != "" && t <= s.source.evaluatedAt
        && AnsweredAfterEvaluation(generate, evaluate, userQuery, s.source, t + s.calls, s.answer)
  {
    if results.success && ResultsTruthy(results.results) {
      match AsList(results.results)
      case Raised =>
      case Ok(listed) =>
        var sel := SelectSpec(generate, canFetch, listed, userQuery, t);
        assert ProcessSpec(generate, evaluate, fetch, canFetch, userQuery, results, t)
            == GatherSpec(generate, evaluate, fetch, canFetch, userQuery, results, sel, t);
        GatherAnswered(generate, evaluate, fetch, canFetch, userQuery, results, sel, t);
    }
  }

  class EnhancedSelfImprovingSearch {
    const env: Environment
    const searchManager: SearchManager
    const maxAttempts: int
    const requestsPerMinute: int
    const concurrentRequests: int
    const cooldownPeriod: int
    /** `llm_config.get('max_tokens', 1024)`, read by the synthesis call. */
    const synthesisMaxTokens: int
    var lastRequestTime: int
    var requestCount: int
    var lastQuery: Option<string>
    var lastTimeRange: Option<string>

    constructor (env: Environment, maxAttempts: int, synthesisMaxTokens: int)
      ensures this.env == env && this.maxAttempts == maxAttempts && this.synthesisMaxTokens == synthesisMaxTokens
      ensures fresh(searchManager)
      ensures searchManager.config == SearchDefaults && searchManager.currentProvider == DefaultProvider
      ensures ProvidersFrom(searchManager.providers, FallbackOrder, NoKeys, env.probe)
      ensures requestsPerMinute == 60 && concurrentRequests == 5 && cooldownPeriod == 60
      ensures lastRequestTime == 0 && requestCount == 0 && lastQuery == None && lastTimeRange == None
    {
      this.env := env;
      this.maxAttempts := maxAttempts;
      this.synthesisMaxTokens := synthesisMaxTokens;
      searchManager := new SearchManager(SearchDefaults, NoKeys, env);
      requestsPerMinute := ResearchDefaults.requestsPerMinute;
      concurrentRequests := ResearchDefaults.concurrentRequests;
      cooldownPeriod := ResearchDefaults.cooldownPeriod;
      lastRequestTime := 0;
      requestCount := 0;
      lastQuery := None;
      lastTimeRange := None;
    }

    /** `perform_search(query, time_range)`: an empty query fails at once and touches nothing;
        otherwise the clock is read, the counter is reset when it cools down, the request is
        counted, the clock is read again, and the orchestrator searches with the parameters. */
    method PerformSearch(query: string, timeRange: string) returns (resp: SearchResponse)
      modifies this, env, searchManager
      ensures lastQuery == old(lastQuery) && lastTimeRange == old(lastTimeRange)
      ensures query == "" ==> && resp == EmptyQueryResponse
                              && requestCount == old(requestCount) && lastRequestTime == old(lastRequestTime)
                              && env.tick == old(env.tick)
                              && searchManager.currentProvider == old(searchManager.currentProvider)
      ensures query != "" ==>
        var t0 := old(env.tick);
        var tries := TryOrder(old(searchManager.currentProvider), searchManager.config.fallbackOrder, searchManager.providers.Keys);
        var run := SearchFrom(env.backend, searchManager.config.providerSettings, query, SearchParams(timeRange), tries, t0 + 2);
        && requestCount == NextCount(old(requestCount), old(lastRequestTime), env.clock(t0), requestsPerMinute, cooldownPeriod)
        && lastRequestTime == env.clock(t0 + 1)
        && resp == run.response
        && env.tick == t0 + 2 + run.calls
        && searchManager.currentProvider == (if run.winner.Some? then run.winner.value else old(searchManager.currentProvider))
      ensures searchManager.currentProvider == old(searchManager.currentProvider) ||
              searchManager.currentProvider in searchManager.providers
    {
      if query == "" {
        resp := EmptyQueryResponse;
        return;
      }
      var now := env.Now();
      if requestCount >= requestsPerMinute {
        if now - lastRequestTime < cooldownPeriod {
          // time.sleep(cooldown_period - time_since_last_request): a delay, not modelled
          requestCount := 0;
        }
      }
      lastRequestTime := env.Now();
      requestCount := requestCount + 1;
      var params := SearchParams(timeRange);
      assert env.tick == old(env.tick) + 2 && lastRequestTime == env.clock(old(env.tick) + 1);
      assert requestCount == NextCount(old(requestCount), old(lastRequestTime), env.clock(old(env.tick)), requestsPerMinute, cooldownPeriod);
      ghost var called: seq<string>;
      resp, called := searchManager.Search(env, query, params);
    }

    /** The loop of `format_results` over the list of results: one entry per result, numbered from 1,
        stopping at the first result that cannot be formatted. */
    method FormatResultBlocks(results: seq<Json>) returns (listing: Outcome<seq<ResultBlock>>)
      ensures listing == FormatResults(results)
    {
      FormatResultsFromMeaning(results, 1);
      var blocks: seq<ResultBlock> := [];
      var i := 0;
      while i < |results|
        invariant 0 <= i <= |results| && |blocks| == i
        invariant forall j :: 0 <= j < i ==> Block(results[j], 1 + j) == Ok(blocks[j])
      {
        var b := Block(results[i], 1 + i);
        if b.Raised? {
          return Raised;
        }
        blocks := blocks + [b.value];
        i := i + 1;
      }
      assert FormatResults(results).Ok?;
      assert forall j :: 0 <= j < |results| ==> FormatResults(results).value[j] == blocks[j];
      assert FormatResults(results).value == blocks;
      listing := Ok(blocks);
    }

    /** The loop of `format_scraped_content`: each page's entry, in the content's order, on its own line. */
    method FormatScraped(scraped: OrderedDict) returns (text: string)
      ensures text == FormatScrapedContent(scraped)
    {
      text := "";
      var i := 0;
      while i < |scraped|
        invariant 0 <= i <= |scraped|
        invariant text == FormatScrapedContent(scraped[..i])
      {
        var (url, content) := scraped[i];
        FormatScrapedSnoc(scraped[..i], scraped[i]);
        assert scraped[..i + 1] == scraped[..i] + [scraped[i]];
        text := if i == 0 then EntryText(url, content) else text + "\n" + EntryText(url, content);
        i := i + 1;
      }
      assert scraped[..i] == scraped;
    }

    /** `select_relevant_pages(search_results, user_query)` over the list of results: up to three
        generation calls, each reply's digits picking results, the first non-empty allowed subset
        returned, else the fallback. Any raise propagates. */
    method SelectRelevantPages(results: seq<Json>, userQuery: string) returns (urls: Outcome<seq<Json>>)
      modifies env
      ensures var s := SelectSpec(env.generate, env.canFetch, results, userQuery, old(env.tick));
        urls == s.urls && env.tick == old(env.tick) + s.calls
    {
      var listing := FormatResultBlocks(results);
      if listing.Raised? {
        return Raised;
      }
      urls := AskForPages(results, SelectionPrompt(userQuery, listing.value));
    }

    /** The retry loop of `select_relevant_pages` once the listing is built. */
    method AskForPages(results: seq<Json>, prompt: Prompt) returns (urls: Outcome<seq<Json>>)
      modifies env
      ensures var s := SelectFrom(env.generate, Chooser(results, env.canFetch), FallbackUrls(results, env.canFetch),
                                  prompt, old(env.tick), 3);
        urls == s.urls && env.tick == old(env.tick) + s.calls
    {
      ghost var choose := Chooser(results, env.canFetch);
      ghost var fallback := FallbackUrls(results, env.canFetch);
      ghost var spec := SelectFrom(env.generate, choose, fallback, prompt, env.tick, 3);
      ghost var t0 := env.tick;
      var left := 3;
      while left > 0
        invariant left <= 3
        invariant env.tick == t0 + 3 - left
        invariant var later := SelectFrom(env.generate, choose, fallback, prompt, env.tick, left);
          spec.urls == later.urls && spec.calls == later.calls + 3 - left
      {
        ghost var now := env.tick;
        var reply := env.Generate(prompt, 200);
        if reply.Raised? {
          FirstRaiseEnds(env.generate, choose, fallback, prompt, now, left);
          return Raised;
        }
        var picked := PickUrls(results, SelectedNumbers(reply.value));
        if picked.Raised? {
          assert choose(reply.value) == Raised;
          FirstRaiseEnds(env.generate, choose, fallback, prompt, now, left);
          return Raised;
        }
        var allowed := Allowed(picked.value, env.canFetch);
        assert choose(reply.value) == Ok(allowed);
        if allowed != [] {
          FirstGoodReplyWins(env.generate, choose, fallback, prompt, now, left);
          return Ok(allowed);
        }
        left := left - 1;
        SelectFromRetries(env.generate, choose, fallback, prompt, now, env.tick, left + 1, left);
      }
      urls := FallbackUrls(results, env.canFetch);
    }

    /** `scrape_content(urls)`: fetch each allowed URL in turn and merge a non-empty page into the
        map; a refused URL goes to `blocked`. A raising fetch propagates. */
    method ScrapeContent(urls: seq<Json>) returns (content: Outcome<OrderedDict>, ghost blocked: seq<Json>)
      modifies env
      ensures var s := ScrapeFrom(env.fetch, env.canFetch, urls, [], [], old(env.tick));
        content == s.content && (content.Ok? ==> blocked == s.blocked) && env.tick == old(env.tick) + s.calls
    {
      ghost var spec := ScrapeFrom(env.fetch, env.canFetch, urls, [], [], env.tick);
      ghost var t0 := env.tick;
      var scraped: OrderedDict := [];
      blocked := [];
      var i := 0;
      ghost var calls := 0;
      while i < |urls|
        invariant 0 <= i <= |urls|
        invariant env.tick == t0 + calls
        invariant var later := ScrapeFrom(env.fetch, env.canFetch, urls[i..], scraped, blocked, env.tick);
          spec == later.(calls := later.calls + calls)
      {
        var url := urls[i];
        assert urls[i..][0] == url && urls[i..][1..] == urls[i + 1..];
        if env.canFetch(url) {
          var page := env.Fetch(url);
          if page.Raised? {
            return Raised, blocked;
          }
          if page.value != [] {
            scraped := Update(scraped, page.value);
          }
          calls := calls + 1;
        } else {
          blocked := blocked + [url];
        }
        i := i + 1;
      }
      content := Ok(scraped);
    }

    /** The prompt of `generate_final_answer`: the shortened question, the AI summary when there
        is one, and the scraped content formatted by `format_scraped_content`. */
    method FinalAnswerPrompt(userQuery: string, scraped: OrderedDict, aiAnswer: Json) returns (prompt: Prompt)
      ensures prompt == AnswerPromptFor(userQuery, scraped, aiAnswer)
    {
      var content := FormatScraped(scraped);
      prompt := AnswerPrompt(if |userQuery| <= 200 then userQuery else userQuery[..200],
                             if Truthy(aiAnswer) then Some(aiAnswer) else None, content);
    }

    /** `generate_final_answer(user_query, scraped_content, ai_answer)`: up to three calls, the
        first non-empty reply, else the fixed apology. A raising call propagates. */
    method GenerateFinalAnswer(userQuery: string, scraped: OrderedDict, aiAnswer: Json) returns (answer: Outcome<string>)
      modifies env
      ensures var g := AnswerFrom(env.generate, AnswerPromptFor(userQuery, scraped, aiAnswer), old(env.tick), 3);
        answer == g.answer && env.tick == old(env.tick) + g.calls
      ensures answer.Ok? ==> answer.value != ""
    {
      var prompt := FinalAnswerPrompt(userQuery, scraped, aiAnswer);
      ghost var t0 := env.tick;
      ghost var spec := AnswerFrom(env.generate, prompt, env.tick, 3);
      AnswerFromProperties(env.generate, prompt, env.tick, 3);
      var left := 3;
      while left > 0
        invariant left <= 3
        invariant env.tick == t0 + 3 - left
        invariant var later := AnswerFrom(env.generate, prompt, env.tick, left);
          spec.answer == later.answer && spec.calls == later.calls + 3 - left
      {
        ghost var now := env.tick;
        var reply := env.Generate(prompt, 4096);
        if reply.Raised? {
          return Raised;
        }
        if reply.value != "" {
          return reply;
        }
        left := left - 1;
        AnswerFromRetries(env.generate, prompt, now, env.tick, left + 1, left);
      }
      answer := Ok(AnswerApology);
    }

    /** `synthesize_final_answer(user_query)`: one call; the stripped reply, or the apology. */
    method SynthesizeFinalAnswer(userQuery: string) returns (answer: string)
      modifies env
      ensures answer == Synthesis(env.generate(old(env.tick), SynthesisPrompt(userQuery), synthesisMaxTokens))
      ensures env.tick == old(env.tick) + 1
      ensures answer != ""
    {
      var reply := env.Generate(SynthesisPrompt(userQuery), synthesisMaxTokens);
      if reply.Ok? {
        var text := Strip(reply.value);
        if text != "" {
          return text;
        }
      }
      answer := SynthesisApology;
    }

    /** The part of the object's state an attempt reads and changes. */
    ghost function State(): Requests
      reads this, env, searchManager
    {
      Requests(env.tick, searchManager.currentProvider, requestCount, lastRequestTime)
    }

    /** The orchestrator's search of an attempt with a non-empty query begun in state `s`: the
        sticky provider first, then the fallback order, the first call two clock readings later. */
    ghost function Searched(userQuery: string, s: Requests): Run
    {
      SearchFrom(env.backend, searchManager.config.providerSettings, userQuery, SearchParams("none"),
                 TryOrder(s.provider, searchManager.config.fallbackOrder, searchManager.providers.Keys), s.tick + 2)
    }

    /** The tick once that search has returned. */
    ghost function SearchedAt(userQuery: string, s: Requests): nat
    {
      s.tick + 2 + Searched(userQuery, s).calls
    }

    /** One attempt of `search_and_improve` (lines 94-162) begun in state `s`: `formulate_query`
        keeps the query and an empty one stops at once; otherwise `perform_search` reads the clock
        twice and counts the request, the orchestrator searches, and `ProcessSpec` does the rest
        with the response. */
    ghost function AttemptSpec(userQuery: string, s: Requests): Round
    {
      if userQuery == "" then Round(EmptyQuery, "", NotEvaluated(s.tick), s)
      else
        var run := Searched(userQuery, s);
        var step := ProcessSpec(env.generate, env.evaluate, env.fetch, env.canFetch, userQuery, run.response, SearchedAt(userQuery, s));
        Round(step.exit, step.answer, step.source,
              Requests(SearchedAt(userQuery, s) + step.calls, if run.winner.Some? then run.winner.value else s.provider,
                       NextCount(s.count, s.last, env.clock(s.tick), requestsPerMinute, cooldownPeriod),
                       env.clock(s.tick + 1)))
    }

    /** The `while attempt < self.max_attempts` loop begun in state `s` with `left` attempts to go:
        each attempt starts from the state the one before left, until one answers. */
    ghost function RunSpec(userQuery: string, s: Requests, left: nat): Rounds
      decreases left, 1
    {
      if left == 0 then Rounds(false, "", [], NotEvaluated(s.tick), s)
      else RunFrom(userQuery, AttemptSpec(userQuery, s), left - 1)
    }

    /** The loop after attempt `a`, with `left` attempts to go: it stops when `a` answered. */
    ghost function RunFrom(userQuery: string, a: Round, left: nat): Rounds
      decreases left, 2
    {
      if a.exit == Answered then Rounds(true, a.answer, [Answered], a.source, a.after)
      else
        var r := RunSpec(userQuery, a.after, left);
        r.(trace := [a.exit] + r.trace)
    }

    /** The empty-query exit is taken exactly for an empty query, which changes nothing; the clock
        never goes back; the provider stays or becomes a configured one; an answer comes from
        `generate_final_answer` after an evaluation, during the attempt, that did not say "refine". */
    lemma AttemptSpecProperties(userQuery: string, s: Requests)
      ensures var a := AttemptSpec(userQuery, s);
        && (a.exit == EmptyQuery <==> userQuery == "")
        && (userQuery == "" ==> a.after == s)
        && a.after.tick >= s.tick
        && (a.after.provider == s.provider || a.after.provider in searchManager.providers)
        && (a.exit == Answered ==>
              && a.answer != "" && s.tick <= a.source.evaluatedAt
              && AnsweredAfterEvaluation(env.generate, env.evaluate, userQuery, a.source, a.after.tick, a.answer))
    {
      if userQuery != "" {
        var keys := searchManager.providers.Keys;
        var tries := TryOrder(s.provider, searchManager.config.fallbackOrder, keys);
        TryOrderProperties(s.provider, searchManager.config.fallbackOrder, keys);
        WinnerIsConfigured(env.backend, searchManager.config.providerSettings, userQuery, SearchParams("none"), tries, keys, s.tick + 2);
        var run := Searched(userQuery, s);
        ProcessSpecRouting(env.generate, env.evaluate, env.fetch, env.canFetch, userQuery, run.response, SearchedAt(userQuery, s));
        ProcessSpecAnswered(env.generate, env.evaluate, env.fetch, env.canFetch, userQuery, run.response, SearchedAt(userQuery, s));
      }
    }

    /** One more attempt of the loop, `left'` attempts remaining after it. */
    lemma RunSpecStep(userQuery: string, s: Requests, left: nat, a: Round, left': nat)
      requires left > 0 && a == AttemptSpec(userQuery, s) && left' == left - 1
      ensures RunSpec(userQuery, s, left) ==
        if a.exit == Answered then Rounds(true, a.answer, [Answered], a.source, a.after)
        else RunSpec(userQuery, a.after, left').(trace := [a.exit] + RunSpec(userQuery, a.after, left').trace)
    {
    }

    /** At most `left` attempts are made; none before the last answered; the loop answered exactly
        when its last attempt did, and otherwise used all `left` attempts. */
    lemma {:induction false} RunSpecBudget(userQuery: string, s: Requests, left: nat)
      ensures var r := RunSpec(userQuery, s, left);
        && |r.trace| <= left
        && (r.answered <==> r.trace != [] && r.trace[|r.trace| - 1] == Answered)
        && (forall k :: 0 <= k < |r.trace| - 1 ==> r.trace[k] != Answered)
        && (!r.answered ==> |r.trace| == left)
      decreases left, 1
    {
      if left > 0 {
        RunFromBudget(userQuery, AttemptSpec(userQuery, s), left - 1);
      }
    }

    /** The same after attempt `a`, which counts as one more. */
    lemma {:induction false} RunFromBudget(userQuery: string, a: Round, left: nat)
      ensures var r := RunFrom(userQuery, a, left);
        && |r.trace| <= left + 1
        && (r.answered <==> r.trace != [] && r.trace[|r.trace| - 1] == Answered)
        && (forall k :: 0 <= k < |r.trace| - 1 ==> r.trace[k] != Answered)
        && (!r.answered ==> |r.trace| == left + 1)
      decreases left, 2
    {
      if a.exit != Answered {
        RunSpecBudget(userQuery, a.after, left);
        var r := RunSpec(userQuery, a.after, left);
        var t := [a.exit] + r.trace;
        assert forall k :: 1 <= k < |t| ==> t[k] == r.trace[k - 1];
      }
    }

    /** An answer of the loop is non-empty and comes from `generate_final_answer` after an
        evaluation, during the loop, that did not say "refine". */
    lemma {:induction false} RunSpecAnswered(userQuery: string, s: Requests, left: nat)
      ensures var r := RunSpec(userQuery, s, left);
        r.answered ==>
          && r.answer != "" && s.tick <= r.source.evaluatedAt
          && AnsweredAfterEvaluation(env.generate, env.evaluate, userQuery, r.source, r.after.tick, r.answer)
      decreases left
    {
      if left > 0 {
        var a := AttemptSpec(userQuery, s);
        RunSpecStep(userQuery, s, left, a, left - 1);
        AttemptSpecProperties(userQuery, s);
        if a.exit != Answered {
          RunSpecAnswered(userQuery, a.after, left - 1);
        }
      }
    }

    /** An empty query runs out the whole budget, every attempt taking the empty-query exit, and
        changes nothing. */
    lemma {:induction false} RunSpecEmptyQuery(userQuery: string, s: Requests, left: nat)
      requires userQuery == ""
      ensures var r := RunSpec(userQuery, s, left);
        && !r.answered && r.after == s
        && (forall k :: 0 <= k < |r.trace| ==> r.trace[k] == EmptyQuery)
      decreases left
    {
      if left > 0 {
        var a := AttemptSpec(userQuery, s);
        RunSpecStep(userQuery, s, left, a, left - 1);
        RunSpecEmptyQuery(userQuery, a.after, left - 1);
      }
    }

    /** The clock never goes back over the loop, and the provider it leaves is the one it found
        or a configured one. */
    lemma {:induction false} RunSpecState(userQuery: string, s: Requests, left: nat)
      ensures var r := RunSpec(userQuery, s, left);
        && r.after.tick >= s.tick
        && (r.after.provider == s.provider || r.after.provider in searchManager.providers)
      decreases left
    {
      if left > 0 {
        var a := AttemptSpec(userQuery, s);
        RunSpecStep(userQuery, s, left, a, left - 1);
        AttemptSpecProperties(userQuery, s);
        if a.exit != Answered {
          RunSpecState(userQuery, a.after, left - 1);
        }
      }
    }

    /** The `try` block of one attempt of `search_and_improve`: the exit it takes, and the answer
        when it returns one. A raise anywhere in it is the `except` path, `Errored`. */
    method Attempt(userQuery: string, attempt: int)
      returns (exit: AttemptExit, answer: string, ghost src: AnswerSource, ghost results: SearchResponse, ghost searched: nat)
      modifies this, env, searchManager
      ensures lastQuery == Some(userQuery) && lastTimeRange == Some("none")
      ensures exit == EmptyQuery <==> userQuery == ""
      ensures userQuery == "" ==>
        && env.tick == old(env.tick)
        && requestCount == old(requestCount) && lastRequestTime == old(lastRequestTime)
      ensures userQuery != "" ==>
        && requestCount == NextCount(old(requestCount), old(lastRequestTime), env.clock(old(env.tick)), requestsPerMinute, cooldownPeriod)
        && lastRequestTime == env.clock(old(env.tick) + 1)
      ensures env.tick >= old(env.tick)
      ensures searchManager.currentProvider == old(searchManager.currentProvider) ||
              searchManager.currentProvider in searchManager.providers
      ensures userQuery != "" ==>
        var tries := TryOrder(old(searchManager.currentProvider), searchManager.config.fallbackOrder, searchManager.providers.Keys);
        var run := SearchFrom(env.backend, searchManager.config.providerSettings, userQuery, SearchParams("none"), tries, old(env.tick) + 2);
        results == run.response && searched == old(env.tick) + 2 + run.calls
      ensures userQuery != "" ==>
        var step := ProcessSpec(env.generate, env.evaluate, env.fetch, env.canFetch, userQuery, results, searched);
        exit == step.exit && answer == step.answer && src == step.source && env.tick == searched + step.calls
      ensures exit == Answered ==>
        && answer != "" && old(env.tick) <= src.evaluatedAt
        && AnsweredAfterEvaluation(env.generate, env.evaluate, userQuery, src, env.tick, answer)
      ensures var a := AttemptSpec(userQuery, old(State()));
        exit == a.exit && answer == a.answer && src == a.source && State() == a.after
    {
      var (query, timeRange) := FormulateQuery(userQuery, attempt);
      if query == "" {
        exit, answer, src, results, searched := EmptyQuery, "", NotEvaluated(env.tick), EmptyQueryResponse, env.tick;
      } else {
        exit, answer, src, results, searched := SearchAndProcess(query, timeRange);
      }
      // recorded before the search in the source; within an attempt they are only printed, so
      // recording them once the attempt is over leaves the same state
      lastQuery := Some(query);
      lastTimeRange := Some(timeRange);
    }

    /** The `try` block once the query is known to be non-empty: the search, then the rest. */
    method SearchAndProcess(userQuery: string, timeRange: string)
      returns (exit: AttemptExit, answer: string, ghost src: AnswerSource, ghost results: SearchResponse, ghost searched: nat)
      requires userQuery != "" && timeRange == "none"
      modifies this, env, searchManager
      ensures lastQuery == old(lastQuery) && lastTimeRange == old(lastTimeRange)
      ensures exit != EmptyQuery
      ensures requestCount == NextCount(old(requestCount), old(lastRequestTime), env.clock(old(env.tick)), requestsPerMinute, cooldownPeriod)
      ensures lastRequestTime == env.clock(old(env.tick) + 1)
      ensures env.tick >= old(env.tick)
      ensures searchManager.currentProvider == old(searchManager.currentProvider) ||
              searchManager.currentProvider in searchManager.providers
      ensures var tries := TryOrder(old(searchManager.currentProvider), searchManager.config.fallbackOrder, searchManager.providers.Keys);
        var run := SearchFrom(env.backend, searchManager.config.providerSettings, userQuery, SearchParams("none"), tries, old(env.tick) + 2);
        results == run.response && searched == old(env.tick) + 2 + run.calls
      ensures var step := ProcessSpec(env.generate, env.evaluate, env.fetch, env.canFetch, userQuery, results, searched);
        exit == step.exit && answer == step.answer && src == step.source && env.tick == searched + step.calls
      ensures exit == Answered ==>
        && answer != "" && old(env.tick) <= src.evaluatedAt
        && AnsweredAfterEvaluation(env.generate, env.evaluate, userQuery, src, env.tick, answer)
      ensures var a := AttemptSpec(userQuery, old(State()));
        exit == a.exit && answer == a.answer && src == a.source && State() == a.after
    {
      ghost var s0 := State();
      var response := PerformSearch(userQuery, timeRange);
      assert response == Searched(userQuery, s0).response && env.tick == SearchedAt(userQuery, s0);
      results, searched := response, env.tick;
      exit, answer, src := ProcessResults(userQuery, response);
    }

    /** The rest of the `try` block, once the search has returned: the results are checked,
        pages selected and scraped, the content evaluated, and the answer generated. */
    method ProcessResults(userQuery: string, results: SearchResponse)
      returns (exit: AttemptExit, answer: string, ghost src: AnswerSource)
      modifies env
      ensures var s := ProcessSpec(env.generate, env.evaluate, env.fetch, env.canFetch, userQuery, results, old(env.tick));
        exit == s.exit && answer == s.answer && src == s.source && env.tick == old(env.tick) + s.calls
      ensures exit != EmptyQuery
      ensures exit == Answered ==>
        && answer != "" && old(env.tick) <= src.evaluatedAt
        && AnsweredAfterEvaluation(env.generate, env.evaluate, userQuery, src, env.tick, answer)
    {
      ProcessSpecRouting(env.generate, env.evaluate, env.fetch, env.canFetch, userQuery, results, env.tick);
      ProcessSpecAnswered(env.generate, env.evaluate, env.fetch, env.canFetch, userQuery, results, env.tick);
      answer, src := "", NotEvaluated(env.tick);
      // `perform_search` always returns a dict, so the `isinstance` test never fails
      if !results.success || !ResultsTruthy(results.results) {
        return NoResults, "", src;
      }
      var listed := AsList(results.results);
      if listed.Raised? {
        return Errored, "", src;
      }
      ghost var t := env.tick;
      ghost var sel := SelectSpec(env.generate, env.canFetch, listed.value, userQuery, t);
      var selected := SelectRelevantPages(listed.value, userQuery);
      exit, answer, src := Gather(userQuery, results, selected, sel, t);
    }

    /** The middle of the `try` block, once the selection begun at tick `t` has ended as `sel`:
        the selected pages are scraped. */
    method Gather(userQuery: string, results: SearchResponse, selected: Outcome<seq<Json>>, ghost sel: Selection, ghost t: nat)
      returns (exit: AttemptExit, answer: string, ghost src: AnswerSource)
      requires selected == sel.urls && env.tick == t + sel.calls
      modifies env
      ensures var s := GatherSpec(env.generate, env.evaluate, env.fetch, env.canFetch, userQuery, results, sel, t);
        exit == s.exit && answer == s.answer && src == s.source && env.tick == t + s.calls
    {
      answer, src := "", NotEvaluated(t);
      if selected.Raised? {
        return Errored, "", src;
      }
      if selected.value == [] {
        return NoUrls, "", src;
      }
      ghost var sc := ScrapeFrom(env.fetch, env.canFetch, selected.value, [], [], env.tick);
      var scraped;
      ghost var blocked;
      scraped, blocked := ScrapeContent(selected.value);
      assert scraped == sc.content && env.tick == t + sel.calls + sc.calls;
      if scraped.Raised? {
        return Errored, "", src;
      }
      if scraped.value == [] {
        return NoContent, "", src;
      }
      ghost var c := ConcludeSpec(env.generate, env.evaluate, userQuery, results, selected.value, scraped.value, env.tick);
      GatherConcluded(env.generate, env.evaluate, env.fetch, env.canFetch, userQuery, results, sel, t, sc, c);
      exit, answer, src := Conclude(userQuery, results, selected.value, scraped.value);
    }

    /** The end of the `try` block: the scraped content is evaluated, and the answer generated
        unless the decision is "refine". */
    method Conclude(userQuery: string, results: SearchResponse, selected: seq<Json>, scraped: OrderedDict)
      returns (exit: AttemptExit, answer: string, ghost src: AnswerSource)
      modifies env
      ensures var c := ConcludeSpec(env.generate, env.evaluate, userQuery, results, selected, scraped, old(env.tick));
        exit == c.exit && answer == c.answer && src == c.source && env.tick == old(env.tick) + c.calls
    {
      ghost var t := env.tick;
      answer, src := "", NotEvaluated(t);
      var evaluated := env.Evaluate(userQuery, scraped);
      if evaluated.Raised? {
        return Errored, "", src;
      }
      src := AnswerSource(selected, scraped, true, evaluated.value.1, JNull, t, t + 1);
      var verdict := Decide(evaluated.value.1, results);
      ConcludeAfterEvaluation(env.generate, env.evaluate, userQuery, results, selected, scraped, t, evaluated.value, verdict);
      if verdict.Refine? {
        return Refined, "", src;
      }
      src := src.(aiAnswer := verdict.aiAnswer);
      var final := GenerateFinalAnswer(userQuery, scraped, verdict.aiAnswer);
      if final.Raised? {
        return Errored, "", src;
      }
      return Answered, final.value, src;
    }

    /** `search_and_improve(user_query)`: at most `max_attempts` attempts, each non-returning one
        adding exactly one to `attempt`; the first answered attempt's answer, else the synthesized
        answer. The answer is never empty. */
    method SearchAndImprove(userQuery: string)
      returns (answer: string, ghost trace: seq<AttemptExit>, ghost src: AnswerSource, ghost synthesizedAt: nat)
      modifies this, env, searchManager
      ensures var r := RunSpec(userQuery, old(State()), Budget(maxAttempts));
        && trace == r.trace && synthesizedAt == r.after.tick
        && (r.answered ==> answer == r.answer && src == r.source && State() == r.after)
        && (!r.answered ==>
              && answer == Synthesis(env.generate(r.after.tick, SynthesisPrompt(userQuery), synthesisMaxTokens))
              && State() == r.after.(tick := r.after.tick + 1))
      ensures answer != ""
      ensures |trace| <= Budget(maxAttempts)
      ensures forall k :: 0 <= k < |trace| - 1 ==> trace[k] != Answered
      ensures trace == [] || trace[|trace| - 1] != Answered ==>
        && |trace| == Budget(maxAttempts)
        && env.tick == synthesizedAt + 1
        && answer == Synthesis(env.generate(synthesizedAt, SynthesisPrompt(userQuery), synthesisMaxTokens))
      ensures trace != [] && trace[|trace| - 1] == Answered ==>
        old(env.tick) <= src.evaluatedAt && AnsweredAfterEvaluation(env.generate, env.evaluate, userQuery, src, env.tick, answer)
      ensures userQuery == "" ==>
        && (forall k :: 0 <= k < |trace| ==> trace[k] == EmptyQuery)
        && env.tick == old(env.tick) + 1
        && requestCount == old(requestCount) && lastRequestTime == old(lastRequestTime)
      ensures trace != [] ==> lastQuery == Some(userQuery) && lastTimeRange == Some("none")
      ensures trace == [] ==> lastQuery == old(lastQuery) && lastTimeRange == old(lastTimeRange)
      ensures env.tick >= old(env.tick)
      ensures searchManager.currentProvider == old(searchManager.currentProvider) ||
              searchManager.currentProvider in searchManager.providers
    {
      var answered;
      answered, answer, trace, src := RunAttempts(userQuery);
      synthesizedAt := env.tick;
      if answered {
        return;
      }
      answer := SynthesizeFinalAnswer(userQuery);
    }

    /** The `while attempt < self.max_attempts` loop of `search_and_improve`: it stops at the first
        answered attempt, and otherwise runs the whole budget. */
    method RunAttempts(userQuery: string)
      returns (answered: bool, answer: string, ghost trace: seq<AttemptExit>, ghost src: AnswerSource)
      modifies this, env, searchManager
      ensures var r := RunSpec(userQuery, old(State()), Budget(maxAttempts));
        answered == r.answered && answer == r.answer && trace == r.trace && src == r.source && State() == r.after
      ensures answered <==> trace != [] && trace[|trace| - 1] == Answered
      ensures |trace| <= Budget(maxAttempts)
      ensures forall k :: 0 <= k < |trace| - 1 ==> trace[k] != Answered
      ensures trace == [] || trace[|trace| - 1] != Answered ==> |trace| == Budget(maxAttempts)
      ensures trace != [] && trace[|trace| - 1] == Answered ==>
        && answer != "" && old(env.tick) <= src.evaluatedAt
        && AnsweredAfterEvaluation(env.generate, env.evaluate, userQuery, src, env.tick, answer)
      ensures userQuery == "" ==>
        && env.tick == old(env.tick) && (forall k :: 0 <= k < |trace| ==> trace[k] == EmptyQuery)
        && requestCount == old(requestCount) && lastRequestTime == old(lastRequestTime)
      ensures trace != [] ==> lastQuery == Some(userQuery) && lastTimeRange == Some("none")
      ensures trace == [] ==> lastQuery == old(lastQuery) && lastTimeRange == old(lastTimeRange)
      ensures env.tick >= old(env.tick)
      ensures searchManager.currentProvider == old(searchManager.currentProvider) ||
              searchManager.currentProvider in searchManager.providers
    {
      ghost var s0 := State();
      answered, answer, trace, src := AttemptLoop(userQuery);
      RunSpecBudget(userQuery, s0, Budget(maxAttempts));
      RunSpecAnswered(userQuery, s0, Budget(maxAttempts));
      RunSpecState(userQuery, s0, Budget(maxAttempts));
      if userQuery == "" {
        RunSpecEmptyQuery(userQuery, s0, Budget(maxAttempts));
      }
    }

    /** One turn of the loop: an attempt, as `AttemptSpec` gives it. */
    method Turn(userQuery: string, attempt: int) returns (exit: AttemptExit, answer: string, ghost src: AnswerSource)
      modifies this, env, searchManager
      ensures lastQuery == Some(userQuery) && lastTimeRange == Some("none")
      ensures var a := AttemptSpec(userQuery, old(State()));
        exit == a.exit && answer == a.answer && src == a.source && State() == a.after
    {
      var taken, text, from, _, _ := Attempt(userQuery, attempt);
      exit, answer, src := taken, text, from;
    }

    /** The loop itself: each turn runs `Attempt` from the state the last one left, and the loop
        stops at the first answered attempt or once `max_attempts` attempts were made. */
    method AttemptLoop(userQuery: string)
      returns (answered: bool, answer: string, ghost trace: seq<AttemptExit>, ghost src: AnswerSource)
      modifies this, env, searchManager
      ensures var r := RunSpec(userQuery, old(State()), Budget(maxAttempts));
        answered == r.answered && answer == r.answer && trace == r.trace && src == r.source && State() == r.after
      ensures trace != [] ==> lastQuery == Some(userQuery) && lastTimeRange == Some("none")
      ensures trace == [] ==> lastQuery == old(lastQuery) && lastTimeRange == old(lastTimeRange)
    {
      ghost var left := Budget(maxAttempts);
      ghost var spec := RunSpec(userQuery, State(), left);
      answered, answer := false, "";
      var attempt := 0;
      trace := [];
      assert spec == spec.(trace := trace + spec.trace);
      while attempt < maxAttempts
        invariant 0 <= attempt && attempt + left == Budget(maxAttempts)
        invariant var r := RunSpec(userQuery, State(), left);
          spec == r.(trace := trace + r.trace)
        invariant trace != [] ==> lastQuery == Some(userQuery) && lastTimeRange == Some("none")
        invariant trace == [] ==> lastQuery == old(lastQuery) && lastTimeRange == old(lastTimeRange)
        decreases maxAttempts - attempt
      {
        ghost var before := State();
        var exit, text, from := Turn(userQuery, attempt);
        ghost var a := AttemptSpec(userQuery, before);
        ghost var left' := left - 1;
        RunSpecStep(userQuery, before, left, a, left');
        ghost var previous := trace;
        trace := trace + [exit];
        if exit == Answered {
          return true, text, trace, from;
        }
        attempt, left := attempt + 1, left';
        ghost var later := RunSpec(userQuery, State(), left);
        assert previous + ([exit] + later.trace) == trace + later.trace;
      }
      src := NotEvaluated(env.tick);
    }
  }
}
