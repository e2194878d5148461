/** The outside world the core talks to: search backends, the text generator, the robots-policy
    check, the page fetcher and the clock. Each is an arbitrary function; a call that may answer
    differently each time it is made is indexed by the environment's `tick`, which every such call
    advances by one. */
module Oracles {
  import opened Py
  import opened Providers

  /** One numbered entry of `format_results`: the fields the selection prompt shows for a result.
      `published` and `score` are present only when the result's value is truthy. */
  datatype ResultBlock = ResultBlock(
    number: nat,
    title: Json,
    snippet: Json,
    url: Json,
    published: Option<Json>,
    score: Option<Json>)

  /** What is sent to the text generator: the data each prompt template interpolates. */
  datatype Prompt =
    | SelectionPrompt(userQuery: string, listing: seq<ResultBlock>)
    | AnswerPrompt(question: string, aiSummary: Option<Json>, scraped: string)
    | SynthesisPrompt(userQuery: string)

  class Environment {
    /** `provider.search(query, **params)` of the provider registered under a name. */
    const backend: (nat, string, string, Kwargs) -> Outcome<Json>
    /** Building a provider and asking `is_configured()`; a raising constructor is `Raised`. */
    const probe: Provider -> Outcome<bool>
    /** `llm.generate(prompt, max_tokens=...)`. */
    const generate: (nat, Prompt, int) -> Outcome<string>
    /** `evaluate_scraped_content(user_query, scraped_content)`: an evaluation text and a decision token. */
    const evaluate: (nat, string, OrderedDict) -> Outcome<(string, string)>
    /** `can_fetch(url)`: the robots policy, fixed for the run. */
    const canFetch: Json -> bool
    /** `get_web_content([url])`: a dict from URL to page text. */
    const fetch: (nat, Json) -> Outcome<OrderedDict>
    /** `time.time()`, in whole seconds. */
    const clock: nat -> int
    var tick: nat

    constructor (
      backend: (nat, string, string, Kwargs) -> Outcome<Json>,
      probe: Provider -> Outcome<bool>,
      generate: (nat, Prompt, int) -> Outcome<string>,
      evaluate: (nat, string, OrderedDict) -> Outcome<(string, string)>,
      canFetch: Json -> bool,
      fetch: (nat, Json) -> Outcome<OrderedDict>,
      clock: nat -> int)
      ensures this.backend == backend && this.probe == probe && this.generate == generate
      ensures this.evaluate == evaluate && this.canFetch == canFetch && this.fetch == fetch
      ensures this.clock == clock && tick == 0
    {
      this.backend := backend;
      this.probe := probe;
      this.generate := generate;
      this.evaluate := evaluate;
      this.canFetch := canFetch;
      this.fetch := fetch;
      this.clock := clock;
      tick := 0;
    }

    method Search(name: string, query: string, params: Kwargs) returns (r: Outcome<Json>)
      modifies this
      ensures r == backend(old(tick), name, query, params) && tick == old(tick) + 1
    {
      r := backend(tick, name, query, params);
      tick := tick + 1;
    }

    method Generate(prompt: Prompt, maxTokens: int) returns (r: Outcome<string>)
      modifies this
      ensures r == generate(old(tick), prompt, maxTokens) && tick == old(tick) + 1
    {
      r := generate(tick, prompt, maxTokens);
      tick := tick + 1;
    }

    method Evaluate(userQuery: string, content: OrderedDict) returns (r: Outcome<(string, string)>)
      modifies this
      ensures r == evaluate(old(tick), userQuery, content) && tick == old(tick) + 1
    {
      r := evaluate(tick, userQuery, content);
      tick := tick + 1;
    }

    method Fetch(url: Json) returns (r: Outcome<OrderedDict>)
      modifies this
      ensures r == fetch(old(tick), url) && tick == old(tick) + 1
    {
      r := fetch(tick, url);
      tick := tick + 1;
    }

    method Now() returns (t: int)
      modifies this
      ensures t == clock(old(tick)) && tick == old(tick) + 1
    {
      t := clock(tick);
      tick := tick + 1;
    }
  }
}
