/** The configuration values the core reads from system_config.py, transcribed as data. */
module Config {
  import opened Py

  /** `SEARCH_CONFIG`: what the search orchestrator is built from. */
  datatype SearchConfig = SearchConfig(
    defaultProvider: string,
    fallbackOrder: seq<string>,
    providerSettings: map<string, Kwargs>,
    requestsPerMinute: int,
    cooldownPeriod: int)

  /** `SEARCH_CONFIG['default_provider']`. */
  const DefaultProvider: string := "duckduckgo"

  /** `SEARCH_CONFIG['fallback_order']`. */
  const FallbackOrder: seq<string> := ["exa", "bing", "brave", "tavily", "duckduckgo"]

  /** `SEARCH_CONFIG['provider_settings']`. */
  const ProviderSettings: map<string, Kwargs> := map[
    "tavily" := map["search_depth" := JStr("basic"), "max_results" := JNum(5.0),
                    "include_answer" := JBool(true), "include_images" := JBool(false)],
    "brave" := map["max_results" := JNum(10.0)],
    "bing" := map["max_results" := JNum(10.0), "freshness" := JStr("Month")],
    "exa" := map["max_results" := JNum(10.0), "use_highlights" := JBool(true)],
    "duckduckgo" := map["max_results" := JNum(10.0), "region" := JStr("wt-wt"), "safesearch" := JStr("off")]
  ]

  const SearchDefaults: SearchConfig := SearchConfig(DefaultProvider, FallbackOrder, ProviderSettings, 10, 60)

  /** The parts of `RESEARCH_CONFIG` the retrieval loop reads. */
  datatype ResearchConfig = ResearchConfig(
    maxResultsPerSearch: int,
    minRelevanceScore: real,
    requestsPerMinute: int,
    concurrentRequests: int,
    cooldownPeriod: int)

  const ResearchDefaults: ResearchConfig := ResearchConfig(10, 0.6, 60, 5, 60)
}
