/** The provider registry of search_providers/factory.py: a fixed table from lower-case names to
    provider classes, and the factory that builds an instance by name. */
module Providers {
  import opened Py
  import opened Text

  /** The provider classes the registry knows. */
  datatype ProviderKind = Bing | Brave | Exa | Tavily | Arxiv

  /** A provider instance: the class it was built from and the keyword arguments its
      constructor received. What the constructor does with them is outside the model. */
  datatype Provider = Provider(kind: ProviderKind, kwargs: Kwargs)

  /** `SearchProviderFactory._providers`. */
  const Registry: map<string, ProviderKind> :=
    map["bing" := Bing, "brave" := Brave, "exa" := Exa, "tavily" := Tavily, "arxiv" := Arxiv]

  /** `SearchProviderFactory.get_provider(provider_type, **kwargs)`: the name is lowered before the
      lookup; an unknown name raises ValueError and builds nothing. */
  function GetProvider(providerType: string, kwargs: Kwargs): (r: Outcome<Provider>)
    ensures r.Ok? <==> Lower(providerType) in Registry
    ensures r.Ok? ==> r.value.kind == Registry[Lower(providerType)] && r.value.kwargs == kwargs
  {
    var name := Lower(providerType);
    if name in Registry then Ok(Provider(Registry[name], kwargs)) else Raised
  }

  /** `SearchProviderFactory.get_available_providers()`: the registry itself. */
  function GetAvailableProviders(): (r: map<string, ProviderKind>)
    ensures r.Keys == {"bing", "brave", "exa", "tavily", "arxiv"}
    ensures r["bing"] == Bing && r["brave"] == Brave && r["exa"] == Exa
    ensures r["tavily"] == Tavily && r["arxiv"] == Arxiv
  {
    Registry
  }

  /** Every registered name is already lower case, so each one resolves to its own class. */
  lemma RegisteredNamesResolve(name: string, kwargs: Kwargs)
    requires name in Registry
    ensures GetProvider(name, kwargs) == Ok(Provider(Registry[name], kwargs))
  {
    if name == "bing" { LowerOfLowerCase("bing"); }
    else if name == "brave" { LowerOfLowerCase("brave"); }
    else if name == "exa" { LowerOfLowerCase("exa"); }
    else if name == "tavily" { LowerOfLowerCase("tavily"); }
    else { LowerOfLowerCase("arxiv"); }
  }

  /** Names that differ only in letter case build the same instance. */
  lemma CaseInsensitive(a: string, b: string, kwargs: Kwargs)
    requires Lower(a) == Lower(b)
    ensures GetProvider(a, kwargs) == GetProvider(b, kwargs)
  {
  }

  /** A name is looked up by its lower-case form: `GetProvider(s)` and `GetProvider(Lower(s))` agree. */
  lemma LowerFormResolvesAlike(s: string, kwargs: Kwargs)
    ensures GetProvider(s, kwargs) == GetProvider(Lower(s), kwargs)
  {
    LowerIdempotent(s);
  }

  /** "duckduckgo", the configured default and last fallback, is not registered in any letter case. */
  lemma DuckDuckGoIsUnknown(name: string, kwargs: Kwargs)
    requires Lower(name) == "duckduckgo"
    ensures GetProvider(name, kwargs) == Raised
  {
  }

  /** The name "duckduckgo" itself is not registered. */
  lemma DuckDuckGoNotRegistered(kwargs: Kwargs)
    ensures GetProvider("duckduckgo", kwargs) == Raised
  {
    var l := Lower("duckduckgo");
    assert l[0] == 'd' && l[1] == 'u';
    assert l !in Registry;
  }

  /** A name whose lower-case form is not one of the five registered names raises. */
  lemma UnknownNameRaises(name: string, kwargs: Kwargs)
    requires Lower(name) !in {"bing", "brave", "exa", "tavily", "arxiv"}
    ensures GetProvider(name, kwargs) == Raised
  {
  }
}
