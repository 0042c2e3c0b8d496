/**
 * What the server tells the client it supports. Each capability is a flag
 * and a configuration array; the `with*` methods switch one on and return
 * the same object so that calls can be chained.
 */
module Capabilities {
  import opened Wrappers
  import opened Values
  import Dict

  /** The configuration `withResources($subscribe, $listChanged)` stores. */
  function ResourcesConfig(subscribe: bool, listChanged: bool): (r: PhpArray)
    ensures Dict.HasKey(r, StrKey("subscribe")) <==> subscribe
    ensures Dict.HasKey(r, StrKey("listChanged")) <==> listChanged
    ensures subscribe ==> Lookup(r, "subscribe") == Bool(true)
    ensures listChanged ==> Lookup(r, "listChanged") == Bool(true)
    ensures |Dict.Keys(r)| == (if subscribe then 1 else 0) + (if listChanged then 1 else 0)
  {
    var withSubscribe := if subscribe then With([], "subscribe", Bool(true)) else [];
    if listChanged then With(withSubscribe, "listChanged", Bool(true)) else withSubscribe
  }

  /** `$config ?? new \stdClass`: a null configuration is sent as an empty object. */
  function ConfigValue(config: Option<PhpArray>): (v: Value)
    ensures config.Some? ==> v == Arr(config.value)
    ensures config.None? ==> v == EmptyObject
  {
    match config
    case Some(c) => Arr(c)
    case None => EmptyObject
  }

  /** `if ($supported) $capabilities[$name] = $config ?? new \stdClass;`, as its own piece. */
  function Entry(name: string, supported: bool, config: Option<PhpArray>): (r: PhpArray)
    ensures Dict.Keys(r) == if supported then [StrKey(name)] else []
    ensures Lookup(r, name) == if supported then ConfigValue(config) else Null
  {
    if supported then [(StrKey(name), ConfigValue(config))] else []
  }

  /** Appending a piece that does not hold the key leaves its lookup alone, and the other way round. */
  lemma Join(a: PhpArray, b: PhpArray, k: string)
    ensures Dict.Keys(a + b) == Dict.Keys(a) + Dict.Keys(b)
    ensures StrKey(k) !in Dict.Keys(b) ==> Lookup(a + b, k) == Lookup(a, k)
    ensures StrKey(k) !in Dict.Keys(a) ==> Lookup(a + b, k) == Lookup(b, k)
  {
    Dict.KeysAppend(a, b);
    Dict.GetAppend(a, b, StrKey(k));
    if StrKey(k) !in Dict.Keys(b) && Dict.HasKey(a + b, StrKey(k)) {
      assert Dict.HasKey(a, StrKey(k));
    }
  }

  class ServerCapabilities {
    var supportsResources: bool
    var resourcesConfig: Option<PhpArray>
    var supportsTools: bool
    var toolsConfig: Option<PhpArray>
    var supportsPrompts: bool
    var promptsConfig: Option<PhpArray>
    var supportsSampling: bool
    var samplingConfig: Option<PhpArray>

    /** A fresh instance supports nothing. */
    constructor ()
      ensures !supportsResources && !supportsTools && !supportsPrompts && !supportsSampling
      ensures resourcesConfig.None? && toolsConfig.None? && promptsConfig.None? && samplingConfig.None?
      ensures ToArray() == []
    {
      supportsResources, resourcesConfig := false, None;
      supportsTools, toolsConfig := false, None;
      supportsPrompts, promptsConfig := false, None;
      supportsSampling, samplingConfig := false, None;
    }

    /**
     * `toArray()`: one key per supported capability, in the order resources,
     * tools, prompts, sampling, holding its configuration.
     */
    function ToArray(): (r: PhpArray)
      reads this
      ensures Dict.Keys(r) == (if supportsResources then [StrKey("resources")] else [])
                              + (if supportsTools then [StrKey("tools")] else [])
                              + (if supportsPrompts then [StrKey("prompts")] else [])
                              + (if supportsSampling then [StrKey("sampling")] else [])
      ensures Lookup(r, "resources") == if supportsResources then ConfigValue(resourcesConfig) else Null
      ensures Lookup(r, "tools") == if supportsTools then ConfigValue(toolsConfig) else Null
      ensures Lookup(r, "prompts") == if supportsPrompts then ConfigValue(promptsConfig) else Null
      ensures Lookup(r, "sampling") == if supportsSampling then ConfigValue(samplingConfig) else Null
    {
      var e1 := Entry("resources", supportsResources, resourcesConfig);
      var e2 := Entry("tools", supportsTools, toolsConfig);
      var e3 := Entry("prompts", supportsPrompts, promptsConfig);
      var e4 := Entry("sampling", supportsSampling, samplingConfig);
      Join(e1, e2, "resources");
      Join(e1, e2, "tools");
      Join(e1 + e2, e3, "resources");
      Join(e1 + e2, e3, "tools");
      Join(e1 + e2, e3, "prompts");
      Join(e1 + e2 + e3, e4, "resources");
      Join(e1 + e2 + e3, e4, "tools");
      Join(e1 + e2 + e3, e4, "prompts");
      Join(e1 + e2 + e3, e4, "sampling");
      e1 + e2 + e3 + e4
    }

    /** `withResources($subscribe, $listChanged)`: replaces only the resources capability. */
    method WithResources(subscribe: bool := false, listChanged: bool := false) returns (r: ServerCapabilities)
      modifies this
      ensures r == this
      ensures supportsResources && resourcesConfig == Some(ResourcesConfig(subscribe, listChanged))
      ensures supportsTools == old(supportsTools) && toolsConfig == old(toolsConfig)
      ensures supportsPrompts == old(supportsPrompts) && promptsConfig == old(promptsConfig)
      ensures supportsSampling == old(supportsSampling) && samplingConfig == old(samplingConfig)
    {
      supportsResources := true;
      var config: PhpArray := [];
      if subscribe {
        config := With(config, "subscribe", Bool(true));
      }
      if listChanged {
        config := With(config, "listChanged", Bool(true));
      }
      resourcesConfig := Some(config);
      return this;
    }

    /** `withTools($config)`: stores the configuration as given, null included. */
    method WithTools(config: Option<PhpArray> := Some([])) returns (r: ServerCapabilities)
      modifies this
      ensures r == this
      ensures supportsTools && toolsConfig == config
      ensures supportsResources == old(supportsResources) && resourcesConfig == old(resourcesConfig)
      ensures supportsPrompts == old(supportsPrompts) && promptsConfig == old(promptsConfig)
      ensures supportsSampling == old(supportsSampling) && samplingConfig == old(samplingConfig)
    {
      supportsTools := true;
      toolsConfig := config;
      return this;
    }

    /** `withPrompts($config)`. */
    method WithPrompts(config: Option<PhpArray> := Some([])) returns (r: ServerCapabilities)
      modifies this
      ensures r == this
      ensures supportsPrompts && promptsConfig == config
      ensures supportsResources == old(supportsResources) && resourcesConfig == old(resourcesConfig)
      ensures supportsTools == old(supportsTools) && toolsConfig == old(toolsConfig)
      ensures supportsSampling == old(supportsSampling) && samplingConfig == old(samplingConfig)
    {
      supportsPrompts := true;
      promptsConfig := config;
      return this;
    }

    /** `withSampling($config)`. */
    method WithSampling(config: Option<PhpArray> := Some([])) returns (r: ServerCapabilities)
      modifies this
      ensures r == this
      ensures supportsSampling && samplingConfig == config
      ensures supportsResources == old(supportsResources) && resourcesConfig == old(resourcesConfig)
      ensures supportsTools == old(supportsTools) && toolsConfig == old(toolsConfig)
      ensures supportsPrompts == old(supportsPrompts) && promptsConfig == old(promptsConfig)
    {
      supportsSampling := true;
      samplingConfig := config;
      return this;
    }
  }

  /**
   * With neither sub-feature the resources configuration is an empty array,
   * which is sent as `[]` and not as the empty-object fallback.
   */
  lemma PlainResourcesIsEmptyArray()
    ensures ResourcesConfig(false, false) == []
    ensures ConfigValue(Some(ResourcesConfig(false, false))) == Arr([])
  {
  }

  /** A null tools configuration is sent as `{}`. */
  lemma NullConfigIsEmptyObject()
    ensures ConfigValue(None) == EmptyObject
  {
  }

  /** Chaining: after enabling tools and then resources, both keys appear, resources first. */
  method EnableToolsThenResources(c: ServerCapabilities)
    modifies c
    ensures |Dict.Keys(c.ToArray())| >= 2
    ensures Dict.Keys(c.ToArray())[0] == StrKey("resources") && Dict.Keys(c.ToArray())[1] == StrKey("tools")
    ensures Lookup(c.ToArray(), "tools") == Arr([])
  {
    var same := c.WithTools();
    same := same.WithResources(true, false);
  }
}
