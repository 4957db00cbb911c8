/**
 * The builtin-tool catalog: listing every provider with its tools, and
 * looking up one tool of one provider. The catalog file and the table of
 * tool implementations are parameters.
 */
module BuiltinToolManager {
  import opened Wrappers
  import opened Json

  /** A parameter description of a catalog tool: its fields as a record; a missing key is `undefined`. */
  type Param = map<string, Json>

  datatype CatalogTool = CatalogTool(name: string, labelText: string, description: string, params: seq<Param>)

  datatype CatalogProvider = CatalogProvider(name: string, labelText: string, description: string, category: string,
                                             background: string, created_at: int, tools: seq<CatalogTool>)

  /** One input of a tool as read from its argument schema. */
  datatype InputMeta = InputMeta(name: string, inputType: string, required: bool, description: string)

  /** A tool implementation's `argsSchema`: `null`, or a schema whose field metadata is given. */
  datatype ArgsSchema = NoSchema | Schema(fields: seq<InputMeta>)

  /** The implementations by tool name. */
  type Registry = map<string, ArgsSchema>

  // ---------------------------------------------------------------------
  // formatParams

  /** `value ?? fallback`: the fallback replaces `null` and `undefined` only. */
  function OrElse(param: Param, key: string, fallback: Json): (v: Json)
    ensures key !in param || param[key] == JNull ==> v == fallback
    ensures key in param && param[key] != JNull ==> v == param[key]
  {
    if key in param && param[key] != JNull then param[key] else fallback
  }

  const FilledKeys: set<string> := {"default", "min", "max", "help"}

  /** `{ ...param, default, min, max, help }` with the four fields defaulted. */
  function FormatParam(param: Param): (r: Param)
    ensures r.Keys == param.Keys + FilledKeys
    ensures forall k :: k in param && k !in FilledKeys ==> r[k] == param[k]
  {
    param["default" := OrElse(param, "default", JNull)]
         ["min" := OrElse(param, "min", JNull)]
         ["max" := OrElse(param, "max", JNull)]
         ["help" := OrElse(param, "help", JString(""))]
  }

  /** `formatParams`: each entry formatted, same length and order. */
  function FormatParams(params: seq<Param>): (r: seq<Param>)
    ensures |r| == |params|
    ensures forall i :: 0 <= i < |params| ==> r[i] == FormatParam(params[i])
  {
    seq(|params|, i requires 0 <= i < |params| => FormatParam(params[i]))
  }

  /**
   * `default`, `min` and `max` become null and `help` becomes '' only when
   * they are null or missing; any other value, falsy ones such as 0 or ''
   * included, is kept.
   */
  lemma FormatParamFields(param: Param)
    ensures var r := FormatParam(param);
            (forall k :: k in {"default", "min", "max"} ==>
              r[k] == (if k in param && param[k] != JNull then param[k] else JNull)) &&
            r["help"] == (if "help" in param && param["help"] != JNull then param["help"] else JString(""))
  {
  }

  /** Formatting one entry twice is the same as formatting it once. */
  lemma FormatParamIdempotent(param: Param)
    ensures FormatParam(FormatParam(param)) == FormatParam(param)
  {
    var once := FormatParam(param);
    var twice := FormatParam(once);
    assert twice.Keys == once.Keys;
    forall k | k in once
      ensures twice[k] == once[k]
    {
    }
  }

  /** `formatParams` is idempotent: formatting an already formatted list changes nothing. */
  lemma FormatParamsIdempotent(params: seq<Param>)
    ensures FormatParams(FormatParams(params)) == FormatParams(params)
  {
    forall i | 0 <= i < |params|
      ensures FormatParam(FormatParam(params[i])) == FormatParam(params[i])
    {
      FormatParamIdempotent(params[i]);
    }
  }

  // ---------------------------------------------------------------------
  // getAllBuiltinTools

  datatype ToolEntry = ToolEntry(name: string, labelText: string, description: string,
                                 inputs: seq<InputMeta>, params: seq<Param>)

  datatype ProviderEntry = ProviderEntry(name: string, labelText: string, description: string, category: string,
                                         background: string, created_at: int, createdAt: int, tools: seq<ToolEntry>)

  /** Every tool the catalog lists has an implementation. */
  predicate Registered(catalog: seq<CatalogProvider>, registry: Registry) {
    forall i, k :: 0 <= i < |catalog| && 0 <= k < |catalog[i].tools| ==> catalog[i].tools[k].name in registry
  }

  /** The inputs of a tool: its schema's fields, or none when `argsSchema` is null. */
  function Inputs(schema: ArgsSchema): (inputs: seq<InputMeta>)
    ensures schema.NoSchema? ==> inputs == []
    ensures schema.Schema? ==> inputs == schema.fields
  {
    match schema
    case NoSchema => []
    case Schema(fields) => fields
  }

  /** `{ ...tool, inputs, params: formatParams(tool.params) }`. */
  function ToolEntryOf(tool: CatalogTool, registry: Registry): (e: ToolEntry)
    requires tool.name in registry
    ensures e.name == tool.name && e.labelText == tool.labelText && e.description == tool.description
    ensures registry[tool.name].NoSchema? ==> e.inputs == []
    ensures registry[tool.name].Schema? ==> e.inputs == registry[tool.name].fields
    ensures |e.params| == |tool.params|
    ensures forall k :: 0 <= k < |e.params| ==> e.params[k] == FormatParam(tool.params[k])
    ensures forall k :: 0 <= k < |e.params| ==> FilledKeys <= e.params[k].Keys
  {
    ToolEntry(tool.name, tool.labelText, tool.description, Inputs(registry[tool.name]), FormatParams(tool.params))
  }

  /** `{ ...provider, createdAt: created_at * 1000, tools: provider.tools.map(...) }`. */
  function ProviderEntryOf(provider: CatalogProvider, registry: Registry): (e: ProviderEntry)
    requires forall k :: 0 <= k < |provider.tools| ==> provider.tools[k].name in registry
    ensures e.createdAt == provider.created_at * 1000
    ensures |e.tools| == |provider.tools|
    ensures forall k :: 0 <= k < |provider.tools| ==> e.tools[k] == ToolEntryOf(provider.tools[k], registry)
  {
    ProviderEntry(provider.name, provider.labelText, provider.description, provider.category, provider.background,
                  provider.created_at, provider.created_at * 1000,
                  seq(|provider.tools|, k requires 0 <= k < |provider.tools| => ToolEntryOf(provider.tools[k], registry)))
  }

  /** `getAllBuiltinTools`: the `for ... of` loop pushing one entry per catalog provider. */
  method GetAllBuiltinTools(catalog: seq<CatalogProvider>, registry: Registry) returns (result: seq<ProviderEntry>)
    requires Registered(catalog, registry)
    ensures |result| == |catalog|
    ensures forall i :: 0 <= i < |catalog| ==> result[i] == ProviderEntryOf(catalog[i], registry)
  {
    result := [];
    for i := 0 to |catalog|
      invariant |result| == i
      invariant forall j :: 0 <= j < i ==> result[j] == ProviderEntryOf(catalog[j], registry)
    {
      var provider := catalog[i];
      var tools := seq(|provider.tools|, k requires 0 <= k < |provider.tools| =>
                        ToolEntryOf(provider.tools[k], registry));
      result := result + [ProviderEntry(provider.name, provider.labelText, provider.description, provider.category,
                                        provider.background, provider.created_at, provider.created_at * 1000, tools)];
    }
  }

  /** Every listed entry keeps the provider's fields, with `createdAt` in milliseconds and the tools in catalog order. */
  lemma ProviderEntryFields(provider: CatalogProvider, registry: Registry)
    requires forall k :: 0 <= k < |provider.tools| ==> provider.tools[k].name in registry
    ensures var e := ProviderEntryOf(provider, registry);
            e.name == provider.name && e.labelText == provider.labelText && e.description == provider.description &&
            e.category == provider.category && e.background == provider.background &&
            e.created_at == provider.created_at && e.createdAt == 1000 * provider.created_at &&
            (forall k :: 0 <= k < |e.tools| ==>
               e.tools[k].name == provider.tools[k].name && e.tools[k].labelText == provider.tools[k].labelText &&
               e.tools[k].description == provider.tools[k].description &&
               e.tools[k].params == FormatParams(provider.tools[k].params))
  {
  }

  // ---------------------------------------------------------------------
  // getSpecificTool

  /** `builtinTools.find(p => p.name === providerName)`, as an index. */
  function FindProvider(catalog: seq<CatalogProvider>, providerName: string): (r: Option<nat>)
    ensures r.None? <==> forall i :: 0 <= i < |catalog| ==> catalog[i].name != providerName
    ensures r.Some? ==> r.value < |catalog| && catalog[r.value].name == providerName
    ensures r.Some? ==> forall i :: 0 <= i < r.value ==> catalog[i].name != providerName
  {
    if |catalog| == 0 then None
    else if catalog[0].name == providerName then Some(0)
    else
      var rest := FindProvider(catalog[1..], providerName);
      assert forall i :: 1 <= i < |catalog| ==> catalog[i] == catalog[1..][i - 1];
      if rest.None? then None else Some(rest.value + 1)
  }

  /** `provider.tools.find(t => t.name === toolName)`, as an index. */
  function FindTool(tools: seq<CatalogTool>, toolName: string): (r: Option<nat>)
    ensures r.None? <==> forall k :: 0 <= k < |tools| ==> tools[k].name != toolName
    ensures r.Some? ==> r.value < |tools| && tools[r.value].name == toolName
    ensures r.Some? ==> forall k :: 0 <= k < r.value ==> tools[k].name != toolName
  {
    if |tools| == 0 then None
    else if tools[0].name == toolName then Some(0)
    else
      var rest := FindTool(tools[1..], toolName);
      assert forall k :: 1 <= k < |tools| ==> tools[k] == tools[1..][k - 1];
      if rest.None? then None else Some(rest.value + 1)
  }

  /** The provider as reported with a single tool: exactly these five fields. */
  datatype ProviderSummary = ProviderSummary(name: string, labelText: string, description: string,
                                             category: string, background: string)

  datatype SpecificTool = SpecificTool(provider: ProviderSummary, name: string, labelText: string, description: string,
                                       inputs: seq<InputMeta>, params: seq<Param>)

  /** The lookup reaches a tool: the first provider with the name has a tool with the name. */
  predicate ToolFound(catalog: seq<CatalogProvider>, providerName: string, toolName: string) {
    var p := FindProvider(catalog, providerName);
    p.Some? && FindTool(catalog[p.value].tools, toolName).Some?
  }

  /** `getSpecificTool`: null when the provider or the tool is missing, otherwise the first matches. */
  function GetSpecificTool(catalog: seq<CatalogProvider>, registry: Registry, providerName: string, toolName: string)
    : (r: Option<SpecificTool>)
    requires ToolFound(catalog, providerName, toolName) ==> toolName in registry
    ensures r.Some? <==> ToolFound(catalog, providerName, toolName)
  {
    match FindProvider(catalog, providerName)
    case None => None
    case Some(i) =>
      var provider := catalog[i];
      var summary := ProviderSummary(provider.name, provider.labelText, provider.description,
                                     provider.category, provider.background);
      match FindTool(provider.tools, toolName)
      case None => None
      case Some(k) =>
        var tool := provider.tools[k];
        Some(SpecificTool(summary, tool.name, tool.labelText, tool.description,
                          Inputs(registry[tool.name]), FormatParams(tool.params)))
  }

  /** No provider of that name: null. */
  lemma MissingProvider(catalog: seq<CatalogProvider>, registry: Registry, providerName: string, toolName: string)
    requires forall i :: 0 <= i < |catalog| ==> catalog[i].name != providerName
    ensures GetSpecificTool(catalog, registry, providerName, toolName) == None
  {
  }

  /** The provider exists but the first one of that name lacks the tool: null. */
  lemma MissingTool(catalog: seq<CatalogProvider>, registry: Registry, providerName: string, toolName: string, i: nat)
    requires i < |catalog| && catalog[i].name == providerName
    requires forall j :: 0 <= j < i ==> catalog[j].name != providerName
    requires forall k :: 0 <= k < |catalog[i].tools| ==> catalog[i].tools[k].name != toolName
    ensures GetSpecificTool(catalog, registry, providerName, toolName) == None
  {
  }

  /**
   * A hit reports the first provider with the name, summarised by its five
   * fields, and its first tool with the name: the same name, label,
   * description, inputs and formatted params that the full listing shows
   * for that provider and tool.
   */
  lemma SpecificToolHit(catalog: seq<CatalogProvider>, registry: Registry, providerName: string, toolName: string,
                        i: nat, k: nat)
    requires Registered(catalog, registry)
    requires i < |catalog| && catalog[i].name == providerName
    requires forall j :: 0 <= j < i ==> catalog[j].name != providerName
    requires k < |catalog[i].tools| && catalog[i].tools[k].name == toolName
    requires forall l :: 0 <= l < k ==> catalog[i].tools[l].name != toolName
    ensures var r := GetSpecificTool(catalog, registry, providerName, toolName);
            var p := catalog[i];
            var listed := ProviderEntryOf(p, registry).tools[k];
            r == Some(SpecificTool(ProviderSummary(p.name, p.labelText, p.description, p.category, p.background),
                                   listed.name, listed.labelText, listed.description, listed.inputs, listed.params))
  {
    var p := FindProvider(catalog, providerName);
    assert p == Some(i);
    assert FindTool(catalog[i].tools, toolName) == Some(k);
  }
}
