/**
 * The static configuration of the ALEPE data server: the default settings,
 * which filter keys each endpoint allows and the rule each filter key's value
 * must satisfy. Nothing here changes once loaded.
 */
module Config {
  import opened Wrappers
  import opened Builtins
  import opened OrderedDict

  /** The application settings; the model uses the defaults (no environment or .env override). */
  datatype Settings = Settings(
    alepeBaseUrl: string,
    timeout: real,
    maxRetries: int,
    retryDelay: real,
    rateLimitRequests: int,
    userAgent: string,
    supportedFormats: seq<string>,
    availableEndpoints: seq<(string, string)>,
    logLevel: string)

  const DefaultSettings := Settings(
    alepeBaseUrl := "https://dadosabertos.alepe.pe.gov.br/api/v1",
    timeout := 30.0,
    maxRetries := 3,
    retryDelay := 1.0,
    rateLimitRequests := 60,
    userAgent := "MCP-ALEPE/0.1.0 (Data Access Tool)",
    supportedFormats := ["json", "csv"],
    availableEndpoints := [
      ("parlamentares", "Dados dos deputados estaduais"),
      ("cargos", "Cargos disponíveis na ALEPE"),
      ("lotacoes", "Lotações organizacionais"),
      ("servidores", "Dados dos servidores públicos"),
      ("remuneracao", "Informações de remuneração"),
      ("licitacoes", "Processos licitatórios"),
      ("contratos", "Contratos firmados")],
    logLevel := "INFO")

  const ApiVersion := "v1"
  const DefaultFormat := "json"
  const MaxItemsPerRequest := 1000

  /** The allowed filter keys of each endpoint, in declaration order. */
  const EndpointFilters: seq<(string, seq<string>)> := [
    ("parlamentares", ["partido", "situacao", "legislatura"]),
    ("servidores", ["vinculo", "situacao", "cargo", "lotacao"]),
    ("contratos", ["ano", "valor_min", "valor_max", "fornecedor"]),
    ("licitacoes", ["ano", "modalidade", "situacao"]),
    ("remuneracao", ["ano", "mes", "vinculo"])]

  /** A filter rule: a list of accepted strings, or `lo <= int(x) <= hi`. */
  datatype Rule = OneOf(values: seq<string>) | IntRange(lo: int, hi: int)

  const FilterValidations: seq<(string, Rule)> := [
    ("formato", OneOf(["json", "csv"])),
    ("situacao", OneOf(["ativo", "inativo"])),
    ("vinculo", OneOf(["efetivo", "comissionado", "terceirizado", "estagiario"])),
    ("ano", IntRange(2000, 2025)),
    ("mes", IntRange(1, 12))]

  function AvailableEndpointNames(): seq<string>
  {
    Keys(DefaultSettings.availableEndpoints)
  }

  /** `ENDPOINT_FILTERS.get(endpoint, [])`. */
  function AllowedFilters(endpoint: string): seq<string>
  {
    match Get(EndpointFilters, endpoint)
    case Some(keys) => keys
    case None => []
  }

  /** `FILTER_VALIDATIONS.get(key)`. */
  function RuleFor(key: string): Option<Rule>
  {
    Get(FilterValidations, key)
  }

  /**
   * Whether a value passes a rule: list membership by equality (so only a
   * string can match, case-sensitively), or the range lambda, in which a
   * failing `int(x)` counts as a rejection.
   */
  function RuleAccepts(rule: Rule, v: Value): (ok: bool)
    ensures rule.OneOf? ==> (ok <==> v.VStr? && v.s in rule.values)
    ensures rule.IntRange? ==> (ok <==> ToInt(v).Some? && rule.lo <= ToInt(v).value <= rule.hi)
  {
    match rule
    case OneOf(values) => v.VStr? && v.s in values
    case IntRange(lo, hi) =>
      match ToInt(v)
      case Some(n) => lo <= n <= hi
      case None => false
  }

  // ------------------------------------------------------------ facts about the catalog

  lemma SupportedFormatsAreJsonThenCsv()
    ensures DefaultSettings.supportedFormats == ["json", "csv"]
  {
  }

  lemma SevenEndpoints()
    ensures AvailableEndpointNames() ==
      ["parlamentares", "cargos", "lotacoes", "servidores", "remuneracao", "licitacoes", "contratos"]
    ensures NoDupKeys(DefaultSettings.availableEndpoints)
  {
  }

  lemma FilteredEndpointsAreAvailable()
    ensures forall k :: k in Keys(EndpointFilters) ==> k in AvailableEndpointNames()
    ensures AllowedFilters("cargos") == [] && AllowedFilters("lotacoes") == []
    ensures forall e :: e !in AvailableEndpointNames() ==> AllowedFilters(e) == []
  {
    SevenEndpoints();
  }

  lemma EnumeratedRules()
    ensures RuleFor("formato") == Some(OneOf(["json", "csv"]))
    ensures RuleFor("situacao") == Some(OneOf(["ativo", "inativo"]))
    ensures RuleFor("vinculo") == Some(OneOf(["efetivo", "comissionado", "terceirizado", "estagiario"]))
  {
  }

  /** The `ano` rule holds exactly when 2000 <= int(x) <= 2025, the `mes` rule when 1 <= int(x) <= 12. */
  lemma RangeRules(v: Value)
    ensures RuleFor("ano").Some? && (RuleAccepts(RuleFor("ano").value, v) <==> ToInt(v).Some? && 2000 <= ToInt(v).value <= 2025)
    ensures RuleFor("mes").Some? && (RuleAccepts(RuleFor("mes").value, v) <==> ToInt(v).Some? && 1 <= ToInt(v).value <= 12)
  {
    RuleForTable("ano");
    RuleForTable("mes");
  }

  /** ENDPOINT_FILTERS spelled out key by key. */
  lemma AllowedFiltersTable(endpoint: string)
    ensures AllowedFilters(endpoint) ==
      if endpoint == "parlamentares" then ["partido", "situacao", "legislatura"]
      else if endpoint == "servidores" then ["vinculo", "situacao", "cargo", "lotacao"]
      else if endpoint == "contratos" then ["ano", "valor_min", "valor_max", "fornecedor"]
      else if endpoint == "licitacoes" then ["ano", "modalidade", "situacao"]
      else if endpoint == "remuneracao" then ["ano", "mes", "vinculo"]
      else []
  {
    var t := EndpointFilters;
    assert Get(t, endpoint) == if t[0].0 == endpoint then Some(t[0].1) else Get(t[1..], endpoint);
    assert Get(t[1..], endpoint) == if t[1].0 == endpoint then Some(t[1].1) else Get(t[2..], endpoint);
    assert Get(t[2..], endpoint) == if t[2].0 == endpoint then Some(t[2].1) else Get(t[3..], endpoint);
    assert Get(t[3..], endpoint) == if t[3].0 == endpoint then Some(t[3].1) else Get(t[4..], endpoint);
    assert Get(t[4..], endpoint) == if t[4].0 == endpoint then Some(t[4].1) else Get(t[5..], endpoint);
    assert t[5..] == [];
  }

  /** FILTER_VALIDATIONS spelled out key by key. */
  lemma RuleForTable(key: string)
    ensures RuleFor(key) ==
      if key == "formato" then Some(OneOf(["json", "csv"]))
      else if key == "situacao" then Some(OneOf(["ativo", "inativo"]))
      else if key == "vinculo" then Some(OneOf(["efetivo", "comissionado", "terceirizado", "estagiario"]))
      else if key == "ano" then Some(IntRange(2000, 2025))
      else if key == "mes" then Some(IntRange(1, 12))
      else None
  {
    var t := FilterValidations;
    assert Get(t, key) == if t[0].0 == key then Some(t[0].1) else Get(t[1..], key);
    assert Get(t[1..], key) == if t[1].0 == key then Some(t[1].1) else Get(t[2..], key);
    assert Get(t[2..], key) == if t[2].0 == key then Some(t[2].1) else Get(t[3..], key);
    assert Get(t[3..], key) == if t[3].0 == key then Some(t[3].1) else Get(t[4..], key);
    assert Get(t[4..], key) == if t[4].0 == key then Some(t[4].1) else Get(t[5..], key);
    assert t[5..] == [];
  }

  predicate IsAvailableEndpoint(endpoint: string)
  {
    endpoint in AvailableEndpointNames()
  }

  lemma AvailableEndpointIff(endpoint: string)
    ensures IsAvailableEndpoint(endpoint) <==>
      endpoint == "parlamentares" || endpoint == "cargos" || endpoint == "lotacoes" || endpoint == "servidores"
      || endpoint == "remuneracao" || endpoint == "licitacoes" || endpoint == "contratos"
  {
    SevenEndpoints();
  }

  lemma RetryAndRateDefaults()
    ensures DefaultSettings.maxRetries == 3
    ensures DefaultSettings.retryDelay == 1.0
    ensures DefaultSettings.rateLimitRequests == 60
  {
  }
}
