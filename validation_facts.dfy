/**
 * What request validation guarantees: every accepted request is well formed
 * (soundness), every well-formed request is accepted back from its own
 * keyword arguments (a round trip), and the behaviour on the inputs the
 * server's tools actually pass.
 */
module ValidationFacts {
  import opened Wrappers
  import opened Builtins
  import opened OrderedDict
  import opened Config
  import opened Validators

  function OptStr(v: Option<string>): Param
  {
    if v.Some? then Scalar(VStr(v.value)) else Scalar(VNone)
  }

  function OptInt(v: Option<int>): Param
  {
    if v.Some? then Scalar(VInt(v.value)) else Scalar(VNone)
  }

  function OptReal(v: Option<real>): Param
  {
    if v.Some? then Scalar(VFloat(v.value)) else Scalar(VNone)
  }

  /** The keyword arguments that spell out a request field by field. */
  function AsParams(req: Request): map<string, Param>
  {
    var common := map[
      "endpoint" := Scalar(VStr(req.Endpoint())),
      "formato" := Scalar(VStr(req.formato)),
      "filters" := Mapping(req.filters)];
    match req
    case ApiRequest(_, _, _) => common
    case ParlamentarRequest(_, _, partido, situacao, legislatura) =>
      common["partido" := OptStr(partido)]["situacao" := OptStr(situacao)]["legislatura" := OptInt(legislatura)]
    case ServidorRequest(_, _, vinculo, situacao, cargo, lotacao) =>
      common["vinculo" := OptStr(vinculo)]["situacao" := OptStr(situacao)]["cargo" := OptStr(cargo)]["lotacao" := OptStr(lotacao)]
    case ContratoRequest(_, _, ano, valorMin, valorMax, fornecedor) =>
      common["ano" := OptInt(ano)]["valor_min" := OptReal(valorMin)]["valor_max" := OptReal(valorMax)]["fornecedor" := OptStr(fornecedor)]
    case LicitacaoRequest(_, _, ano, modalidade, situacao) =>
      common["ano" := OptInt(ano)]["modalidade" := OptStr(modalidade)]["situacao" := OptStr(situacao)]
    case RemuneracaoRequest(_, _, ano, mes, vinculo) =>
      common["ano" := OptInt(ano)]["mes" := OptInt(mes)]["vinculo" := OptStr(vinculo)]
  }

  // ------------------------------------------------------------ soundness

  /** `validate_request_parameters` accepts only well-formed requests of the class mapped to the endpoint name. */
  lemma ValidateParametersSound(endpoint: string, params: map<string, Param>, currentYear: int)
    ensures var r := ValidateParameters(endpoint, params, currentYear);
      r.Success? ==>
        && WellFormed(r.value, currentYear)
        && r.value.Class() == ClassFor(endpoint)
        && r.value.Endpoint() == (if "endpoint" in params then ValueString(params["endpoint"]) else endpoint)
  {
  }

  function ValueString(p: Param): string
  {
    if p.Scalar? && p.v.VStr? then p.v.s else ""
  }

  // ------------------------------------------------------------ round trip

  lemma LowerOfSupported(f: string)
    requires f in DefaultSettings.supportedFormats
    ensures Lower(f) == f
  {
    if f == "json" {
      assert Lower(f) == "json";
    } else {
      assert Lower(f) == "csv";
    }
  }

  /** The common fields of a well-formed request are rebuilt from its keyword arguments. */
  lemma CommonFieldsRoundTrip(req: Request, currentYear: int)
    requires WellFormed(req, currentYear)
    ensures var params := AsParams(req);
      && EndpointField(req.Class(), Arg(params, "endpoint")) == Success(req.Endpoint())
      && FormatoField(Arg(params, "formato")) == Success(req.formato)
      && FiltersField(req.Endpoint(), Arg(params, "filters")) == Success(req.filters)
  {
    LowerOfSupported(req.formato);
    AvailableEndpointIff(req.Endpoint());
    var params := AsParams(req);
    assert Arg(params, "endpoint") == Some(Scalar(VStr(req.Endpoint())));
    assert Arg(params, "formato") == Some(Scalar(VStr(req.formato)));
    assert Arg(params, "filters") == Some(Mapping(req.filters));
  }

  /** Every well-formed request is rebuilt, unchanged, from its own keyword arguments. */
  lemma ConstructRoundTrip(req: Request, currentYear: int)
    requires WellFormed(req, currentYear)
    ensures Construct(req.Class(), AsParams(req), currentYear) == Success(req)
  {
    CommonFieldsRoundTrip(req, currentYear);
    if !req.ApiRequest? {
      OwnFieldsRoundTrip(req, currentYear);
    }
  }

  /** The fields a subclass adds are rebuilt from the request's keyword arguments. */
  lemma OwnFieldsRoundTrip(req: Request, currentYear: int)
    requires WellFormed(req, currentYear) && !req.ApiRequest?
    ensures var params := AsParams(req);
      match req
      case ApiRequest(_, _, _) => true
      case ParlamentarRequest(_, _, _, _, _) => ParlamentarFields(req.formato, req.filters, params) == Success(req)
      case ServidorRequest(_, _, _, _, _, _) => ServidorFields(req.formato, req.filters, params) == Success(req)
      case ContratoRequest(_, _, _, _, _, _) => ContratoFields(req.formato, req.filters, params, currentYear) == Success(req)
      case LicitacaoRequest(_, _, _, _, _) => LicitacaoFields(req.formato, req.filters, params, currentYear) == Success(req)
      case RemuneracaoRequest(_, _, _, _, _) => RemuneracaoFields(req.formato, req.filters, params, currentYear) == Success(req)
  {
    match req
    case ParlamentarRequest(_, _, _, _, _) => ParlamentarRoundTrip(req, currentYear);
    case ServidorRequest(_, _, _, _, _, _) => ServidorRoundTrip(req, currentYear);
    case ContratoRequest(_, _, _, _, _, _) => ContratoRoundTrip(req, currentYear);
    case LicitacaoRequest(_, _, _, _, _) => LicitacaoRoundTrip(req, currentYear);
    case RemuneracaoRequest(_, _, _, _, _) => RemuneracaoRoundTrip(req, currentYear);
  }

  lemma ParlamentarRoundTrip(req: Request, currentYear: int)
    requires WellFormed(req, currentYear) && req.ParlamentarRequest?
    ensures ParlamentarFields(req.formato, req.filters, AsParams(req)) == Success(req)
  {
    var params := AsParams(req);
    var ParlamentarRequest(formato, filters, partido, situacao, legislatura) := req;
    assert Arg(params, "partido") == Some(OptStr(partido));
    assert Arg(params, "situacao") == Some(OptStr(situacao));
    assert Arg(params, "legislatura") == Some(OptInt(legislatura));
  }

  lemma ServidorRoundTrip(req: Request, currentYear: int)
    requires WellFormed(req, currentYear) && req.ServidorRequest?
    ensures ServidorFields(req.formato, req.filters, AsParams(req)) == Success(req)
  {
    var params := AsParams(req);
    var ServidorRequest(formato, filters, vinculo, situacao, cargo, lotacao) := req;
    assert Arg(params, "vinculo") == Some(OptStr(vinculo));
    assert Arg(params, "situacao") == Some(OptStr(situacao));
    assert Arg(params, "cargo") == Some(OptStr(cargo));
    assert Arg(params, "lotacao") == Some(OptStr(lotacao));
  }

  lemma ContratoRoundTrip(req: Request, currentYear: int)
    requires WellFormed(req, currentYear) && req.ContratoRequest?
    ensures ContratoFields(req.formato, req.filters, AsParams(req), currentYear) == Success(req)
  {
    var params := AsParams(req);
    var ContratoRequest(formato, filters, ano, valorMin, valorMax, fornecedor) := req;
    assert Arg(params, "ano") == Some(OptInt(ano));
    assert Arg(params, "valor_min") == Some(OptReal(valorMin));
    assert Arg(params, "valor_max") == Some(OptReal(valorMax));
    assert Arg(params, "fornecedor") == Some(OptStr(fornecedor));
  }

  lemma LicitacaoRoundTrip(req: Request, currentYear: int)
    requires WellFormed(req, currentYear) && req.LicitacaoRequest?
    ensures LicitacaoFields(req.formato, req.filters, AsParams(req), currentYear) == Success(req)
  {
    var params := AsParams(req);
    var LicitacaoRequest(formato, filters, ano, modalidade, situacao) := req;
    assert Arg(params, "ano") == Some(OptInt(ano));
    assert Arg(params, "modalidade") == Some(OptStr(modalidade));
    assert Arg(params, "situacao") == Some(OptStr(situacao));
  }

  lemma RemuneracaoRoundTrip(req: Request, currentYear: int)
    requires WellFormed(req, currentYear) && req.RemuneracaoRequest?
    ensures RemuneracaoFields(req.formato, req.filters, AsParams(req), currentYear) == Success(req)
  {
    var params := AsParams(req);
    var RemuneracaoRequest(formato, filters, ano, mes, vinculo) := req;
    assert Arg(params, "ano") == Some(OptInt(ano));
    assert Arg(params, "mes") == Some(OptInt(mes));
    assert Arg(params, "vinculo") == Some(OptStr(vinculo));
  }

  /** The same round trip through `validate_request_parameters`, when the endpoint name maps to the request's class. */
  lemma ValidateParametersRoundTrip(req: Request, currentYear: int)
    requires WellFormed(req, currentYear)
    requires ClassFor(req.Endpoint()) == req.Class()
    ensures ValidateParameters(req.Endpoint(), AsParams(req), currentYear) == Success(req)
  {
    assert WithEndpoint(AsParams(req), req.Endpoint()) == AsParams(req);
    ConstructRoundTrip(req, currentYear);
  }

  // ------------------------------------------------------------ the endpoint argument

  /** An unknown endpoint name with no `endpoint` argument is rejected as unknown. */
  lemma UnknownEndpointRejected(endpoint: string, params: map<string, Param>, currentYear: int)
    requires !IsAvailableEndpoint(endpoint)
    requires "endpoint" !in params
    ensures ValidateParameters(endpoint, params, currentYear) == Failure(UnknownEndpoint(endpoint))
  {
    AvailableEndpointIff(endpoint);
    assert ClassFor(endpoint) == ApiRequestClass;
  }

  /**
   * With no arguments, each of the seven endpoints yields its class's
   * defaults: format "json", no filters, every optional field absent.
   */
  lemma DefaultsForEveryEndpoint(endpoint: string, currentYear: int)
    requires IsAvailableEndpoint(endpoint)
    ensures var r := ValidateParameters(endpoint, map[], currentYear);
      r.Success? && r.value.Endpoint() == endpoint && r.value.formato == "json" && r.value.filters == []
      && r.value.Class() == ClassFor(endpoint)
  {
    AvailableEndpointIff(endpoint);
  }

  /** A caller-supplied `endpoint` argument wins over the endpoint name on the base class. */
  lemma CallerEndpointWins(currentYear: int)
    ensures ValidateParameters("cargos", map["endpoint" := Scalar(VStr("contratos"))], currentYear)
      == Success(ApiRequest("contratos", "json", []))
    ensures ValidateParameters("parlamentares", map["endpoint" := Scalar(VStr("cargos"))], currentYear)
      == Failure(EndpointMismatch("parlamentares"))
  {
    AvailableEndpointIff("contratos");
  }

  /**
   * The deputies' tool drops the arguments that are None, so a search by
   * party passes just `formato` and `partido`; the party is kept as given.
   */
  lemma ToolCallByParty(currentYear: int)
    ensures ValidateParameters("parlamentares",
        map["formato" := Scalar(VStr("json")), "partido" := Scalar(VStr("PT"))], currentYear)
      == Success(ParlamentarRequest("json", [], Some("PT"), None, None))
  {
    var given := map["formato" := Scalar(VStr("json")), "partido" := Scalar(VStr("PT"))];
    var params := WithEndpoint(given, "parlamentares");
    assert Arg(params, "endpoint") == Some(Scalar(VStr("parlamentares")));
    assert Arg(params, "formato") == Some(Scalar(VStr("json")));
    assert Arg(params, "filters") == None;
    assert Arg(params, "partido") == Some(Scalar(VStr("PT")));
    assert Arg(params, "situacao") == None && Arg(params, "legislatura") == None;
    AvailableEndpointIff("parlamentares");
    assert EndpointField(ParlamentarClass, Arg(params, "endpoint")) == Success("parlamentares");
    assert Lower("json") == "json";
    assert FormatoField(Arg(params, "formato")) == Success("json");
    assert IsSigla("PT");
    assert ParlamentarFields("json", [], params) == Success(ParlamentarRequest("json", [], Some("PT"), None, None));
  }

  // ------------------------------------------------------------ formato

  /** `formato` is matched case-insensitively and stored in lower case. */
  lemma FormatoSpellings()
    ensures ValidateFormato("JSON") == Success("json")
    ensures ValidateFormato("Csv") == Success("csv")
    ensures ValidateFormato("xml") == Failure(UnsupportedFormat("xml"))
  {
    assert Lower("JSON") == "json";
    assert Lower("Csv") == "csv";
    assert Lower("xml") == "xml";
  }

  // ------------------------------------------------------------ filters

  /**
   * An endpoint with no allow-list accepts any key that has no rule; the
   * `formato` filter, unlike the field, is checked case-sensitively.
   */
  lemma FiltersWithoutAllowList()
    ensures CheckFilters([("qualquer", VInt(1))], Some("cargos")) == Success([("qualquer", VInt(1))])
    ensures CheckFilters([("formato", VStr("JSON"))], Some("cargos"))
      == Failure(InvalidFilterValue("formato", VStr("JSON"), OneOf(["json", "csv"])))
  {
    AllowedFiltersTable("cargos");
    RuleForTable("qualquer");
    RuleForTable("formato");
  }

  /** An endpoint with an allow-list rejects other keys. */
  lemma AllowListRejects()
    ensures CheckFilters([("ano", VInt(2020))], Some("parlamentares"))
      == Failure(UnknownFilter("parlamentares", "ano", ["partido", "situacao", "legislatura"]))
  {
    AllowedFiltersTable("parlamentares");
  }

  /** An endpoint with an allow-list always lets `formato` through. */
  lemma AllowListAdmitsFormato()
    ensures CheckFilters([("formato", VStr("csv")), ("partido", VStr("PT"))], Some("parlamentares"))
      == Success([("formato", VStr("csv")), ("partido", VStr("PT"))])
  {
    AllowedFiltersTable("parlamentares");
    RuleForTable("formato");
    RuleForTable("partido");
  }

  /**
   * On an endpoint that allows it (or allows everything), an `ano` filter
   * passes exactly when `int(x)` succeeds and lies in 2000..2025, and a
   * `mes` filter when it lies in 1..12.
   */
  lemma RangeFilter(endpoint: string, key: string, v: Value)
    requires key == "ano" || key == "mes"
    requires |AllowedFilters(endpoint)| == 0 || key in AllowedFilters(endpoint)
    ensures EntryOk(endpoint, (key, v)) <==>
      ToInt(v).Some? && if key == "ano" then 2000 <= ToInt(v).value <= 2025 else 1 <= ToInt(v).value <= 12
  {
    var rule := if key == "ano" then IntRange(2000, 2025) else IntRange(1, 12);
    assert RuleFor(key) == Some(rule) by { RuleForTable(key); }
    assert FilterEntryError(endpoint, key, v).None? <==> RuleAccepts(rule, v);
  }

  /**
   * On any endpoint that takes an `ano` filter, the filter is capped at 2025
   * whatever the current year, and takes the year as text too.
   */
  lemma AnoFilterBounds(endpoint: string, y: int)
    requires |AllowedFilters(endpoint)| == 0 || "ano" in AllowedFilters(endpoint)
    ensures EntryOk(endpoint, ("ano", VInt(y))) <==> 2000 <= y <= 2025
    ensures EntryOk(endpoint, ("ano", VStr(IntToString(y)))) <==> 2000 <= y <= 2025
    ensures !EntryOk(endpoint, ("ano", VNone))
  {
    RangeFilter(endpoint, "ano", VInt(y));
    RangeFilter(endpoint, "ano", VNone);
    AnoAsText(endpoint, y);
  }

  lemma AnoAsText(endpoint: string, y: int)
    requires |AllowedFilters(endpoint)| == 0 || "ano" in AllowedFilters(endpoint)
    ensures EntryOk(endpoint, ("ano", VStr(IntToString(y)))) <==> 2000 <= y <= 2025
  {
    var s := IntToString(y);
    IntStringRoundTrip(y);
    assert ToInt(VStr(s)) == Some(y);
    RangeFilter(endpoint, "ano", VStr(s));
  }

  /** The `contratos` endpoint is one of them. */
  lemma ContratosTakesAno()
    ensures "ano" in AllowedFilters("contratos")
  {
    AllowedFiltersTable("contratos");
  }

  /** The `mes` filter accepts 1 to 12, and a float is truncated first. */
  lemma MesFilterBounds(endpoint: string, m: int)
    requires |AllowedFilters(endpoint)| == 0 || "mes" in AllowedFilters(endpoint)
    ensures EntryOk(endpoint, ("mes", VInt(m))) <==> 1 <= m <= 12
    ensures EntryOk(endpoint, ("mes", VFloat(12.9)))
  {
    RangeFilter(endpoint, "mes", VInt(m));
    RangeFilter(endpoint, "mes", VFloat(12.9));
  }

  // ------------------------------------------------------------ endpoint-specific fields

  /** Party acronyms: two to ten capital letters, or that followed by one newline. */
  lemma PartidoExamples()
    ensures ValidatePartido(Some("PT")).Success?
    ensures ValidatePartido(Some("PSDB")).Success?
    ensures ValidatePartido(Some("")).Success? && ValidatePartido(None).Success?
    ensures ValidatePartido(Some("pt")).Failure?
    ensures ValidatePartido(Some("P")).Failure?
    ensures ValidatePartido(Some("ABCDEFGHIJK")).Failure?
    ensures ValidatePartido(Some("PT\n")).Success?
  {
    assert !IsSigla("pt") by { assert "pt"[0] == 'p'; }
    assert "PT\n"[..2] == "PT";
  }

  /** The range checks are skipped for zero, Python's falsy int. */
  lemma ZeroSkipsRangeChecks(currentYear: int)
    ensures ValidateRange("legislatura", Some(0), 1, 20) == Success(Some(0))
    ensures ValidateRange("ano", Some(0), 2000, currentYear) == Success(Some(0))
    ensures ValidateRange("legislatura", Some(21), 1, 20) == Failure(OutOfRange("legislatura", 21, 1, 20))
    ensures ValidateValor("valor_min", Some(-5.0)) == Failure(Negative("valor_min", -5.0))
  {
  }

  /** A contract query with a negative minimum amount is rejected on that field. */
  lemma NegativeValorRejected(currentYear: int)
    ensures ValidateParameters("contratos", map["valor_min" := Scalar(VInt(-5))], currentYear)
      == Failure(Negative("valor_min", -5.0))
  {
    AvailableEndpointIff("contratos");
  }

  /** The year field is bounded by the current year, so a future year is rejected. */
  lemma AnoFieldUsesCurrentYear()
    ensures ValidateParameters("licitacoes", map["ano" := Scalar(VInt(2026))], 2026).Success?
    ensures ValidateParameters("licitacoes", map["ano" := Scalar(VInt(2027))], 2026)
      == Failure(OutOfRange("ano", 2027, 2000, 2026))
  {
    AvailableEndpointIff("licitacoes");
  }
}
