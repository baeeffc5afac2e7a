/**
 * Request validation. Each endpoint has a request model (a pydantic model in
 * src/validators.py); building one from keyword arguments validates its fields in
 * declaration order: `endpoint`, `formato`, `filters`, then the fields of the
 * endpoint's own class. The model reports the first field that fails.
 */
module Validators {
  import opened Wrappers
  import opened Builtins
  import opened OrderedDict
  import opened Config

  /** A `filters` dict, in insertion order. */
  type Filters = seq<(string, Value)>

  /** A keyword argument: a scalar, or a dict (only `filters` takes one). */
  datatype Param = Scalar(v: Value) | Mapping(entries: Filters)

  /** The class `validate_request_parameters` picks for an endpoint name. */
  datatype RequestClass =
    | ApiRequestClass
    | ParlamentarClass
    | ServidorClass
    | ContratoClass
    | LicitacaoClass
    | RemuneracaoClass

  /** A validated request: the base class, or one of the five endpoint-specific classes. */
  datatype Request =
    | ApiRequest(endpoint: string, formato: string, filters: Filters)
    | ParlamentarRequest(formato: string, filters: Filters,
        partido: Option<string>, situacao: Option<string>, legislatura: Option<int>)
    | ServidorRequest(formato: string, filters: Filters,
        vinculo: Option<string>, situacao: Option<string>, cargo: Option<string>, lotacao: Option<string>)
    | ContratoRequest(formato: string, filters: Filters,
        ano: Option<int>, valorMin: Option<real>, valorMax: Option<real>, fornecedor: Option<string>)
    | LicitacaoRequest(formato: string, filters: Filters,
        ano: Option<int>, modalidade: Option<string>, situacao: Option<string>)
    | RemuneracaoRequest(formato: string, filters: Filters,
        ano: Option<int>, mes: Option<int>, vinculo: Option<string>)
  {
    /** The `endpoint` field; the subclasses fix it to a literal. */
    function Endpoint(): string
    {
      match this
      case ApiRequest(e, _, _) => e
      case ParlamentarRequest(_, _, _, _, _) => "parlamentares"
      case ServidorRequest(_, _, _, _, _, _) => "servidores"
      case ContratoRequest(_, _, _, _, _, _) => "contratos"
      case LicitacaoRequest(_, _, _, _, _) => "licitacoes"
      case RemuneracaoRequest(_, _, _, _, _) => "remuneracao"
    }

    function Class(): RequestClass
    {
      match this
      case ApiRequest(_, _, _) => ApiRequestClass
      case ParlamentarRequest(_, _, _, _, _) => ParlamentarClass
      case ServidorRequest(_, _, _, _, _, _) => ServidorClass
      case ContratoRequest(_, _, _, _, _, _) => ContratoClass
      case LicitacaoRequest(_, _, _, _, _) => LicitacaoClass
      case RemuneracaoRequest(_, _, _, _, _) => RemuneracaoClass
    }
  }

  /** Why a request could not be built. */
  datatype ValidationError =
    | MissingField(field: string)
    | WrongType(field: string)
    | UnknownEndpoint(endpoint: string)
    | EndpointMismatch(expected: string)
    | UnsupportedFormat(formato: string)
    | UnknownFilter(endpoint: string, key: string, allowed: seq<string>)
    | InvalidFilterValue(key: string, value: Value, rule: Rule)
    | InvalidPartido(partido: string)
    | OutOfRange(field: string, got: int, lo: int, hi: int)
    | Negative(field: string, amount: real)

  // ------------------------------------------------------------ APIRequest validators

  /** `validate_endpoint`: the name must be a key of `available_endpoints`. */
  function ValidateEndpoint(v: string): (r: Result<string, ValidationError>)
    ensures r.Success? <==> IsAvailableEndpoint(v)
    ensures r.Success? ==> r.value == v
    ensures r.Failure? ==> r.error == UnknownEndpoint(v)
  {
    if v !in AvailableEndpointNames() then Failure(UnknownEndpoint(v)) else Success(v)
  }

  /** `validate_formato`: accepted when `v.lower()` is supported; the lower-case form is kept. */
  function ValidateFormato(v: string): (r: Result<string, ValidationError>)
    ensures r.Success? <==> Lower(v) in DefaultSettings.supportedFormats
    ensures r.Success? ==> r.value == Lower(v) && Lower(r.value) == r.value
    ensures r.Failure? ==> r.error == UnsupportedFormat(v)
  {
    if Lower(v) !in DefaultSettings.supportedFormats then Failure(UnsupportedFormat(v))
    else Success(Lower(v))
  }

  /**
   * What `validate_filters` objects to in one entry: a key outside the
   * endpoint's non-empty allow-list (the key `formato` is always let
   * through), or a value its catalog rule rejects.
   */
  function FilterEntryError(endpoint: string, key: string, value: Value): Option<ValidationError>
  {
    var allowed := AllowedFilters(endpoint);
    if |allowed| > 0 && key !in allowed && key != "formato" then
      Some(UnknownFilter(endpoint, key, allowed))
    else
      match RuleFor(key)
      case None => None
      case Some(rule) => if RuleAccepts(rule, value) then None else Some(InvalidFilterValue(key, value, rule))
  }

  /**
   * The order in which one entry's errors are reported: an unknown key is
   * reported before its value is looked at, and any other error is the
   * key's rule rejecting the value. The first clause restates, as one
   * condition, when an entry passes (an allowed key, and a rule that accepts
   * the value, if there is one); what a rule accepts is `RuleAccepts`.
   */
  lemma FilterEntryErrorCases(endpoint: string, key: string, value: Value)
    ensures var r := FilterEntryError(endpoint, key, value);
      && (r.None? <==>
        && (|AllowedFilters(endpoint)| == 0 || key in AllowedFilters(endpoint) || key == "formato")
        && (RuleFor(key).None? || RuleAccepts(RuleFor(key).value, value)))
      && (|AllowedFilters(endpoint)| > 0 && key !in AllowedFilters(endpoint) && key != "formato" ==>
        r == Some(UnknownFilter(endpoint, key, AllowedFilters(endpoint))))
      && (r.Some? && !r.value.UnknownFilter? ==>
        RuleFor(key).Some? && r.value == InvalidFilterValue(key, value, RuleFor(key).value))
  {
  }

  predicate EntryOk(endpoint: string, entry: (string, Value))
  {
    FilterEntryError(endpoint, entry.0, entry.1).None?
  }

  /** Every entry of a filters dict passes the endpoint's checks. */
  predicate FiltersOk(endpoint: string, filters: Filters)
  {
    forall i :: 0 <= i < |filters| ==> EntryOk(endpoint, filters[i])
  }

  /** The error of the first offending entry, in iteration order. */
  function FirstFilterError(endpoint: string, filters: Filters): (r: Option<ValidationError>)
    ensures r.None? <==> FiltersOk(endpoint, filters)
    ensures r.Some? ==>
      exists i :: 0 <= i < |filters| && r == FilterEntryError(endpoint, filters[i].0, filters[i].1) &&
        forall j :: 0 <= j < i ==> EntryOk(endpoint, filters[j])
    decreases |filters|
  {
    if filters == [] then None
    else
      var e := FilterEntryError(endpoint, filters[0].0, filters[0].1);
      if e.Some? then e
      else
        var rest := FirstFilterError(endpoint, filters[1..]);
        assert forall i :: 1 <= i < |filters| ==> filters[i] == filters[1..][i - 1];
        if rest.Some? then
          var i :| 0 <= i < |filters| - 1
            && rest == FilterEntryError(endpoint, filters[1..][i].0, filters[1..][i].1)
            && forall j :: 0 <= j < i ==> EntryOk(endpoint, filters[1..][j]);
          assert forall j :: 0 <= j < i + 1 ==> EntryOk(endpoint, filters[j]) by {
            forall j | 0 <= j < i + 1 ensures EntryOk(endpoint, filters[j]) {
              if j > 0 { assert filters[j] == filters[1..][j - 1]; }
            }
          }
          rest
        else rest
  }

  /**
   * `validate_filters(v, info)`: an empty or missing dict is returned as is,
   * and so is any dict when the endpoint did not validate; otherwise the
   * result is the dict itself or the first entry's error.
   */
  function CheckFilters(v: Filters, endpoint: Option<string>): (r: Result<Filters, ValidationError>)
    ensures r.Success? <==> v == [] || endpoint.None? || endpoint.value == "" || FiltersOk(endpoint.value, v)
    ensures r.Success? ==> r.value == v
    ensures r.Failure? ==> FirstFilterError(endpoint.value, v) == Some(r.error)
  {
    if v == [] || endpoint.None? || endpoint.value == "" then Success(v)
    else match FirstFilterError(endpoint.value, v)
      case None => Success(v)
      case Some(e) => Failure(e)
  }

  /** The loop of `validate_filters`: stops at the first offending entry. */
  method ValidateFilters(v: Filters, endpoint: Option<string>) returns (r: Result<Filters, ValidationError>)
    ensures r == CheckFilters(v, endpoint)
  {
    if v == [] || endpoint.None? || endpoint.value == "" {
      return Success(v);
    }
    var i := 0;
    while i < |v|
      invariant 0 <= i <= |v|
      invariant forall j :: 0 <= j < i ==> EntryOk(endpoint.value, v[j])
    {
      var e := FilterEntryError(endpoint.value, v[i].0, v[i].1);
      if e.Some? {
        FirstFilterErrorAt(endpoint.value, v, i);
        return Failure(e.value);
      }
      i := i + 1;
    }
    return Success(v);
  }

  /** When entry `i` is the first offending one, its error is the one reported. */
  lemma {:induction false} FirstFilterErrorAt(endpoint: string, filters: Filters, i: nat)
    requires i < |filters|
    requires forall j :: 0 <= j < i ==> EntryOk(endpoint, filters[j])
    requires !EntryOk(endpoint, filters[i])
    ensures FirstFilterError(endpoint, filters) == FilterEntryError(endpoint, filters[i].0, filters[i].1)
    decreases i
  {
    if i > 0 {
      assert EntryOk(endpoint, filters[0]);
      var tail := filters[1..];
      assert forall j :: 0 <= j < i - 1 ==> tail[j] == filters[j + 1];
      assert tail[i - 1] == filters[i];
      FirstFilterErrorAt(endpoint, tail, i - 1);
    }
  }

  // ------------------------------------------------------------ endpoint-specific validators

  /** `[A-Z]{2,10}`. */
  predicate IsSigla(s: string)
  {
    2 <= |s| <= 10 && forall i :: 0 <= i < |s| ==> 'A' <= s[i] <= 'Z'
  }

  /**
   * `re.match(r"^[A-Z]{2,10}$", s)` succeeds: Python's `$` also matches just
   * before a single trailing newline.
   */
  predicate MatchesPartido(s: string)
    ensures MatchesPartido(s) ==> 2 <= |s| <= 11
    ensures MatchesPartido(s) ==> forall i :: 0 <= i < |s| ==> 'A' <= s[i] <= 'Z' || (i == |s| - 1 && s[i] == '\n')
    ensures (forall i :: 0 <= i < |s| ==> 'A' <= s[i] <= 'Z') ==> (MatchesPartido(s) <==> 2 <= |s| <= 10)
  {
    IsSigla(s) || (|s| > 0 && s[|s| - 1] == '\n' && IsSigla(s[..|s| - 1]))
  }

  /** What `validate_partido` lets through: no party, the empty string, or a matching one. */
  predicate PartidoOk(v: Option<string>)
  {
    v.None? || v.value == "" || MatchesPartido(v.value)
  }

  /** What a range validator lets through: absent, zero (a falsy int), or inside the bounds. */
  predicate RangeOk(v: Option<int>, lo: int, hi: int)
  {
    v.None? || v.value == 0 || lo <= v.value <= hi
  }

  /** What `validate_valores` lets through: absent, or not negative. */
  predicate ValorOk(v: Option<real>)
  {
    v.None? || v.value >= 0.0
  }

  /** `validate_partido`. */
  function ValidatePartido(v: Option<string>): (r: Result<Option<string>, ValidationError>)
    ensures r.Success? <==> PartidoOk(v)
    ensures r.Success? ==> r.value == v
    ensures r.Failure? ==> r.error == InvalidPartido(v.value)
  {
    if v.Some? && v.value != "" && !MatchesPartido(v.value) then Failure(InvalidPartido(v.value))
    else Success(v)
  }

  /** The shape of `validate_legislatura`, `validate_ano` and `validate_mes`: `if v and (v < lo or v > hi)` rejects. */
  function ValidateRange(field: string, v: Option<int>, lo: int, hi: int): (r: Result<Option<int>, ValidationError>)
    ensures r.Success? <==> RangeOk(v, lo, hi)
    ensures r.Success? ==> r.value == v
    ensures r.Failure? ==> r.error == OutOfRange(field, v.value, lo, hi)
  {
    if v.Some? && v.value != 0 && (v.value < lo || v.value > hi) then Failure(OutOfRange(field, v.value, lo, hi))
    else Success(v)
  }

  /** `validate_valores`: `if v and v < 0` rejects. */
  function ValidateValor(field: string, v: Option<real>): (r: Result<Option<real>, ValidationError>)
    ensures r.Success? <==> ValorOk(v)
    ensures r.Success? ==> r.value == v
    ensures r.Failure? ==> r.error == Negative(field, v.value)
  {
    if v.Some? && v.value != 0.0 && v.value < 0.0 then Failure(Negative(field, v.value)) else Success(v)
  }

  // ------------------------------------------------------------ the fields of a request, one by one

  function LiteralEndpoint(cls: RequestClass): string
  {
    match cls
    case ApiRequestClass => ""
    case ParlamentarClass => "parlamentares"
    case ServidorClass => "servidores"
    case ContratoClass => "contratos"
    case LicitacaoClass => "licitacoes"
    case RemuneracaoClass => "remuneracao"
  }

  /**
   * The endpoint field: a required string on the base class; on a subclass a
   * literal with that literal as default. `validate_endpoint` runs on any
   * value given.
   */
  function EndpointField(cls: RequestClass, p: Option<Param>): (r: Result<string, ValidationError>)
    ensures r.Success? ==> IsAvailableEndpoint(r.value)
    ensures r.Success? && cls != ApiRequestClass ==> r.value == LiteralEndpoint(cls)
    ensures r.Success? && p.Some? ==> p.value == Scalar(VStr(r.value))
    ensures p.None? ==> (r.Success? <==> cls != ApiRequestClass)
    ensures (p.Some? && p.value.Scalar? && p.value.v.VStr? && IsAvailableEndpoint(p.value.v.s)
      && (cls != ApiRequestClass ==> p.value.v.s == LiteralEndpoint(cls))) ==> r.Success?
  {
    match cls
    case ApiRequestClass =>
      (match p
       case None => Failure(MissingField("endpoint"))
       case Some(Scalar(VStr(s))) => ValidateEndpoint(s)
       case Some(_) => Failure(WrongType("endpoint")))
    case _ =>
      var literal := LiteralEndpoint(cls);
      AvailableEndpointIff(literal);
      (match p
       case None => Success(literal)
       case Some(Scalar(VStr(s))) => if s == literal then ValidateEndpoint(s) else Failure(EndpointMismatch(literal))
       case Some(_) => Failure(EndpointMismatch(literal)))
  }

  /** The formato field: a string, "json" when absent. */
  function FormatoField(p: Option<Param>): (r: Result<string, ValidationError>)
    ensures r.Success? ==> r.value in DefaultSettings.supportedFormats
    ensures p.None? ==> r == Success("json")
    ensures p.Some? ==> (r.Success? <==> p.value.Scalar? && p.value.v.VStr? && Lower(p.value.v.s) in DefaultSettings.supportedFormats)
    ensures p.Some? && r.Success? ==> r.value == Lower(p.value.v.s)
  {
    match p
    case None => Success("json")
    case Some(Scalar(VStr(s))) => ValidateFormato(s)
    case Some(_) => Failure(WrongType("formato"))
  }

  /**
   * The filters field: an optional dict, an empty one when absent. An
   * explicit None is kept as an empty dict, which every later use treats
   * the same way.
   */
  function FiltersField(endpoint: string, p: Option<Param>): (r: Result<Filters, ValidationError>)
    ensures endpoint != "" && r.Success? ==> FiltersOk(endpoint, r.value)
    ensures p.None? ==> r == Success([])
    ensures p.Some? && p.value.Mapping? ==>
      (endpoint != "" ==> (r.Success? <==> FiltersOk(endpoint, p.value.entries)))
      && (r.Success? ==> r.value == p.value.entries)
  {
    match p
    case None => Success([])
    case Some(Scalar(VNone)) => Success([])
    case Some(Mapping(entries)) => CheckFilters(entries, Some(endpoint))
    case Some(Scalar(_)) => Failure(WrongType("filters"))
  }

  /** What an `Optional[str]` field accepts: nothing, None or a string. */
  predicate IsOptStr(p: Option<Param>)
  {
    p.None? || (p.value.Scalar? && (p.value.v.VNone? || p.value.v.VStr?))
  }

  /** What an `Optional[int]` field accepts: nothing, None or an int. */
  predicate IsOptInt(p: Option<Param>)
  {
    p.None? || (p.value.Scalar? && (p.value.v.VNone? || p.value.v.VInt?))
  }

  /** What an `Optional[float]` field accepts: nothing, None, an int or a float. */
  predicate IsOptFloat(p: Option<Param>)
  {
    p.None? || (p.value.Scalar? && (p.value.v.VNone? || p.value.v.VInt? || p.value.v.VFloat?))
  }

  /** The string the caller passed, if it passed one. */
  function GivenStr(p: Option<Param>): Option<string>
  {
    if p.Some? && p.value.Scalar? && p.value.v.VStr? then Some(p.value.v.s) else None
  }

  /** The int the caller passed, if it passed one. */
  function GivenInt(p: Option<Param>): Option<int>
  {
    if p.Some? && p.value.Scalar? && p.value.v.VInt? then Some(p.value.v.i) else None
  }

  /** The number the caller passed, if it passed one: an int is read as a float. */
  function GivenReal(p: Option<Param>): Option<real>
  {
    if p.Some? && p.value.Scalar? && p.value.v.VInt? then Some(p.value.v.i as real)
    else if p.Some? && p.value.Scalar? && p.value.v.VFloat? then Some(p.value.v.x)
    else None
  }

  /** An `Optional[str]` field. */
  function StrField(field: string, p: Option<Param>): (r: Result<Option<string>, ValidationError>)
    ensures r.Success? <==> IsOptStr(p)
    ensures p.Some? && p.value.Scalar? && p.value.v.VStr? ==> r == Success(Some(p.value.v.s))
    ensures p.None? || p == Some(Scalar(VNone)) ==> r == Success(None)
    ensures r.Failure? ==> r.error == WrongType(field)
  {
    match p
    case None => Success(None)
    case Some(Scalar(VNone)) => Success(None)
    case Some(Scalar(VStr(s))) => Success(Some(s))
    case Some(_) => Failure(WrongType(field))
  }

  /** An `Optional[int]` field. */
  function IntField(field: string, p: Option<Param>): (r: Result<Option<int>, ValidationError>)
    ensures r.Success? <==> IsOptInt(p)
    ensures p.Some? && p.value.Scalar? && p.value.v.VInt? ==> r == Success(Some(p.value.v.i))
    ensures p.None? || p == Some(Scalar(VNone)) ==> r == Success(None)
    ensures r.Failure? ==> r.error == WrongType(field)
  {
    match p
    case None => Success(None)
    case Some(Scalar(VNone)) => Success(None)
    case Some(Scalar(VInt(i))) => Success(Some(i))
    case Some(_) => Failure(WrongType(field))
  }

  /** An `Optional[float]` field; an int is widened. */
  function FloatField(field: string, p: Option<Param>): (r: Result<Option<real>, ValidationError>)
    ensures r.Success? <==> IsOptFloat(p)
    ensures p.Some? && p.value.Scalar? && p.value.v.VInt? ==> r == Success(Some(p.value.v.i as real))
    ensures p.Some? && p.value.Scalar? && p.value.v.VFloat? ==> r == Success(Some(p.value.v.x))
    ensures p.None? || p == Some(Scalar(VNone)) ==> r == Success(None)
    ensures r.Failure? ==> r.error == WrongType(field)
  {
    match p
    case None => Success(None)
    case Some(Scalar(VNone)) => Success(None)
    case Some(Scalar(VInt(i))) => Success(Some(i as real))
    case Some(Scalar(VFloat(x))) => Success(Some(x))
    case Some(_) => Failure(WrongType(field))
  }

  function Arg(params: map<string, Param>, key: string): Option<Param>
  {
    if key in params then Some(params[key]) else None
  }

  // ------------------------------------------------------------ the five subclasses' own fields

  function ParlamentarFields(formato: string, filters: Filters, params: map<string, Param>): (r: Result<Request, ValidationError>)
    ensures r.Success? <==>
      && IsOptStr(Arg(params, "partido")) && PartidoOk(GivenStr(Arg(params, "partido")))
      && IsOptStr(Arg(params, "situacao"))
      && IsOptInt(Arg(params, "legislatura")) && RangeOk(GivenInt(Arg(params, "legislatura")), 1, 20)
    ensures r.Success? ==>
      r.value == ParlamentarRequest(formato, filters,
        GivenStr(Arg(params, "partido")), GivenStr(Arg(params, "situacao")), GivenInt(Arg(params, "legislatura")))
  {
    var partido :- StrField("partido", Arg(params, "partido"));
    var partido' :- ValidatePartido(partido);
    var situacao :- StrField("situacao", Arg(params, "situacao"));
    var legislatura :- IntField("legislatura", Arg(params, "legislatura"));
    var legislatura' :- ValidateRange("legislatura", legislatura, 1, 20);
    Success(ParlamentarRequest(formato, filters, partido', situacao, legislatura'))
  }

  /** ServidorRequest declares no validators of its own: only the field types are checked. */
  function ServidorFields(formato: string, filters: Filters, params: map<string, Param>): (r: Result<Request, ValidationError>)
    ensures r.Success? <==>
      IsOptStr(Arg(params, "vinculo")) && IsOptStr(Arg(params, "situacao"))
      && IsOptStr(Arg(params, "cargo")) && IsOptStr(Arg(params, "lotacao"))
    ensures r.Success? ==>
      r.value == ServidorRequest(formato, filters, GivenStr(Arg(params, "vinculo")), GivenStr(Arg(params, "situacao")),
        GivenStr(Arg(params, "cargo")), GivenStr(Arg(params, "lotacao")))
  {
    var vinculo :- StrField("vinculo", Arg(params, "vinculo"));
    var situacao :- StrField("situacao", Arg(params, "situacao"));
    var cargo :- StrField("cargo", Arg(params, "cargo"));
    var lotacao :- StrField("lotacao", Arg(params, "lotacao"));
    Success(ServidorRequest(formato, filters, vinculo, situacao, cargo, lotacao))
  }

  function ContratoFields(formato: string, filters: Filters, params: map<string, Param>, currentYear: int): (r: Result<Request, ValidationError>)
    ensures r.Success? <==>
      && IsOptInt(Arg(params, "ano")) && RangeOk(GivenInt(Arg(params, "ano")), 2000, currentYear)
      && IsOptFloat(Arg(params, "valor_min")) && ValorOk(GivenReal(Arg(params, "valor_min")))
      && IsOptFloat(Arg(params, "valor_max")) && ValorOk(GivenReal(Arg(params, "valor_max")))
      && IsOptStr(Arg(params, "fornecedor"))
    ensures r.Success? ==>
      r.value == ContratoRequest(formato, filters, GivenInt(Arg(params, "ano")),
        GivenReal(Arg(params, "valor_min")), GivenReal(Arg(params, "valor_max")), GivenStr(Arg(params, "fornecedor")))
  {
    var ano :- IntField("ano", Arg(params, "ano"));
    var ano' :- ValidateRange("ano", ano, 2000, currentYear);
    var valorMin :- FloatField("valor_min", Arg(params, "valor_min"));
    var valorMin' :- ValidateValor("valor_min", valorMin);
    var valorMax :- FloatField("valor_max", Arg(params, "valor_max"));
    var valorMax' :- ValidateValor("valor_max", valorMax);
    var fornecedor :- StrField("fornecedor", Arg(params, "fornecedor"));
    Success(ContratoRequest(formato, filters, ano', valorMin', valorMax', fornecedor))
  }

  function LicitacaoFields(formato: string, filters: Filters, params: map<string, Param>, currentYear: int): (r: Result<Request, ValidationError>)
    ensures r.Success? <==>
      && IsOptInt(Arg(params, "ano")) && RangeOk(GivenInt(Arg(params, "ano")), 2000, currentYear)
      && IsOptStr(Arg(params, "modalidade")) && IsOptStr(Arg(params, "situacao"))
    ensures r.Success? ==>
      r.value == LicitacaoRequest(formato, filters, GivenInt(Arg(params, "ano")),
        GivenStr(Arg(params, "modalidade")), GivenStr(Arg(params, "situacao")))
  {
    var ano :- IntField("ano", Arg(params, "ano"));
    var ano' :- ValidateRange("ano", ano, 2000, currentYear);
    var modalidade :- StrField("modalidade", Arg(params, "modalidade"));
    var situacao :- StrField("situacao", Arg(params, "situacao"));
    Success(LicitacaoRequest(formato, filters, ano', modalidade, situacao))
  }

  function RemuneracaoFields(formato: string, filters: Filters, params: map<string, Param>, currentYear: int): (r: Result<Request, ValidationError>)
    ensures r.Success? <==>
      && IsOptInt(Arg(params, "ano")) && RangeOk(GivenInt(Arg(params, "ano")), 2000, currentYear)
      && IsOptInt(Arg(params, "mes")) && RangeOk(GivenInt(Arg(params, "mes")), 1, 12)
      && IsOptStr(Arg(params, "vinculo"))
    ensures r.Success? ==>
      r.value == RemuneracaoRequest(formato, filters, GivenInt(Arg(params, "ano")),
        GivenInt(Arg(params, "mes")), GivenStr(Arg(params, "vinculo")))
  {
    var ano :- IntField("ano", Arg(params, "ano"));
    var ano' :- ValidateRange("ano", ano, 2000, currentYear);
    var mes :- IntField("mes", Arg(params, "mes"));
    var mes' :- ValidateRange("mes", mes, 1, 12);
    var vinculo :- StrField("vinculo", Arg(params, "vinculo"));
    Success(RemuneracaoRequest(formato, filters, ano', mes', vinculo))
  }

  /** Everything the validators of a request's class check, stated on the built request. */
  predicate WellFormed(req: Request, currentYear: int)
  {
    && IsAvailableEndpoint(req.Endpoint())
    && req.formato in DefaultSettings.supportedFormats
    && FiltersOk(req.Endpoint(), req.filters)
    && match req
       case ApiRequest(_, _, _) => true
       case ParlamentarRequest(_, _, partido, _, legislatura) => PartidoOk(partido) && RangeOk(legislatura, 1, 20)
       case ServidorRequest(_, _, _, _, _, _) => true
       case ContratoRequest(_, _, ano, valorMin, valorMax, _) =>
         RangeOk(ano, 2000, currentYear) && ValorOk(valorMin) && ValorOk(valorMax)
       case LicitacaoRequest(_, _, ano, _, _) => RangeOk(ano, 2000, currentYear)
       case RemuneracaoRequest(_, _, ano, mes, _) => RangeOk(ano, 2000, currentYear) && RangeOk(mes, 1, 12)
  }

  /** Each of the class's own fields holds what the caller passed for it. */
  predicate OwnFieldsGiven(req: Request, params: map<string, Param>)
  {
    match req
    case ApiRequest(_, _, _) => true
    case ParlamentarRequest(_, _, partido, situacao, legislatura) =>
      partido == GivenStr(Arg(params, "partido")) && situacao == GivenStr(Arg(params, "situacao"))
      && legislatura == GivenInt(Arg(params, "legislatura"))
    case ServidorRequest(_, _, vinculo, situacao, cargo, lotacao) =>
      vinculo == GivenStr(Arg(params, "vinculo")) && situacao == GivenStr(Arg(params, "situacao"))
      && cargo == GivenStr(Arg(params, "cargo")) && lotacao == GivenStr(Arg(params, "lotacao"))
    case ContratoRequest(_, _, ano, valorMin, valorMax, fornecedor) =>
      ano == GivenInt(Arg(params, "ano")) && valorMin == GivenReal(Arg(params, "valor_min"))
      && valorMax == GivenReal(Arg(params, "valor_max")) && fornecedor == GivenStr(Arg(params, "fornecedor"))
    case LicitacaoRequest(_, _, ano, modalidade, situacao) =>
      ano == GivenInt(Arg(params, "ano")) && modalidade == GivenStr(Arg(params, "modalidade"))
      && situacao == GivenStr(Arg(params, "situacao"))
    case RemuneracaoRequest(_, _, ano, mes, vinculo) =>
      ano == GivenInt(Arg(params, "ano")) && mes == GivenInt(Arg(params, "mes"))
      && vinculo == GivenStr(Arg(params, "vinculo"))
  }

  /**
   * `cls(**params)`: the fields in declaration order, each type-checked and
   * then validated; keyword arguments the class has no field for are ignored.
   * `currentYear` is the year of `datetime.now()`.
   */
  function Construct(cls: RequestClass, params: map<string, Param>, currentYear: int): (r: Result<Request, ValidationError>)
    ensures r.Success? ==> WellFormed(r.value, currentYear) && r.value.Class() == cls
    ensures r.Success? && cls != ApiRequestClass ==> r.value.Endpoint() == LiteralEndpoint(cls)
    ensures r.Success? && "endpoint" in params ==> params["endpoint"] == Scalar(VStr(r.value.Endpoint()))
    ensures r.Success? && "formato" !in params ==> r.value.formato == "json"
    ensures r.Success? && "formato" in params ==>
      params["formato"].Scalar? && params["formato"].v.VStr? && r.value.formato == Lower(params["formato"].v.s)
    ensures r.Success? && "filters" in params && params["filters"].Mapping? ==>
      r.value.filters == params["filters"].entries
    ensures r.Success? && ("filters" !in params || params["filters"] == Scalar(VNone)) ==> r.value.filters == []
    ensures r.Success? ==> OwnFieldsGiven(r.value, params)
  {
    var endpoint :- EndpointField(cls, Arg(params, "endpoint"));
    var formato :- FormatoField(Arg(params, "formato"));
    var filters :- FiltersField(endpoint, Arg(params, "filters"));
    assert endpoint != "" by { AvailableEndpointIff(endpoint); }
    match cls
    case ApiRequestClass => Success(ApiRequest(endpoint, formato, filters))
    case ParlamentarClass => ParlamentarFields(formato, filters, params)
    case ServidorClass => ServidorFields(formato, filters, params)
    case ContratoClass => ContratoFields(formato, filters, params, currentYear)
    case LicitacaoClass => LicitacaoFields(formato, filters, params, currentYear)
    case RemuneracaoClass => RemuneracaoFields(formato, filters, params, currentYear)
  }

  // ------------------------------------------------------------ validate_request_parameters

  /** `request_classes.get(endpoint, APIRequest)`. */
  function ClassFor(endpoint: string): (cls: RequestClass)
    ensures cls != ApiRequestClass ==> LiteralEndpoint(cls) == endpoint
    ensures cls == ApiRequestClass <==>
      endpoint !in ["parlamentares", "servidores", "contratos", "licitacoes", "remuneracao"]
  {
    if endpoint == "parlamentares" then ParlamentarClass
    else if endpoint == "servidores" then ServidorClass
    else if endpoint == "contratos" then ContratoClass
    else if endpoint == "licitacoes" then LicitacaoClass
    else if endpoint == "remuneracao" then RemuneracaoClass
    else ApiRequestClass
  }

  /** The caller's parameters after `validate_request_parameters` has run on them. */
  function WithEndpoint(params: map<string, Param>, endpoint: string): (r: map<string, Param>)
    ensures "endpoint" in params ==> r == params
    ensures "endpoint" !in params ==> r == params["endpoint" := Scalar(VStr(endpoint))]
  {
    if "endpoint" in params then params else params["endpoint" := Scalar(VStr(endpoint))]
  }

  /** The result of `validate_request_parameters(endpoint, params)`. */
  function ValidateParameters(endpoint: string, params: map<string, Param>, currentYear: int): (r: Result<Request, ValidationError>)
    ensures r.Success? ==> WellFormed(r.value, currentYear) && r.value.Class() == ClassFor(endpoint)
    ensures r.Success? && "endpoint" !in params ==> r.value.Endpoint() == endpoint
    ensures r.Success? && "endpoint" in params ==> params["endpoint"] == Scalar(VStr(r.value.Endpoint()))
    ensures "endpoint" !in params && !IsAvailableEndpoint(endpoint) ==> r.Failure?
    ensures r.Success? ==> OwnFieldsGiven(r.value, params)
  {
    Construct(ClassFor(endpoint), WithEndpoint(params, endpoint), currentYear)
  }

  /** The caller's dict, which `validate_request_parameters` updates in place. */
  class ParamDict {
    var items: map<string, Param>

    constructor (items: map<string, Param>)
      ensures this.items == items
    {
      this.items := items;
    }
  }

  /**
   * `validate_request_parameters`: adds `endpoint` to the caller's dict only
   * when the key is absent, then builds the class mapped to the endpoint name.
   */
  method ValidateRequestParameters(endpoint: string, parameters: ParamDict, currentYear: int)
    returns (r: Result<Request, ValidationError>)
    modifies parameters
    ensures parameters.items == WithEndpoint(old(parameters.items), endpoint)
    ensures r == ValidateParameters(endpoint, old(parameters.items), currentYear)
  {
    var cls := ClassFor(endpoint);
    if "endpoint" !in parameters.items {
      parameters.items := parameters.items["endpoint" := Scalar(VStr(endpoint))];
    }
    r := Construct(cls, parameters.items, currentYear);
  }
}
