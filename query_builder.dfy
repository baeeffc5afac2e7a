/**
 * `build_query_params`: the query string parameters sent for a validated
 * request. `formato` comes first, then the request's own fields that are
 * set (truthy) in declaration order, then every filter except `formato`,
 * each written with `str()`; a filter overwrites a field of the same name.
 */
module QueryBuilder {
  import opened Wrappers
  import opened Builtins
  import opened OrderedDict
  import opened Config
  import opened Validators

  type Query = seq<(string, string)>

  /** `if value: params[key] = value` for an optional string. */
  function StrEntry(key: string, v: Option<string>): (q: Query)
    ensures q == [] <==> v.None? || v.value == ""
    ensures q != [] ==> q == [(key, v.value)]
    ensures Keys(q) == if q == [] then [] else [key]
  {
    if v.Some? && v.value != "" then [(key, v.value)] else []
  }

  /** `if value: params[key] = str(value)` for an optional int. */
  function IntEntry(key: string, v: Option<int>): (q: Query)
    ensures q == [] <==> v.None? || v.value == 0
    ensures q != [] ==> q == [(key, IntToString(v.value))]
    ensures Keys(q) == if q == [] then [] else [key]
  {
    if v.Some? && v.value != 0 then [(key, IntToString(v.value))] else []
  }

  /** `if value: params[key] = str(value)` for an optional float. */
  function RealEntry(key: string, v: Option<real>, floatStr: real -> string): (q: Query)
    ensures q == [] <==> v.None? || v.value == 0.0
    ensures q != [] ==> q == [(key, floatStr(v.value))]
    ensures Keys(q) == if q == [] then [] else [key]
  {
    if v.Some? && v.value != 0.0 then [(key, floatStr(v.value))] else []
  }

  /** The names of the fields a request's class adds, in declaration order. */
  function FieldNames(req: Request): seq<string>
  {
    match req
    case ApiRequest(_, _, _) => []
    case ParlamentarRequest(_, _, _, _, _) => ["partido", "situacao", "legislatura"]
    case ServidorRequest(_, _, _, _, _, _) => ["vinculo", "situacao", "cargo", "lotacao"]
    case ContratoRequest(_, _, _, _, _, _) => ["ano", "valor_min", "valor_max", "fornecedor"]
    case LicitacaoRequest(_, _, _, _, _) => ["ano", "modalidade", "situacao"]
    case RemuneracaoRequest(_, _, _, _, _) => ["ano", "mes", "vinculo"]
  }

  /** `a` is `b` with some elements left out, the rest kept in order. */
  predicate Subsequence(a: seq<string>, b: seq<string>)
    decreases |b|
  {
    if a == [] then true
    else if b == [] then false
    else (a[0] == b[0] && Subsequence(a[1..], b[1..])) || Subsequence(a, b[1..])
  }

  /** At most one parameter, under the given key. */
  predicate EntryFor(q: Query, k: string)
  {
    q == [] || (|q| == 1 && q[0].0 == k)
  }

  /** The parameters taken from the request's own fields: a set field adds its key, in declaration order. */
  function FieldParams(req: Request, floatStr: real -> string): (q: Query)
    ensures req.ApiRequest? ==> q == []
    ensures Subsequence(Keys(q), FieldNames(req))
  {
    match req
    case ApiRequest(_, _, _) => []
    case ParlamentarRequest(_, _, partido, situacao, legislatura) => ParlamentarParams(partido, situacao, legislatura)
    case ServidorRequest(_, _, vinculo, situacao, cargo, lotacao) => ServidorParams(vinculo, situacao, cargo, lotacao)
    case ContratoRequest(_, _, ano, valorMin, valorMax, fornecedor) => ContratoParams(ano, valorMin, valorMax, fornecedor, floatStr)
    case LicitacaoRequest(_, _, ano, modalidade, situacao) => LicitacaoParams(ano, modalidade, situacao)
    case RemuneracaoRequest(_, _, ano, mes, vinculo) => RemuneracaoParams(ano, mes, vinculo)
  }

  /** The deputies' parameters: party, status and legislature, each when truthy. */
  function ParlamentarParams(partido: Option<string>, situacao: Option<string>, legislatura: Option<int>): (q: Query)
    ensures Subsequence(Keys(q), ["partido", "situacao", "legislatura"])
  {
    var a, b, c := StrEntry("partido", partido), StrEntry("situacao", situacao), IntEntry("legislatura", legislatura);
    InOrder3(a, b, c, "partido", "situacao", "legislatura");
    a + b + c
  }

  /** The civil servants' parameters: bond, status, post and unit, each when truthy. */
  function ServidorParams(vinculo: Option<string>, situacao: Option<string>, cargo: Option<string>, lotacao: Option<string>): (q: Query)
    ensures Subsequence(Keys(q), ["vinculo", "situacao", "cargo", "lotacao"])
  {
    var a, b, c, d := StrEntry("vinculo", vinculo), StrEntry("situacao", situacao), StrEntry("cargo", cargo), StrEntry("lotacao", lotacao);
    InOrder4(a, b, c, d, "vinculo", "situacao", "cargo", "lotacao");
    a + b + c + d
  }

  /** The contracts' parameters: year, minimum, maximum and supplier, each when truthy. */
  function ContratoParams(ano: Option<int>, valorMin: Option<real>, valorMax: Option<real>, fornecedor: Option<string>,
                          floatStr: real -> string): (q: Query)
    ensures Subsequence(Keys(q), ["ano", "valor_min", "valor_max", "fornecedor"])
  {
    var a, b, c, d := IntEntry("ano", ano), RealEntry("valor_min", valorMin, floatStr), RealEntry("valor_max", valorMax, floatStr),
      StrEntry("fornecedor", fornecedor);
    InOrder4(a, b, c, d, "ano", "valor_min", "valor_max", "fornecedor");
    a + b + c + d
  }

  /** The tenders' parameters: year, kind and status, each when truthy. */
  function LicitacaoParams(ano: Option<int>, modalidade: Option<string>, situacao: Option<string>): (q: Query)
    ensures Subsequence(Keys(q), ["ano", "modalidade", "situacao"])
  {
    var a, b, c := IntEntry("ano", ano), StrEntry("modalidade", modalidade), StrEntry("situacao", situacao);
    InOrder3(a, b, c, "ano", "modalidade", "situacao");
    a + b + c
  }

  /** The pay parameters: year, month and bond, each when truthy. */
  function RemuneracaoParams(ano: Option<int>, mes: Option<int>, vinculo: Option<string>): (q: Query)
    ensures Subsequence(Keys(q), ["ano", "mes", "vinculo"])
  {
    var a, b, c := IntEntry("ano", ano), IntEntry("mes", mes), StrEntry("vinculo", vinculo);
    InOrder3(a, b, c, "ano", "mes", "vinculo");
    a + b + c
  }

  /** An entry under `k` in front of keys taken in order from `names` gives keys taken in order from `k` and `names`. */
  lemma InOrderCons(e: Query, k: string, rest: Query, names: seq<string>)
    requires EntryFor(e, k) && Subsequence(Keys(rest), names)
    ensures Subsequence(Keys(e + rest), [k] + names)
  {
    var b := [k] + names;
    assert b[1..] == names;
    if e == [] {
      assert e + rest == rest;
      if Keys(rest) != [] {
        assert Subsequence(Keys(rest), b[1..]);
      }
    } else {
      var a := Keys(e + rest);
      assert a[0] == k;
      assert a[1..] == Keys(rest);
    }
  }

  lemma InOrderOne(e: Query, k: string)
    requires EntryFor(e, k)
    ensures Subsequence(Keys(e), [k])
  {
    if e != [] {
      var a := Keys(e);
      assert a[1..] == [];
    }
  }

  lemma InOrder3(a: Query, b: Query, c: Query, ka: string, kb: string, kc: string)
    requires EntryFor(a, ka) && EntryFor(b, kb) && EntryFor(c, kc)
    ensures Subsequence(Keys(a + b + c), [ka, kb, kc])
  {
    InOrderOne(c, kc);
    InOrderCons(b, kb, c, [kc]);
    InOrderCons(a, ka, b + c, [kb] + [kc]);
    assert a + (b + c) == a + b + c;
    assert [ka] + ([kb] + [kc]) == [ka, kb, kc];
  }

  lemma InOrder4(a: Query, b: Query, c: Query, d: Query, ka: string, kb: string, kc: string, kd: string)
    requires EntryFor(a, ka) && EntryFor(b, kb) && EntryFor(c, kc) && EntryFor(d, kd)
    ensures Subsequence(Keys(a + b + c + d), [ka, kb, kc, kd])
  {
    InOrder3(b, c, d, kb, kc, kd);
    InOrderCons(a, ka, b + c + d, [kb, kc, kd]);
    assert a + (b + c + d) == a + b + c + d;
    assert [ka] + [kb, kc, kd] == [ka, kb, kc, kd];
  }

  /** The filters to assign, in order: every entry but `formato`, its value written with `str()`. */
  function FilterParams(filters: Filters, floatStr: real -> string): (q: Query)
    ensures |q| <= |filters|
    ensures forall i :: 0 <= i < |q| ==> q[i].0 != "formato"
    decreases |filters|
  {
    if filters == [] then []
    else
      var n := |filters| - 1;
      var (key, value) := filters[n];
      FilterParams(filters[..n], floatStr) + (if key != "formato" then [(key, ValueToString(value, floatStr))] else [])
  }

  /** The dict `build_query_params` returns: `formato` stays first, and every field key keeps its place after it. */
  function QueryParams(req: Request, floatStr: real -> string): (q: Query)
    ensures |q| >= 1 + |FieldParams(req, floatStr)| && q[0] == ("formato", req.formato)
    ensures Keys(q)[1..1 + |FieldParams(req, floatStr)|] == Keys(FieldParams(req, floatStr))
  {
    var base := [("formato", req.formato)] + FieldParams(req, floatStr);
    var kvs := FilterParams(req.filters, floatStr);
    PutAllKeepsPrefix(base, kvs);
    assert base[0].0 !in Keys(kvs);
    var q := PutAll(base, kvs);
    assert Keys(q)[1..|base|] == Keys(base)[1..];
    assert Keys(base)[1..] == Keys(FieldParams(req, floatStr));
    q
  }

  /** `build_query_params`, one dict assignment at a time. */
  method BuildQueryParams(req: Request, floatStr: real -> string) returns (params: Query)
    ensures params == QueryParams(req, floatStr)
  {
    params := AssignFields(req, floatStr);
    params := AssignFilters(params, req.filters, floatStr);
  }

  /** The first half of `build_query_params`: `formato`, then the truthy fields of the request's class. */
  method AssignFields(req: Request, floatStr: real -> string) returns (params: Query)
    ensures params == [("formato", req.formato)] + FieldParams(req, floatStr)
  {
    var formato := req.formato;
    match req {
      case ApiRequest(_, _, _) => params := [("formato", formato)];
      case ParlamentarRequest(_, _, partido, situacao, legislatura) =>
        params := AssignParlamentarFields(formato, partido, situacao, legislatura);
        Regroup3([("formato", formato)], StrEntry("partido", partido), StrEntry("situacao", situacao), IntEntry("legislatura", legislatura));
      case ServidorRequest(_, _, vinculo, situacao, cargo, lotacao) =>
        params := AssignServidorFields(formato, vinculo, situacao, cargo, lotacao);
        Regroup4([("formato", formato)], StrEntry("vinculo", vinculo), StrEntry("situacao", situacao), StrEntry("cargo", cargo), StrEntry("lotacao", lotacao));
      case ContratoRequest(_, _, ano, valorMin, valorMax, fornecedor) =>
        params := AssignContratoFields(formato, ano, valorMin, valorMax, fornecedor, floatStr);
        Regroup4([("formato", formato)], IntEntry("ano", ano), RealEntry("valor_min", valorMin, floatStr), RealEntry("valor_max", valorMax, floatStr), StrEntry("fornecedor", fornecedor));
      case LicitacaoRequest(_, _, ano, modalidade, situacao) =>
        params := AssignLicitacaoFields(formato, ano, modalidade, situacao);
        Regroup3([("formato", formato)], IntEntry("ano", ano), StrEntry("modalidade", modalidade), StrEntry("situacao", situacao));
      case RemuneracaoRequest(_, _, ano, mes, vinculo) =>
        params := AssignRemuneracaoFields(formato, ano, mes, vinculo);
        Regroup3([("formato", formato)], IntEntry("ano", ano), IntEntry("mes", mes), StrEntry("vinculo", vinculo));
    }
  }

  lemma Regroup3(f: Query, a: Query, b: Query, c: Query)
    ensures f + a + b + c == f + (a + b + c)
  {
  }

  lemma Regroup4(f: Query, a: Query, b: Query, c: Query, d: Query)
    ensures f + a + b + c + d == f + (a + b + c + d)
  {
  }

  /** The `isinstance(request, ParlamentarRequest)` branch. */
  method AssignParlamentarFields(formato: string, partido: Option<string>, situacao: Option<string>, legislatura: Option<int>) returns (params: Query)
    ensures params == [("formato", formato)] + StrEntry("partido", partido) + StrEntry("situacao", situacao) + IntEntry("legislatura", legislatura)
  {
    params := [("formato", formato)];
    params := AssignIfSet(params, StrEntry("partido", partido));
    params := AssignIfSet(params, StrEntry("situacao", situacao));
    params := AssignIfSet(params, IntEntry("legislatura", legislatura));
  }

  /** The `isinstance(request, ServidorRequest)` branch. */
  method AssignServidorFields(formato: string, vinculo: Option<string>, situacao: Option<string>, cargo: Option<string>, lotacao: Option<string>) returns (params: Query)
    ensures params == [("formato", formato)] + StrEntry("vinculo", vinculo) + StrEntry("situacao", situacao) + StrEntry("cargo", cargo) + StrEntry("lotacao", lotacao)
  {
    params := [("formato", formato)];
    params := AssignIfSet(params, StrEntry("vinculo", vinculo));
    params := AssignIfSet(params, StrEntry("situacao", situacao));
    params := AssignIfSet(params, StrEntry("cargo", cargo));
    params := AssignIfSet(params, StrEntry("lotacao", lotacao));
  }

  /** The `isinstance(request, ContratoRequest)` branch. */
  method AssignContratoFields(formato: string, ano: Option<int>, valorMin: Option<real>, valorMax: Option<real>, fornecedor: Option<string>, floatStr: real -> string) returns (params: Query)
    ensures params == [("formato", formato)] + IntEntry("ano", ano) + RealEntry("valor_min", valorMin, floatStr) + RealEntry("valor_max", valorMax, floatStr) + StrEntry("fornecedor", fornecedor)
  {
    params := [("formato", formato)];
    params := AssignIfSet(params, IntEntry("ano", ano));
    params := AssignIfSet(params, RealEntry("valor_min", valorMin, floatStr));
    params := AssignIfSet(params, RealEntry("valor_max", valorMax, floatStr));
    params := AssignIfSet(params, StrEntry("fornecedor", fornecedor));
  }

  /** The `isinstance(request, LicitacaoRequest)` branch. */
  method AssignLicitacaoFields(formato: string, ano: Option<int>, modalidade: Option<string>, situacao: Option<string>) returns (params: Query)
    ensures params == [("formato", formato)] + IntEntry("ano", ano) + StrEntry("modalidade", modalidade) + StrEntry("situacao", situacao)
  {
    params := [("formato", formato)];
    params := AssignIfSet(params, IntEntry("ano", ano));
    params := AssignIfSet(params, StrEntry("modalidade", modalidade));
    params := AssignIfSet(params, StrEntry("situacao", situacao));
  }

  /** The `isinstance(request, RemuneracaoRequest)` branch. */
  method AssignRemuneracaoFields(formato: string, ano: Option<int>, mes: Option<int>, vinculo: Option<string>) returns (params: Query)
    ensures params == [("formato", formato)] + IntEntry("ano", ano) + IntEntry("mes", mes) + StrEntry("vinculo", vinculo)
  {
    params := [("formato", formato)];
    params := AssignIfSet(params, IntEntry("ano", ano));
    params := AssignIfSet(params, IntEntry("mes", mes));
    params := AssignIfSet(params, StrEntry("vinculo", vinculo));
  }

  /**
   * `if value: params[key] = str(value)`, given the entry that test yields:
   * a key the dict does not hold yet is appended.
   */
  method AssignIfSet(params: Query, entry: Query) returns (r: Query)
    requires |entry| <= 1
    requires entry != [] ==> entry[0].0 !in Keys(params)
    ensures r == params + entry
    ensures Keys(r) == Keys(params) + Keys(entry)
  {
    r := params;
    if entry != [] {
      r := Put(params, entry[0].0, entry[0].1);
      assert entry == [entry[0]];
    }
  }

  /** The loop of `build_query_params` over the filters. */
  method AssignFilters(base: Query, filters: Filters, floatStr: real -> string) returns (params: Query)
    ensures params == PutAll(base, FilterParams(filters, floatStr))
  {
    params := base;
    var i := 0;
    while i < |filters|
      invariant 0 <= i <= |filters|
      invariant params == PutAll(base, FilterParams(filters[..i], floatStr))
    {
      AssignFilterStep(base, filters, i, floatStr);
      if filters[i].0 != "formato" {
        params := Put(params, filters[i].0, ValueToString(filters[i].1, floatStr));
      }
      i := i + 1;
    }
    assert filters[..i] == filters;
  }

  /** One turn of the filter loop: a key other than `formato` is assigned its `str()`. */
  lemma AssignFilterStep(base: Query, filters: Filters, i: nat, floatStr: real -> string)
    requires i < |filters|
    ensures filters[i].0 != "formato" ==>
      PutAll(base, FilterParams(filters[..i + 1], floatStr)) ==
        Put(PutAll(base, FilterParams(filters[..i], floatStr)), filters[i].0, ValueToString(filters[i].1, floatStr))
    ensures filters[i].0 == "formato" ==>
      PutAll(base, FilterParams(filters[..i + 1], floatStr)) == PutAll(base, FilterParams(filters[..i], floatStr))
  {
    var kvs := FilterParams(filters[..i], floatStr);
    var kv := (filters[i].0, ValueToString(filters[i].1, floatStr));
    var next := FilterParams(filters[..i + 1], floatStr);
    FilterParamsSnoc(filters, i, floatStr);
    if kv.0 != "formato" {
      assert next == kvs + [kv];
      PutAllSnoc(base, kvs, kv);
      PutAllCongruent(base, next, kvs + [kv]);
    } else {
      assert next == kvs;
      PutAllCongruent(base, next, kvs);
    }
  }

  lemma PutAllCongruent(d: Query, a: Query, b: Query)
    requires a == b
    ensures PutAll(d, a) == PutAll(d, b)
  {
  }

  lemma FilterParamsSnoc(filters: Filters, i: nat, floatStr: real -> string)
    requires i < |filters|
    ensures FilterParams(filters[..i + 1], floatStr) == FilterParams(filters[..i], floatStr) +
      (if filters[i].0 != "formato" then [(filters[i].0, ValueToString(filters[i].1, floatStr))] else [])
  {
    assert filters[..i + 1][..i] == filters[..i];
  }

  lemma PutAllSnoc(d: Query, kvs: Query, kv: (string, string))
    ensures PutAll(d, kvs + [kv]) == Put(PutAll(d, kvs), kv.0, kv.1)
  {
    assert (kvs + [kv])[..|kvs|] == kvs;
  }
}
