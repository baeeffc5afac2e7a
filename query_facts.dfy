/**
 * What the query parameters of a request are: `formato` first, then the
 * set fields in declaration order, then the filters; every key once; a
 * filter's value beats a field's; and for an endpoint with an allow-list,
 * only keys the endpoint documents.
 */
module QueryFacts {
  import opened Wrappers
  import opened Builtins
  import opened OrderedDict
  import opened Config
  import opened Validators
  import opened QueryBuilder

  /** Every key once, each one of `ks`. */
  predicate KeysAmong(q: Query, ks: seq<string>)
  {
    NoDupKeys(q) && forall i :: 0 <= i < |q| ==> q[i].0 in ks
  }

  /** Appending at most one entry under a key not seen yet keeps every key once. */
  lemma AppendEntry(q: Query, e: Query, ks: seq<string>, k: string)
    requires KeysAmong(q, ks) && EntryFor(e, k) && k !in ks
    ensures KeysAmong(q + e, ks + [k])
  {
    var r := q + e;
    forall i | 0 <= i < |r| ensures r[i].0 in ks + [k] {
      if i < |q| { assert r[i] == q[i]; } else { assert r[i] == e[0]; }
    }
    forall i, j | 0 <= i < j < |r| ensures r[i].0 != r[j].0 {
      if j >= |q| {
        assert r[i] == q[i] && r[j] == e[0];
      }
    }
  }

  /** Three entries under distinct keys. */
  lemma ThreeEntries(a: Query, b: Query, c: Query, ka: string, kb: string, kc: string)
    requires EntryFor(a, ka) && EntryFor(b, kb) && EntryFor(c, kc)
    requires ka != kb && ka != kc && kb != kc
    ensures KeysAmong(a + b + c, [ka, kb, kc])
  {
    AppendEntry([], a, [], ka);
    assert [] + a == a;
    AppendEntry(a, b, [ka], kb);
    AppendEntry(a + b, c, [ka, kb], kc);
  }

  /** Four entries under distinct keys. */
  lemma FourEntries(a: Query, b: Query, c: Query, d: Query, ka: string, kb: string, kc: string, kd: string)
    requires EntryFor(a, ka) && EntryFor(b, kb) && EntryFor(c, kc) && EntryFor(d, kd)
    requires ka != kb && ka != kc && ka != kd && kb != kc && kb != kd && kc != kd
    ensures KeysAmong(a + b + c + d, [ka, kb, kc, kd])
  {
    ThreeEntries(a, b, c, ka, kb, kc);
    AppendEntry(a + b + c, d, [ka, kb, kc], kd);
  }

  /** The field parameters use the class's own field names, each once, never `formato`. */
  lemma FieldKeys(req: Request, floatStr: real -> string)
    ensures req.ApiRequest? ==> FieldParams(req, floatStr) == []
    ensures forall i :: 0 <= i < |FieldParams(req, floatStr)| ==>
      FieldParams(req, floatStr)[i].0 in AllowedFilters(req.Endpoint()) && FieldParams(req, floatStr)[i].0 != "formato"
    ensures NoDupKeys(FieldParams(req, floatStr))
  {
    FieldNamesOf(req, floatStr);
    if !req.ApiRequest? {
      FieldNamesAllowed(req);
    }
  }

  /** A class's own fields are exactly its endpoint's documented filters, `formato` not among them. */
  lemma FieldNamesAllowed(req: Request)
    requires !req.ApiRequest?
    ensures FieldNames(req) == AllowedFilters(req.Endpoint())
    ensures "formato" !in FieldNames(req)
  {
    AllowedFiltersTable(req.Endpoint());
  }

  lemma FieldNamesOf(req: Request, floatStr: real -> string)
    ensures KeysAmong(FieldParams(req, floatStr), FieldNames(req))
  {
    match req
    case ApiRequest(_, _, _) =>
    case ParlamentarRequest(_, _, _, _, _) => ParlamentarFieldKeys(req, floatStr);
    case ServidorRequest(_, _, _, _, _, _) => ServidorFieldKeys(req, floatStr);
    case ContratoRequest(_, _, _, _, _, _) => ContratoFieldKeys(req, floatStr);
    case LicitacaoRequest(_, _, _, _, _) => LicitacaoFieldKeys(req, floatStr);
    case RemuneracaoRequest(_, _, _, _, _) => RemuneracaoFieldKeys(req, floatStr);
  }

  lemma ParlamentarFieldKeys(req: Request, floatStr: real -> string)
    requires req.ParlamentarRequest?
    ensures KeysAmong(FieldParams(req, floatStr), ["partido", "situacao", "legislatura"])
  {
    var a, b, c := StrEntry("partido", req.partido), StrEntry("situacao", req.situacao), IntEntry("legislatura", req.legislatura);
    assert "partido"[0] != "situacao"[0] && "partido"[0] != "legislatura"[0] && "situacao"[0] != "legislatura"[0];
    ThreeEntries(a, b, c, "partido", "situacao", "legislatura");
    assert FieldParams(req, floatStr) == a + b + c;
  }

  lemma ServidorFieldKeys(req: Request, floatStr: real -> string)
    requires req.ServidorRequest?
    ensures KeysAmong(FieldParams(req, floatStr), ["vinculo", "situacao", "cargo", "lotacao"])
  {
    var a, b, c, d := StrEntry("vinculo", req.vinculo), StrEntry("situacao", req.situacao), StrEntry("cargo", req.cargo), StrEntry("lotacao", req.lotacao);
    assert "vinculo"[0] != "situacao"[0] && "vinculo"[0] != "cargo"[0] && "vinculo"[0] != "lotacao"[0];
    assert "situacao"[0] != "cargo"[0] && "situacao"[0] != "lotacao"[0] && "cargo"[0] != "lotacao"[0];
    FourEntries(a, b, c, d, "vinculo", "situacao", "cargo", "lotacao");
    assert FieldParams(req, floatStr) == a + b + c + d;
  }

  lemma ContratoFieldKeys(req: Request, floatStr: real -> string)
    requires req.ContratoRequest?
    ensures KeysAmong(FieldParams(req, floatStr), ["ano", "valor_min", "valor_max", "fornecedor"])
  {
    var a, b, c, d := IntEntry("ano", req.ano), RealEntry("valor_min", req.valorMin, floatStr), RealEntry("valor_max", req.valorMax, floatStr), StrEntry("fornecedor", req.fornecedor);
    assert "ano"[0] != "valor_min"[0] && "ano"[0] != "valor_max"[0] && "ano"[0] != "fornecedor"[0];
    assert "valor_min"[7] != "valor_max"[7] && "valor_min"[0] != "fornecedor"[0] && "valor_max"[0] != "fornecedor"[0];
    FourEntries(a, b, c, d, "ano", "valor_min", "valor_max", "fornecedor");
    assert FieldParams(req, floatStr) == a + b + c + d;
  }

  lemma LicitacaoFieldKeys(req: Request, floatStr: real -> string)
    requires req.LicitacaoRequest?
    ensures KeysAmong(FieldParams(req, floatStr), ["ano", "modalidade", "situacao"])
  {
    var a, b, c := IntEntry("ano", req.ano), StrEntry("modalidade", req.modalidade), StrEntry("situacao", req.situacao);
    assert "ano"[0] != "modalidade"[0] && "ano"[0] != "situacao"[0] && "modalidade"[0] != "situacao"[0];
    ThreeEntries(a, b, c, "ano", "modalidade", "situacao");
    assert FieldParams(req, floatStr) == a + b + c;
  }

  lemma RemuneracaoFieldKeys(req: Request, floatStr: real -> string)
    requires req.RemuneracaoRequest?
    ensures KeysAmong(FieldParams(req, floatStr), ["ano", "mes", "vinculo"])
  {
    var a, b, c := IntEntry("ano", req.ano), IntEntry("mes", req.mes), StrEntry("vinculo", req.vinculo);
    assert "ano"[0] != "mes"[0] && "ano"[0] != "vinculo"[0] && "mes"[0] != "vinculo"[0];
    ThreeEntries(a, b, c, "ano", "mes", "vinculo");
    assert FieldParams(req, floatStr) == a + b + c;
  }

  /** A filter's parameter: none for `formato`, otherwise the filter's value written with `str()`. */
  lemma {:induction false} FilterParamsGet(filters: Filters, floatStr: real -> string, k: string)
    requires NoDupKeys(filters)
    ensures Get(FilterParams(filters, floatStr), k) ==
      if k == "formato" || Get(filters, k).None? then None
      else Some(ValueToString(Get(filters, k).value, floatStr))
    ensures NoDupKeys(FilterParams(filters, floatStr))
    decreases |filters|
  {
    if filters != [] {
      var n := |filters| - 1;
      var init := filters[..n];
      assert filters == init + [filters[n]];
      assert NoDupKeys(init);
      FilterParamsGet(init, floatStr, k);
      FilterParamsGet(init, floatStr, filters[n].0);
      GetAppend(init, [filters[n]], k);
      assert filters[n].0 !in Keys(init);
      assert Get(init, filters[n].0).None?;
      var head := FilterParams(init, floatStr);
      var tail: Query := if filters[n].0 != "formato" then [(filters[n].0, ValueToString(filters[n].1, floatStr))] else [];
      assert FilterParams(filters, floatStr) == head + tail;
      GetAppend(head, tail, k);
      assert filters[n].0 !in Keys(head);
      forall i, j | 0 <= i < j < |head + tail| ensures (head + tail)[i].0 != (head + tail)[j].0 {
        if j == |head| {
          assert Keys(head)[i] == head[i].0;
        }
      }
    }
  }

  /** The keys `ks` in their order, with every `k` left out. */
  function KeysExcept(ks: seq<string>, k: string): seq<string>
    decreases |ks|
  {
    if ks == [] then [] else (if ks[0] == k then [] else [ks[0]]) + KeysExcept(ks[1..], k)
  }

  lemma {:induction false} KeysExceptAppend(a: seq<string>, b: seq<string>, k: string)
    ensures KeysExcept(a + b, k) == KeysExcept(a, k) + KeysExcept(b, k)
    decreases |a|
  {
    if a == [] {
      assert a + b == b;
    } else {
      assert (a + b)[1..] == a[1..] + b;
      KeysExceptAppend(a[1..], b, k);
    }
  }

  /** The filter loop sends the filters' keys in their own order, `formato` left out. */
  lemma {:induction false} FilterParamsKeys(filters: Filters, floatStr: real -> string)
    ensures Keys(FilterParams(filters, floatStr)) == KeysExcept(Keys(filters), "formato")
    decreases |filters|
  {
    if filters != [] {
      var n := |filters| - 1;
      var init := filters[..n];
      FilterParamsKeys(init, floatStr);
      var (key, value) := filters[n];
      var head := FilterParams(init, floatStr);
      var tail: Query := if key != "formato" then [(key, ValueToString(value, floatStr))] else [];
      assert Keys(head + tail) == Keys(head) + Keys(tail);
      assert Keys(filters) == Keys(init) + [key];
      KeysExceptAppend(Keys(init), [key], "formato");
      assert KeysExcept([key], "formato") == Keys(tail) by {
        assert [key][1..] == [];
      }
    }
  }

  /** Filters whose keys are new to `base` (or are `formato`) are appended after it, in their own order. */
  lemma FilterParamsAppended(base: Query, filters: Filters, floatStr: real -> string)
    requires NoDupKeys(filters)
    requires forall i :: 0 <= i < |filters| && filters[i].0 != "formato" ==> filters[i].0 !in Keys(base)
    ensures PutAll(base, FilterParams(filters, floatStr)) == base + FilterParams(filters, floatStr)
  {
    var kvs := FilterParams(filters, floatStr);
    FilterParamsGet(filters, floatStr, "");
    forall i | 0 <= i < |kvs| ensures kvs[i].0 !in Keys(base) {
      var k := kvs[i].0;
      assert Keys(kvs)[i] == k;
      FilterParamsGet(filters, floatStr, k);
      var j :| 0 <= j < |filters| && Keys(filters)[j] == k;
      assert filters[j].0 == k;
    }
    PutAllFresh(base, kvs);
  }

  /**
   * When the filters name no field that is set, `build_query_params` is
   * `formato`, then the fields, then the filters other than `formato`, in
   * their own order.
   */
  lemma QueryAppendsFilters(req: Request, floatStr: real -> string)
    requires NoDupKeys(req.filters)
    requires forall i :: 0 <= i < |req.filters| ==> req.filters[i].0 !in Keys(FieldParams(req, floatStr))
    ensures QueryParams(req, floatStr) ==
      [("formato", req.formato)] + FieldParams(req, floatStr) + FilterParams(req.filters, floatStr)
  {
    var fields := FieldParams(req, floatStr);
    var base := [("formato", req.formato)] + fields;
    assert Keys(base) == ["formato"] + Keys(fields);
    FilterParamsAppended(base, req.filters, floatStr);
  }

  /** `formato` is the first parameter and keeps the request's value. */
  lemma QueryStartsWithFormato(req: Request, floatStr: real -> string)
    ensures var q := QueryParams(req, floatStr);
      |q| >= 1 && q[0] == ("formato", req.formato)
  {
    var base := [("formato", req.formato)] + FieldParams(req, floatStr);
    var kvs := FilterParams(req.filters, floatStr);
    PutAllKeepsPrefix(base, kvs);
    assert base[0].0 !in Keys(kvs);
  }

  /** No key is sent twice. */
  lemma QueryNoDupKeys(req: Request, floatStr: real -> string)
    ensures NoDupKeys(QueryParams(req, floatStr))
  {
    FieldKeys(req, floatStr);
    var base := [("formato", req.formato)] + FieldParams(req, floatStr);
    assert NoDupKeys(base) by {
      forall i, j | 0 <= i < j < |base| ensures base[i].0 != base[j].0 {
        if i > 0 {
          assert base[i] == FieldParams(req, floatStr)[i - 1];
        }
      }
    }
    PutAllKeepsNoDup(base, FilterParams(req.filters, floatStr));
  }

  /**
   * The value sent for each key: the request's `formato`; else the filter of
   * that name, written with `str()`; else the field of that name when set.
   */
  lemma QueryLookup(req: Request, floatStr: real -> string, k: string)
    requires NoDupKeys(req.filters)
    ensures Get(QueryParams(req, floatStr), k) ==
      if k == "formato" then Some(req.formato)
      else if Get(req.filters, k).Some? then Some(ValueToString(Get(req.filters, k).value, floatStr))
      else Get(FieldParams(req, floatStr), k)
  {
    var kvs := FilterParams(req.filters, floatStr);
    FilterParamsGet(req.filters, floatStr, k);
    PutAllGet([("formato", req.formato)] + FieldParams(req, floatStr), kvs, k);
    GetAppend([("formato", req.formato)], FieldParams(req, floatStr), k);
  }

  /**
   * A request whose filters pass validation, to an endpoint with an
   * allow-list, sends only `formato` and keys from that list.
   */
  lemma QueryKeysAllowed(req: Request, floatStr: real -> string, k: string)
    requires FiltersOk(req.Endpoint(), req.filters) && NoDupKeys(req.filters)
    requires |AllowedFilters(req.Endpoint())| > 0
    requires k in Keys(QueryParams(req, floatStr))
    ensures k == "formato" || k in AllowedFilters(req.Endpoint())
  {
    QueryLookup(req, floatStr, k);
    if k != "formato" {
      if Get(req.filters, k).Some? {
        FilterKeyAllowed(req.Endpoint(), req.filters, k);
      } else {
        FieldKeys(req, floatStr);
        KeyAt(FieldParams(req, floatStr), k);
      }
    }
  }

  /** A validated filter's key is `formato` or on a non-empty allow-list. */
  lemma FilterKeyAllowed(endpoint: string, filters: Filters, k: string)
    requires FiltersOk(endpoint, filters) && |AllowedFilters(endpoint)| > 0
    requires k in Keys(filters)
    ensures k == "formato" || k in AllowedFilters(endpoint)
  {
    var i :| 0 <= i < |filters| && Keys(filters)[i] == k;
    assert EntryOk(endpoint, filters[i]);
  }

  lemma KeyAt(q: Query, k: string)
    requires k in Keys(q)
    ensures exists i :: 0 <= i < |q| && q[i].0 == k
  {
    var i :| 0 <= i < |q| && Keys(q)[i] == k;
    assert q[i].0 == k;
  }

  /** The deputies' query for party PT, as the server's tool sends it. */
  lemma ParlamentaresByParty(floatStr: real -> string)
    ensures QueryParams(ParlamentarRequest("json", [], Some("PT"), None, None), floatStr)
      == [("formato", "json"), ("partido", "PT")]
  {
  }

  /** A filter replaces the field of the same name in place; a `formato` filter is never sent. */
  lemma FilterOverridesField(floatStr: real -> string)
    ensures QueryParams(ServidorRequest("csv", [("formato", VStr("json")), ("vinculo", VStr("efetivo"))],
        Some("comissionado"), Some("ativo"), None, None), floatStr)
      == [("formato", "csv"), ("vinculo", "efetivo"), ("situacao", "ativo")]
  {
    var filters: Filters := [("formato", VStr("json")), ("vinculo", VStr("efetivo"))];
    var req := ServidorRequest("csv", filters, Some("comissionado"), Some("ativo"), None, None);
    var kv := ("vinculo", "efetivo");
    assert FilterParams(filters, floatStr) == [kv] by {
      FilterParamsSnoc(filters, 0, floatStr);
      FilterParamsSnoc(filters, 1, floatStr);
      assert filters[..0] == [] && filters[..2] == filters;
    }
    var base := [("formato", "csv"), ("vinculo", "comissionado"), ("situacao", "ativo")];
    assert [("formato", req.formato)] + FieldParams(req, floatStr) == base;
    assert PutAll(base, [kv]) == Put(base, kv.0, kv.1) by {
      PutAllSnoc(base, [], kv);
      assert [] + [kv] == [kv];
    }
    PutSecond(base, kv.0, kv.1);
  }

  /** Assigning to the key in second position of a three-entry dict. */
  lemma PutSecond(d: Query, k: string, v: string)
    requires |d| == 3 && d[1].0 == k && d[0].0 != k && d[2].0 != k
    ensures Put(d, k, v) == [d[0], (k, v), d[2]]
  {
    assert d[1..][1..] == [d[2]];
  }
}
