/** The request side of the job and company listings (src/app/services/api.js):
    the query string `getJobs` builds with `URLSearchParams`, and the values
    `getJobs` and `getCompanies` fall back to when a request fails. */
module Api {
  import opened Js
  import VacanteCard

  /** A `URLSearchParams` object: its entries in insertion order; a key may repeat. */
  class SearchParams {
    var entries: seq<(string, string)>

    constructor ()
      ensures entries == []
    {
      entries := [];
    }

    /** `append(key, value)` adds an entry at the end and never replaces one. */
    method Append(key: string, value: string)
      modifies this
      ensures entries == old(entries) + [(key, value)]
    {
      entries := entries + [(key, value)];
    }
  }

  /** What `getJobs` requests under `/jobs`: a string filter appended
      verbatim, or a query string built from the filter object. */
  datatype JobsQuery = Verbatim(suffix: string) | Params(entries: seq<(string, string)>)

  /** `if (v) params.append(key, v)` */
  function OptionalEntry(key: string, v: JsValue): seq<(string, string)> {
    if Truthy(v) then [(key, ToJsString(v))] else []
  }

  /** `if (flag) params.append("work_location_type", value)` */
  function FlagEntry(flag: JsValue, value: string): seq<(string, string)> {
    if Truthy(flag) then [("work_location_type", value)] else []
  }

  /** The `work_location_type` entries of the three flags, in the order they are appended. */
  function LocationEntries(f: JsValue): seq<(string, string)> {
    FlagEntry(Get(f, "remoto"), "REMOTE") + FlagEntry(Get(f, "presencial"), "ONSITE")
    + FlagEntry(Get(f, "hibrido"), "HYBRID")
  }

  /** The location types the flags select. */
  function LocationTypes(f: JsValue): seq<string> {
    (if Truthy(Get(f, "remoto")) then ["REMOTE"] else [])
    + (if Truthy(Get(f, "presencial")) then ["ONSITE"] else [])
    + (if Truthy(Get(f, "hibrido")) then ["HYBRID"] else [])
  }

  /** `filtros.limit || 20` and `filtros.page || 1`, as text. */
  function LimitOf(f: JsValue): string {
    ToJsString(OrChain([Get(f, "limit"), Num(20)]))
  }

  function PageOf(f: JsValue): string {
    ToJsString(OrChain([Get(f, "page"), Num(1)]))
  }

  /** The entries of the query string for a filter object `f`. */
  function QueryEntries(f: JsValue): seq<(string, string)> {
    OptionalEntry("q", Get(f, "q")) + OptionalEntry("city", Get(f, "city"))
    + LocationEntries(f)
    + [("limit", LimitOf(f)), ("page", PageOf(f))]
  }

  /** The request `getJobs(filtros)` makes; None when reading a field of the
      filter throws (a `null` filter), which lands in the fallback. An absent
      filter is the default `{}`. */
  function JobsQueryOf(filtros: JsValue): Option<JobsQuery> {
    if filtros.Str? then Some(Verbatim(filtros.s))
    else if filtros.Null? then None
    else Some(Params(QueryEntries(if filtros.Undefined? then Obj(map[]) else filtros)))
  }

  /** One conditional `append`. */
  method AppendWhen(params: SearchParams, cond: bool, key: string, value: string)
    modifies params
    ensures params.entries == old(params.entries) + (if cond then [(key, value)] else [])
  {
    if cond {
      params.Append(key, value);
    }
  }

  /** The query-building steps of `getJobs`. */
  method BuildJobsQuery(filtros: JsValue) returns (r: Option<JobsQuery>)
    ensures r == JobsQueryOf(filtros)
  {
    if filtros.Str? {
      return Some(Verbatim(filtros.s));
    }
    if filtros.Null? {
      return None;
    }
    var f := if filtros.Undefined? then Obj(map[]) else filtros;
    var entries := BuildParams(f);
    return Some(Params(entries));
  }

  /** The successive `append` calls on a fresh `URLSearchParams` for the filter object `f`. */
  method BuildParams(f: JsValue) returns (entries: seq<(string, string)>)
    ensures entries == QueryEntries(f)
  {
    var params := new SearchParams();
    AppendOptional(params, "q", Get(f, "q"));
    AppendOptional(params, "city", Get(f, "city"));
    ghost var filters := params.entries;
    assert filters == OptionalEntry("q", Get(f, "q")) + OptionalEntry("city", Get(f, "city"));
    AppendLocationTypes(params, f);
    assert params.entries == filters + LocationEntries(f);
    params.Append("limit", LimitOf(f));
    params.Append("page", PageOf(f));
    entries := params.entries;
    assert entries == filters + LocationEntries(f) + [("limit", LimitOf(f)), ("page", PageOf(f))];
  }

  /** `if (f.key) params.append(key, f.key)` */
  method AppendOptional(params: SearchParams, key: string, v: JsValue)
    modifies params
    ensures params.entries == old(params.entries) + OptionalEntry(key, v)
  {
    AppendWhen(params, Truthy(v), key, ToJsString(v));
  }

  /** The three `work_location_type` appends. */
  method AppendLocationTypes(params: SearchParams, f: JsValue)
    modifies params
    ensures params.entries == old(params.entries) + LocationEntries(f)
  {
    AppendWhen(params, Truthy(Get(f, "remoto")), "work_location_type", "REMOTE");
    AppendWhen(params, Truthy(Get(f, "presencial")), "work_location_type", "ONSITE");
    AppendWhen(params, Truthy(Get(f, "hibrido")), "work_location_type", "HYBRID");
  }

  /** The values a key has in a list of entries, in order. */
  function ValuesOf(entries: seq<(string, string)>, key: string): (r: seq<string>)
    ensures |r| <= |entries|
  {
    if entries == [] then []
    else (if entries[0].0 == key then [entries[0].1] else []) + ValuesOf(entries[1..], key)
  }

  lemma {:induction false} ValuesOfConcat(a: seq<(string, string)>, b: seq<(string, string)>, key: string)
    ensures ValuesOf(a + b, key) == ValuesOf(a, key) + ValuesOf(b, key)
  {
    if a == [] {
      assert a + b == b;
    } else {
      assert (a + b)[1..] == a[1..] + b;
      ValuesOfConcat(a[1..], b, key);
    }
  }

  lemma ValuesOfSingle(e: (string, string), key: string)
    ensures ValuesOf([e], key) == if e.0 == key then [e.1] else []
  {
    assert [e][1..] == [];
  }

  lemma ValuesOfPair(e: (string, string), d: (string, string), key: string)
    ensures ValuesOf([e, d], key) == ValuesOf([e], key) + ValuesOf([d], key)
  {
    assert [e, d] == [e] + [d];
    ValuesOfConcat([e], [d], key);
  }

  /** The values of `key` in the query, section by section. */
  lemma QueryEntriesSections(f: JsValue, key: string)
    ensures ValuesOf(QueryEntries(f), key)
            == ValuesOf(OptionalEntry("q", Get(f, "q")), key)
               + ValuesOf(OptionalEntry("city", Get(f, "city")), key)
               + ValuesOf(LocationEntries(f), key)
               + ValuesOf([("limit", LimitOf(f)), ("page", PageOf(f))], key)
  {
    var q := OptionalEntry("q", Get(f, "q"));
    var c := OptionalEntry("city", Get(f, "city"));
    var l := LocationEntries(f);
    var p: seq<(string, string)> := [("limit", LimitOf(f)), ("page", PageOf(f))];
    ValuesOfConcat(q, c, key);
    ValuesOfConcat(q + c, l, key);
    ValuesOfConcat(q + c + l, p, key);
  }

  lemma LocationEntriesValues(f: JsValue, key: string)
    ensures ValuesOf(LocationEntries(f), key) == if key == "work_location_type" then LocationTypes(f) else []
  {
    var a := FlagEntry(Get(f, "remoto"), "REMOTE");
    var b := FlagEntry(Get(f, "presencial"), "ONSITE");
    var c := FlagEntry(Get(f, "hibrido"), "HYBRID");
    ValuesOfConcat(a, b, key);
    ValuesOfConcat(a + b, c, key);
    ValuesOfSingle(("work_location_type", "REMOTE"), key);
    ValuesOfSingle(("work_location_type", "ONSITE"), key);
    ValuesOfSingle(("work_location_type", "HYBRID"), key);
  }

  /** The values of a key in an optional entry. */
  lemma OptionalEntryValues(k: string, v: JsValue, key: string)
    ensures ValuesOf(OptionalEntry(k, v), key) == if k == key && Truthy(v) then [ToJsString(v)] else []
  {
    ValuesOfSingle((k, ToJsString(v)), key);
  }

  /** Every key the builder uses, and the values it gets: `q` and `city` once
      each exactly when truthy, one `work_location_type` per enabled flag in
      the order REMOTE, ONSITE, HYBRID, and `limit` and `page` exactly once. */
  lemma QueryEntriesValues(f: JsValue, key: string)
    ensures ValuesOf(QueryEntries(f), key) ==
      if key == "q" || key == "city" then (if Truthy(Get(f, key)) then [ToJsString(Get(f, key))] else [])
      else if key == "work_location_type" then LocationTypes(f)
      else if key == "limit" then [LimitOf(f)]
      else if key == "page" then [PageOf(f)]
      else []
  {
    QueryEntriesSections(f, key);
    OptionalEntryValues("q", Get(f, "q"), key);
    OptionalEntryValues("city", Get(f, "city"), key);
    LocationEntriesValues(f, key);
    ValuesOfPair(("limit", LimitOf(f)), ("page", PageOf(f)), key);
    ValuesOfSingle(("limit", LimitOf(f)), key);
    ValuesOfSingle(("page", PageOf(f)), key);
    var vq := ValuesOf(OptionalEntry("q", Get(f, "q")), key);
    var vc := ValuesOf(OptionalEntry("city", Get(f, "city")), key);
    var vl := ValuesOf(LocationEntries(f), key);
    var vp := ValuesOf([("limit", LimitOf(f)), ("page", PageOf(f))], key);
    if key == "q" {
      assert vc == [] && vl == [] && vp == [];
    } else if key == "city" {
      assert vq == [] && vl == [] && vp == [];
    } else if key == "work_location_type" {
      assert vq == [] && vc == [] && vp == [];
    } else if key == "limit" || key == "page" {
      assert vq == [] && vc == [] && vl == [];
    } else {
      assert vq == [] && vc == [] && vl == [] && vp == [];
    }
  }

  /** `q` comes first and `city` next when present; `limit` and `page` are the
      last two entries, 20 and 1 unless the filter gives truthy ones. */
  lemma QueryEntriesOrder(f: JsValue)
    ensures var es := QueryEntries(f);
      && |es| >= 2
      && (Truthy(Get(f, "q")) ==> es[0] == ("q", ToJsString(Get(f, "q"))))
      && (Truthy(Get(f, "city")) ==> es[if Truthy(Get(f, "q")) then 1 else 0] == ("city", ToJsString(Get(f, "city"))))
      && es[|es| - 2] == ("limit", LimitOf(f))
      && es[|es| - 1] == ("page", PageOf(f))
    ensures !Truthy(Get(f, "limit")) ==> LimitOf(f) == "20"
    ensures Truthy(Get(f, "limit")) ==> LimitOf(f) == ToJsString(Get(f, "limit"))
    ensures !Truthy(Get(f, "page")) ==> PageOf(f) == "1"
    ensures Truthy(Get(f, "page")) ==> PageOf(f) == ToJsString(Get(f, "page"))
  {
    assert NatToString(20) == "20" by {
      assert NatToString(2) == "2";
    }
    assert NatToString(1) == "1";
  }

  /** A string filter is requested as written, with no parameters added;
      an absent filter asks for the first page of 20. */
  lemma JobsQueryShapes(filtros: JsValue)
    ensures filtros.Str? ==> JobsQueryOf(filtros) == Some(Verbatim(filtros.s))
    ensures filtros.Undefined? ==> JobsQueryOf(filtros) == Some(Params([("limit", "20"), ("page", "1")]))
  {
    if filtros.Undefined? {
      var f := Obj(map[]);
      QueryEntriesOrder(f);
      assert Get(f, "q") == Undefined && Get(f, "city") == Undefined;
      assert LocationEntries(f) == [];
      assert QueryEntries(f) == [("limit", LimitOf(f)), ("page", PageOf(f))];
    }
  }

  // ---------------------------------------------------------------------------
  // Fallbacks

  /** What `getJobs` returns when the request or the reading of its body fails. */
  const JobsFallback: JsValue := Obj(map["data" := Arr([]), "docs" := Arr([])])

  /** What `getCompanies` returns when the request or the reading of its body fails. */
  const CompaniesFallback: JsValue := Obj(map["data" := Arr([])])

  /** `getJobs(filtros)`; `respond` stands for the request and the decoding
      of its JSON body (None when either fails). */
  function GetJobs(filtros: JsValue, respond: JobsQuery -> Option<JsValue>): (r: JsValue)
    ensures JobsQueryOf(filtros).None? ==> r == JobsFallback
    ensures JobsQueryOf(filtros).Some? ==>
      r == match respond(JobsQueryOf(filtros).value)
           case Some(body) => body
           case None => JobsFallback
  {
    match JobsQueryOf(filtros)
    case None => JobsFallback
    case Some(query) =>
      match respond(query)
      case Some(body) => body
      case None => JobsFallback
  }

  /** The `limit` in the companies URL: the default 20 applies only when the
      argument is absent (`undefined`); any other value is written out. */
  function CompaniesLimit(limit: JsValue): (r: string)
    ensures limit.Undefined? ==> r == "20"
    ensures !limit.Undefined? ==> r == ToJsString(limit)
  {
    if limit.Undefined? then (assert NatToString(2) == "2"; NatToString(20)) else ToJsString(limit)
  }

  /** `getCompanies(limit)`; `respond` takes the limit text of the URL. */
  function GetCompanies(limit: JsValue, respond: string -> Option<JsValue>): (r: JsValue)
    ensures respond(CompaniesLimit(limit)).Some? ==> r == respond(CompaniesLimit(limit)).value
    ensures respond(CompaniesLimit(limit)).None? ==> r == CompaniesFallback
  {
    match respond(CompaniesLimit(limit))
    case Some(body) => body
    case None => CompaniesFallback
  }

  /** Both fallbacks read as an empty list wherever the screens normalise a
      listing response. */
  lemma FallbacksAreEmptyLists()
    ensures VacanteCard.NormalizeList(JobsFallback) == []
    ensures VacanteCard.NormalizeList(CompaniesFallback) == []
    ensures Get(JobsFallback, "docs") == Arr([])
  {
  }

  /** A failed listing request, or a `null` filter, leaves the caller with an
      empty list. */
  lemma FailedJobsListIsEmpty(filtros: JsValue, respond: JobsQuery -> Option<JsValue>)
    requires filtros.Null? || respond(JobsQueryOf(filtros).value).None?
    ensures VacanteCard.NormalizeList(GetJobs(filtros, respond)) == []
  {
    FallbacksAreEmptyLists();
  }
}
