/** The search capability (get by id, list, text search) and its Elasticsearch
    implementation: how paging, sort directives, an optional text query and nested-object
    filters become one Query DSL request, and how the engine's answer is read back. */
module ElasticSearch {
  import opened Wrappers
  import opened JsonValues
  import opened QueryParams

  /** A filter on an embedded collection: documents whose `name` collection holds an
      element whose `filterField` equals `termValue`. */
  datatype NestedObjectQuery = NestedObjectQuery(name: string, filterField: string, termValue: string)

  // ---- The request, as data ----

  datatype Order = Asc | Desc

  /** One entry `{field: "asc" | "desc"}` of the `sort` list. */
  datatype SortKey = SortKey(field: string, order: Order)

  /** `{"match": {field: {"query": q, "fuzziness": f}}}` or
      `{"multi_match": {"query": q, "fields": fields}}`. */
  datatype TextQuery =
    | Match(field: string, query: string, fuzziness: string)
    | MultiMatch(query: string, fields: seq<string>)

  /** `{"nested": {"path": path, "query": {"bool": {"filter": {"term": {termField: termValue}}}}}}`. */
  datatype NestedClause = NestedClause(path: string, termField: string, termValue: string)

  /** `{"bool": {"must": must, "should": should}}`. */
  datatype BoolQuery = BoolQuery(must: seq<TextQuery>, should: seq<NestedClause>)

  /** The arguments of one `search(index, size, from_, query, sort)` call. */
  datatype Request = Request(index: string, size: int, from: int, query: BoolQuery, sort: seq<SortKey>)

  datatype Hit = Hit(id: string, source: Doc)

  /** The engine, seen from the service layer: the documents of one index by id, and the
      hits it answers a request with (scoring and matching are the engine's business). */
  datatype Engine = Engine(index: string, docs: map<string, Doc>, search: Request -> seq<Hit>)

  /** The relevance tie-breaker appended after every directive. */
  const ScoreDesc: SortKey := SortKey("_score", Desc)

  // ---- Paging and sorting ----

  /** `params` when given, otherwise `CommonQueryParams()`. */
  function Effective(params: Option<CommonQueryParams>): CommonQueryParams
  {
    params.GetOr(Default())
  }

  /** The `from_` offset: zero on page 1, otherwise `page_size * page_number - page_size`. */
  function Offset(p: CommonQueryParams): (from: int)
    ensures from == p.pageSize * (p.pageNumber - 1)
    ensures Valid(p) ==> 0 <= from
  {
    if p.pageNumber == 1 then 0 else p.pageSize * p.pageNumber - p.pageSize
  }

  /** Consecutive pages are adjacent, non-overlapping windows of `page_size` hits. */
  lemma OffsetNextPage(p: CommonQueryParams)
    ensures Offset(p.(pageNumber := p.pageNumber + 1)) == Offset(p) + p.pageSize
  {
  }

  /** Every directive can be indexed at position 0 (an empty one raises `IndexError`). */
  predicate DirectivesIndexable(params: Option<CommonQueryParams>)
  {
    forall i :: 0 <= i < |Effective(params).sort| ==> |Effective(params).sort[i]| > 0
  }

  /** A leading `-` asks for descending order on the rest of the directive. */
  function SortKeyFor(directive: string): (k: SortKey)
    requires |directive| > 0
  {
    if directive[0] == '-' then SortKey(directive[1..], Desc) else SortKey(directive, Asc)
  }

  /** The directive a sort key is read back as. */
  function DirectiveOf(k: SortKey): string
  {
    if k.order == Desc then "-" + k.field else k.field
  }

  /** A directive is descending exactly when it starts with `-`, and every non-empty
      directive can be read back from its sort key. */
  lemma SortKeyForMeaning(directive: string)
    requires |directive| > 0
    ensures SortKeyFor(directive).order == Desc <==> directive[0] == '-'
    ensures DirectiveOf(SortKeyFor(directive)) == directive
  {
    if directive[0] == '-' {
      assert "-" + directive[1..] == directive;
    }
  }

  /** The `sort` list: one key per directive, in order, then `{_score: desc}`. */
  function SortFor(directives: seq<string>): (sort: seq<SortKey>)
    requires forall i :: 0 <= i < |directives| ==> |directives[i]| > 0
  {
    seq(|directives|, i requires 0 <= i < |directives| => SortKeyFor(directives[i])) + [ScoreDesc]
  }

  function NestedClauseFor(n: NestedObjectQuery): NestedClause
  {
    NestedClause(n.name, n.name + "." + n.filterField, n.termValue)
  }

  /** The request `_search` sends. Missing params act as `CommonQueryParams()`, missing
      nested filters as none. */
  function RequestFor(index: string, params: Option<CommonQueryParams>,
                      nested: Option<seq<NestedObjectQuery>>, searchQuery: Option<TextQuery>): Request
    requires DirectivesIndexable(params)
  {
    var p := Effective(params);
    var objects := nested.GetOr([]);
    Request(
      index, p.pageSize, Offset(p),
      BoolQuery(if searchQuery.Some? then [searchQuery.value] else [],
                seq(|objects|, i requires 0 <= i < |objects| => NestedClauseFor(objects[i]))),
      SortFor(p.sort))
  }

  /** `_search`'s construction of the request, step by step: the sort list gets its
      trailing score key appended, the text query goes into `must`, and each nested
      filter is appended to `should`. */
  method BuildRequest(index: string, params: Option<CommonQueryParams>,
                      nested: Option<seq<NestedObjectQuery>>, searchQuery: Option<TextQuery>)
    returns (r: Request)
    requires DirectivesIndexable(params)
    ensures r == RequestFor(index, params, nested, searchQuery)
  {
    var p := if params.None? then Default() else params.value;
    assert p == Effective(params);
    var from := if p.pageNumber == 1 then 0 else p.pageSize * p.pageNumber - p.pageSize;
    var sort := seq(|p.sort|, i requires 0 <= i < |p.sort| => SortKeyFor(p.sort[i]));
    sort := sort + [ScoreDesc];
    var must: seq<TextQuery> := [];
    var should: seq<NestedClause> := [];
    if searchQuery.Some? {
      must := must + [searchQuery.value];
    }
    var objects := if nested.None? then [] else nested.value;
    for i := 0 to |objects|
      invariant |should| == i
      invariant forall k :: 0 <= k < i ==> should[k] == NestedClauseFor(objects[k])
    {
      var n := objects[i];
      should := should + [NestedClause(n.name, n.name + "." + n.filterField, n.termValue)];
    }
    r := Request(index, p.pageSize, from, BoolQuery(must, should), sort);
  }

  /** What the request says, in the terms of the paging parameters, the directives, the
      text query and the filters it was built from. */
  lemma RequestForMeaning(index: string, params: Option<CommonQueryParams>,
                          nested: Option<seq<NestedObjectQuery>>, searchQuery: Option<TextQuery>)
    requires DirectivesIndexable(params)
    ensures var r := RequestFor(index, params, nested, searchQuery);
            var p := Effective(params);
            var objects := nested.GetOr([]);
            && r.index == index && r.size == p.pageSize
            && r.from == p.pageSize * (p.pageNumber - 1)
            && (Valid(p) ==> r.from >= 0)
            && |r.sort| == |p.sort| + 1 && r.sort[|p.sort|] == ScoreDesc
            && (forall i :: 0 <= i < |p.sort| ==>
                  DirectiveOf(r.sort[i]) == p.sort[i] && (r.sort[i].order == Desc <==> p.sort[i][0] == '-'))
            && |r.query.must| <= 1 && (|r.query.must| == 1 <==> searchQuery.Some?)
            && (searchQuery.Some? ==> r.query.must[0] == searchQuery.value)
            && |r.query.should| == |objects|
            && (forall i :: 0 <= i < |objects| ==>
                  r.query.should[i].path == objects[i].name
                  && r.query.should[i].termField == objects[i].name + "." + objects[i].filterField
                  && r.query.should[i].termValue == objects[i].termValue)
  {
    var p := Effective(params);
    forall i | 0 <= i < |p.sort|
      ensures DirectiveOf(SortKeyFor(p.sort[i])) == p.sort[i]
      ensures SortKeyFor(p.sort[i]).order == Desc <==> p.sort[i][0] == '-'
    {
      SortKeyForMeaning(p.sort[i]);
    }
  }

  /** Omitted params and omitted filters are the same as defaults and an empty list. */
  lemma RequestForDefaults(index: string, nested: Option<seq<NestedObjectQuery>>, searchQuery: Option<TextQuery>)
    ensures RequestFor(index, None, nested, searchQuery) == RequestFor(index, Some(Default()), nested, searchQuery)
    ensures RequestFor(index, None, None, searchQuery) == RequestFor(index, None, Some([]), searchQuery)
    ensures var r := RequestFor(index, None, None, searchQuery);
            r.size == 10 && r.from == 0 && r.sort == [ScoreDesc] && r.query.should == []
  {
  }

  // ---- Text query selection ----

  /** `text_search`'s query: none for an absent or empty text, a fuzzy `match` for a
      single field, otherwise a `multi_match` over the field list. */
  function TextQueryFor(searchQuery: Option<string>, fields: seq<string>): (q: Option<TextQuery>)
  {
    if searchQuery.None? || searchQuery.value == "" then None
    else if |fields| == 1 then Some(Match(fields[0], searchQuery.value, "auto"))
    else Some(MultiMatch(searchQuery.value, fields))
  }

  function QueryText(q: TextQuery): string
  {
    q.query
  }

  function QueryFields(q: TextQuery): seq<string>
  {
    if q.Match? then [q.field] else q.fields
  }

  /** A text query searches exactly the given text over exactly the given fields; only a
      single-field query is a (fuzzy) `match`. */
  lemma TextQueryForMeaning(searchQuery: Option<string>, fields: seq<string>)
    ensures var q := TextQueryFor(searchQuery, fields);
            && (q.None? <==> searchQuery.None? || searchQuery.value == "")
            && (q.Some? ==> QueryText(q.value) == searchQuery.value && QueryFields(q.value) == fields)
            && (q.Some? ==> (q.value.Match? <==> |fields| == 1))
            && (q.Some? && q.value.Match? ==> q.value.fuzziness == "auto")
  {
    var q := TextQueryFor(searchQuery, fields);
    if q.Some? && q.value.Match? {
      assert [fields[0]] == fields;
    }
  }

  // ---- The three operations ----

  /** `get_by_id`: the stored `_source`, or absent when the engine reports not-found. */
  function GetById(engine: Engine, id: string): (r: Option<Doc>)
    ensures r.None? <==> id !in engine.docs
    ensures r.Some? ==> r.value == engine.docs[id]
  {
    if id in engine.docs then Some(engine.docs[id]) else None
  }

  /** The `_source` of every hit, in hit order. */
  function Sources(hits: seq<Hit>): (docs: seq<Doc>)
    ensures |docs| == |hits|
    ensures forall i :: 0 <= i < |hits| ==> docs[i] == hits[i].source
  {
    seq(|hits|, i requires 0 <= i < |hits| => hits[i].source)
  }

  /** The request `get_list` sends. */
  function ListRequest(index: string, params: Option<CommonQueryParams>, nested: Option<seq<NestedObjectQuery>>): Request
    requires DirectivesIndexable(params)
  {
    RequestFor(index, params, nested, None)
  }

  /** The request `text_search` sends. */
  function TextSearchRequest(index: string, searchQuery: Option<string>, fields: seq<string>,
                             params: Option<CommonQueryParams>): Request
    requires DirectivesIndexable(params)
  {
    RequestFor(index, params, None, TextQueryFor(searchQuery, fields))
  }

  function GetList(engine: Engine, params: Option<CommonQueryParams>, nested: Option<seq<NestedObjectQuery>>): seq<Doc>
    requires DirectivesIndexable(params)
  {
    Sources(engine.search(ListRequest(engine.index, params, nested)))
  }

  function TextSearch(engine: Engine, searchQuery: Option<string>, fields: seq<string>,
                      params: Option<CommonQueryParams>): seq<Doc>
    requires DirectivesIndexable(params)
  {
    Sources(engine.search(TextSearchRequest(engine.index, searchQuery, fields, params)))
  }

  /** Reads a list of raw documents as JSON objects, for validation. */
  function Objects(docs: seq<Doc>): (js: seq<Json>)
    ensures |js| == |docs|
    ensures forall i :: 0 <= i < |docs| ==> js[i] == Obj(docs[i])
  {
    seq(|docs|, i requires 0 <= i < |docs| => Obj(docs[i]))
  }

  /** Python's truthiness of a fetched document: absent and `{}` are both false. */
  predicate Truthy(d: Option<Doc>)
  {
    d.Some? && d.value != map[]
  }
}
