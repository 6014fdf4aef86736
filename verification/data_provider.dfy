/** The REST data provider: how each generic data operation of the admin
    framework becomes one HTTP request against `apiUrl`.

    The model stops at the request. Sending it, the response interceptor
    and reading the response belong to the HTTP library. Two library
    functions stay abstract. `mapOperator` is a parameter `mapOp` of every
    operation that serializes filters. `stringify` is not modelled: a query
    string is kept as its ordered groups of parameters, one `Query` map per
    `stringify` call. */
module DataProvider {
  import opened Wrappers
  import Strings

  /** A query-string value before encoding. */
  datatype Param = Num(n: int) | Text(s: string) | List(items: seq<string>)

  /** The parameters one `stringify` call encodes. */
  type Query = map<string, Param>

  datatype Order = Asc | Desc

  /** A sort criterion `{ field, order }`. */
  datatype Sorter = Sorter(field: string, order: Order)

  /** A filter: a field filter `{ field, operator, value }`, or a conditional
      filter (`or`/`and` over nested filters), which has no `field`. */
  datatype Filter =
    | Logical(field: string, operator: string, value: Param)
    | Conditional(operator: string, clauses: seq<Filter>)

  /** The `pagination` argument of `getList`; absent fields are `None`. */
  datatype Pagination = Pagination(current: Option<int>, pageSize: Option<int>)

  /** The HTTP verb of the request actually sent. */
  datatype Verb = GET | POST | PUT | PATCH | DELETE

  /** The `method` argument of `custom`. */
  datatype Method = Get | Delete | Head | Options | Post | Put | Patch

  /** A request body. `P` is the caller's opaque payload type; operations
      that never send a payload use the unit type `()`. */
  datatype Body<P> =
    | NoBody
    | Payload(data: P)
    | IdsAndVariables(ids: seq<string>, variables: P)
    | Values(values: P)

  /** One outgoing request. `query` is `None` when no `stringify` group
      follows the URL (`deleteMany` writes its `?ids=` into `url` itself),
      otherwise the groups of parameters after `?`, in order; `headers` is
      `None` when the library's default headers are used. */
  datatype Request<P> = Request(verb: Verb, url: string, query: Option<seq<Query>>, body: Body<P>, headers: Option<map<string, string>>)

  const DefaultCurrent: int := 1
  const DefaultPageSize: int := 10

  function OrderName(o: Order): string {
    match o
    case Asc => "asc"
    case Desc => "desc"
  }

  // ---------------------------------------------------------------------
  // Filters

  /** The one key a plain JavaScript object cannot hold as its own
      property: assigning to it invokes the prototype setter, which ignores
      a string or number and swaps the prototype for an array, so
      `stringify`, which encodes only own keys, never sends it. */
  const ProtoKey: string := "__proto__"

  /** The query key a field filter generates: its field followed by its
      mapped operator. */
  function FilterKey(f: Filter, mapOp: string -> string): string
    requires f.Logical?
  {
    f.field + mapOp(f.operator)
  }

  /** Filter `f` writes query key `k`: it is a field filter generating `k`,
      and `k` is a key the query object can hold. */
  predicate Writes(f: Filter, k: string, mapOp: string -> string) {
    f.Logical? && FilterKey(f, mapOp) == k && k != ProtoKey
  }

  /** `fs[i]` writes `k` and no later filter does. */
  predicate LastWriter(fs: seq<Filter>, i: int, k: string, mapOp: string -> string) {
    && 0 <= i < |fs|
    && Writes(fs[i], k, mapOp)
    && forall j :: i < j < |fs| ==> !Writes(fs[j], k, mapOp)
  }

  /** The value the last filter writing key `k` gives it, if any filter does:
      the query entry that last-write-wins folding must produce for `k`. */
  function LastValue(fs: seq<Filter>, k: string, mapOp: string -> string): Option<Param>
    decreases |fs|
  {
    if |fs| == 0 then None
    else if Writes(fs[|fs| - 1], k, mapOp) then Some(fs[|fs| - 1].value)
    else LastValue(fs[..|fs| - 1], k, mapOp)
  }

  /** The entry of `m` at `k`, `None` when `k` is not a key. */
  function Lookup(m: Query, k: string): Option<Param> {
    if k in m then Some(m[k]) else None
  }

  /** The filters folded into one query, in order: each field filter sets
      key `field + mapOp(operator)` to its value, a later filter overwrites
      an earlier one with the same key, conditional filters are skipped, and
      an assignment to `__proto__` leaves no key behind. */
  function FilterMap(fs: seq<Filter>, mapOp: string -> string): (r: Query)
    ensures forall k :: Lookup(r, k) == LastValue(fs, k, mapOp)
    decreases |fs|
  {
    if |fs| == 0 then map[]
    else
      var m := FilterMap(fs[..|fs| - 1], mapOp);
      var f := fs[|fs| - 1];
      if f.Logical? && FilterKey(f, mapOp) != ProtoKey then m[FilterKey(f, mapOp) := f.value] else m
  }

  /** `LastValue` in terms of positions: `k` has a value exactly when some
      filter writes it, and that value is the one of the last such filter. */
  lemma {:induction false} LastValueIsLastWriter(fs: seq<Filter>, k: string, mapOp: string -> string)
    ensures LastValue(fs, k, mapOp).Some? <==> exists i :: 0 <= i < |fs| && Writes(fs[i], k, mapOp)
    ensures LastValue(fs, k, mapOp).Some? ==>
              exists i :: LastWriter(fs, i, k, mapOp) && LastValue(fs, k, mapOp).value == fs[i].value
    decreases |fs|
  {
    if |fs| > 0 {
      var n := |fs| - 1;
      var init := fs[..n];
      LastValueIsLastWriter(init, k, mapOp);
      if Writes(fs[n], k, mapOp) {
        assert LastWriter(fs, n, k, mapOp);
      } else {
        if exists i :: 0 <= i < |fs| && Writes(fs[i], k, mapOp) {
          var i :| 0 <= i < |fs| && Writes(fs[i], k, mapOp);
          assert i < n && Writes(init[i], k, mapOp);
        }
        if LastValue(init, k, mapOp).Some? {
          var i :| LastWriter(init, i, k, mapOp) && LastValue(init, k, mapOp).value == init[i].value;
          assert LastWriter(fs, i, k, mapOp);
        }
        forall i | 0 <= i < n && Writes(init[i], k, mapOp)
          ensures Writes(fs[i], k, mapOp)
        {
        }
      }
    }
  }

  /** The query's key set is the set of keys the field filters generate,
      less `__proto__`, and each key holds the value of the last filter
      generating it. */
  lemma FilterMapKeys(fs: seq<Filter>, mapOp: string -> string)
    ensures FilterMap(fs, mapOp).Keys ==
              (set i | 0 <= i < |fs| && fs[i].Logical? :: FilterKey(fs[i], mapOp)) - {ProtoKey}
    ensures ProtoKey !in FilterMap(fs, mapOp)
    ensures forall k :: k in FilterMap(fs, mapOp) ==>
              exists i :: LastWriter(fs, i, k, mapOp) && FilterMap(fs, mapOp)[k] == fs[i].value
  {
    var r := FilterMap(fs, mapOp);
    var keys := (set i | 0 <= i < |fs| && fs[i].Logical? :: FilterKey(fs[i], mapOp)) - {ProtoKey};
    forall k
      ensures k in r <==> k in keys
      ensures k in r ==> exists i :: LastWriter(fs, i, k, mapOp) && r[k] == fs[i].value
    {
      LastValueIsLastWriter(fs, k, mapOp);
      assert Lookup(r, k) == LastValue(fs, k, mapOp);
      if k in keys {
        var i :| 0 <= i < |fs| && fs[i].Logical? && FilterKey(fs[i], mapOp) == k;
        assert Writes(fs[i], k, mapOp);
      }
    }
  }

  /** `generateFilters`: an absent filter list yields the empty query. */
  function GenerateFilters(filters: Option<seq<Filter>>, mapOp: string -> string): (r: Query)
    ensures filters.None? ==> r == map[]
    ensures filters.Some? ==> r == FilterMap(filters.value, mapOp)
  {
    match filters
    case None => map[]
    case Some(fs) => FilterMap(fs, mapOp)
  }

  /** The field filters of `fs`, in order. */
  function FieldFilters(fs: seq<Filter>): (r: seq<Filter>)
    ensures forall i :: 0 <= i < |r| ==> r[i].Logical?
    ensures |r| <= |fs|
  {
    if |fs| == 0 then []
    else if fs[0].Logical? then [fs[0]] + FieldFilters(fs[1..])
    else FieldFilters(fs[1..])
  }

  /** Folding is a homomorphism from concatenation to right-biased map
      union: the filters of `gs` override those of `fs`. */
  lemma {:induction false} FilterMapAppend(fs: seq<Filter>, gs: seq<Filter>, mapOp: string -> string)
    ensures FilterMap(fs + gs, mapOp) == FilterMap(fs, mapOp) + FilterMap(gs, mapOp)
    decreases |gs|
  {
    if |gs| == 0 {
      assert fs + gs == fs;
    } else {
      var init := gs[..|gs| - 1];
      var g := gs[|gs| - 1];
      assert (fs + gs)[..|fs + gs| - 1] == fs + init;
      assert (fs + gs)[|fs + gs| - 1] == g;
      FilterMapAppend(fs, init, mapOp);
    }
  }

  /** Conditional filters contribute nothing: folding all filters gives the
      same query as folding only the field filters. */
  lemma {:induction false} ConditionalFiltersIgnored(fs: seq<Filter>, mapOp: string -> string)
    ensures FilterMap(fs, mapOp) == FilterMap(FieldFilters(fs), mapOp)
    decreases |fs|
  {
    if |fs| > 0 {
      var rest := fs[1..];
      ConditionalFiltersIgnored(rest, mapOp);
      assert fs == [fs[0]] + rest;
      FilterMapAppend([fs[0]], rest, mapOp);
      if fs[0].Logical? {
        assert FieldFilters(fs) == [fs[0]] + FieldFilters(rest);
        FilterMapAppend([fs[0]], FieldFilters(rest), mapOp);
      } else {
        assert FieldFilters(fs) == FieldFilters(rest);
        assert [fs[0]][..0] == [];
        var head := FilterMap([fs[0]], mapOp);
        assert head == map[];
        assert head + FilterMap(rest, mapOp) == FilterMap(rest, mapOp);
      }
    }
  }

  /** Last write wins: of two field filters with the same key, appended in
      this order, the second one's value is the one sent, unless the key is
      `__proto__`, which is never sent. */
  lemma LaterFilterWins(fs: seq<Filter>, a: Filter, b: Filter, mapOp: string -> string)
    requires a.Logical? && b.Logical?
    requires FilterKey(a, mapOp) == FilterKey(b, mapOp)
    ensures var k := FilterKey(b, mapOp);
            k != ProtoKey ==> k in FilterMap(fs + [a, b], mapOp) && FilterMap(fs + [a, b], mapOp)[k] == b.value
    ensures FilterKey(b, mapOp) == ProtoKey ==> FilterMap(fs + [a, b], mapOp) == FilterMap(fs, mapOp)
  {
    assert (fs + [a, b])[..|fs| + 1] == fs + [a];
    assert (fs + [a])[..|fs|] == fs;
  }

  /** A filter on the field `__proto__` with an operator that maps to the
      empty suffix sends no filter parameter at all. */
  lemma ProtoFilterNotSent(mapOp: string -> string, v: Param)
    requires mapOp("eq") == ""
    ensures FilterMap([Logical("__proto__", "eq", v)], mapOp) == map[]
  {
  }

  // ---------------------------------------------------------------------
  // Pagination and sorting

  /** The page and page size in effect: 1 and 10 unless given. */
  function EffectivePage(p: Option<Pagination>): (r: (int, int))
    ensures p.None? ==> r == (DefaultCurrent, DefaultPageSize)
    ensures p.Some? ==> r.0 == p.value.current.GetOr(DefaultCurrent)
    ensures p.Some? ==> r.1 == p.value.pageSize.GetOr(DefaultPageSize)
  {
    var q := p.GetOr(Pagination(None, None));
    (q.current.GetOr(DefaultCurrent), q.pageSize.GetOr(DefaultPageSize))
  }

  /** The half-open record range `[_start, _end)` of page `current`. */
  function PageWindow(current: int, pageSize: int): (r: (int, int))
    ensures r.1 - r.0 == pageSize
    ensures current == 1 ==> r.0 == 0
  {
    ((current - 1) * pageSize, current * pageSize)
  }

  /** Consecutive pages are adjacent: page `c + 1` starts where page `c` ends. */
  lemma PagesAdjacent(c: int, s: int)
    ensures PageWindow(c + 1, s).0 == PageWindow(c, s).1
  {
  }

  /** Earlier pages lie wholly before later ones, for a non-negative size. */
  lemma PagesOrdered(c1: int, c2: int, s: int)
    requires c1 < c2 && s >= 0
    ensures PageWindow(c1, s).1 <= PageWindow(c2, s).0
  {
  }

  /** With a positive page size, record index `i` is on page `i / s + 1`. */
  lemma PageOfIndex(i: nat, s: int)
    requires s >= 1
    ensures PageWindow(i / s + 1, s).0 <= i < PageWindow(i / s + 1, s).1
  {
  }

  /** ... and on no other page from 1 on: the pages tile the record indexes. */
  lemma PageOfIndexUnique(i: nat, s: int, c: int)
    requires s >= 1 && c >= 1
    requires PageWindow(c, s).0 <= i < PageWindow(c, s).1
    ensures c == i / s + 1
  {
    var p := i / s + 1;
    PageOfIndex(i, s);
    if c < p {
      PagesOrdered(c, p, s);
    } else if p < c {
      PagesOrdered(p, c, s);
    }
  }

  /** `_sort` and `_order`, taken from the first sorter only, and present
      only when there is one. */
  function SortQuery(sorters: Option<seq<Sorter>>): (r: Query)
    ensures "_sort" in r <==> sorters.Some? && |sorters.value| > 0
    ensures "_order" in r <==> "_sort" in r
    ensures forall k :: k in r ==> k == "_sort" || k == "_order"
    ensures "_sort" in r ==>
              && r["_sort"] == Text(sorters.value[0].field)
              && r["_order"] == Text(OrderName(sorters.value[0].order))
  {
    if sorters.Some? && |sorters.value| > 0 then
      map["_sort" := Text(sorters.value[0].field), "_order" := Text(OrderName(sorters.value[0].order))]
    else
      map[]
  }

  /** Only the first sorter matters: sorters after it have no effect. */
  lemma SortUsesFirstOnly(first: Sorter, rest1: seq<Sorter>, rest2: seq<Sorter>)
    ensures SortQuery(Some([first] + rest1)) == SortQuery(Some([first] + rest2))
  {
  }

  /** The pagination and sort parameters of `getList`. */
  function ListParams(pagination: Option<Pagination>, sorters: Option<seq<Sorter>>): (r: Query)
    ensures var (c, s) := EffectivePage(pagination);
            && "_start" in r && "_end" in r
            && r["_start"] == Num((c - 1) * s)
            && r["_end"] == Num(c * s)
            && r["_end"].n - r["_start"].n == s
    ensures forall k :: k in r <==> k == "_start" || k == "_end" || k in SortQuery(sorters)
    ensures forall k :: k in SortQuery(sorters) ==> r[k] == SortQuery(sorters)[k]
  {
    var (c, s) := EffectivePage(pagination);
    var (start, end) := PageWindow(c, s);
    map["_start" := Num(start), "_end" := Num(end)] + SortQuery(sorters)
  }

  // ---------------------------------------------------------------------
  // URLs

  /** `apiUrl/resource`. */
  function ResourceUrl(apiUrl: string, resource: string): (r: string)
    ensures apiUrl + "/" <= r
    ensures r[|apiUrl| + 1..] == resource
  {
    apiUrl + "/" + resource
  }

  /** `apiUrl/resource/id`. */
  function RecordUrl(apiUrl: string, resource: string, id: string): (r: string)
    ensures ResourceUrl(apiUrl, resource) + "/" <= r
    ensures r[|ResourceUrl(apiUrl, resource) + "/"|..] == id
  {
    ResourceUrl(apiUrl, resource) + "/" + id
  }

  /** `apiUrl/resource/bulk`. */
  function BulkUrl(apiUrl: string, resource: string): (r: string)
    ensures ResourceUrl(apiUrl, resource) + "/" <= r
    ensures r[|ResourceUrl(apiUrl, resource) + "/"|..] == "bulk"
  {
    ResourceUrl(apiUrl, resource) + "/bulk"
  }

  /** The body of `deleteOne`: the variables when given, else none. */
  function OptionalBody<P>(variables: Option<P>): (r: Body<P>)
    ensures r.NoBody? <==> variables.None?
    ensures variables.Some? ==> r == Payload(variables.value)
  {
    match variables
    case None => NoBody
    case Some(v) => Payload(v)
  }

  /** Distinct ids address distinct record URLs of a resource. */
  lemma RecordUrlInjective(apiUrl: string, resource: string, id1: string, id2: string)
    requires RecordUrl(apiUrl, resource, id1) == RecordUrl(apiUrl, resource, id2)
    ensures id1 == id2
  {
    var prefix := ResourceUrl(apiUrl, resource) + "/";
    assert RecordUrl(apiUrl, resource, id1)[|prefix|..] == id1;
    assert RecordUrl(apiUrl, resource, id2)[|prefix|..] == id2;
  }

  /** The bulk endpoint is the record URL of id `bulk`: the two share one
      path on the server. */
  lemma BulkIsRecordBulk(apiUrl: string, resource: string)
    ensures BulkUrl(apiUrl, resource) == RecordUrl(apiUrl, resource, "bulk")
  {
  }

  // ---------------------------------------------------------------------
  // Operations

  /** `getApiUrl`: the configured base URL, unchanged. */
  function GetApiUrl(apiUrl: string): (r: string)
    ensures r == apiUrl
  {
    apiUrl
  }

  /** `getList`: GET on the resource URL, with the pagination and sort
      parameters as the first group and the folded filters as the second. */
  function GetList(apiUrl: string, resource: string, pagination: Option<Pagination>,
                      sorters: Option<seq<Sorter>>, filters: Option<seq<Filter>>,
                      mapOp: string -> string): (r: Request<()>)
    ensures r.verb == GET && r.url == ResourceUrl(apiUrl, resource)
    ensures r.body.NoBody? && r.headers.None?
    ensures r.query.Some? && |r.query.value| == 2
    ensures r.query.value[0] == ListParams(pagination, sorters)
    ensures r.query.value[1] == GenerateFilters(filters, mapOp)
  {
    Request(GET, ResourceUrl(apiUrl, resource),
            Some([ListParams(pagination, sorters), GenerateFilters(filters, mapOp)]),
            NoBody, None)
  }

  /** `create`: POST of the variables to the resource URL. */
  function Create<P>(apiUrl: string, resource: string, variables: P): (r: Request<P>)
    ensures r.verb == POST && r.url == ResourceUrl(apiUrl, resource)
    ensures r.query.None? && r.body == Payload(variables) && r.headers.None?
  {
    Request(POST, ResourceUrl(apiUrl, resource), None, Payload(variables), None)
  }

  /** `update`: PATCH of the variables to the record URL. */
  function Update<P>(apiUrl: string, resource: string, id: string, variables: P): (r: Request<P>)
    ensures r.verb == PATCH && r.url == RecordUrl(apiUrl, resource, id)
    ensures r.query.None? && r.body == Payload(variables) && r.headers.None?
  {
    Request(PATCH, RecordUrl(apiUrl, resource, id), None, Payload(variables), None)
  }

  /** `getOne`: GET on the record URL. */
  function GetOne(apiUrl: string, resource: string, id: string): (r: Request<()>)
    ensures r.verb == GET && r.url == RecordUrl(apiUrl, resource, id)
    ensures r.query.None? && r.body.NoBody? && r.headers.None?
  {
    Request(GET, RecordUrl(apiUrl, resource, id), None, NoBody, None)
  }

  /** `deleteOne`: DELETE on the record URL, the variables (if any) as body. */
  function DeleteOne<P>(apiUrl: string, resource: string, id: string, variables: Option<P>): (r: Request<P>)
    ensures r.verb == DELETE && r.url == RecordUrl(apiUrl, resource, id)
    ensures r.query.None? && r.body == OptionalBody(variables) && r.headers.None?
  {
    Request(DELETE, RecordUrl(apiUrl, resource, id), None, OptionalBody(variables), None)
  }

  /** `updateMany`: PATCH of `{ ids, variables }` to the bulk URL. */
  function UpdateMany<P>(apiUrl: string, resource: string, ids: seq<string>, variables: P): (r: Request<P>)
    ensures r.verb == PATCH && r.url == BulkUrl(apiUrl, resource)
    ensures r.query.None? && r.body == IdsAndVariables(ids, variables) && r.headers.None?
  {
    Request(PATCH, BulkUrl(apiUrl, resource), None, IdsAndVariables(ids, variables), None)
  }

  /** `createMany`: POST of `{ values: variables }` to the bulk URL. */
  function CreateMany<P>(apiUrl: string, resource: string, variables: P): (r: Request<P>)
    ensures r.verb == POST && r.url == BulkUrl(apiUrl, resource)
    ensures r.query.None? && r.body == Values(variables) && r.headers.None?
  {
    Request(POST, BulkUrl(apiUrl, resource), None, Values(variables), None)
  }

  /** `deleteMany`: DELETE on the bulk URL with the ids joined by commas in
      an `ids` parameter written into the URL itself, for every id list:
      no ids leave the parameter empty. */
  function DeleteMany(apiUrl: string, resource: string, ids: seq<string>): (r: Request<()>)
    ensures r.verb == DELETE && r.query.None? && r.body.NoBody? && r.headers.None?
    ensures BulkUrl(apiUrl, resource) + "?ids=" <= r.url
    ensures r.url[|BulkUrl(apiUrl, resource) + "?ids="|..] == Strings.Join(ids, ',')
    ensures |ids| == 0 ==> r.url == BulkUrl(apiUrl, resource) + "?ids="
  {
    Request(DELETE, BulkUrl(apiUrl, resource) + "?ids=" + Strings.Join(ids, ','), None, NoBody, None)
  }

  /** The ids can be read back from the `deleteMany` URL when there is at
      least one and none contains a comma; otherwise the URL is ambiguous
      (no ids and the single empty id give the same URL). */
  lemma DeleteManyIds(apiUrl: string, resource: string, ids: seq<string>)
    ensures |ids| >= 1 && Strings.SeparatorFree(ids, ',') ==>
              Strings.Split(DeleteMany(apiUrl, resource, ids).url[|BulkUrl(apiUrl, resource) + "?ids="|..], ',') == ids
    ensures DeleteMany(apiUrl, resource, []).url == DeleteMany(apiUrl, resource, [""]).url
  {
    if |ids| >= 1 && Strings.SeparatorFree(ids, ',') {
      Strings.SplitJoin(ids, ',');
    }
  }

  /** `getMany`: GET on the resource URL with the ids as one `id` parameter. */
  function GetMany(apiUrl: string, resource: string, ids: seq<string>): (r: Request<()>)
    ensures r.verb == GET && r.url == ResourceUrl(apiUrl, resource)
    ensures r.query == Some([map["id" := List(ids)]])
    ensures r.body.NoBody? && r.headers.None?
  {
    Request(GET, ResourceUrl(apiUrl, resource), Some([map["id" := List(ids)]]), NoBody, None)
  }

  /** Sorting was requested. */
  predicate HasSorters(sorters: Option<seq<Sorter>>) {
    sorters.Some? && |sorters.value| > 0
  }

  /** The parameter groups `custom` appends to `url?`: the sort group when
      there are sorters, the filter group whenever a filter list is given
      (even an empty one), then the caller's own query when given. */
  function CustomQuery(sorters: Option<seq<Sorter>>, filters: Option<seq<Filter>>,
                       query: Option<Query>, mapOp: string -> string): (r: seq<Query>)
    ensures |r| == (if HasSorters(sorters) then 1 else 0)
                   + (if filters.Some? then 1 else 0)
                   + (if query.Some? then 1 else 0)
    ensures HasSorters(sorters) ==> r[0] == SortQuery(sorters)
    ensures filters.Some? ==> r[if HasSorters(sorters) then 1 else 0] == GenerateFilters(filters, mapOp)
    ensures query.Some? ==> r[|r| - 1] == query.value
  {
    (if HasSorters(sorters) then [SortQuery(sorters)] else [])
    + (if filters.Some? then [GenerateFilters(filters, mapOp)] else [])
    + (if query.Some? then [query.value] else [])
  }

  /** The methods `custom` sends with a body to the bare URL. */
  predicate IsWrite(m: Method) {
    m == Put || m == Post || m == Patch || m == Delete
  }

  /** `custom`: `put`, `post`, `patch` and `delete` go to the bare `url`
      with the payload as body; every other method (`get`, `head`,
      `options`) is sent as a GET to `url?` plus the query groups. The
      headers are passed through in every case. */
  function Custom<P>(url: string, m: Method, sorters: Option<seq<Sorter>>, filters: Option<seq<Filter>>,
                     payload: Option<P>, query: Option<Query>, headers: Option<map<string, string>>,
                     mapOp: string -> string): (r: Request<P>)
    ensures r.url == url && r.headers == headers
    ensures r.query.Some? <==> !IsWrite(m)
    ensures IsWrite(m) ==> r.body == OptionalBody(payload)
    ensures m == Put ==> r.verb == PUT
    ensures m == Post ==> r.verb == POST
    ensures m == Patch ==> r.verb == PATCH
    ensures m == Delete ==> r.verb == DELETE
    ensures !IsWrite(m) ==>
              && r.verb == GET
              && r.body.NoBody?
              && r.query == Some(CustomQuery(sorters, filters, query, mapOp))
  {
    match m
    case Put => Request(PUT, url, None, OptionalBody(payload), headers)
    case Post => Request(POST, url, None, OptionalBody(payload), headers)
    case Patch => Request(PATCH, url, None, OptionalBody(payload), headers)
    case Delete => Request(DELETE, url, None, OptionalBody(payload), headers)
    case _ => Request(GET, url, Some(CustomQuery(sorters, filters, query, mapOp)), NoBody, headers)
  }

  /** A write through `custom` ignores sorters, filters and query. */
  lemma CustomWriteIgnoresQuery<P>(url: string, m: Method,
                                   s1: Option<seq<Sorter>>, f1: Option<seq<Filter>>, q1: Option<Query>,
                                   s2: Option<seq<Sorter>>, f2: Option<seq<Filter>>, q2: Option<Query>,
                                   payload: Option<P>, headers: Option<map<string, string>>,
                                   mapOp: string -> string)
    requires IsWrite(m)
    ensures Custom(url, m, s1, f1, payload, q1, headers, mapOp) == Custom(url, m, s2, f2, payload, q2, headers, mapOp)
  {
  }

  /** A read through `custom` ignores the payload. */
  lemma CustomReadIgnoresPayload<P>(url: string, m: Method, sorters: Option<seq<Sorter>>,
                                    filters: Option<seq<Filter>>, query: Option<Query>,
                                    p1: Option<P>, p2: Option<P>, headers: Option<map<string, string>>,
                                    mapOp: string -> string)
    requires !IsWrite(m)
    ensures Custom(url, m, sorters, filters, p1, query, headers, mapOp) == Custom(url, m, sorters, filters, p2, query, headers, mapOp)
  {
  }

  /** A `custom` GET serializes sorters and filters exactly as `getList`
      does: with sorters, its groups are `getList`'s first group without the
      pagination parameters, then `getList`'s filter group; without sorters,
      only the filter group. */
  lemma CustomMatchesList<P>(apiUrl: string, resource: string, pagination: Option<Pagination>,
                             sorters: Option<seq<Sorter>>, fs: seq<Filter>,
                             headers: Option<map<string, string>>, mapOp: string -> string)
    ensures var c := Custom<P>(ResourceUrl(apiUrl, resource), Get, sorters, Some(fs), None, None, headers, mapOp);
            var l := GetList(apiUrl, resource, pagination, sorters, Some(fs), mapOp);
            && c.url == l.url
            && (HasSorters(sorters) ==>
                  && |c.query.value| == 2
                  && c.query.value[0] == l.query.value[0] - {"_start", "_end"}
                  && c.query.value[1] == l.query.value[1])
            && (!HasSorters(sorters) ==>
                  && |c.query.value| == 1
                  && c.query.value[0] == l.query.value[1])
  {
  }

  /** The record operations share one URL, the bulk operations another,
      and `deleteMany` extends the latter with its `ids` parameter. */
  lemma UrlFamilies<P>(apiUrl: string, resource: string, id: string, v: P, ids: seq<string>,
                       mapOp: string -> string)
    ensures GetOne(apiUrl, resource, id).url == Update(apiUrl, resource, id, v).url
                                                == DeleteOne(apiUrl, resource, id, Some(v)).url
    ensures GetList(apiUrl, resource, None, None, None, mapOp).url == Create(apiUrl, resource, v).url
    ensures UpdateMany(apiUrl, resource, ids, v).url == CreateMany(apiUrl, resource, v).url
    ensures CreateMany(apiUrl, resource, v).url + "?ids=" <= DeleteMany(apiUrl, resource, ids).url
  {
  }

  /** The worked example of a list call: page 2 of size 10, sorted by title
      ascending, filtered on `status` equal to `published` (`eq` maps to no
      suffix) asks for records 10 to 20. */
  lemma ListExample(mapOp: string -> string)
    requires mapOp("eq") == ""
    ensures var r := GetList("https://api.fake-rest.refine.dev", "blog_posts",
                                Some(Pagination(Some(2), Some(10))), Some([Sorter("title", Asc)]),
                                Some([Logical("status", "eq", Text("published"))]), mapOp);
            && r.url == "https://api.fake-rest.refine.dev/blog_posts"
            && r.query.value[0] == map["_start" := Num(10), "_end" := Num(20),
                                       "_sort" := Text("title"), "_order" := Text("asc")]
            && r.query.value[1] == map["status" := Text("published")]
  {
    var fs := [Logical("status", "eq", Text("published"))];
    assert fs[..0] == [];
    assert "status" + mapOp("eq") == "status";
    assert FilterMap(fs, mapOp) == map["status" := Text("published")];
  }
}
