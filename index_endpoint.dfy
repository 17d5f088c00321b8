/**
 * The listing endpoint of the JSON:API layer. It refuses collections that
 * cannot be listed and actors who may not list. Then it either hands the
 * listing to the search backend or applies sorts, filters and pagination
 * to the collection's query itself.
 *
 * The query builder is modelled as a log of what was applied to it. Each
 * collaborator outside this file is modelled as the answer it gives: the
 * visibility check, the search manager, the sort-string parser, the filter
 * library, the listing-parameter extractors, the counter and the paginator.
 */
module Endpoint {
  import opened ApiTypes

  const DefaultLimit: int := 20
  const DefaultMaxLimit: int := 50

  datatype Direction = Ascending | Descending

  /** One `(name, direction)` term of a parsed sort string. */
  datatype SortTerm = SortTerm(name: string, direction: Direction)

  /** A sort field the collection offers, and whether the current actor may use it. */
  datatype SortField = SortField(name: string, visible: bool)

  /** A sort field applied to the query: its position among the collection's fields, and the direction. */
  datatype SortApplication = SortApplication(field: nat, direction: Direction)

  /** The paginator the resolver builds for a request. */
  datatype Pagination = OffsetPagination(defaultLimit: int, maxLimit: int)

  function InvalidSort(name: string): Error {
    BadRequest("Invalid sort: " + name, ["sort"])
  }

  const FilterNotArray: Error := BadRequest("filter must be an array", ["filter"])
  /** The fully qualified name of the interface a listed collection must implement. */
  const ListableInterface: string := "Tobyz\\JsonApiServer\\Resource\\Listable"

  /** `sprintf('%s must implement %s', get_class($collection), Listable::class)`. */
  function NotListable(collectionClass: string): Error {
    RuntimeError(collectionClass + " must implement " + ListableInterface)
  }

  predicate Matches(field: SortField, name: string) {
    field.name == name && field.visible
  }

  /** The field the inner search settles on: the first visible one with the name. */
  function FirstVisibleField(fields: seq<SortField>, name: string): (k: Option<nat>)
    ensures k.Some? ==> k.value < |fields| && Matches(fields[k.value], name)
    ensures k.Some? ==> forall j :: 0 <= j < k.value ==> !Matches(fields[j], name)
    ensures k.None? ==> forall j :: 0 <= j < |fields| ==> !Matches(fields[j], name)
    decreases |fields|
  {
    if fields == [] then None
    else if Matches(fields[0], name) then Some(0)
    else match FirstVisibleField(fields[1..], name)
      case None => None
      case Some(k) => Some(k + 1)
  }

  /** What sorting does to the query: the fields applied, in order, and the error it stops with. */
  datatype SortOutcome = SortOutcome(applied: seq<SortApplication>, error: Option<Error>)

  /**
   * The terms taken in order: each applies its first visible field, and the
   * first term with none stops the walk with an error.
   */
  function SortPlan(terms: seq<SortTerm>, fields: seq<SortField>): (r: SortOutcome)
    ensures |r.applied| <= |terms|
    ensures r.error.None? ==> |r.applied| == |terms|
    ensures forall i :: 0 <= i < |r.applied| ==> r.applied[i].field < |fields|
    decreases |terms|
  {
    if terms == [] then SortOutcome([], None)
    else
      var before := SortPlan(terms[..|terms| - 1], fields);
      var last := terms[|terms| - 1];
      if before.error.Some? then before
      else match FirstVisibleField(fields, last.name)
        case None => SortOutcome(before.applied, Some(InvalidSort(last.name)))
        case Some(k) => SortOutcome(before.applied + [SortApplication(k, last.direction)], None)
  }

  /** Term `i` is the first term that no visible field matches. */
  predicate IsFirstUnmatched(terms: seq<SortTerm>, fields: seq<SortField>, i: int) {
    && 0 <= i < |terms|
    && FirstVisibleField(fields, terms[i].name).None?
    && forall j :: 0 <= j < i ==> FirstVisibleField(fields, terms[j].name).Some?
  }

  /** The `i`-th application is term `i` applied to its first visible field. */
  predicate AppliedInOrder(applied: seq<SortApplication>, terms: seq<SortTerm>, fields: seq<SortField>) {
    && |applied| <= |terms|
    && forall i :: 0 <= i < |applied| ==>
         FirstVisibleField(fields, terms[i].name) == Some(applied[i].field) && applied[i].direction == terms[i].direction
  }

  /**
   * Sorting applies exactly one field per term, in term order, up to the
   * first term no visible field matches; it fails there, naming that term,
   * and succeeds exactly when every term is matched.
   */
  lemma {:induction false} SortPlanCharacterized(terms: seq<SortTerm>, fields: seq<SortField>)
    ensures AppliedInOrder(SortPlan(terms, fields).applied, terms, fields)
    ensures SortPlan(terms, fields).error.None? <==>
      forall i :: 0 <= i < |terms| ==> FirstVisibleField(fields, terms[i].name).Some?
    ensures SortPlan(terms, fields).error.None? ==> |SortPlan(terms, fields).applied| == |terms|
    ensures SortPlan(terms, fields).error.Some? ==>
      var n := |SortPlan(terms, fields).applied|;
      IsFirstUnmatched(terms, fields, n) && SortPlan(terms, fields).error == Some(InvalidSort(terms[n].name))
    decreases |terms|
  {
    if terms != [] {
      var prefix := terms[..|terms| - 1];
      SortPlanCharacterized(prefix, fields);
      assert forall i :: 0 <= i < |prefix| ==> prefix[i] == terms[i];
    }
  }

  /** Only visible fields are ever applied, and each under the name of the term it serves. */
  lemma SortPlanAppliesVisibleFields(terms: seq<SortTerm>, fields: seq<SortField>)
    ensures var applied := SortPlan(terms, fields).applied;
      forall i :: 0 <= i < |applied| ==>
        && i < |terms| && applied[i].field < |fields|
        && fields[applied[i].field].visible && fields[applied[i].field].name == terms[i].name
  {
    SortPlanCharacterized(terms, fields);
  }

  /** Once a prefix of the terms has failed, the later terms change nothing. */
  lemma {:induction false} SortPlanStopsAtError(terms: seq<SortTerm>, fields: seq<SortField>, i: nat)
    requires i <= |terms|
    requires SortPlan(terms[..i], fields).error.Some?
    ensures SortPlan(terms, fields) == SortPlan(terms[..i], fields)
    decreases |terms| - i
  {
    if i < |terms| {
      var prefix := terms[..|terms| - 1];
      assert prefix[..i] == terms[..i];
      SortPlanStopsAtError(prefix, fields, i);
    } else {
      assert terms[..i] == terms;
    }
  }

  /** What filtering does to the query: the filter sets handed to the library, and the error raised. */
  datatype FilterOutcome = FilterOutcome(applied: seq<map<string, Json>>, error: Option<Error>)

  /** The `filter` query parameter is present and truthy. */
  predicate FilterRequested(params: map<string, Json>) {
    "filter" in params && Truthy(params["filter"])
  }

  /** An error from the filter library, with `filter` put in front of its source when it has one. */
  function FromFilterLibrary(e: Error): Error {
    if Sourceable(e) then PrependSource(e, "filter") else e
  }

  /**
   * Filtering for the query parameters, given what the filter library
   * raises (`None` when it applies the filters).
   */
  function FilterRequest(params: map<string, Json>, libraryError: Option<Error>): (r: FilterOutcome)
    ensures !FilterRequested(params) ==> r == FilterOutcome([], None)
    ensures FilterRequested(params) && !params["filter"].JArray? ==> r == FilterOutcome([], Some(FilterNotArray))
    ensures FilterRequested(params) && params["filter"].JArray? && libraryError.None? ==>
      r == FilterOutcome([params["filter"].entries], None)
    ensures FilterRequested(params) && params["filter"].JArray? && libraryError.Some? ==>
      && r.applied == [] && r.error.Some?
      && (Sourceable(libraryError.value) ==>
            r.error.value == libraryError.value.(parameter := ["filter"] + libraryError.value.parameter))
      && (!Sourceable(libraryError.value) ==> r.error.value == libraryError.value)
    ensures |r.applied| <= 1 && (r.applied != [] ==> r.error.None?)
  {
    if !FilterRequested(params) then FilterOutcome([], None)
    else if !params["filter"].JArray? then FilterOutcome([], Some(FilterNotArray))
    else if libraryError.None? then FilterOutcome([params["filter"].entries], None)
    else FilterOutcome([], Some(FromFilterLibrary(libraryError.value)))
  }

  /**
   * The `page` member of the response's meta: the serialized meta's page
   * entry, then the total when the collection reports one, then the
   * paginator's meta merged over it.
   */
  function PageMeta(initial: Option<map<string, Json>>, total: Option<int>, pagination: Option<map<string, Json>>)
    : (page: Option<map<string, Json>>)
    ensures page.None? <==> initial.None? && total.None? && pagination.None?
    ensures page.Some? ==> forall k :: k in page.value <==>
      (initial.Some? && k in initial.value) || (total.Some? && k == "total") || (pagination.Some? && k in pagination.value)
    ensures pagination.Some? ==> forall k :: k in pagination.value ==> page.value[k] == pagination.value[k]
    ensures total.Some? && (pagination.None? || "total" !in pagination.value) ==> page.value["total"] == JNumber(total.value)
    ensures initial.Some? ==> forall k ::
      (k in initial.value && (total.None? || k != "total") && (pagination.None? || k !in pagination.value))
      ==> page.value[k] == initial.value[k]
  {
    var counted :=
      if total.Some? then Some((if initial.Some? then initial.value else map[])["total" := JNumber(total.value)])
      else initial;
    if pagination.Some? then Some((if counted.Some? then counted.value else map[]) + pagination.value)
    else counted
  }

  /** The query builder, as the record of what was applied to it. */
  class Query {
    var sorts: seq<SortApplication>
    var filters: seq<map<string, Json>>
    var page: Option<Pagination>

    constructor ()
      ensures sorts == [] && filters == [] && page == None
    {
      sorts, filters, page := [], [], None;
    }
  }

  /** What `handle` learns about the collection it lists. */
  datatype Collection = Collection(className: string, listable: bool, sorts: seq<SortField>)

  /** The values the listing-parameter extractors return for a request. */
  datatype ListingParams = ListingParams(filters: Json, sort: Json, limit: Json, offset: Json)

  /**
   * The answers of the collaborators `handle` consults: whether the actor
   * may list, whether the model has a search backend, the sort-string
   * parser, what the filter library raises, the extracted listing
   * parameters, the page entry of the serialized meta, the collection's
   * total (absent when it does not count or counts null), and the
   * paginator's meta.
   */
  datatype Collaborators = Collaborators(
    visible: bool,
    searchable: bool,
    parse: string -> seq<SortTerm>,
    filterError: Option<Error>,
    extracted: ListingParams,
    pageMeta: Option<map<string, Json>>,
    total: Option<int>,
    paginationMeta: map<string, Json>)

  /** What the search backend is asked for. */
  datatype SearchCriteria = SearchCriteria(filters: Json, limit: Json, offset: Json, sort: Json, sortIsDefault: bool)

  /** Which path produced the listing. */
  datatype Listing = Searched(criteria: SearchCriteria) | Queried

  datatype Response = Response(listing: Listing, pageMeta: Option<map<string, Json>>)

  /** `! $context->queryParam('sort')`: the request asks for no sort of its own. */
  predicate SortIsDefault(params: map<string, Json>) {
    !("sort" in params && Truthy(params["sort"]))
  }

  class Index {
    var limit: int
    var maxLimit: int
    /** The paginator the resolver builds, or `None` for a resolver that builds none. */
    var paginationResolver: Option<Pagination>
    var defaultSort: Option<string>
    /** The custom route path, when one was set. */
    var path: Option<string>

    constructor (limit: int, maxLimit: int, paginationResolver: Option<Pagination>,
                 defaultSort: Option<string>, path: Option<string>)
      ensures this.limit == limit && this.maxLimit == maxLimit && this.paginationResolver == paginationResolver
      ensures this.defaultSort == defaultSort && this.path == path
    {
      this.limit := limit;
      this.maxLimit := maxLimit;
      this.paginationResolver := paginationResolver;
      this.defaultSort := defaultSort;
      this.path := path;
    }

    method Paginate(defaultLimit: int := DefaultLimit, maxLimit: int := DefaultMaxLimit) returns (self: Index)
      modifies this`limit, this`maxLimit, this`paginationResolver
      ensures limit == defaultLimit && this.maxLimit == maxLimit
      ensures paginationResolver == Some(OffsetPagination(defaultLimit, maxLimit))
      ensures defaultSort == old(defaultSort) && path == old(path)
      ensures self == this
    {
      limit := defaultLimit;
      this.maxLimit := maxLimit;
      paginationResolver := Some(OffsetPagination(defaultLimit, maxLimit));
      self := this;
    }

    function Route(): (r: EndpointRoute)
      reads this
      ensures r.name == "index" && r.httpMethod == "GET"
      ensures path.None? ==> r.path == "/"
      ensures path.Some? ==> r.path == path.value
    {
      EndpointRoute("index", if path.Some? then path.value else "/", "GET")
    }

    /** `$context->queryParam('sort', $this->defaultSort)`: the request's value unless null, else the default. */
    function SortValue(params: map<string, Json>): (v: Json)
      reads this
      ensures "sort" in params && !params["sort"].JNull? ==> v == params["sort"]
      ensures !("sort" in params && !params["sort"].JNull?) ==> v == if defaultSort.Some? then JString(defaultSort.value) else JNull
    {
      if "sort" in params && !params["sort"].JNull? then params["sort"]
      else if defaultSort.Some? then JString(defaultSort.value)
      else JNull
    }

    /**
     * Sorting for the query parameters: nothing when neither the request
     * nor the default gives a truthy sort, a type error for an array, and
     * otherwise the plan for the parsed terms.
     */
    function SortRequest(params: map<string, Json>, parse: string -> seq<SortTerm>, fields: seq<SortField>)
      : (r: SortOutcome)
      reads this
      ensures !Truthy(SortValue(params)) ==> r == SortOutcome([], None)
      ensures Truthy(SortValue(params)) && !SortValue(params).JString? ==> r == SortOutcome([], Some(NotAString(SortValue(params))))
      ensures Truthy(SortValue(params)) && SortValue(params).JString? ==> r == SortPlan(parse(SortValue(params).s), fields)
    {
      var v := SortValue(params);
      if !Truthy(v) then SortOutcome([], None)
      else if !v.JString? then SortOutcome([], Some(NotAString(v)))
      else SortPlan(parse(v.s), fields)
    }

    method ApplySorts(query: Query, params: map<string, Json>, parse: string -> seq<SortTerm>, fields: seq<SortField>)
      returns (err: Option<Error>)
      modifies query`sorts
      ensures query.sorts == old(query.sorts) + SortRequest(params, parse, fields).applied
      ensures err == SortRequest(params, parse, fields).error
    {
      var sortValue := SortValue(params);
      if !Truthy(sortValue) {
        return None;
      }
      if !sortValue.JString? {
        return Some(NotAString(sortValue));
      }
      var terms := parse(sortValue.s);
      ghost var start := query.sorts;
      for i := 0 to |terms|
        invariant SortPlan(terms[..i], fields).error.None?
        invariant query.sorts == start + SortPlan(terms[..i], fields).applied
      {
        var name := terms[i].name;
        var j := 0;
        while j < |fields| && !(fields[j].name == name && fields[j].visible)
          invariant 0 <= j <= |fields|
          invariant forall m :: 0 <= m < j ==> !Matches(fields[m], name)
        {
          j := j + 1;
        }
        assert terms[..i + 1][..i] == terms[..i];
        if j == |fields| {
          SortPlanStopsAtError(terms, fields, i + 1);
          return Some(InvalidSort(name));
        }
        query.sorts := query.sorts + [SortApplication(j, terms[i].direction)];
      }
      assert terms[..|terms|] == terms;
      return None;
    }

    method ApplyFilters(query: Query, params: map<string, Json>, libraryError: Option<Error>) returns (err: Option<Error>)
      modifies query`filters
      ensures query.filters == old(query.filters) + FilterRequest(params, libraryError).applied
      ensures err == FilterRequest(params, libraryError).error
    {
      if !("filter" in params && Truthy(params["filter"])) {
        return None;
      }
      var filters := params["filter"];
      if !filters.JArray? {
        return Some(FilterNotArray);
      }
      if libraryError.Some? {
        return Some(FromFilterLibrary(libraryError.value));
      }
      query.filters := query.filters + [filters.entries];
      return None;
    }

    /**
     * Lists the collection. `hooked` tells whether the before-hook ran.
     * The non-listable check comes first, then the visibility check; the
     * search path leaves the query alone, the default path sorts, filters
     * and paginates it, stopping at the first error.
     */
    method Handle(query: Query, collection: Collection, params: map<string, Json>, env: Collaborators)
      returns (hooked: bool, r: Result<Response, Error>)
      modifies query
      ensures hooked <==> collection.listable && env.visible
      ensures !collection.listable ==> r == Failure(NotListable(collection.className)) && unchanged(query)
      ensures collection.listable && !env.visible ==> r == Failure(Forbidden) && unchanged(query)
      ensures hooked && env.searchable ==>
        && unchanged(query)
        && var criteria := SearchCriteria(env.extracted.filters, env.extracted.limit, env.extracted.offset,
                                          env.extracted.sort, SortIsDefault(params));
           r == Success(Response(Searched(criteria), PageMeta(env.pageMeta, env.total,
                                 if paginationResolver.Some? then Some(env.paginationMeta) else None)))
      ensures hooked && !env.searchable ==>
        var sorting := SortRequest(params, env.parse, collection.sorts);
        var filtering := FilterRequest(params, env.filterError);
        && query.sorts == old(query.sorts) + sorting.applied
        && query.filters == old(query.filters) + (if sorting.error.None? then filtering.applied else [])
        && query.page == (if sorting.error.None? && filtering.error.None? && paginationResolver.Some?
                          then paginationResolver else old(query.page))
        && r == (if sorting.error.Some? then Failure(sorting.error.value)
                 else if filtering.error.Some? then Failure(filtering.error.value)
                 else Success(Response(Queried, PageMeta(env.pageMeta, env.total,
                                       if paginationResolver.Some? then Some(env.paginationMeta) else None))))
    {
      if !collection.listable {
        return false, Failure(NotListable(collection.className));
      }
      if !env.visible {
        return false, Failure(Forbidden);
      }
      hooked := true;
      var pagination := paginationResolver;
      var paginationMeta := if pagination.Some? then Some(env.paginationMeta) else None;
      if env.searchable {
        var criteria := SearchCriteria(env.extracted.filters, env.extracted.limit, env.extracted.offset,
                                       env.extracted.sort, SortIsDefault(params));
        return hooked, Success(Response(Searched(criteria), PageMeta(env.pageMeta, env.total, paginationMeta)));
      }
      var sortError := ApplySorts(query, params, env.parse, collection.sorts);
      if sortError.Some? {
        return hooked, Failure(sortError.value);
      }
      var filterError := ApplyFilters(query, params, env.filterError);
      if filterError.Some? {
        return hooked, Failure(filterError.value);
      }
      if pagination.Some? {
        query.page := pagination;
      }
      r := Success(Response(Queried, PageMeta(env.pageMeta, env.total, paginationMeta)));
    }
  }
}
