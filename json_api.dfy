/**
 * The request dispatcher of the forum's JSON:API layer: the class that is
 * pointed at one resource class and one endpoint class, builds the request
 * context for them, rewrites the body of an internal `execute` call,
 * rejects unknown query parameters, and maps model classes to resource
 * types.
 */
module Api {
  import opened ApiTypes

  /** The query-parameter families JSON:API reserves. */
  const ReservedParameters: seq<string> := ["include", "fields", "filter", "page", "sort"]

  const NoResourceOrEndpoint: Error := BadRequest("No resource or endpoint specified", [])
  const InvalidEndpoint: Error := BadRequest("Invalid endpoint specified", [])

  function InvalidQueryParameter(key: string): Error {
    BadRequest("Invalid query parameter: " + key, [key])
  }

  predicate IsLowerLetter(c: char) {
    'a' <= c <= 'z'
  }

  /** The regular expression `[^a-z]` matches somewhere in the key. */
  predicate HasNonLowerLetter(key: string) {
    exists i :: 0 <= i < |key| && !IsLowerLetter(key[i])
  }

  /** The whitelist rule: keys made only of a-z must be reserved names. */
  predicate QueryParameterAccepted(key: string) {
    HasNonLowerLetter(key) || key in ReservedParameters
  }

  /** Index `i` holds the first rejected key of the query. */
  predicate IsFirstRejected(query: seq<(string, Json)>, i: int) {
    && 0 <= i < |query|
    && !QueryParameterAccepted(query[i].0)
    && forall j :: 0 <= j < i ==> QueryParameterAccepted(query[j].0)
  }

  /** A key of only a-z letters, the empty key included, passes exactly when it is reserved. */
  lemma LowerCaseKeyAcceptedIffReserved(key: string)
    requires forall i :: 0 <= i < |key| ==> IsLowerLetter(key[i])
    ensures QueryParameterAccepted(key) <==> key in ReservedParameters
  {
  }

  /** A key with any character outside a-z always passes. */
  lemma OtherKeyAccepted(key: string, i: nat)
    requires i < |key| && !IsLowerLetter(key[i])
    ensures QueryParameterAccepted(key)
  {
  }

  /**
   * Keys as the parsed query hands them over (a bracketed `filter[q]=x`
   * arrives as the key `filter`), and how the whitelist treats them.
   */
  lemma QueryParameterExamples()
    ensures QueryParameterAccepted("filter") && QueryParameterAccepted("page")
    ensures QueryParameterAccepted("Filter") && QueryParameterAccepted("page_size")
    ensures QueryParameterAccepted("Sort") && QueryParameterAccepted("bySlug") && QueryParameterAccepted("per_page")
    ensures QueryParameterAccepted("include") && QueryParameterAccepted("sort")
    ensures !QueryParameterAccepted("") && !QueryParameterAccepted("sorts") && !QueryParameterAccepted("limit")
  {
    assert !IsLowerLetter("Filter"[0]);
    assert !IsLowerLetter("page_size"[4]);
    assert !IsLowerLetter("Sort"[0]);
    assert !IsLowerLetter("bySlug"[2]);
    assert !IsLowerLetter("per_page"[3]);
    assert forall i :: 0 <= i < |"sorts"| ==> IsLowerLetter("sorts"[i]);
    assert forall i :: 0 <= i < |"limit"| ==> IsLowerLetter("limit"[i]);
  }

  /** A model-backed resource knows its model class; other resources do not. */
  datatype Resource =
    | DatabaseResource(typeName: string, model: string)
    | PlainResource(typeName: string)

  predicate Serves(r: Resource, model: string) {
    r.DatabaseResource? && r.model == model
  }

  /** Resource `k` is the first one that serves the model. */
  predicate IsFirstServing(resources: seq<Resource>, model: string, k: int) {
    && 0 <= k < |resources|
    && Serves(resources[k], model)
    && forall j :: 0 <= j < k ==> !Serves(resources[j], model)
  }

  /** The type `typeForModel` answers, by search from the front. */
  function ModelType(resources: seq<Resource>, model: string): (t: Option<string>)
    ensures t.Some? ==> exists k :: 0 <= k < |resources| && Serves(resources[k], model) && t.value == resources[k].typeName
    decreases |resources|
  {
    if resources == [] then None
    else if Serves(resources[0], model) then Some(resources[0].typeName)
    else ModelType(resources[1..], model)
  }

  /** The search answers the type of the first serving resource, and null only when none serves. */
  lemma {:induction false} ModelTypeIsFirstServing(resources: seq<Resource>, model: string)
    ensures ModelType(resources, model).None? <==> forall k :: 0 <= k < |resources| ==> !Serves(resources[k], model)
    ensures ModelType(resources, model).Some? ==>
      exists k :: IsFirstServing(resources, model, k) && ModelType(resources, model).value == resources[k].typeName
    decreases |resources|
  {
    if resources == [] {
    } else if Serves(resources[0], model) {
      assert IsFirstServing(resources, model, 0);
    } else {
      var rest := resources[1..];
      ModelTypeIsFirstServing(rest, model);
      if ModelType(rest, model).Some? {
        var k :| IsFirstServing(rest, model, k) && ModelType(rest, model).value == rest[k].typeName;
        assert IsFirstServing(resources, model, k + 1);
      } else {
        forall k | 0 <= k < |resources| ensures !Serves(resources[k], model) {
          if k > 0 { assert resources[k] == rest[k - 1]; }
        }
      }
    }
  }

  /** `array_map` of the type search over the model classes. */
  function ModelTypes(resources: seq<Resource>, models: seq<string>): (types: seq<Option<string>>)
    ensures |types| == |models|
    ensures forall j :: 0 <= j < |models| ==> types[j] == ModelType(resources, models[j])
  {
    seq(|models|, j requires 0 <= j < |models| => ModelType(resources, models[j]))
  }

  /** `(string) $t` for a type or null: `array_unique` compares this way, so null equals "". */
  function PhpString(t: Option<string>): string {
    if t.Some? then t.value else ""
  }

  predicate DistinctAsStrings(u: seq<Option<string>>) {
    forall i, j :: 0 <= i < j < |u| ==> PhpString(u[i]) != PhpString(u[j])
  }

  /** Some element of `kept` equals `t` as a string. */
  predicate KeptAlready(kept: seq<Option<string>>, t: Option<string>) {
    exists x :: x in kept && PhpString(x) == PhpString(t)
  }

  /**
   * `array_values(array_unique($s))`: walks the list and keeps an element
   * unless one equal to it as a string was kept already; keys 0..n-1 are
   * the sequence's own indices.
   */
  function Unique(s: seq<Option<string>>): (u: seq<Option<string>>)
    ensures |u| <= |s|
    ensures forall x :: x in u ==> x in s
    decreases |s|
  {
    if s == [] then []
    else
      var kept := Unique(s[..|s| - 1]);
      if KeptAlready(kept, s[|s| - 1]) then kept else kept + [s[|s| - 1]]
  }

  /** Position `k` is the first of its string value in `s`. */
  predicate IsFirstOccurrence(s: seq<Option<string>>, k: int) {
    0 <= k < |s| && forall j :: 0 <= j < k ==> PhpString(s[j]) != PhpString(s[k])
  }

  /** Reference definition: the elements at first-occurrence positions, in input order. */
  function FirstOccurrences(s: seq<Option<string>>): seq<Option<string>>
    decreases |s|
  {
    if s == [] then []
    else FirstOccurrences(s[..|s| - 1]) + (if IsFirstOccurrence(s, |s| - 1) then [s[|s| - 1]] else [])
  }

  lemma {:induction false} UniqueProperties(s: seq<Option<string>>)
    ensures DistinctAsStrings(Unique(s))
    ensures forall x :: x in Unique(s) ==> x in s
    ensures forall y :: y in s ==> KeptAlready(Unique(s), y)
    ensures |Unique(s)| <= |s|
    decreases |s|
  {
    if s != [] {
      var prefix, last := s[..|s| - 1], s[|s| - 1];
      UniqueProperties(prefix);
      var kept := Unique(prefix);
      assert s == prefix + [last];
      forall y | y in s ensures KeptAlready(Unique(s), y) {
        if y in prefix {
          var x :| x in kept && PhpString(x) == PhpString(y);
          assert x in Unique(s);
        } else if !KeptAlready(kept, last) {
          assert last in Unique(s);
        }
      }
    }
  }

  /** Some element of `prefix` equals `t` as a string. */
  predicate OccursAsString(prefix: seq<Option<string>>, t: Option<string>) {
    exists j :: 0 <= j < |prefix| && PhpString(prefix[j]) == PhpString(t)
  }

  /** An element is new to the output exactly when no earlier input element has its value. */
  lemma KeptAlreadyIffOccurs(prefix: seq<Option<string>>, last: Option<string>)
    requires forall x :: x in Unique(prefix) ==> x in prefix
    requires forall y :: y in prefix ==> KeptAlready(Unique(prefix), y)
    ensures KeptAlready(Unique(prefix), last) <==> OccursAsString(prefix, last)
  {
    if KeptAlready(Unique(prefix), last) {
      var x :| x in Unique(prefix) && PhpString(x) == PhpString(last);
      var j :| 0 <= j < |prefix| && prefix[j] == x;
    }
    if OccursAsString(prefix, last) {
      var j :| 0 <= j < |prefix| && PhpString(prefix[j]) == PhpString(last);
      assert prefix[j] in prefix;
      var x :| x in Unique(prefix) && PhpString(x) == PhpString(prefix[j]);
    }
  }

  lemma {:induction false} UniqueIsFirstOccurrences(s: seq<Option<string>>)
    ensures Unique(s) == FirstOccurrences(s)
    decreases |s|
  {
    if s != [] {
      var prefix, last := s[..|s| - 1], s[|s| - 1];
      UniqueIsFirstOccurrences(prefix);
      UniqueProperties(prefix);
      KeptAlreadyIffOccurs(prefix, last);
      assert OccursAsString(prefix, last) <==> !IsFirstOccurrence(s, |s| - 1) by {
        assert forall j :: 0 <= j < |prefix| ==> prefix[j] == s[j];
      }
    }
  }

  /** Every kept type is the type of some input model. */
  lemma UniqueTypesAreModelTypes(resources: seq<Resource>, models: seq<string>)
    ensures forall i :: 0 <= i < |Unique(ModelTypes(resources, models))| ==>
      exists j :: 0 <= j < |models| && Unique(ModelTypes(resources, models))[i] == ModelType(resources, models[j])
  {
    var mapped := ModelTypes(resources, models);
    var types := Unique(mapped);
    UniqueProperties(mapped);
    forall i | 0 <= i < |types|
      ensures exists j :: 0 <= j < |models| && types[i] == ModelType(resources, models[j])
    {
      assert types[i] in types;
      var j :| 0 <= j < |mapped| && mapped[j] == types[i];
    }
  }

  /** Every input model's type is kept, up to string equality. */
  lemma ModelTypesAreKept(resources: seq<Resource>, models: seq<string>)
    ensures forall j :: 0 <= j < |models| ==>
      exists i :: 0 <= i < |Unique(ModelTypes(resources, models))| &&
        PhpString(Unique(ModelTypes(resources, models))[i]) == PhpString(ModelType(resources, models[j]))
  {
    var mapped := ModelTypes(resources, models);
    var types := Unique(mapped);
    UniqueProperties(mapped);
    forall j | 0 <= j < |models|
      ensures exists i :: 0 <= i < |types| && PhpString(types[i]) == PhpString(ModelType(resources, models[j]))
    {
      assert mapped[j] in mapped;
      var x :| x in types && PhpString(x) == PhpString(mapped[j]);
      var i :| 0 <= i < |types| && types[i] == x;
    }
  }

  /** The endpoint at index `k` is the first of the named class. */
  predicate IsFirstEndpoint(endpoints: seq<Endpoint>, name: string, k: int) {
    && 0 <= k < |endpoints|
    && endpoints[k].className == name
    && forall j :: 0 <= j < k ==> endpoints[j].className != name
  }

  ghost predicate HasEndpoint(endpoints: seq<Endpoint>, name: string) {
    exists k :: 0 <= k < |endpoints| && endpoints[k].className == name
  }

  /** An endpoint instance of a collection: its class name and the route it declares. */
  datatype Endpoint = Endpoint(className: string, route: EndpointRoute)

  /** What an endpoint is handed: the collection's type, the endpoint, the request and the extras. */
  datatype Context = Context(
    collection: string,
    endpoint: Endpoint,
    request: Request,
    modelId: Option<Json>,
    internal: map<string, Json>)

  /** What `...($body['data'] ?? [])` unpacks: a missing or null member gives nothing. */
  function SuppliedData(body: Option<map<string, Json>>): (r: Result<map<string, Json>, Error>)
    ensures r.Failure? <==> body.Some? && "data" in body.value && !body.value["data"].JNull? && !body.value["data"].JArray?
    ensures r.Success? ==> r.value == (if body.Some? && "data" in body.value && body.value["data"].JArray?
                                       then body.value["data"].entries else map[])
  {
    if body.None? || "data" !in body.value then Success(map[])
    else match body.value["data"]
      case JNull => Success(map[])
      case JArray(entries) => Success(entries)
      case other => Failure(NotUnpackable(other))
  }

  /** The body `execute` passes on: only `data`, whose `type` is forced to the resource's type. */
  function RewrittenBody(data: map<string, Json>, typeName: string): (body: map<string, Json>)
    ensures body.Keys == {"data"} && body["data"].JArray?
    ensures body["data"].entries.Keys == data.Keys + {"type"}
    ensures body["data"].entries["type"] == JString(typeName)
    ensures forall k :: k in data && k != "type" ==> body["data"].entries[k] == data[k]
  {
    map["data" := JArray(data["type" := JString(typeName)])]
  }

  class JsonApi {
    /** The resource class the dispatcher is pointed at; `None` until assigned. */
    var resourceClass: Option<string>
    /** The endpoint class the dispatcher is pointed at; `None` until assigned. */
    var endpoint: Option<string>

    /** The registered resources, in registration order. */
    const resources: seq<Resource>
    /** The registered collections by type, each with its endpoints in order. */
    const collections: map<string, seq<Endpoint>>
    /** The resource classes that exist, with the type their instances report. */
    const resourceClasses: map<string, string>
    /** The endpoint classes that exist, with the route a fresh instance declares. */
    const endpointClasses: map<string, EndpointRoute>

    constructor (resources: seq<Resource>, collections: map<string, seq<Endpoint>>,
                 resourceClasses: map<string, string>, endpointClasses: map<string, EndpointRoute>)
      ensures resourceClass == None && endpoint == None
      ensures this.resources == resources && this.collections == collections
      ensures this.resourceClasses == resourceClasses && this.endpointClasses == endpointClasses
    {
      this.resources := resources;
      this.collections := collections;
      this.resourceClasses := resourceClasses;
      this.endpointClasses := endpointClasses;
      resourceClass := None;
      endpoint := None;
    }

    method ForResource(resourceClass: string) returns (self: JsonApi)
      modifies this`resourceClass
      ensures this.resourceClass == Some(resourceClass) && endpoint == old(endpoint)
      ensures self == this
    {
      this.resourceClass := Some(resourceClass);
      self := this;
    }

    method ForEndpoint(endpoint: string) returns (self: JsonApi)
      modifies this`endpoint
      ensures this.endpoint == Some(endpoint) && resourceClass == old(resourceClass)
      ensures self == this
    {
      this.endpoint := Some(endpoint);
      self := this;
    }

    /** Every key passes the whitelist, or the first key that does not is named in the error. */
    method ValidateQueryParameters(request: Request) returns (r: Outcome<Error>)
      ensures r.Pass? <==> forall i :: 0 <= i < |request.query| ==> QueryParameterAccepted(request.query[i].0)
      ensures r.Fail? ==> exists i :: IsFirstRejected(request.query, i) && r.error == InvalidQueryParameter(request.query[i].0)
    {
      for i := 0 to |request.query|
        invariant forall j :: 0 <= j < i ==> QueryParameterAccepted(request.query[j].0)
      {
        var key := request.query[i].0;
        if !HasNonLowerLetter(key) && key !in ReservedParameters {
          assert IsFirstRejected(request.query, i);
          return Fail(InvalidQueryParameter(key));
        }
      }
      return Pass;
    }

    /**
     * The first endpoint of the configured class. The configured name is
     * read only once there is an endpoint to compare it with.
     */
    method FindEndpoint(endpoints: seq<Endpoint>) returns (r: Result<Endpoint, Error>)
      ensures endpoint.None? ==> r == Failure(if endpoints == [] then InvalidEndpoint else Uninitialized("endpoint"))
      ensures endpoint.Some? ==> (r.Success? <==> HasEndpoint(endpoints, endpoint.value))
      ensures endpoint.Some? && r.Success? ==> exists k :: IsFirstEndpoint(endpoints, endpoint.value, k) && r.value == endpoints[k]
      ensures endpoint.Some? && r.Failure? ==> r.error == InvalidEndpoint
    {
      for i := 0 to |endpoints|
        invariant endpoint.Some? ==> forall j :: 0 <= j < i ==> endpoints[j].className != endpoint.value
        invariant endpoint.None? ==> i == 0
      {
        if endpoint.None? {
          return Failure(Uninitialized("endpoint"));
        }
        if endpoints[i].className == endpoint.value {
          assert IsFirstEndpoint(endpoints, endpoint.value, i);
          return Success(endpoints[i]);
        }
      }
      return Failure(InvalidEndpoint);
    }

    /** Both class names are set, non-empty, and the resource class exists. */
    predicate GuardsPass()
      reads this
    {
      && endpoint.Some? && !FalsyString(endpoint.value)
      && resourceClass.Some? && !FalsyString(resourceClass.value)
      && resourceClass.value in resourceClasses
    }

    /**
     * The error building a context raises, if any: first the guard on the
     * two class names (reading each property only when the check before it
     * passed), then the collection lookup, then the endpoint lookup.
     */
    ghost function ContextError(): (e: Option<Error>)
      reads this
      ensures e.None? <==>
        && GuardsPass()
        && resourceClasses[resourceClass.value] in collections
        && HasEndpoint(collections[resourceClasses[resourceClass.value]], endpoint.value)
    {
      if endpoint.None? then Some(Uninitialized("endpoint"))
      else if FalsyString(endpoint.value) then Some(NoResourceOrEndpoint)
      else if resourceClass.None? then Some(Uninitialized("resourceClass"))
      else if FalsyString(resourceClass.value) || resourceClass.value !in resourceClasses then Some(NoResourceOrEndpoint)
      else if resourceClasses[resourceClass.value] !in collections then Some(ResourceNotFound(resourceClasses[resourceClass.value]))
      else if !HasEndpoint(collections[resourceClasses[resourceClass.value]], endpoint.value) then Some(InvalidEndpoint)
      else None
    }

    /** `c` is the context for the request: the resource's collection and its first endpoint of the configured class. */
    ghost predicate BuiltContext(c: Context, request: Request)
      reads this
    {
      && GuardsPass()
      && var typeName := resourceClasses[resourceClass.value];
      && typeName in collections
      && c.collection == typeName && c.request == request && c.modelId == None
      && exists k :: IsFirstEndpoint(collections[typeName], endpoint.value, k) && c.endpoint == collections[typeName][k]
    }

    /** A failing guard is reported before any collection is looked up. */
    lemma GuardPrecedesLookup()
      requires !GuardsPass()
      ensures ContextError().Some?
      ensures ContextError().value in {Uninitialized("endpoint"), Uninitialized("resourceClass"), NoResourceOrEndpoint}
    {
    }

    method MakeContext(request: Request) returns (r: Result<Context, Error>)
      ensures r.Failure? <==> ContextError().Some?
      ensures r.Failure? ==> r.error == ContextError().value
      ensures r.Success? ==> BuiltContext(r.value, request) && r.value.internal == map[]
    {
      if endpoint.None? {
        return Failure(Uninitialized("endpoint"));
      }
      if FalsyString(endpoint.value) {
        return Failure(NoResourceOrEndpoint);
      }
      if resourceClass.None? {
        return Failure(Uninitialized("resourceClass"));
      }
      if FalsyString(resourceClass.value) || resourceClass.value !in resourceClasses {
        return Failure(NoResourceOrEndpoint);
      }
      var typeName := resourceClasses[resourceClass.value];
      if typeName !in collections {
        return Failure(ResourceNotFound(typeName));
      }
      var found := FindEndpoint(collections[typeName]);
      if found.Failure? {
        return Failure(found.error);
      }
      return Success(Context(typeName, found.value, request, None, map[]));
    }

    /**
     * The request `execute` builds before making the context: the method
     * and path of the endpoint's route, and a body holding only `data`.
     * Each class is instantiated at the point the source does it.
     */
    function PreparedRequest(request: Request): (r: Result<Request, Error>)
      reads this
      ensures r.Success? <==>
        && endpoint.Some? && endpoint.value in endpointClasses
        && SuppliedData(request.body).Success?
        && resourceClass.Some? && resourceClass.value in resourceClasses
      ensures endpoint.None? ==> r == Failure(Uninitialized("endpoint"))
      ensures endpoint.Some? && endpoint.value !in endpointClasses ==> r == Failure(ClassNotFound(endpoint.value))
      ensures endpoint.Some? && endpoint.value in endpointClasses && SuppliedData(request.body).Failure? ==>
        r == Failure(SuppliedData(request.body).error)
      ensures endpoint.Some? && endpoint.value in endpointClasses && SuppliedData(request.body).Success? ==>
        && (resourceClass.None? ==> r == Failure(Uninitialized("resourceClass")))
        && (resourceClass.Some? && resourceClass.value !in resourceClasses ==> r == Failure(ClassNotFound(resourceClass.value)))
      ensures r.Success? ==>
        && r.value.query == request.query
        && r.value.httpMethod == endpointClasses[endpoint.value].httpMethod
        && r.value.path == endpointClasses[endpoint.value].path
        && r.value.body == Some(RewrittenBody(SuppliedData(request.body).value, resourceClasses[resourceClass.value]))
    {
      if endpoint.None? then Failure(Uninitialized("endpoint"))
      else if endpoint.value !in endpointClasses then Failure(ClassNotFound(endpoint.value))
      else
        var route := endpointClasses[endpoint.value];
        match SuppliedData(request.body)
        case Failure(e) => Failure(e)
        case Success(data) =>
          if resourceClass.None? then Failure(Uninitialized("resourceClass"))
          else if resourceClass.value !in resourceClasses then Failure(ClassNotFound(resourceClass.value))
          else Success(request.(httpMethod := route.httpMethod, path := route.path,
                                body := Some(RewrittenBody(data, resourceClasses[resourceClass.value]))))
    }

    /**
     * The context an internal call runs its endpoint with: the prepared
     * request, no model id (the source reads an unassigned variable for it),
     * and the internal values.
     */
    method Execute(request: Request, internal: map<string, Json>) returns (r: Result<Context, Error>)
      ensures PreparedRequest(request).Failure? ==> r == Failure(PreparedRequest(request).error)
      ensures PreparedRequest(request).Success? && ContextError().Some? ==> r == Failure(ContextError().value)
      ensures r.Success? <==> PreparedRequest(request).Success? && ContextError().None?
      ensures r.Success? ==> BuiltContext(r.value, PreparedRequest(request).value) && r.value.internal == internal
    {
      var prepared := PreparedRequest(request);
      if prepared.Failure? {
        return Failure(prepared.error);
      }
      var made := MakeContext(prepared.value);
      if made.Failure? {
        return Failure(made.error);
      }
      var context := made.value.(modelId := None);
      var pending := internal.Keys;
      while pending != {}
        invariant pending <= internal.Keys
        invariant BuiltContext(context, prepared.value)
        invariant context.internal == map k | k in internal && k !in pending :: internal[k]
        decreases pending
      {
        var key :| key in pending;
        context := context.(internal := context.internal[key := internal[key]]);
        pending := pending - {key};
      }
      assert context.internal == internal;
      return Success(context);
    }

    /** The type of the first model-backed resource for the class, or null. */
    method TypeForModel(modelClass: string) returns (t: Option<string>)
      ensures t == ModelType(resources, modelClass)
    {
      for i := 0 to |resources|
        invariant ModelType(resources[i..], modelClass) == ModelType(resources, modelClass)
      {
        assert resources[i..][1..] == resources[i + 1..];
        if resources[i].DatabaseResource? && resources[i].model == modelClass {
          return Some(resources[i].typeName);
        }
      }
      return None;
    }

    /**
     * The types of the model classes, without repeats: the first type for
     * each string value, in the order the models first produce it.
     */
    function TypesForModels(modelClasses: seq<string>): (types: seq<Option<string>>)
      ensures DistinctAsStrings(types)
      ensures |types| <= |modelClasses|
      ensures forall i :: 0 <= i < |types| ==>
        exists j :: 0 <= j < |modelClasses| && types[i] == ModelType(resources, modelClasses[j])
      ensures forall j :: 0 <= j < |modelClasses| ==>
        exists i :: 0 <= i < |types| && PhpString(types[i]) == PhpString(ModelType(resources, modelClasses[j]))
      ensures types == FirstOccurrences(ModelTypes(resources, modelClasses))
    {
      var mapped := ModelTypes(resources, modelClasses);
      UniqueProperties(mapped);
      UniqueIsFirstOccurrences(mapped);
      UniqueTypesAreModelTypes(resources, modelClasses);
      ModelTypesAreKept(resources, modelClasses);
      Unique(mapped)
    }
  }
}
