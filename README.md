# JSON:API dispatch and listing, modelled in Dafny

This project models two classes of the forum's JSON:API layer.

- **`JsonApi`** is the request dispatcher. It is pointed at one resource class and one endpoint class, builds the request context for them and rejects unknown query parameters. It also rewrites the body of an internal `execute` call and maps model classes to resource types.
- **`Index`** is the listing endpoint. It refuses collections that cannot be listed and actors who may not list. Then it either passes the listing to a search backend, or sorts, filters and paginates the collection's query itself.

Files:

- `api_types.dfy` (module `ApiTypes`): the PHP values a request carries (`Json`), PHP truthiness, the error taxonomy, and the request and route records.
- `json_api.dfy` (module `Api`): class `JsonApi` and the specification functions behind it.
- `index_endpoint.dfy` (module `Endpoint`): class `Index`, the query-builder log `Query`, and the sort, filter and page-meta specifications.

Modelling choices that follow the code:

- A typed property that was never assigned is `None`. Reading it raises PHP's `Error`, modelled as `Uninitialized`.
- `! $x` on a string is false only for `""` and `"0"` (`FalsyString`, `Truthy`). So a sort or filter parameter of `"0"` counts as absent, and so does an endpoint class named `"0"`.
- `array_unique` compares elements as strings. So `null` (no resource for a model) and a type named `""` count as duplicates (`PhpString`).
- `findEndpoint` reads the configured endpoint name only inside the loop. On an empty endpoint list it reports "Invalid endpoint specified" even when the name was never set.
- In `execute`, the endpoint class is instantiated first. The `data` member is unpacked next, and the resource class is instantiated after that (`PreparedRequest`). The model id is always null, because the variable it is read from is never assigned.
- The query builder is a log (`Query`). It records the sort fields applied (by position), the filter sets passed to the filter library, and the paginator applied.

## Model

| member | source | states |
|---|---|---|
| `Api.JsonApi.ForResource` | framework/core/src/Api/JsonApi.php:22-27 | sets only the resource class and returns the same object |
| `Api.JsonApi.ForEndpoint` | framework/core/src/Api/JsonApi.php:29-34 | sets only the endpoint class and returns the same object |
| `Api.JsonApi.ValidateQueryParameters` | framework/core/src/Api/JsonApi.php:97-109 | passes iff every key passes the whitelist; otherwise the error names the first failing key in iteration order, with that key as its source parameter |
| `Api.LowerCaseKeyAcceptedIffReserved` | framework/core/src/Api/JsonApi.php:99-107 | a key made only of a-z (the empty key included) passes iff it is include, fields, filter, page or sort |
| `Api.OtherKeyAccepted` | framework/core/src/Api/JsonApi.php:101 | a key with any character outside a-z always passes |
| `Api.QueryParameterExamples` | framework/core/src/Api/JsonApi.php:99-107 | the reserved `filter` and `page`, and `Filter`, `page_size`, `Sort`, `bySlug`, `per_page` pass; the empty key, `sorts` and `limit` are rejected |
| `Api.JsonApi.FindEndpoint` | framework/core/src/Api/JsonApi.php:49-59 | returns the first endpoint whose class equals the configured name, fails with "Invalid endpoint specified" iff there is none, and reads the name only when there is an endpoint to compare |
| `Api.JsonApi.MakeContext` | framework/core/src/Api/JsonApi.php:36-47 | fails exactly with the guard or lookup error, in source order; on success the context holds the resource's collection, its first endpoint of the configured class, the request, no model id and no internal values |
| `Api.JsonApi.ContextError` | framework/core/src/Api/JsonApi.php:36-47 | no error exactly when both class names pass the guard, the resource's type has a collection and that collection has an endpoint of the configured class; otherwise the first error in source order |
| `Api.JsonApi.GuardPrecedesLookup` | framework/core/src/Api/JsonApi.php:38-40 | when the guard fails (empty or unset endpoint, empty, unset or unknown resource class), the error is the guard's, so no collection is looked up |
| `Api.SuppliedData` | framework/core/src/Api/JsonApi.php:82 | a missing or null `data` member unpacks to nothing, an array unpacks to its entries, and anything else cannot be unpacked |
| `Api.RewrittenBody` | framework/core/src/Api/JsonApi.php:80-85 | the new body holds only `data`; every supplied `data` key except `type` keeps its value, and `type` is the resource's type |
| `Api.JsonApi.PreparedRequest` | framework/core/src/Api/JsonApi.php:71-85 | the prepared request takes its method and path from the endpoint's route, keeps the query, and carries the rewritten body; it is prepared exactly when the endpoint class exists, `data` unpacks and the resource class exists; otherwise it fails with the first of: unset endpoint, missing endpoint class, `data` not unpackable, unset resource class, missing resource class |
| `Api.JsonApi.Execute` | framework/core/src/Api/JsonApi.php:68-95 | fails with the first error of preparing the request or of making the context; on success the context is built for the prepared request with no model id and exactly the given internal values |
| `Api.ModelType` | framework/core/src/Api/JsonApi.php:111-120 | the search from the front answers only the type of a resource that serves the model |
| `Api.ModelTypeIsFirstServing` | framework/core/src/Api/JsonApi.php:111-120 | the type search answers the type of the first model-backed resource for the model, ignoring other resources, and null iff none serves it |
| `Api.JsonApi.TypeForModel` | framework/core/src/Api/JsonApi.php:111-120 | the loop with early return computes that search |
| `Api.ModelTypes` | framework/core/src/Api/JsonApi.php:124 | the mapped list has one entry per model, each the type search for that model |
| `Api.Unique` | framework/core/src/Api/JsonApi.php:124 | the de-duplicated list takes its elements from the input and is no longer than it |
| `Api.UniqueProperties` | framework/core/src/Api/JsonApi.php:124 | the de-duplicated list has no two elements equal as strings, takes every element from the input, covers every input value, and is no longer than the input |
| `Api.KeptAlreadyIffOccurs` | framework/core/src/Api/JsonApi.php:124 | a value was kept already iff an earlier input element has it |
| `Api.UniqueIsFirstOccurrences` | framework/core/src/Api/JsonApi.php:124 | the de-duplicated list is exactly the input elements at first-occurrence positions, in input order |
| `Api.UniqueTypesAreModelTypes` | framework/core/src/Api/JsonApi.php:122-125 | every output type is the type of some input model |
| `Api.ModelTypesAreKept` | framework/core/src/Api/JsonApi.php:122-125 | every input model's type appears in the output |
| `Api.JsonApi.TypesForModels` | framework/core/src/Api/JsonApi.php:122-125 | no duplicates, no longer than the input, sound and complete against the type search, and in first-occurrence order; indices are 0..n-1 |
| `ApiTypes.PrependSource` | framework/core/src/Api/Endpoint/Index.php:189-192 | a sourceable error keeps its message and gains `filter` in front of its source parameter |
| `Endpoint.Index.Paginate` | framework/core/src/Api/Endpoint/Index.php:41-53 | sets `limit` and `maxLimit` to the arguments (20 and 50 by default) and the resolver to an offset paginator with the same two values; nothing else changes |
| `Endpoint.Index.Route` | framework/core/src/Api/Endpoint/Index.php:195-202 | always a GET route named `index`, at the custom path or `/` when none is set |
| `Endpoint.FirstVisibleField` | framework/core/src/Api/Endpoint/Index.php:163-168 | the inner search settles on the first field that has the term's name and is visible, or on none when no field does |
| `Endpoint.SortPlan` | framework/core/src/Api/Endpoint/Index.php:162-173 | the term walk applies at most one field per term, exactly one per term when it succeeds, and each applied field is one the collection offers |
| `Endpoint.SortPlanCharacterized` | framework/core/src/Api/Endpoint/Index.php:162-173 | one field per term in term order, up to the first unmatched term; the walk fails there with "Invalid sort: name" (source `sort`), and succeeds iff every term is matched |
| `Endpoint.SortPlanAppliesVisibleFields` | framework/core/src/Api/Endpoint/Index.php:164-168 | every applied field is visible and has the name of its term, so a hidden field with a matching name is never applied |
| `Endpoint.SortPlanStopsAtError` | framework/core/src/Api/Endpoint/Index.php:162-173 | once a term has failed, the later terms change nothing |
| `Endpoint.Index.SortValue` | framework/core/src/Api/Endpoint/Index.php:156 | the request's `sort` value unless missing or null, else the default sort, else null |
| `Endpoint.Index.SortRequest` | framework/core/src/Api/Endpoint/Index.php:154-174 | nothing is applied when neither the request nor the default gives a truthy sort; a non-string sort is a type error; otherwise the plan for the parsed terms |
| `Endpoint.Index.ApplySorts` | framework/core/src/Api/Endpoint/Index.php:154-174 | the nested loop appends exactly the planned applications to the query, including those made before a failing term, and returns the plan's error |
| `Endpoint.FilterRequest` | framework/core/src/Api/Endpoint/Index.php:176-193 | no-op when `filter` is absent or falsy; a truthy non-array is "filter must be an array" (source `filter`); an array goes to the filter library, whose sourceable errors gain `filter` in front of their source and whose other errors pass through |
| `Endpoint.Index.ApplyFilters` | framework/core/src/Api/Endpoint/Index.php:176-193 | appends exactly the filter sets the specification applies and returns its error |
| `Endpoint.PageMeta` | framework/core/src/Api/Endpoint/Index.php:116-149 | the page meta holds the serialized entries, then the total when one is reported, with the paginator's meta merged over both |
| `Endpoint.Index.Handle` | framework/core/src/Api/Endpoint/Index.php:61-152 | non-listable first, then forbidden, both before the before-hook; the search path leaves the query alone and sets `sortIsDefault` iff the request has no truthy `sort`; the default path sorts, then filters, then paginates, stopping at the first error |

## Left out

- The PSR request plumbing in `execute` is not modelled: `ServerRequestFactory::fromGlobals`, the `Uri` object and `withMethod`. An array request and a request object are the same `Request` value here.
- Api.SuppliedData: integer keys in the `data` array are renumbered by PHP's spread; this is not modelled, since array keys are strings here.
- Api.JsonApi.Execute: the endpoint's own `execute` is not modelled; the model stops at the context it is given.
- `JsonApi::handle` only calls `makeContext` and hands over to the endpoint's own `handle`; the guard part is `MakeContext`.
- The server library's `getCollection` is modelled as a lookup in the registered collections. A missing type raises `ResourceNotFound`.
- Class existence and `type()` of a fresh resource instance come from the `resourceClasses` map. The route of a fresh endpoint instance comes from `endpointClasses`. Autoloading is not modelled.
- Endpoint.Index.SortRequest: any truthy non-string sort value is a type error here. Only arrays reach this point from a query string, and the default sort is a string, so the scalar cases never arise.
- The sort-string grammar is the uninterpreted `parse` function. The filter library is the error it raises, if any; what it applies before raising is not recorded. Sort fields and the paginator record themselves in the query log instead of changing a real query.
- ApiTypes.PrependSource: the library's source merging is not visible; a source parameter is modelled as a path that gets `filter` in front.
- Which exception types are sourceable is an assumption: only bad-request errors are.
- Endpoint.Index.Handle: the non-listable error's message names the collection's class as given in `Collection.className`; how PHP's `get_class` spells it is not modelled. The actor passed to the search criteria is not modelled, and neither are the search results or the `withQuery`/`withSearchResults` context rebinding. Also left out: model retrieval, the after-hook, eager loading, serialization, pagination links and the response envelope. Visibility, searchability, the extracted listing parameters, the serialized meta, the count and the paginator's meta are inputs.
- The base class's initial `limit`, `maxLimit`, pagination resolver, default sort and path are constructor arguments, not fixed values. A resolver that builds no paginator is `None`.
- `Index::execute` always returns null and is not modelled.
- The resource field declarations of the flags and mentions extensions depend on the permission system and ORM queries, so they are not modelled. The same goes for the dialog-message mentions migration (storage-engine schema only) and the search-state type declarations (signatures only).
