# Elasticsearch connector for a LoopBack-style ORM: request building and mapping setup

This project models the sequential, I/O-free logic of an Elasticsearch
connector for an object-relational data layer, and proves properties of it in
Dafny. It covers three parts:

- The connector object (`lib/esConnector.js`). This covers:
  - the defaults the constructor derives from the datasource settings;
  - the options handed to the search client;
  - index/type routing;
  - page size and offset, with criteria copied over them;
  - per-property coercion of stored values;
  - projection of a stored document onto a model's declared properties;
  - id normalisation and the empty-id guard of `find`, `exists` and `destroy`;
  - the requests built by `create`, `all`, `count` and `destroyAll`;
  - the per-declaration put-mapping loop of `ESConnector.setupMappings`.
- `setupMapping(modelName)` (`lib/setupMapping.js`). It looks up the model's
  declaration and decides one of three things: reject (missing name or
  duplicate declarations), skip (no declaration), or put. For a put it strips
  `name`/`index`/`type` from a copy of the declaration, fills the request with
  the routing defaults, and ensures the index exists before putting the mapping.
- `setupMappings()` (`lib/setupMappings.js`). It makes one ordered,
  one-at-a-time, fail-fast pass over the declared mapping names.

JavaScript values are the datatype `JsValue.Value` (`Undefined`, `Null`,
`Bool`, `Num`, `Str`, `Arr`, `Obj`). JavaScript truthiness is spelled out as
`Truthy`, because the source's rules hinge on it: `size && …`,
`if (propertyValue)`, `settings.x || default`.

Collaborators the code calls but does not define are parameters:

- `addDefaults`, `setupIndex`, `indices.putMapping`;
- the other search-client calls (the `…Call` values instead show the request
  each one would receive);
- the contents of the TLS certificate file;
- the ORM-supplied id value;
- JavaScript's `Number(value)`.

Files: `js_value.dfy` (values, truthiness, string conversion),
`es_connector.dfy` (module `EsConnector`, class `ESConnector`),
`setup_mapping.dfy` (module `MappingSetup`), `setup_mappings.dfy` (module
`MappingsSetup`).

Points where the code's behaviour is easy to misread:

- `makeFilter` does not compile `where`/`order`. It copies every key of the
  criteria verbatim over the computed `index`/`type`/`size`/`from`.
- `makeFilter` takes `(criteria, size, offset, model)`, as
  `lib/esConnector.js:242` declares it. `test/filters.test.js:31` calls it in a
  different order.
- `rejectUnauthorized: setting || true` is `true` when the setting is falsy,
  and is otherwise *the setting itself*. It is therefore always truthy, not
  always `true`.
- `Promise.reject('more than one mapping for modelName:', modelName)` rejects
  with the first argument only, so the reason carries no model name.
- In `ESConnector.setupMappings` the rejection handler returns the callback's
  result, so a failed put-mapping does not stop the loop. Only a rejection
  whose reason is `null`/`undefined` stops it, because reading `err.message`
  then throws.
- An id of `0` (or `false`) passes the id guard, because its string form
  `'0'` is truthy.

## Model

| member | source | states |
|---|---|---|
| `EsConnector.ESConnector.constructor` | lib/esConnector.js:38-46 | `searchIndex` is `settings.index` when truthy, else ''; `searchType` likewise for `settings.type`; `defaultSize` is `settings.defaultSize` when truthy, else 10, `idField = '_id'`; establishes `Valid()` |
| `EsConnector.GetESClientURL` | lib/esConnector.js:63-82 | exact key set (`ssl` present iff `settings.ssl` is truthy); `hosts` defaults to 127.0.0.1:9200, `requestTimeout` to 1000, `log` to 'error'; `suggestCompression` is always true; `rejectUnauthorized` is the setting when that is truthy and `true` otherwise, so it is always truthy |
| `EsConnector.ClientOptionsWithoutSettings` | lib/esConnector.js:63-74 | with empty settings the options are exactly the defaults |
| `EsConnector.GetValueFromProperty` | lib/esConnector.js:160-174 | Array type: `[]` iff the value is falsy or has length 0, otherwise a one-element array of its string form; String type: string form, and a TypeError exactly for null/undefined; Number: `Number(value)`; any other type: the value unchanged; never fails on a truthy value |
| `EsConnector.CoercionIsStable` | lib/esConnector.js:160-174 | a truthy coerced value coerces to itself again (given `Number(n) === n`) |
| `EsConnector.GetDocumentId` | lib/esConnector.js:307-317 | strings and null/undefined (whose `toString()` throws and is caught) are returned unchanged; everything else becomes its string form |
| `EsConnector.GetDocumentIdIdempotent` | lib/esConnector.js:307-317 | normalising an id twice equals normalising it once |
| `EsConnector.DocumentIdGuard` | lib/esConnector.js:331-335 | the guard rejects exactly null, undefined and values whose string form is empty; numbers (0 included), booleans and objects always pass |
| `EsConnector.ESConnector.MakeFilterIndexAndType` | lib/esConnector.js:222-229 | `type` is the model name; `index` is present iff `searchIndex` is truthy, and then equals it; no other keys |
| `EsConnector.ESConnector.MakeFilter` | lib/esConnector.js:242-269 | every criteria key is copied verbatim and wins; without it in the criteria: routing as above; `size` is present iff size is a non-zero number and (≥ 1 or a truthy default), and holds size when ≥ 1, otherwise `defaultSize`; under `Valid()` `size` is present iff size is truthy; `from` is present iff offset > 0, and then equals offset; no other keys |
| `EsConnector.ESConnector.All` | lib/esConnector.js:277-299 | the search request is the routing overlaid with the criteria: size 0 and offset 0 add no `size`/`from` |
| `EsConnector.ESConnector.DestroyAll` | lib/esConnector.js:418-437 | delete-by-query receives the routing overlaid with the criteria |
| `EsConnector.ESConnector.Count` | lib/esConnector.js:445-463 | the count request (null size and offset) is the routing overlaid with the criteria |
| `EsConnector.ESConnector.ModelDocument` | lib/esConnector.js:182-202 | null for falsy data or an unregistered model; otherwise an object whose keys are exactly the declared properties with a truthy stored value (0, false, '' dropped), each coerced by its declared type |
| `EsConnector.ESConnector.MatchDataToModel` | lib/esConnector.js:182-202 | the property-by-property loop yields exactly `ModelDocument` |
| `EsConnector.ESConnector.ReprojectionKeepsTruthyValues` | lib/esConnector.js:189-196 | projecting a returned document again keeps its truthy values unchanged and drops the ones that coerced to a falsy value |
| `EsConnector.ESConnector.DataSourceToModel` | lib/esConnector.js:210-215 | null when the response is falsy or `found === false`; otherwise the projection of `_source` |
| `EsConnector.ESConnector.DocumentRequest` | lib/esConnector.js:331-335 | fails with 'Document id not setted!' iff the normalised id is falsy; otherwise routing plus the normalised id under `idField` |
| `EsConnector.ESConnector.Exists` | lib/esConnector.js:325-348 | the error is raised before any client call iff the normalised id is falsy; otherwise one `exists` call with the document request |
| `EsConnector.ESConnector.Find` | lib/esConnector.js:356-379 | the error is raised before any client call iff the normalised id is falsy; otherwise one `get` call with the document request |
| `EsConnector.ESConnector.Destroy` | lib/esConnector.js:387-410 | the error is raised before any client call iff the normalised id is falsy; otherwise one `delete` call with the document request |
| `EsConnector.ESConnector.Create` | lib/esConnector.js:471-486 | no id guard; the request is the routing plus `_id` (the normalised id) plus `body`, a copy of the data |
| `EsConnector.ConnectorMappingRequest` | lib/esConnector.js:99-104 | `{index: settings.index, type: mapping.name, body: {properties: mapping.properties}}` |
| `EsConnector.ConnectorSetupMappings` | lib/esConnector.js:94-128 | requests go out in declaration order, one per declaration; failures with a non-nullish reason do not stop the loop; it stops early only right after a rejection with a null/undefined reason |
| `MappingSetup.Matching` | lib/setupMapping.js:18-20 | the result holds exactly the declarations whose `name` equals the model name; empty when none has it |
| `MappingSetup.TwoDeclarationsMatchTwice` | lib/setupMapping.js:18-20 | two declarations with the same name give at least two matches |
| `MappingSetup.UniqueDeclarationMatchesOnce` | lib/setupMapping.js:18-20 | a name carried by one declaration only matches exactly that declaration |
| `MappingSetup.SetupPlanDecides` | lib/setupMapping.js:7-37 | `SetupPlan`: a falsy model name is rejected with 'missing modelName'; skip iff no declaration has that name; a put uses a declaration with that name; any other rejection is 'more than one mapping for modelName:' |
| `MappingSetup.PlanForUniqueDeclaration` | lib/setupMapping.js:34-37 | a truthy name carried by one declaration only is put with that declaration |
| `MappingSetup.PlanForSharedName` | lib/setupMapping.js:29-33 | a name shared by two declarations is rejected |
| `MappingSetup.CleanMapping` | lib/setupMapping.js:40-45 | the body is the declaration without `name`, `index` and `type`, every other key unchanged |
| `MappingSetup.CleanMappingRestores` | lib/setupMapping.js:40-45 | adding the stripped routing keys back restores the declaration |
| `MappingSetup.Defaults` | lib/setupMapping.js:53 | lodash `_.defaults`: keys of both maps; defined target values kept; missing or undefined ones taken from the source; a target key the source lacks keeps its value |
| `MappingSetup.PutMappingRequest` | lib/setupMapping.js:39-53 | request keys are `body` plus the routing defaults' keys; `body` is the cleaned mapping and is never overwritten; other keys come from `addDefaults(name)` |
| `MappingSetup.SetupOutcomeFollowsPlan` | lib/setupMapping.js:7-63 | `SetupOutcome`: reject/skip need no calls; for a put, a failure to ensure the index is the outcome; a put-mapping failure is propagated with the same error; otherwise success |
| `MappingSetup.SetupMapping` | lib/setupMapping.js:7-63 | outcome as `SetupOutcome`; no call is issued unless a put is decided; the index is ensured first, and the put-mapping (with the request above) is issued iff that succeeded |
| `MappingsSetup.DeclaredNames` | lib/setupMappings.js:9 | one name per declaration, in declaration order |
| `MappingsSetup.RunInOrderFrom` | lib/setupMappings.js:21-32 | from position i, the pass stops with step i's rejection or continues with the rest |
| `MappingsSetup.RunInOrderSucceedsIffAllSteps` | lib/setupMappings.js:11-32 | the pass succeeds (with no value) exactly when every step succeeds; an empty list succeeds |
| `MappingsSetup.RunInOrderRejectsWithFirstFailure` | lib/setupMappings.js:21-36 | a rejection of the pass is the rejection of some step all of whose predecessors succeeded |
| `MappingsSetup.SharedNameFailsSetup` | lib/setupMappings.js:9-15 | two declarations sharing a name make the whole pass fail |
| `MappingsSetup.UnnamedDeclarationFailsSetup` | lib/setupMappings.js:9-15 | a declaration with a falsy name makes the whole pass fail |
| `MappingsSetup.DistinctNamesPutEachDeclaration` | lib/setupMappings.js:9-15 | with truthy, pairwise distinct names, step i puts declaration i |
| `MappingsSetup.SetupMappings` | lib/setupMappings.js:7-37 | the names attempted are a prefix of the declared names, in order; every attempted step but the last succeeded; a rejection is the last attempted step's rejection; success means every name was attempted; the outcome is the fold `RunInOrder` over the step, which the lemmas above instantiate with `SetupStep`, the outcome of one `setupMapping` |

## Left out

- Search-client calls (`search`, `get`, `exists`, `create`, `delete`, `deleteByQuery`, `count`, `ping`, `indices.*`) are network I/O. They appear only as the request each would receive (`ClientCall`) or as arrow-typed collaborators.
- Promise and callback plumbing is not modelled. That includes the `done(null, …)` reshaping of each client response (apart from `dataSourceToModel`) and the possible second callback of `ESConnector.setupMappings`.
- Reading the certificate file (`fs.readFileSync`, `path`) is file I/O. Its contents are the parameter `caContents`. `GetESClientURL` therefore never fails, while the source throws when `settings.ssl` is truthy but `settings.ssl.ca` is not a string (`path.normalize`, for example with `ssl: true`) and when the file cannot be read.
- Debug and console logging, the `debug` field, `connectToElasticClient`, `initialize`, `ping` and `getTypes` are wiring with no logic to prove.
- `Number(value)` is JavaScript float parsing. It is the parameter `toNumber`. Numbers are integers: NaN and fractions are not modelled. `IntToString` writes every digit, whereas JavaScript writes numbers from 1e21 upwards in exponent form and rounds integers above 2^53.
- Object key order and inherited enumerable properties are not modelled. Maps are unordered, and `for...in` copies only own keys here.
- Criteria are objects or absent, and page sizes and offsets are numbers or absent (subset types). `for...in` over a string or array criteria is not modelled.
- `GetProp` reads object keys and the `length` of strings and arrays. Numeric indexes and prototype properties read as undefined.
- Objects with their own `toString` are not modelled. Every object's string form is '[object Object]'.
- Mapping declarations are objects. Their names are compared structurally, which agrees with `===` for every non-object name.
- `matchDataToModel`'s `try/catch` is modelled only for its one reachable case: an unregistered model yields null. A registered model always has a property map.
- Model registration by the host ORM (`_models`), `getIdValue` and `idName` come from the ORM. The id value is a parameter of `Create`.
- `save` and `updateOrCreate` call an undefined `makeId`, and `updateAttributes` is an empty stub.
- The where/order compiler, `buildFilter` and `addDefaults` are not part of this model. `addDefaults` is a collaborator parameter. `removeMappings` and `automigrate` are not part of this model either.
- `setupIndex` and `indices.putMapping` are collaborator parameters.
- `MappingsSetup.SetupMappings` takes the per-name step as a function parameter. The lemmas above instantiate it with `SetupStep`, the outcome of `setupMapping`; the step's own calls are those of `MappingSetup.SetupMapping`.
- Order of the mapping loops: `ESConnector.setupMappings` and `setupMappings` hand the declarations to Bluebird's `Promise.map` with `{concurrency: 1}`; Bluebird is not part of this model. `ConnectorSetupMappings` and `SetupMappings` assume that each item starts in input order once the previous one has settled; a different start order under the concurrency limit is not captured.
