/** The request builder and result reshaper of the Elasticsearch connector:
    connector defaults, client options, index/type routing, pagination,
    per-property coercion, projection of stored documents onto a model, and
    the requests that the CRUD operations hand to the search client. */
module EsConnector {
  import opened JsValue

  /** The declared type of a model property. `ArrayType` stands for any
      array-valued declaration such as `[String]`. */
  datatype PropertyType = ArrayType | StringType | NumberType | OtherType(name: string)

  /** What the host ORM registers for a model: its declared properties. */
  datatype ModelDefinition = ModelDefinition(properties: map<string, PropertyType>)

  /** `Error` thrown synchronously, or a request built. */
  datatype Result<T> = Success(value: T) | Failure(message: string)

  /** A request handed to the search client, tagged by the client method. */
  datatype ClientCall =
    | ExistsCall(request: map<string, Value>)
    | GetCall(request: map<string, Value>)
    | DeleteCall(request: map<string, Value>)
    | CreateCall(request: map<string, Value>)
    | SearchCall(request: map<string, Value>)
    | CountCall(request: map<string, Value>)
    | DeleteByQueryCall(request: map<string, Value>)

  /** Criteria are a filter object, or absent. */
  type Criteria = v: Value | v.Obj? || Nullish(v) witness Undefined

  /** Page size and offset are numbers, or absent. */
  type Pagination = v: Value | v.Num? || Nullish(v) witness Null

  const IdNotSet := "Document id not setted!"

  const DefaultHost: Value := Obj(map["host" := Str("127.0.0.1"), "port" := Num(9200)])

  /** The keys of criteria that `for...in` copies. */
  function Entries(criteria: Criteria): map<string, Value> {
    if criteria.Obj? then criteria.fields else map[]
  }

  /** `value.length === 0` */
  predicate LengthIsZero(value: Value) {
    GetProp(value, "length") == Num(0)
  }

  /** Options for the search client. `caContents` stands for what the
      certificate file of `settings.ssl.ca` reads as. */
  function GetESClientURL(settings: map<string, Value>, caContents: Value): (options: map<string, Value>)
    ensures options.Keys ==
      {"hosts", "requestTimeout", "apiVersion", "log", "suggestCompression"}
      + (if Truthy(Get(settings, "ssl")) then {"ssl"} else {})
    ensures !Truthy(Get(settings, "hosts")) ==> options["hosts"] == DefaultHost
    ensures Truthy(Get(settings, "hosts")) ==> options["hosts"] == Get(settings, "hosts")
    ensures !Truthy(Get(settings, "requestTimeout")) ==> options["requestTimeout"] == Num(1000)
    ensures Truthy(Get(settings, "requestTimeout")) ==> options["requestTimeout"] == Get(settings, "requestTimeout")
    ensures !Truthy(Get(settings, "log")) ==> options["log"] == Str("error")
    ensures Truthy(Get(settings, "log")) ==> options["log"] == Get(settings, "log")
    ensures options["apiVersion"] == Get(settings, "apiVersion")
    ensures options["suggestCompression"] == Bool(true)
    ensures "ssl" in options ==>
      var ssl := options["ssl"];
      && ssl.Obj? && ssl.fields.Keys == {"ca", "rejectUnauthorized"}
      && ssl.fields["ca"] == caContents
      // `|| true`: verification of the server certificate can never be switched off
      && Truthy(ssl.fields["rejectUnauthorized"])
      && var setting := GetProp(Get(settings, "ssl"), "rejectUnauthorized");
      && (Truthy(setting) ==> ssl.fields["rejectUnauthorized"] == setting)
      && (!Truthy(setting) ==> ssl.fields["rejectUnauthorized"] == Bool(true))
  {
    var options := map[
      "hosts" := Or(Get(settings, "hosts"), DefaultHost),
      "requestTimeout" := Or(Get(settings, "requestTimeout"), Num(1000)),
      "apiVersion" := Get(settings, "apiVersion"),
      "log" := Or(Get(settings, "log"), Str("error")),
      "suggestCompression" := Bool(true)];
    if Truthy(Get(settings, "ssl")) then
      var ssl := Get(settings, "ssl");
      options["ssl" := Obj(map[
        "ca" := caContents,
        "rejectUnauthorized" := Or(GetProp(ssl, "rejectUnauthorized"), Bool(true))])]
    else
      options
  }

  /** With no settings at all the client talks to a local node. */
  lemma ClientOptionsWithoutSettings(caContents: Value)
    ensures GetESClientURL(map[], caContents) == map[
      "hosts" := DefaultHost,
      "requestTimeout" := Num(1000),
      "apiVersion" := Undefined,
      "log" := Str("error"),
      "suggestCompression" := Bool(true)]
  {
  }

  /** Coerces a stored value to a property's declared type. None stands for
      the TypeError that `toString()` throws on null or undefined.
      `toNumber` is JavaScript's `Number(value)`. */
  function GetValueFromProperty(property: PropertyType, value: Value, toNumber: Value -> int): (r: Option<Value>)
    ensures r.None? <==> property.StringType? && Nullish(value)
    ensures Truthy(value) ==> r.Some?
    ensures property.ArrayType? ==>
      (r == Some(Arr([])) <==> !Truthy(value) || LengthIsZero(value))
    ensures property.ArrayType? && Truthy(value) && !LengthIsZero(value) ==>
      r == Some(Arr([Str(Stringify(value))]))
    ensures property.StringType? && !Nullish(value) ==> r == Some(Str(Stringify(value)))
    ensures property.NumberType? ==> r == Some(Num(toNumber(value)))
    ensures property.OtherType? ==> r == Some(value)
  {
    match property
    case ArrayType =>
      if !Truthy(value) || LengthIsZero(value) then Some(Arr([]))
      else Some(Arr([Str(Stringify(value))]))
    case StringType =>
      if Nullish(value) then None else Some(Str(Stringify(value)))
    case NumberType => Some(Num(toNumber(value)))
    case OtherType(_) => Some(value)
  }

  /** A coerced value that is truthy is a fixed point of the coercion, as
      long as `Number` maps a number to itself. */
  lemma CoercionIsStable(property: PropertyType, value: Value, toNumber: Value -> int)
    requires forall k :: toNumber(Num(k)) == k
    requires GetValueFromProperty(property, value, toNumber).Some?
    requires Truthy(GetValueFromProperty(property, value, toNumber).value)
    ensures var c := GetValueFromProperty(property, value, toNumber).value;
      GetValueFromProperty(property, c, toNumber) == Some(c)
  {
    var c := GetValueFromProperty(property, value, toNumber).value;
    if property.ArrayType? && c != Arr([]) {
      StringifySingleton(Stringify(value));
    }
  }

  /** Document ids are sent as strings: a string is kept, anything else is
      converted with `toString()`; null and undefined, on which that call
      throws, are returned unchanged. */
  function GetDocumentId(id: Value): (r: Value)
    ensures id.Str? ==> r == id
    ensures Nullish(id) ==> r == id
    ensures !Nullish(id) ==> r == Str(Stringify(id))
  {
    if !id.Str? && !Nullish(id) then Str(Stringify(id)) else id
  }

  lemma GetDocumentIdIdempotent(id: Value)
    ensures GetDocumentId(GetDocumentId(id)) == GetDocumentId(id)
  {
  }

  /** The id guard of `find`, `exists` and `destroy` rejects exactly the ids
      that are absent or whose string form is empty; every number,
      including 0, and every boolean passes. */
  lemma DocumentIdGuard(id: Value)
    ensures !Truthy(GetDocumentId(id)) <==> Nullish(id) || Stringify(id) == ""
    ensures id.Num? || id.Bool? || id.Obj? ==> Truthy(GetDocumentId(id))
  {
  }

  /** The connector object: the settings it was built from and the defaults
      derived from them, plus the models the host ORM has registered. */
  class ESConnector {
    var name: string
    var models: map<string, ModelDefinition>
    var settings: map<string, Value>
    var searchIndex: Value
    var searchType: Value
    var defaultSize: Value
    var idField: string

    /** The constructor's defaults leave a truthy page size and the engine's
        `_id` as the id key. */
    ghost predicate Valid()
      reads this
    {
      Truthy(defaultSize) && idField == "_id"
    }

    constructor (settings: map<string, Value>)
      ensures Valid()
      ensures this.name == "elastic-search" && models == map[] && this.settings == settings
      ensures Truthy(Get(settings, "index")) ==> searchIndex == Get(settings, "index")
      ensures !Truthy(Get(settings, "index")) ==> searchIndex == Str("")
      ensures Truthy(Get(settings, "type")) ==> searchType == Get(settings, "type")
      ensures !Truthy(Get(settings, "type")) ==> searchType == Str("")
      ensures Truthy(Get(settings, "defaultSize")) ==> defaultSize == Get(settings, "defaultSize")
      ensures !Truthy(Get(settings, "defaultSize")) ==> defaultSize == Num(10)
      ensures idField == "_id"
    {
      this.name := "elastic-search";
      this.models := map[];
      this.settings := settings;
      this.searchIndex := Or(Get(settings, "index"), Str(""));
      this.searchType := Or(Get(settings, "type"), Str(""));
      this.defaultSize := Or(Get(settings, "defaultSize"), Num(10));
      this.idField := "_id";
    }

    /** Routing for a model's documents: the type is the model name, and the
        connector's index is added only when it is set. */
    function MakeFilterIndexAndType(model: string): (filter: map<string, Value>)
      reads this
      ensures filter.Keys == if Truthy(searchIndex) then {"index", "type"} else {"type"}
      ensures filter["type"] == Str(model)
      ensures "index" in filter ==> filter["index"] == searchIndex
    {
      var filter := if Truthy(searchIndex) then map["index" := searchIndex] else map[];
      filter["type" := Str(model)]
    }

    /** A search request: routing, then the page size and offset, then every
        key of the criteria copied over whatever was computed. */
    method MakeFilter(criteria: Criteria, size: Pagination, offset: Pagination, model: string)
      returns (filter: map<string, Value>)
      ensures forall k :: k in Entries(criteria) ==> k in filter && filter[k] == Entries(criteria)[k]
      ensures forall k :: k in filter ==> k in Entries(criteria) || k in {"index", "type", "size", "from"}
      ensures "type" !in Entries(criteria) ==> "type" in filter && filter["type"] == Str(model)
      ensures "index" !in Entries(criteria) ==>
        ("index" in filter <==> Truthy(searchIndex))
        && ("index" in filter ==> filter["index"] == searchIndex)
      ensures "size" !in Entries(criteria) ==>
        ("size" in filter <==> Truthy(size) && (size.n >= 1 || Truthy(defaultSize)))
      ensures "size" !in Entries(criteria) && "size" in filter ==>
        filter["size"] == if size.n >= 1 then size else defaultSize
      ensures Valid() && "size" !in Entries(criteria) ==> ("size" in filter <==> Truthy(size))
      ensures "from" !in Entries(criteria) ==>
        ("from" in filter <==> offset.Num? && offset.n > 0)
        && ("from" in filter ==> filter["from"] == offset)
    {
      var routing := MakeFilterIndexAndType(model);
      filter := routing;
      if Truthy(size) {
        if size.n < 1 {
          if Truthy(defaultSize) {
            filter := filter["size" := defaultSize];
          }
        } else {
          filter := filter["size" := size];
        }
      }
      if Truthy(offset) {
        if offset.n > 0 {
          filter := filter["from" := offset];
        }
      }
      ghost var computed := filter;
      if Truthy(criteria) {
        var entries := criteria.fields;
        var pending := entries.Keys;
        while pending != {}
          invariant pending <= entries.Keys
          invariant forall k :: k in filter <==> k in computed || (k in entries && k !in pending)
          invariant forall k :: k in filter ==>
            filter[k] == if k in entries && k !in pending then entries[k] else computed[k]
          decreases pending
        {
          var k :| k in pending;
          filter := filter[k := entries[k]];
          pending := pending - {k};
        }
      }
    }

    /** `all` searches with size 0 and offset 0, so the request is the
        routing overlaid with the criteria and nothing paginates it unless the
        criteria say so. */
    method All(model: string, criteria: Criteria) returns (call: ClientCall)
      ensures call == SearchCall(MakeFilterIndexAndType(model) + Entries(criteria))
    {
      var filter := MakeFilter(criteria, Num(0), Num(0), model);
      call := SearchCall(filter);
    }

    /** `destroyAll` deletes by query with the same request as `all`. */
    method DestroyAll(model: string, criteria: Criteria) returns (call: ClientCall)
      ensures call == DeleteByQueryCall(MakeFilterIndexAndType(model) + Entries(criteria))
    {
      var filter := MakeFilter(criteria, Num(0), Num(0), model);
      call := DeleteByQueryCall(filter);
    }

    /** `count` builds its request with no size and no offset. */
    method Count(model: string, criteria: Criteria) returns (call: ClientCall)
      ensures call == CountCall(MakeFilterIndexAndType(model) + Entries(criteria))
    {
      var filter := MakeFilter(criteria, Null, Null, model);
      call := CountCall(filter);
    }

    /** The document the connector returns for stored data: null for absent
        data or an unregistered model, otherwise exactly the declared
        properties whose stored value is truthy, each coerced to its type. */
    function ModelDocument(model: string, data: Value, toNumber: Value -> int): (document: Value)
      reads this
      ensures document.Obj? <==> Truthy(data) && model in models
      ensures !document.Obj? ==> document == Null
      ensures document.Obj? ==>
        var properties := models[model].properties;
        && (forall p :: p in document.fields <==> p in properties && Truthy(GetProp(data, p)))
        && (forall p :: p in document.fields ==>
              Some(document.fields[p]) == GetValueFromProperty(properties[p], GetProp(data, p), toNumber))
    {
      if !Truthy(data) || model !in models then Null
      else
        var properties := models[model].properties;
        Obj(map p | p in properties && Truthy(GetProp(data, p)) ::
              GetValueFromProperty(properties[p], GetProp(data, p), toNumber).value)
    }

    /** Fills the document one declared property at a time. */
    method MatchDataToModel(model: string, data: Value, toNumber: Value -> int) returns (document: Value)
      ensures document == ModelDocument(model, data, toNumber)
    {
      if !Truthy(data) {
        return Null;
      }
      if model !in models {
        // reading `properties` of an unregistered model throws; the error is caught
        return Null;
      }
      var properties := models[model].properties;
      var fields: map<string, Value> := map[];
      var pending := properties.Keys;
      while pending != {}
        invariant pending <= properties.Keys
        invariant forall p :: p in fields <==>
          p in properties && p !in pending && Truthy(GetProp(data, p))
        invariant forall p :: p in fields ==>
          Some(fields[p]) == GetValueFromProperty(properties[p], GetProp(data, p), toNumber)
        decreases pending
      {
        var p :| p in pending;
        var propertyValue := GetProp(data, p);
        if Truthy(propertyValue) {
          fields := fields[p := GetValueFromProperty(properties[p], propertyValue, toNumber).value];
        }
        pending := pending - {p};
      }
      document := Obj(fields);
    }

    /** Re-projecting a returned document keeps every truthy value as it is
        and drops the values that coerced to a falsy one (for instance an
        empty array declared as a string becomes '' and is dropped). */
    lemma ReprojectionKeepsTruthyValues(model: string, data: Value, toNumber: Value -> int)
      requires forall k :: toNumber(Num(k)) == k
      requires ModelDocument(model, data, toNumber).Obj?
      ensures var fields := ModelDocument(model, data, toNumber).fields;
        ModelDocument(model, Obj(fields), toNumber)
          == Obj(map p | p in fields && Truthy(fields[p]) :: fields[p])
    {
      var fields := ModelDocument(model, data, toNumber).fields;
      var properties := models[model].properties;
      var again := ModelDocument(model, Obj(fields), toNumber).fields;
      var expected := map p | p in fields && Truthy(fields[p]) :: fields[p];
      forall p | p in again
        ensures p in expected && again[p] == expected[p]
      {
        CoercionIsStable(properties[p], GetProp(data, p), toNumber);
      }
      assert again == expected;
    }

    /** A client response reshaped into a model document: null when there is
        no response or the engine reports `found: false`, otherwise the
        projection of its `_source`. */
    function DataSourceToModel(model: string, data: Value, toNumber: Value -> int): (document: Value)
      reads this
      ensures !Truthy(data) || GetProp(data, "found") == Bool(false) ==> document == Null
      ensures Truthy(data) && GetProp(data, "found") != Bool(false) ==>
        document == ModelDocument(model, GetProp(data, "_source"), toNumber)
      ensures document.Obj? ==> model in models && Truthy(GetProp(data, "_source"))
    {
      if !Truthy(data) || (!Truthy(GetProp(data, "found")) && GetProp(data, "found") == Bool(false)) then Null
      else ModelDocument(model, GetProp(data, "_source"), toNumber)
    }

    /** The routing plus the normalised id; throws when that id is falsy. */
    function DocumentRequest(model: string, id: Value): (r: Result<map<string, Value>>)
      reads this
      ensures r.Failure? <==> !Truthy(GetDocumentId(id))
      ensures r.Failure? ==> r.message == IdNotSet
      ensures r.Success? ==>
        r.value.Keys == MakeFilterIndexAndType(model).Keys + {idField}
        && r.value[idField] == GetDocumentId(id)
        && Truthy(r.value[idField])
      ensures r.Success? && Valid() ==> r.value - {idField} == MakeFilterIndexAndType(model)
    {
      var filter := MakeFilterIndexAndType(model)[idField := GetDocumentId(id)];
      if !Truthy(filter[idField]) then Failure(IdNotSet) else Success(filter)
    }

    /** `exists`: the request for `client.exists`, or the error thrown before
        any client call. */
    function Exists(model: string, id: Value): (r: Result<ClientCall>)
      reads this
      ensures r.Failure? <==> !Truthy(GetDocumentId(id))
      ensures r.Failure? ==> r.message == IdNotSet
      ensures r.Success? ==> r.value == ExistsCall(DocumentRequest(model, id).value)
    {
      match DocumentRequest(model, id)
      case Failure(message) => Failure(message)
      case Success(filter) => Success(ExistsCall(filter))
    }

    /** `find`: the request for `client.get`, or the error thrown before any
        client call. */
    function Find(model: string, id: Value): (r: Result<ClientCall>)
      reads this
      ensures r.Failure? <==> !Truthy(GetDocumentId(id))
      ensures r.Failure? ==> r.message == IdNotSet
      ensures r.Success? ==> r.value == GetCall(DocumentRequest(model, id).value)
    {
      match DocumentRequest(model, id)
      case Failure(message) => Failure(message)
      case Success(filter) => Success(GetCall(filter))
    }

    /** `destroy`: the request for `client.delete`, or the error thrown before
        any client call. */
    function Destroy(model: string, id: Value): (r: Result<ClientCall>)
      reads this
      ensures r.Failure? <==> !Truthy(GetDocumentId(id))
      ensures r.Failure? ==> r.message == IdNotSet
      ensures r.Success? ==> r.value == DeleteCall(DocumentRequest(model, id).value)
    {
      match DocumentRequest(model, id)
      case Failure(message) => Failure(message)
      case Success(filter) => Success(DeleteCall(filter))
    }

    /** `create`: routing, the normalised id (with no guard: an absent id is
        sent as it is) and a copy of the data as the body. `idValue` is what
        the host ORM reports as the instance's id. */
    function Create(model: string, data: map<string, Value>, idValue: Value): (call: ClientCall)
      reads this
      requires Valid()
      ensures call.CreateCall?
      ensures call.request.Keys == MakeFilterIndexAndType(model).Keys + {"_id", "body"}
      ensures call.request["_id"] == GetDocumentId(idValue)
      ensures call.request["body"] == Obj(data)
      ensures call.request - {"_id", "body"} == MakeFilterIndexAndType(model)
    {
      var document := MakeFilterIndexAndType(model)[idField := GetDocumentId(idValue)];
      CreateCall(document["body" := Obj(data)])
    }
  }

  /** The put-mapping request that `ESConnector.setupMappings` sends for one
      declaration. */
  function ConnectorMappingRequest(settings: map<string, Value>, mapping: map<string, Value>): (request: Value)
    ensures request.Obj? && request.fields.Keys == {"index", "type", "body"}
    ensures request.fields["index"] == Get(settings, "index")
    ensures request.fields["type"] == Get(mapping, "name")
    ensures request.fields["body"] == Obj(map["properties" := Get(mapping, "properties")])
  {
    Obj(map[
      "index" := Get(settings, "index"),
      "type" := Get(mapping, "name"),
      "body" := Obj(map["properties" := Get(mapping, "properties")])])
  }

  /** `ESConnector.setupMappings`: one put-mapping per declaration, in order
      and one at a time. A rejection is handed to the callback and the next
      declaration is still attempted; only a rejection whose reason is null
      or undefined (reading its `message` throws) stops the sequence. */
  method ConnectorSetupMappings(settings: map<string, Value>, mappings: seq<map<string, Value>>,
                                putMapping: Value -> Settled)
    returns (requests: seq<Value>)
    ensures |requests| <= |mappings|
    ensures forall i :: 0 <= i < |requests| ==> requests[i] == ConnectorMappingRequest(settings, mappings[i])
    ensures forall i :: 0 <= i < |requests| - 1 ==>
      !(putMapping(requests[i]).Rejected? && Nullish(putMapping(requests[i]).reason))
    ensures |requests| < |mappings| ==>
      |requests| > 0
      && putMapping(requests[|requests| - 1]).Rejected?
      && Nullish(putMapping(requests[|requests| - 1]).reason)
  {
    requests := [];
    var i := 0;
    while i < |mappings|
      invariant 0 <= i <= |mappings| && |requests| == i
      invariant forall j :: 0 <= j < i ==> requests[j] == ConnectorMappingRequest(settings, mappings[j])
      invariant forall j :: 0 <= j < i ==>
        !(putMapping(requests[j]).Rejected? && Nullish(putMapping(requests[j]).reason))
    {
      var request := ConnectorMappingRequest(settings, mappings[i]);
      requests := requests + [request];
      var reply := putMapping(request);
      if reply.Rejected? && Nullish(reply.reason) {
        return;
      }
      i := i + 1;
    }
  }
}
