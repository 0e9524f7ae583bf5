/** Setting up the mapping of one model: find its declaration among the
    datasource's `mappings`, decide between rejecting, skipping and putting,
    and for a put, ensure the index exists before issuing the put-mapping
    request built from the declaration. */
module MappingSetup {
  import opened JsValue

  type Declaration = map<string, Value>

  /** What `setupMapping` depends on but does not define: the connector's
      `addDefaults` (index/type routing for a model name), `setupIndex`
      (create the index if absent) and the client's `indices.putMapping`. */
  datatype Collaborators = Collaborators(
    addDefaults: Value -> map<string, Value>,
    setupIndex: Value -> Settled,
    putMapping: Value -> Settled)

  /** The decision `setupMapping` takes before any call. */
  datatype Plan = Reject(reason: string) | Skip | Put(declaration: Declaration)

  /** A call issued to a collaborator, in the order issued. */
  datatype MappingCall = EnsureIndex(index: Value) | PutMapping(request: Value)

  const MissingModelName := "missing modelName"

  /** `Promise.reject` takes one argument, so the model name passed after
      this text never reaches the rejection. */
  const MoreThanOneMapping := "more than one mapping for modelName:"

  /** The keys that describe where a mapping goes rather than what it is. */
  const RoutingKeys: set<string> := {"name", "index", "type"}

  /** The declarations whose `name` is `modelName`, in declaration order. */
  function Matching(declarations: seq<Declaration>, modelName: Value): (matches: seq<Declaration>)
    ensures forall d :: d in matches <==> d in declarations && Get(d, "name") == modelName
    ensures |matches| <= |declarations|
    ensures (forall d :: d in declarations ==> Get(d, "name") != modelName) ==> matches == []
  {
    if declarations == [] then []
    else
      (if Get(declarations[0], "name") == modelName then [declarations[0]] else [])
      + Matching(declarations[1..], modelName)
  }

  /** Two declarations with the same name both match it. */
  lemma {:induction false} TwoDeclarationsMatchTwice(declarations: seq<Declaration>, i: nat, j: nat)
    requires i < j < |declarations|
    requires Get(declarations[i], "name") == Get(declarations[j], "name")
    ensures |Matching(declarations, Get(declarations[i], "name"))| >= 2
  {
    var name := Get(declarations[i], "name");
    if i == 0 {
      assert declarations[j] in declarations[1..];
      assert |Matching(declarations[1..], name)| >= 1;
    } else {
      TwoDeclarationsMatchTwice(declarations[1..], i - 1, j - 1);
    }
  }

  /** A name carried by exactly one declaration matches just that one. */
  lemma {:induction false} UniqueDeclarationMatchesOnce(declarations: seq<Declaration>, i: nat)
    requires i < |declarations|
    requires forall j :: 0 <= j < |declarations| && j != i ==>
      Get(declarations[j], "name") != Get(declarations[i], "name")
    ensures Matching(declarations, Get(declarations[i], "name")) == [declarations[i]]
  {
    var name := Get(declarations[i], "name");
    if i == 0 {
      var rest := declarations[1..];
      forall d | d in rest ensures Get(d, "name") != name {
        var k :| 0 <= k < |rest| && rest[k] == d;
        assert declarations[k + 1] == d;
      }
      assert Matching(declarations, name) == [declarations[0]] + Matching(rest, name);
    } else {
      UniqueDeclarationMatchesOnce(declarations[1..], i - 1);
      assert Get(declarations[0], "name") != name;
    }
  }

  /** The decision, from the model name and the lookup alone. */
  function SetupPlan(modelName: Value, declarations: seq<Declaration>): Plan
  {
    if !Truthy(modelName) then Reject(MissingModelName)
    else
      var matches := Matching(declarations, modelName);
      if |matches| == 0 then Skip
      else if |matches| > 1 then Reject(MoreThanOneMapping)
      else Put(matches[0])
  }

  /** A falsy name is rejected; otherwise the plan skips exactly when no
      declaration carries the name, puts only a declaration that carries it,
      and rejects only for more than one. */
  lemma SetupPlanDecides(modelName: Value, declarations: seq<Declaration>)
    ensures !Truthy(modelName) ==> SetupPlan(modelName, declarations) == Reject(MissingModelName)
    ensures Truthy(modelName) ==>
      (SetupPlan(modelName, declarations) == Skip <==> forall d :: d in declarations ==> Get(d, "name") != modelName)
    ensures SetupPlan(modelName, declarations).Put? ==>
      SetupPlan(modelName, declarations).declaration in declarations && Get(SetupPlan(modelName, declarations).declaration, "name") == modelName
    ensures SetupPlan(modelName, declarations).Reject? && Truthy(modelName) ==> SetupPlan(modelName, declarations).reason == MoreThanOneMapping
  {
    if Truthy(modelName) {
      var matches := Matching(declarations, modelName);
      if |matches| > 0 {
        assert matches[0] in matches;
      }
    }
  }

  /** Each declaration whose name is truthy and shared with no other is put. */
  lemma PlanForUniqueDeclaration(declarations: seq<Declaration>, i: nat)
    requires i < |declarations|
    requires Truthy(Get(declarations[i], "name"))
    requires forall j :: 0 <= j < |declarations| && j != i ==>
      Get(declarations[j], "name") != Get(declarations[i], "name")
    ensures SetupPlan(Get(declarations[i], "name"), declarations) == Put(declarations[i])
  {
    UniqueDeclarationMatchesOnce(declarations, i);
  }

  /** A name shared by two declarations is rejected. */
  lemma PlanForSharedName(declarations: seq<Declaration>, i: nat, j: nat)
    requires i < j < |declarations|
    requires Get(declarations[i], "name") == Get(declarations[j], "name")
    ensures SetupPlan(Get(declarations[i], "name"), declarations).Reject?
  {
    if Truthy(Get(declarations[i], "name")) {
      TwoDeclarationsMatchTwice(declarations, i, j);
    }
  }

  /** The mapping body: the declaration without its routing keys. */
  function CleanMapping(declaration: Declaration): (mapping: Declaration)
    ensures mapping.Keys == declaration.Keys - RoutingKeys
    ensures forall k :: k in mapping ==> mapping[k] == declaration[k]
  {
    declaration - RoutingKeys
  }

  /** Putting the routing keys back restores the declaration. */
  lemma CleanMappingRestores(declaration: Declaration)
    ensures CleanMapping(declaration)
      + (map k | k in declaration && k in RoutingKeys :: declaration[k]) == declaration
  {
  }

  /** lodash's `_.defaults(target, source)`: every key of `source` that
      `target` lacks or holds as undefined takes `source`'s value; every
      other key of `target` keeps its value. */
  function Defaults(target: map<string, Value>, source: map<string, Value>): (r: map<string, Value>)
    ensures r.Keys == target.Keys + source.Keys
    ensures forall k :: k in target && target[k] != Undefined ==> r[k] == target[k]
    ensures forall k :: k in source && (k !in target || target[k] == Undefined) ==> r[k] == source[k]
    ensures forall k :: k in target && k !in source ==> r[k] == target[k]
  {
    target + map k | k in source && (k !in target || target[k] == Undefined) :: source[k]
  }

  /** The put-mapping request: `{body: mapping}` completed by the routing
      defaults, whose own `body`, if any, is ignored. */
  function PutMappingRequest(declaration: Declaration, defaults: map<string, Value>): (request: Value)
    ensures request.Obj?
    ensures request.fields.Keys == defaults.Keys + {"body"}
    ensures request.fields["body"] == Obj(CleanMapping(declaration))
    ensures forall k :: k in defaults && k != "body" ==> request.fields[k] == defaults[k]
  {
    Obj(Defaults(map["body" := Obj(CleanMapping(declaration))], defaults))
  }

  /** The outcome of setting up one model's mapping. */
  function SetupOutcome(modelName: Value, declarations: seq<Declaration>, c: Collaborators): Settled
  {
    match SetupPlan(modelName, declarations)
    case Reject(reason) => Rejected(Str(reason))
    case Skip => Fulfilled(Undefined)
    case Put(d) =>
      var defaults := c.addDefaults(Get(d, "name"));
      match c.setupIndex(Get(defaults, "index"))
      case Rejected(e) => Rejected(e)
      case Fulfilled(_) =>
        match c.putMapping(PutMappingRequest(d, defaults))
        case Rejected(e) => Rejected(e)
        case Fulfilled(_) => Fulfilled(Undefined)
  }

  /** Reject and skip settle without a call; for a put, a failure to ensure
      the index is the outcome, a put-mapping failure is propagated with the
      same error, and otherwise the setup succeeds with no value. */
  lemma SetupOutcomeFollowsPlan(modelName: Value, declarations: seq<Declaration>, c: Collaborators)
    ensures SetupPlan(modelName, declarations).Reject? ==>
      SetupOutcome(modelName, declarations, c) == Rejected(Str(SetupPlan(modelName, declarations).reason))
    ensures SetupPlan(modelName, declarations).Skip? ==> SetupOutcome(modelName, declarations, c) == Fulfilled(Undefined)
    ensures SetupPlan(modelName, declarations).Put? ==>
      var d := SetupPlan(modelName, declarations).declaration;
      var defaults := c.addDefaults(Get(d, "name"));
      && (c.setupIndex(Get(defaults, "index")).Rejected? ==> SetupOutcome(modelName, declarations, c) == c.setupIndex(Get(defaults, "index")))
      && (c.setupIndex(Get(defaults, "index")).Fulfilled? ==>
            var put := c.putMapping(PutMappingRequest(d, defaults));
            SetupOutcome(modelName, declarations, c) == if put.Rejected? then put else Fulfilled(Undefined))
  {
  }

  /** `setupMapping(modelName)`: decide, clean a copy of the declaration up,
      then ensure the index and put the mapping, in that order. `calls`
      lists what was issued to the collaborators. */
  method SetupMapping(modelName: Value, declarations: seq<Declaration>, c: Collaborators)
    returns (outcome: Settled, calls: seq<MappingCall>)
    ensures outcome == SetupOutcome(modelName, declarations, c)
    ensures !SetupPlan(modelName, declarations).Put? ==> calls == []
    ensures SetupPlan(modelName, declarations).Put? ==>
      var d := SetupPlan(modelName, declarations).declaration;
      var defaults := c.addDefaults(Get(d, "name"));
      && 1 <= |calls| <= 2
      && calls[0] == EnsureIndex(Get(defaults, "index"))
      && (|calls| == 2 <==> c.setupIndex(Get(defaults, "index")).Fulfilled?)
      && (|calls| == 2 ==> calls[1] == PutMapping(PutMappingRequest(d, defaults)))
  {
    calls := [];
    if !Truthy(modelName) {
      return Rejected(Str(MissingModelName)), calls;
    }
    var matches := Matching(declarations, modelName);
    if |matches| == 0 {
      return Fulfilled(Undefined), calls;
    } else if |matches| > 1 {
      return Rejected(Str(MoreThanOneMapping)), calls;
    }
    var declaration := matches[0];
    var defaults := c.addDefaults(Get(declaration, "name"));
    // the declaration is a value: the clean-up works on a copy of it
    var mapping := declaration;
    mapping := mapping - {"name"};
    mapping := mapping - {"index"};
    mapping := mapping - {"type"};
    assert mapping == CleanMapping(declaration);
    calls := calls + [EnsureIndex(Get(defaults, "index"))];
    var indexReply := c.setupIndex(Get(defaults, "index"));
    if indexReply.Rejected? {
      return indexReply, calls;
    }
    var request := Obj(Defaults(map["body" := Obj(mapping)], defaults));
    calls := calls + [PutMapping(request)];
    var putReply := c.putMapping(request);
    if putReply.Rejected? {
      return Rejected(putReply.reason), calls;
    }
    outcome := Fulfilled(Undefined);
  }
}
