/** Setting up every declared mapping: one `setupMapping` per declaration,
    in declaration order, one at a time, stopping at the first rejection. */
module MappingsSetup {
  import opened JsValue
  import opened MappingSetup

  /** `_.pluck(mappings, 'name')` */
  function DeclaredNames(declarations: seq<Declaration>): (names: seq<Value>)
    ensures |names| == |declarations|
    ensures forall i :: 0 <= i < |declarations| ==> names[i] == Get(declarations[i], "name")
  {
    seq(|declarations|, i requires 0 <= i < |declarations| => Get(declarations[i], "name"))
  }

  /** The step `setupMappings` runs for one name: `setupMapping` over the
      same declarations and collaborators. */
  function SetupStep(declarations: seq<Declaration>, c: Collaborators): Value -> Settled {
    modelName => SetupOutcome(modelName, declarations, c)
  }

  /** The sequential fold: the first rejection among the steps, or success
      when there is none. */
  function RunInOrder(names: seq<Value>, step: Value -> Settled): Settled
    decreases |names|
  {
    if names == [] then Fulfilled(Undefined)
    else match step(names[0])
      case Rejected(e) => Rejected(e)
      case Fulfilled(_) => RunInOrder(names[1..], step)
  }

  /** One step of the fold, from position i. */
  lemma RunInOrderFrom(names: seq<Value>, i: nat, step: Value -> Settled)
    requires i < |names|
    ensures RunInOrder(names[i..], step) ==
      if step(names[i]).Rejected? then step(names[i]) else RunInOrder(names[i + 1..], step)
  {
    assert names[i..][0] == names[i];
    assert names[i..][1..] == names[i + 1..];
  }

  /** The fold succeeds exactly when every step does, and then with no
      value. */
  lemma {:induction false} RunInOrderSucceedsIffAllSteps(names: seq<Value>, step: Value -> Settled)
    ensures RunInOrder(names, step).Fulfilled? <==>
      forall i :: 0 <= i < |names| ==> step(names[i]).Fulfilled?
    ensures RunInOrder(names, step).Fulfilled? ==> RunInOrder(names, step) == Fulfilled(Undefined)
  {
    if names != [] {
      RunInOrderSucceedsIffAllSteps(names[1..], step);
      assert forall i :: 1 <= i < |names| ==> names[i] == names[1..][i - 1];
    }
  }

  /** A rejection of the fold is the rejection of one step, all of whose
      predecessors succeeded. */
  lemma {:induction false} RunInOrderRejectsWithFirstFailure(names: seq<Value>, step: Value -> Settled)
    requires RunInOrder(names, step).Rejected?
    ensures exists k :: (0 <= k < |names|
      && step(names[k]) == RunInOrder(names, step)
      && forall j :: 0 <= j < k ==> step(names[j]).Fulfilled?)
  {
    if step(names[0]).Fulfilled? {
      RunInOrderRejectsWithFirstFailure(names[1..], step);
      var k :| 0 <= k < |names[1..]|
        && step(names[1..][k]) == RunInOrder(names[1..], step)
        && forall j :: 0 <= j < k ==> step(names[1..][j]).Fulfilled?;
      assert forall j :: 1 <= j < k + 1 ==> names[j] == names[1..][j - 1];
      assert step(names[k + 1]) == RunInOrder(names, step);
    } else {
      assert step(names[0]) == RunInOrder(names, step);
    }
  }

  /** Two declarations sharing a name make the whole setup fail. */
  lemma SharedNameFailsSetup(declarations: seq<Declaration>, c: Collaborators, i: nat, j: nat)
    requires i < j < |declarations|
    requires Get(declarations[i], "name") == Get(declarations[j], "name")
    ensures RunInOrder(DeclaredNames(declarations), SetupStep(declarations, c)).Rejected?
  {
    PlanForSharedName(declarations, i, j);
    RunInOrderSucceedsIffAllSteps(DeclaredNames(declarations), SetupStep(declarations, c));
    assert !SetupStep(declarations, c)(DeclaredNames(declarations)[i]).Fulfilled?;
  }

  /** A declaration without a (truthy) name makes the whole setup fail. */
  lemma UnnamedDeclarationFailsSetup(declarations: seq<Declaration>, c: Collaborators, i: nat)
    requires i < |declarations|
    requires !Truthy(Get(declarations[i], "name"))
    ensures RunInOrder(DeclaredNames(declarations), SetupStep(declarations, c)).Rejected?
  {
    RunInOrderSucceedsIffAllSteps(DeclaredNames(declarations), SetupStep(declarations, c));
    assert !SetupStep(declarations, c)(DeclaredNames(declarations)[i]).Fulfilled?;
  }

  /** With truthy, distinct names, step i puts declaration i. */
  lemma DistinctNamesPutEachDeclaration(declarations: seq<Declaration>, i: nat)
    requires i < |declarations|
    requires forall k :: 0 <= k < |declarations| ==> Truthy(Get(declarations[k], "name"))
    requires forall k, l :: 0 <= k < l < |declarations| ==>
      Get(declarations[k], "name") != Get(declarations[l], "name")
    ensures SetupPlan(DeclaredNames(declarations)[i], declarations) == Put(declarations[i])
  {
    PlanForUniqueDeclaration(declarations, i);
  }

  /** `setupMappings()`: one step per declared name, in order; a step starts
      only once the previous one has succeeded. `setupMapping` is the step
      (`SetupStep` in the lemmas above); `attempted` logs the names whose
      step was started. */
  method SetupMappings(declarations: seq<Declaration>, setupMapping: Value -> Settled)
    returns (outcome: Settled, ghost attempted: seq<Value>)
    ensures outcome == RunInOrder(DeclaredNames(declarations), setupMapping)
    ensures attempted <= DeclaredNames(declarations)
    ensures forall i :: 0 <= i < |attempted| - 1 ==> setupMapping(attempted[i]).Fulfilled?
    ensures outcome.Rejected? ==>
      attempted != [] && setupMapping(attempted[|attempted| - 1]) == outcome
    ensures outcome.Fulfilled? ==> attempted == DeclaredNames(declarations) && outcome == Fulfilled(Undefined)
  {
    var names := DeclaredNames(declarations);
    attempted := [];
    var i := 0;
    while i < |names|
      invariant 0 <= i <= |names|
      invariant attempted == names[..i]
      invariant forall j :: 0 <= j < |attempted| ==> setupMapping(attempted[j]).Fulfilled?
      invariant RunInOrder(names, setupMapping) == RunInOrder(names[i..], setupMapping)
    {
      var stepOutcome := setupMapping(names[i]);
      RunInOrderFrom(names, i, setupMapping);
      ghost var before := attempted;
      attempted := attempted + [names[i]];
      if stepOutcome.Rejected? {
        assert forall j :: 0 <= j < |attempted| - 1 ==> attempted[j] == before[j];
        return stepOutcome, attempted;
      }
      i := i + 1;
    }
    assert attempted == names;
    outcome := Fulfilled(Undefined);
  }
}
