/**
 * Authorization (ash/strategy.go and ash/policy.go).
 *
 * A strategy dispatches an operation to an ordered list of authorizer lists
 * and lets the first authorizer that returns an enforcer decide. A policy
 * is selected into the request context and then executed: a bitmask access
 * check keyed by operation, an action allow-list, an appended filter, a
 * resource level check and the intersection of the field lists.
 */
module Ash {
  import opened Common
  import Fire

  /** ErrAccessDenied's message. */
  const ErrAccessDenied: string := "access denied"

  /**
   * What one authorizer does on the current context: fail with an error,
   * abstain (no enforcer), or return an enforcer whose run yields the given
   * error or None.
   */
  datatype Decision = Fails(error: string) | Abstains | Enforces(result: Option<string>)

  /** The error an authorizer that does not abstain ends the scan with. */
  function Verdict(d: Decision): Option<string>
    requires !d.Abstains?
  {
    match d
    case Fails(e) => Some(e)
    case Enforces(result) => result
  }

  /** The authorizer lists of a strategy, each as its decisions on the current context. */
  datatype Strategy = Strategy(
    list: seq<Decision>,
    find: seq<Decision>,
    create: seq<Decision>,
    update: seq<Decision>,
    delete: seq<Decision>,
    collectionAction: map<string, seq<Decision>>,
    resourceAction: map<string, seq<Decision>>,
    collectionActions: seq<Decision>,
    resourceActions: seq<Decision>,
    read: seq<Decision>,
    write: seq<Decision>,
    actions: seq<Decision>,
    all: seq<Decision>)

  /** A Go map lookup: a missing action name yields the nil (empty) list. */
  function Named(m: map<string, seq<Decision>>, name: string): seq<Decision> {
    if name in m then m[name] else []
  }

  /**
   * The lists Strategy.Callback hands to call for an operation, in order;
   * None for an operation outside the switch (a panic in Go).
   */
  function Lists(s: Strategy, op: Fire.Operation, collectionAction: string, resourceAction: string): (r: Option<seq<seq<Decision>>>)
    ensures r.None? <==> op == Fire.Unset
    ensures (op == Fire.List || op == Fire.Find) ==> |r.value| == 3 && r.value[1..] == [s.read, s.all]
    ensures (op == Fire.Create || op == Fire.Update || op == Fire.Delete) ==> |r.value| == 3 && r.value[1..] == [s.write, s.all]
    ensures op == Fire.List ==> r.value[0] == s.list
    ensures op == Fire.Find ==> r.value[0] == s.find
    ensures op == Fire.Create ==> r.value[0] == s.create
    ensures op == Fire.Update ==> r.value[0] == s.update
    ensures op == Fire.Delete ==> r.value[0] == s.delete
    ensures op.Action() ==> |r.value| == 4 && r.value[2..] == [s.actions, s.all]
    ensures op == Fire.CollectionAction ==> r.value[..2] == [Named(s.collectionAction, collectionAction), s.collectionActions]
    ensures op == Fire.ResourceAction ==> r.value[..2] == [Named(s.resourceAction, resourceAction), s.resourceActions]
  {
    match op
    case List => Some([s.list, s.read, s.all])
    case Find => Some([s.find, s.read, s.all])
    case Create => Some([s.create, s.write, s.all])
    case Update => Some([s.update, s.write, s.all])
    case Delete => Some([s.delete, s.write, s.all])
    case CollectionAction => Some([Named(s.collectionAction, collectionAction), s.collectionActions, s.actions, s.all])
    case ResourceAction => Some([Named(s.resourceAction, resourceAction), s.resourceActions, s.actions, s.all])
    case Unset => None
  }

  /** The inner loop of call: the first decision in one list, if any. */
  function CallList(list: seq<Decision>): (r: Option<Option<string>>)
    ensures r.None? <==> forall i :: 0 <= i < |list| ==> list[i].Abstains?
  {
    if list == [] then None
    else if list[0].Abstains? then CallList(list[1..])
    else Some(Verdict(list[0]))
  }

  /** Strategy.call: lists in order, authorizers in order, first decision wins, denied when none decides. */
  function Call(lists: seq<seq<Decision>>): Option<string> {
    if lists == [] then Some(ErrAccessDenied)
    else match CallList(lists[0])
      case Some(result) => result
      case None => Call(lists[1..])
  }

  /** All authorizers of all lists, in the order call visits them. */
  function Flatten(lists: seq<seq<Decision>>): seq<Decision> {
    if lists == [] then [] else lists[0] + Flatten(lists[1..])
  }

  /** The scan visits every authorizer of every list, and nothing else. */
  lemma {:induction false} FlattenVisitsEveryAuthorizer(lists: seq<seq<Decision>>, d: Decision)
    ensures d in Flatten(lists) <==> exists i :: 0 <= i < |lists| && d in lists[i]
  {
    if lists != [] {
      FlattenVisitsEveryAuthorizer(lists[1..], d);
      if d in Flatten(lists[1..]) {
        var i :| 0 <= i < |lists[1..]| && d in lists[1..][i];
        assert d in lists[i + 1];
      }
      if exists i :: 0 <= i < |lists| && d in lists[i] {
        var i :| 0 <= i < |lists| && d in lists[i];
        if i > 0 {
          assert d in lists[1..][i - 1];
        }
      }
    }
  }

  /** Within one list, the first deciding authorizer's verdict is the list's. */
  lemma {:induction false} CallListFirstDecision(list: seq<Decision>, k: nat)
    requires k < |list| && !list[k].Abstains?
    requires forall j :: 0 <= j < k ==> list[j].Abstains?
    ensures CallList(list) == Some(Verdict(list[k]))
  {
    if k > 0 {
      CallListFirstDecision(list[1..], k - 1);
    }
  }

  /**
   * The first authorizer (across all lists) that does not abstain decides
   * the outcome of call: its error, or its enforcer's result; nothing after
   * it matters.
   */
  lemma {:induction false} CallFirstDecisionWins(lists: seq<seq<Decision>>, k: nat)
    requires k < |Flatten(lists)| && !Flatten(lists)[k].Abstains?
    requires forall j :: 0 <= j < k ==> Flatten(lists)[j].Abstains?
    ensures Call(lists) == Verdict(Flatten(lists)[k])
  {
    var flat := Flatten(lists);
    var head := lists[0];
    assert flat == head + Flatten(lists[1..]);
    if k < |head| {
      assert forall j :: 0 <= j < k ==> head[j] == flat[j];
      CallListFirstDecision(head, k);
    } else {
      assert forall j :: 0 <= j < |head| ==> head[j] == flat[j];
      assert CallList(head).None?;
      var rest := Flatten(lists[1..]);
      assert forall j :: 0 <= j < |rest| ==> rest[j] == flat[|head| + j];
      CallFirstDecisionWins(lists[1..], k - |head|);
    }
  }

  /** When every authorizer abstains, call denies access. */
  lemma {:induction false} CallDeniesWhenAllAbstain(lists: seq<seq<Decision>>)
    requires forall j :: 0 <= j < |Flatten(lists)| ==> Flatten(lists)[j].Abstains?
    ensures Call(lists) == Some(ErrAccessDenied)
  {
    if lists != [] {
      var flat := Flatten(lists);
      var head := lists[0];
      assert forall j :: 0 <= j < |head| ==> head[j] == flat[j];
      var rest := Flatten(lists[1..]);
      assert forall j :: 0 <= j < |rest| ==> rest[j] == flat[|head| + j];
      CallDeniesWhenAllAbstain(lists[1..]);
    }
  }

  /**
   * Access is only ever granted by an enforcer: when call returns no
   * error, some authorizer returned an enforcer whose run passed.
   */
  lemma {:induction false} CallGrantsOnlyThroughEnforcer(lists: seq<seq<Decision>>)
    requires Call(lists).None?
    ensures exists j :: 0 <= j < |Flatten(lists)| && Flatten(lists)[j] == Enforces(None)
  {
    var head := lists[0];
    var flat := Flatten(lists);
    assert flat == head + Flatten(lists[1..]);
    if CallList(head).Some? {
      var k := FirstDecision(head);
      CallListFirstDecision(head, k);
      assert flat[k] == head[k];
    } else {
      CallGrantsOnlyThroughEnforcer(lists[1..]);
      var rest := Flatten(lists[1..]);
      var j :| 0 <= j < |rest| && rest[j] == Enforces(None);
      assert flat[|head| + j] == rest[j];
    }
  }

  /** The position of the first authorizer in a list that does not abstain. */
  function FirstDecision(list: seq<Decision>): (k: nat)
    requires exists i :: 0 <= i < |list| && !list[i].Abstains?
    ensures k < |list| && !list[k].Abstains?
    ensures forall j :: 0 <= j < k ==> list[j].Abstains?
  {
    if !list[0].Abstains? then 0
    else
      assert exists i :: 0 <= i < |list[1..]| && !list[1..][i].Abstains? by {
        var i :| 0 <= i < |list| && !list[i].Abstains?;
        assert list[1..][i - 1] == list[i];
      }
      1 + FirstDecision(list[1..])
  }

  /** The outcome of the strategy's callback: an error or None, or a panic for an unknown operation. */
  datatype CallbackOutcome = Panics | Returns(error: Option<string>)

  /** Strategy.Callback: an unknown operation panics; every known one returns call's result over its lists. */
  function Authorize(s: Strategy, op: Fire.Operation, collectionAction: string, resourceAction: string): (r: CallbackOutcome)
    ensures r.Panics? <==> op == Fire.Unset
  {
    match Lists(s, op, collectionAction, resourceAction)
    case None => Panics
    case Some(lists) => Returns(Call(lists))
  }

  /** Every authorizer of the list abstains. */
  predicate AllAbstain(list: seq<Decision>) {
    forall i :: 0 <= i < |list| ==> list[i].Abstains?
  }

  /**
   * When the operation's own list abstains throughout, List and Find fall
   * back to the Read list and then All; Create, Update and Delete to Write
   * and then All.
   */
  lemma OwnListAbstainsFallsBack(s: Strategy, op: Fire.Operation, collectionAction: string, resourceAction: string)
    requires op != Fire.Unset && !op.Action()
    requires op == Fire.List ==> AllAbstain(s.list)
    requires op == Fire.Find ==> AllAbstain(s.find)
    requires op == Fire.Create ==> AllAbstain(s.create)
    requires op == Fire.Update ==> AllAbstain(s.update)
    requires op == Fire.Delete ==> AllAbstain(s.delete)
    ensures (op == Fire.List || op == Fire.Find) ==> Authorize(s, op, collectionAction, resourceAction) == Returns(Call([s.read, s.all]))
    ensures (op == Fire.Create || op == Fire.Update || op == Fire.Delete) ==>
      Authorize(s, op, collectionAction, resourceAction) == Returns(Call([s.write, s.all]))
  {
    var lists := Lists(s, op, collectionAction, resourceAction).value;
    assert CallList(lists[0]).None?;
    assert Call(lists) == Call(lists[1..]);
  }

  /**
   * A: push the authorizer's name on the tracer, run the handler (given
   * here by its decision) and pop the name again only when the handler did
   * not fail; the handler's decision is passed on unchanged.
   */
  method A<V>(ctx: Fire.Context<V>, name: string, handler: Decision) returns (d: Decision)
    modifies ctx
    ensures d == handler
    ensures ctx.tracer == if handler.Fails? then old(ctx.tracer) + [name] else old(ctx.tracer)
    ensures ctx.operation == old(ctx.operation) && ctx.data == old(ctx.data)
    ensures ctx.filters == old(ctx.filters) && ctx.deferred == old(ctx.deferred)
    ensures ctx.readableFields == old(ctx.readableFields) && ctx.writableFields == old(ctx.writableFields)
    ensures ctx.context == old(ctx.context) && ctx.store == old(ctx.store) && ctx.selector == old(ctx.selector)
    ensures ctx.collectionAction == old(ctx.collectionAction) && ctx.resourceAction == old(ctx.resourceAction)
  {
    // begin trace
    ctx.tracer := ctx.tracer + [name];
    if handler.Fails? {
      return handler;
    }
    // finish trace
    ctx.tracer := ctx.tracer[..|ctx.tracer| - 1];
    assert ctx.tracer == old(ctx.tracer);
    d := handler;
  }

  // ---------------------------------------------------------------------------
  // Policies

  const PolicyDataKey: string := "ash:policy"
  /** The data key of the authenticated identity (declared in identity.go, which is not part of this model). */
  const IdentityDataKey: string := "ash:identity"

  /** The access bits of ash.Access; a bitmask is modelled as the set of its bits. */
  datatype Right = List | Find | Create | Update | Delete
  type Access = set<Right>

  /** The field access table of a policy (AccessTable, declared outside the modelled files). */
  type AccessTable = map<string, Access>

  /**
   * A policy. Its callbacks are represented by what they return on the
   * current request: the filter GetFilter builds, the access CheckID grants
   * for an id, and whether CheckModel is set.
   */
  datatype Policy = Policy(
    access: Access,
    actions: map<string, bool>,
    getFilter: Option<Fire.Filter>,
    checkID: Option<string -> Access>,
    hasCheckModel: bool,
    fields: AccessTable)

  /** An identity: its dynamic Go type and its value. */
  datatype Identity = Identity(goType: string, id: string)

  /** A value stored in the context's data map. */
  datatype Value = IdentityValue(identity: Identity) | PolicyValue(policy: Policy)

  /** reflect.TypeOf of a stored value. */
  function TypeOf(v: Value): string {
    match v
    case IdentityValue(i) => i.goType
    case PolicyValue(_) => "*ash.Policy"
  }

  /** The errors of the policy callbacks. */
  datatype AuthError = AccessDenied | Failure(message: string)

  /** The outcome of Select: its result and the new data map. */
  function SelectSpec(data: Option<map<string, Value>>, selector: Value -> Option<Policy>): (r: (Result<(), AuthError>, Option<map<string, Value>>))
    ensures r.1 != data ==>
      && r.0 == Ok(()) && data.Some? && PolicyDataKey !in data.value
      && r.1.Some? && r.1.value.Keys == data.value.Keys + {PolicyDataKey}
      && (forall k :: k in data.value ==> r.1.value[k] == data.value[k])
  {
    if data.None? || IdentityDataKey !in data.value then (Err(AccessDenied), data)
    else
      var policy := selector(data.value[IdentityDataKey]);
      if policy.None? then (Ok(()), data)
      else if PolicyDataKey in data.value then (Err(Failure("existing policy")), data)
      else (Ok(()), Some(data.value[PolicyDataKey := PolicyValue(policy.value)]))
  }

  /** Select: store the policy the selector picks for the identity. */
  method Select(ctx: Fire.Context<Value>, selector: Value -> Option<Policy>) returns (r: Result<(), AuthError>)
    modifies ctx
    ensures (r, ctx.data) == SelectSpec(old(ctx.data), selector)
    ensures ctx.operation == old(ctx.operation) && ctx.filters == old(ctx.filters)
    ensures ctx.tracer == old(ctx.tracer) && ctx.deferred == old(ctx.deferred)
    ensures ctx.readableFields == old(ctx.readableFields) && ctx.writableFields == old(ctx.writableFields)
    ensures ctx.context == old(ctx.context) && ctx.store == old(ctx.store) && ctx.selector == old(ctx.selector)
    ensures ctx.collectionAction == old(ctx.collectionAction) && ctx.resourceAction == old(ctx.resourceAction)
  {
    // get identity
    if ctx.data.None? || IdentityDataKey !in ctx.data.value {
      return Err(AccessDenied);
    }
    var identity := ctx.data.value[IdentityDataKey];

    // run selector
    var policy := selector(identity);
    if policy.None? {
      return Ok(());
    }

    // check stored
    if PolicyDataKey in ctx.data.value {
      return Err(Failure("existing policy"));
    }

    // store policy
    ctx.data := Some(ctx.data.value[PolicyDataKey := PolicyValue(policy.value)]);
    r := Ok(());
  }

  /** The policy Execute finds in the data map: only a stored policy value counts. */
  function PolicyOf(data: Option<map<string, Value>>): Option<Policy> {
    if data.Some? && PolicyDataKey in data.value && data.value[PolicyDataKey].PolicyValue?
    then Some(data.value[PolicyDataKey].policy)
    else None
  }

  /**
   * Select followed by Execute: Select denies without an identity, leaves
   * the data untouched when it selects nothing or when a policy is already
   * stored, and otherwise makes the selected policy the one Execute reads.
   */
  lemma SelectedPolicyIsExecuted(data: Option<map<string, Value>>, selector: Value -> Option<Policy>)
    ensures data.None? || IdentityDataKey !in data.value ==> SelectSpec(data, selector) == (Err(AccessDenied), data)
    ensures data.Some? && IdentityDataKey in data.value ==>
      var picked := selector(data.value[IdentityDataKey]);
      var (r, data') := SelectSpec(data, selector);
      && (picked.None? ==> r == Ok(()) && data' == data)
      && (picked.Some? && PolicyDataKey in data.value ==> r == Err(Failure("existing policy")) && data' == data)
      && (picked.Some? && PolicyDataKey !in data.value ==>
            r == Ok(()) && data' == Some(data.value[PolicyDataKey := PolicyValue(picked.value)])
            && PolicyOf(data') == picked)
    ensures data.Some? && PolicyDataKey in data.value ==> PolicyOf(SelectSpec(data, selector).1) == PolicyOf(data)
  {
  }

  /** SelectMatch: the selector that only yields a policy for identities of the template's type. */
  function SelectMatch(template: Value, factory: Value -> Option<Policy>): Value -> Option<Policy> {
    (v: Value) => if TypeOf(v) != TypeOf(template) then None else factory(v)
  }

  /** A matched selector yields a policy only for the template's type, and then the factory's. */
  lemma SelectMatchOnlyMatchingType(template: Value, factory: Value -> Option<Policy>, v: Value)
    ensures SelectMatch(template, factory)(v).Some? ==> TypeOf(v) == TypeOf(template)
    ensures TypeOf(v) == TypeOf(template) ==> SelectMatch(template, factory)(v) == factory(v)
  {
  }

  /** The access an operation requires (genericAccess); operations not in the table require none. */
  function GenericAccess(op: Fire.Operation): Access {
    match op
    case List => {List}
    case Find => {Find}
    case Create => {Create}
    case Update => {Update}
    case Delete => {Delete}
    case ResourceAction => {Find}
    case _ => {}
  }

  /** The field access used to collect readable fields (readAccess). */
  function ReadAccess(op: Fire.Operation): Access {
    match op
    case List => {List}
    case Find => {Find}
    case Create => {Find}
    case Update => {Find}
    case _ => {}
  }

  /** The field access used to collect writable fields (writeAccess). */
  function WriteAccess(op: Fire.Operation): Access {
    match op
    case Create => {Create}
    case Update => {Update}
    case _ => {}
  }

  predicate FilterMatcher(op: Fire.Operation) {
    Fire.Except({Fire.Create, Fire.CollectionAction}, op)
  }

  predicate IdMatcher(op: Fire.Operation) {
    Fire.Except({Fire.List, Fire.Create, Fire.CollectionAction}, op)
  }

  predicate ModelMatcher(op: Fire.Operation) {
    Fire.Only({Fire.Create, Fire.Update, Fire.Delete}, op)
  }

  /** The action an action operation names. */
  function ActionName(op: Fire.Operation, collectionAction: string, resourceAction: string): string {
    if op == Fire.ResourceAction then resourceAction else collectionAction
  }

  predicate ActionAllowed(p: Policy, action: string) {
    action in p.actions && p.actions[action]
  }

  /** The policy passes the general access check for the operation. */
  predicate GrantsAccess(p: Option<Policy>, op: Fire.Operation) {
    p.Some? && !(p.value.access !! GenericAccess(op))
  }

  /**
   * The verdict of Execute: denied without a policy, without the general
   * access, for an action not allowed, or when CheckID grants none of the
   * required access for the selected id. A selector without an "_id" fails
   * the type assertion (a panic in Go).
   */
  function ExecuteVerdict(p: Option<Policy>, op: Fire.Operation, collectionAction: string, resourceAction: string,
                          selector: Option<map<string, string>>): Result<(), AuthError>
  {
    if !GrantsAccess(p, op) then Err(AccessDenied)
    else if op.Action() && !ActionAllowed(p.value, ActionName(op, collectionAction, resourceAction)) then Err(AccessDenied)
    else if IdMatcher(op) && p.value.checkID.Some? then
      if selector.None? || "_id" !in selector.value then Err(Failure("interface conversion: missing _id"))
      else if p.value.checkID.value(selector.value["_id"]) !! GenericAccess(op) then Err(AccessDenied)
      else Ok(())
    else Ok(())
  }

  /**
   * Execute's guarantees: it only lets an operation through when the policy
   * shares a bit with the operation's required access, allows the named
   * action, and CheckID (when set) grants the required access too.
   */
  lemma ExecuteAllowsOnlyGrantedAccess(p: Option<Policy>, op: Fire.Operation, collectionAction: string, resourceAction: string,
                                       selector: Option<map<string, string>>)
    requires ExecuteVerdict(p, op, collectionAction, resourceAction, selector).Ok?
    ensures p.Some? && p.value.access * GenericAccess(op) != {}
    ensures op.Action() ==> ActionAllowed(p.value, ActionName(op, collectionAction, resourceAction))
    ensures IdMatcher(op) && p.value.checkID.Some? ==>
      selector.Some? && "_id" in selector.value && p.value.checkID.value(selector.value["_id"]) * GenericAccess(op) != {}
  {
    assert p.value.access * GenericAccess(op) != {} by {
      var b :| b in p.value.access && b in GenericAccess(op);
      assert b in p.value.access * GenericAccess(op);
    }
    if IdMatcher(op) && p.value.checkID.Some? {
      var granted := p.value.checkID.value(selector.value["_id"]);
      var b :| b in granted && b in GenericAccess(op);
      assert b in granted * GenericAccess(op);
    }
  }

  /**
   * The converse: a policy that grants the general access, allows the named
   * action and, where CheckID applies, grants the required access for the
   * selected id lets the operation through.
   */
  lemma ExecuteAllowsWhenChecksPass(p: Option<Policy>, op: Fire.Operation, collectionAction: string, resourceAction: string,
                                    selector: Option<map<string, string>>)
    requires GrantsAccess(p, op)
    requires op.Action() ==> ActionAllowed(p.value, ActionName(op, collectionAction, resourceAction))
    requires IdMatcher(op) && p.value.checkID.Some? ==>
      selector.Some? && "_id" in selector.value && !(p.value.checkID.value(selector.value["_id"]) !! GenericAccess(op))
    ensures ExecuteVerdict(p, op, collectionAction, resourceAction, selector) == Ok(())
  {
  }

  /** Collection actions require no access bit, so Execute denies them under every policy. */
  lemma CollectionActionAlwaysDenied(p: Option<Policy>, collectionAction: string, resourceAction: string,
                                     selector: Option<map<string, string>>)
    ensures ExecuteVerdict(p, Fire.CollectionAction, collectionAction, resourceAction, selector) == Err(AccessDenied)
  {
  }

  /** Without a stored policy Execute denies every operation. */
  lemma NoPolicyDenies(op: Fire.Operation, collectionAction: string, resourceAction: string, selector: Option<map<string, string>>)
    ensures ExecuteVerdict(None, op, collectionAction, resourceAction, selector) == Err(AccessDenied)
  {
  }

  /** The name of the validator Execute defers to run CheckModel. */
  const ExecuteDeferName: string := "ash/Execute-Defer"

  /** The deferred validator: denies when CheckModel's access misses the required access. */
  function CheckModelVerdict(modelAccess: Access, op: Fire.Operation): (r: Result<(), AuthError>)
    ensures r.Ok? <==> exists b :: b in modelAccess && b in GenericAccess(op)
  {
    if modelAccess !! GenericAccess(op) then Err(AccessDenied) else Ok(())
  }

  /**
   * Execute. `collect` is AccessTable.Collect and `intersect` is
   * stick.Intersect, neither of which is part of this model.
   */
  method Execute(ctx: Fire.Context<Value>, collect: (AccessTable, Access) -> seq<string>,
                 intersect: (seq<string>, seq<string>) -> seq<string>) returns (r: Result<(), AuthError>)
    modifies ctx
    ensures var p := PolicyOf(old(ctx.data));
      && r == ExecuteVerdict(p, old(ctx.operation), old(ctx.collectionAction), old(ctx.resourceAction), old(ctx.selector))
      && ctx.filters == (if GrantsAccess(p, old(ctx.operation)) && FilterMatcher(old(ctx.operation)) && p.value.getFilter.Some?
                         then Some((if old(ctx.filters).Some? then old(ctx.filters).value else []) + [p.value.getFilter.value])
                         else old(ctx.filters))
      && ctx.deferred == (if r.Ok? && ModelMatcher(old(ctx.operation)) && p.value.hasCheckModel
                          then old(ctx.deferred) + [ExecuteDeferName] else old(ctx.deferred))
      && ctx.readableFields == (if r.Ok? then intersect(old(ctx.readableFields), collect(p.value.fields, ReadAccess(old(ctx.operation))))
                                else old(ctx.readableFields))
      && ctx.writableFields == (if r.Ok? then intersect(old(ctx.writableFields), collect(p.value.fields, WriteAccess(old(ctx.operation))))
                                else old(ctx.writableFields))
    ensures ctx.operation == old(ctx.operation) && ctx.data == old(ctx.data) && ctx.selector == old(ctx.selector)
    ensures ctx.tracer == old(ctx.tracer) && ctx.context == old(ctx.context) && ctx.store == old(ctx.store)
    ensures ctx.collectionAction == old(ctx.collectionAction) && ctx.resourceAction == old(ctx.resourceAction)
  {
    // get policy
    var policy := PolicyOf(ctx.data);
    if policy.None? {
      return Err(AccessDenied);
    }
    var p := policy.value;

    // check access
    if p.access !! GenericAccess(ctx.operation) {
      return Err(AccessDenied);
    }

    // apply filter if available
    AddFilter(ctx, p);

    // verify action access
    if ctx.operation.Action() {
      var action := ctx.collectionAction;
      if ctx.operation == Fire.ResourceAction {
        action := ctx.resourceAction;
      }
      if !ActionAllowed(p, action) {
        return Err(AccessDenied);
      }
    }

    // check id if available
    if IdMatcher(ctx.operation) && p.checkID.Some? {
      if ctx.selector.None? || "_id" !in ctx.selector.value {
        return Err(Failure("interface conversion: missing _id"));
      }
      var access := p.checkID.value(ctx.selector.value["_id"]);
      if access !! GenericAccess(ctx.operation) {
        return Err(AccessDenied);
      }
    }

    Grant(ctx, p, collect, intersect);
    r := Ok(());
  }

  /** The filter step of Execute: append the policy's filter on the operations that take filters. */
  method AddFilter(ctx: Fire.Context<Value>, p: Policy)
    modifies ctx
    ensures ctx.filters == (if FilterMatcher(ctx.operation) && p.getFilter.Some?
                            then Some((if old(ctx.filters).Some? then old(ctx.filters).value else []) + [p.getFilter.value])
                            else old(ctx.filters))
    ensures ctx.operation == old(ctx.operation) && ctx.data == old(ctx.data) && ctx.selector == old(ctx.selector)
    ensures ctx.collectionAction == old(ctx.collectionAction) && ctx.resourceAction == old(ctx.resourceAction)
    ensures ctx.deferred == old(ctx.deferred) && ctx.tracer == old(ctx.tracer)
    ensures ctx.readableFields == old(ctx.readableFields) && ctx.writableFields == old(ctx.writableFields)
    ensures ctx.context == old(ctx.context) && ctx.store == old(ctx.store)
  {
    if FilterMatcher(ctx.operation) && p.getFilter.Some? {
      var current := if ctx.filters.Some? then ctx.filters.value else [];
      ctx.filters := Some(current + [p.getFilter.value]);
    }
  }

  /**
   * The last steps of an authorized Execute: defer the model check on the
   * operations that have a model, and intersect the readable and writable
   * fields with those the policy grants.
   */
  method Grant(ctx: Fire.Context<Value>, p: Policy, collect: (AccessTable, Access) -> seq<string>,
               intersect: (seq<string>, seq<string>) -> seq<string>)
    modifies ctx
    ensures ctx.deferred == (if ModelMatcher(ctx.operation) && p.hasCheckModel
                             then old(ctx.deferred) + [ExecuteDeferName] else old(ctx.deferred))
    ensures ctx.readableFields == intersect(old(ctx.readableFields), collect(p.fields, ReadAccess(ctx.operation)))
    ensures ctx.writableFields == intersect(old(ctx.writableFields), collect(p.fields, WriteAccess(ctx.operation)))
    ensures ctx.operation == old(ctx.operation) && ctx.data == old(ctx.data) && ctx.selector == old(ctx.selector)
    ensures ctx.filters == old(ctx.filters) && ctx.tracer == old(ctx.tracer)
    ensures ctx.context == old(ctx.context) && ctx.store == old(ctx.store)
    ensures ctx.collectionAction == old(ctx.collectionAction) && ctx.resourceAction == old(ctx.resourceAction)
  {
    // verify model if available
    if ModelMatcher(ctx.operation) && p.hasCheckModel {
      ctx.deferred := ctx.deferred + [ExecuteDeferName];
    }

    // collect fields and set intersections
    var readable := collect(p.fields, ReadAccess(ctx.operation));
    var writable := collect(p.fields, WriteAccess(ctx.operation));
    ctx.readableFields := intersect(ctx.readableFields, readable);
    ctx.writableFields := intersect(ctx.writableFields, writable);
  }
}
