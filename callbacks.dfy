/**
 * Callbacks and the stock validators (callbacks.go).
 *
 * A callback inspects the request context and returns an error or nothing.
 * The validators run only for the actions they guard and check protected
 * attributes or references against the documents in the store. Go maps
 * handed to a validator are given as sequences of pairs in the order the
 * map is iterated.
 */
module Callbacks {
  import opened Common
  import Fire

  /** An error: a plain message, or an error wrapped by Fatal. */
  datatype Error = Error(message: string) | FatalError(inner: Error)

  /** Error(): a fatal error reports the message of the error it wraps. */
  function Message(e: Error): string {
    match e
    case Error(message) => message
    case FatalError(inner) => Message(inner)
  }

  /** isFatal: whether the error was wrapped by Fatal. */
  predicate IsFatal(e: Error) {
    e.FatalError?
  }

  /** Fatal: mark an error as fatal, keeping its message. */
  function Fatal(e: Error): (r: Error)
    ensures IsFatal(r) && Message(r) == Message(e)
  {
    FatalError(e)
  }

  /** An error not produced by Fatal is not fatal. */
  lemma PlainErrorsAreNotFatal(message: string)
    ensures !IsFatal(Error(message)) && Message(Error(message)) == message
  {
  }

  /**
   * Combine: run the callbacks (given by their results) in order and stop
   * at the first error. Returns that error, or None, and how many callbacks
   * ran.
   */
  function Combine(results: seq<Option<Error>>): (r: (Option<Error>, nat))
    ensures r.1 <= |results|
    ensures r.0.None? <==> forall i :: 0 <= i < |results| ==> results[i].None?
    ensures r.0.None? ==> r.1 == |results|
    ensures r.0.Some? ==> 0 < r.1 && r.0 == results[r.1 - 1]
    ensures forall i :: 0 <= i < r.1 - 1 ==> results[i].None?
  {
    if results == [] then (None, 0)
    else if results[0].Some? then (results[0], 1)
    else
      var rest := Combine(results[1..]);
      (rest.0, rest.1 + 1)
  }

  /** A field value of a model or document; NilRef is a nil *bson.ObjectId. */
  datatype Value = NilRef | Ref(id: nat) | Refs(ids: seq<nat>) | Text(text: string)

  type Doc = map<string, Value>

  /**
   * The database: documents per collection, and the error every query
   * fails with when it is unavailable.
   */
  datatype Store = Store(collections: map<string, seq<Doc>>, failure: Option<Error>)

  /** A query condition on one field: equal, or an array field holding the value. */
  predicate FieldMatches(stored: Value, wanted: Value) {
    stored == wanted || (stored.Refs? && wanted.Ref? && wanted.id in stored.ids)
  }

  /** A document matches a query when it matches every condition. */
  predicate Matches(doc: Doc, query: map<string, Value>) {
    forall k :: k in query ==> k in doc && FieldMatches(doc[k], query[k])
  }

  function Documents(store: Store, collection: string): seq<Doc> {
    if collection in store.collections then store.collections[collection] else []
  }

  /** Find(query).Limit(1).Count() == 1: some document of the collection matches. */
  predicate Exists(store: Store, collection: string, query: map<string, Value>) {
    exists i :: 0 <= i < |Documents(store, collection)| && Matches(Documents(store, collection)[i], query)
  }

  /** The part of the context the validators read (ctx.Action, ctx.Model, ctx.Query, ctx.Original()). */
  datatype Ctx = Ctx(
    action: Fire.Operation,
    model: map<string, Value>,
    idValid: bool,
    queryId: Value,
    original: Result<map<string, Value>, Error>)

  predicate CreateOrUpdate(ctx: Ctx) {
    ctx.action == Fire.Create || ctx.action == Fire.Update
  }

  /** ModelValidator; `structError` is govalidator.ValidateStruct's verdict on the model. */
  function ModelValidator(ctx: Ctx, structError: Option<Error>): (r: Option<Error>)
    ensures !CreateOrUpdate(ctx) ==> r.None?
    ensures CreateOrUpdate(ctx) && !ctx.idValid ==> r == Some(Error("Invalid ID"))
    ensures CreateOrUpdate(ctx) && ctx.idValid ==> r == structError
  {
    if !CreateOrUpdate(ctx) then None
    else if !ctx.idValid then Some(Error("Invalid ID"))
    else structError
  }

  function ProtectedError(field: string): Error {
    Error("Field " + field + " is protected")
  }

  /** The first pair whose field holds another value in the model than the expected one. */
  function FirstChanged(expected: seq<(string, Value)>, model: map<string, Value>): (r: Option<string>)
    requires forall i :: 0 <= i < |expected| ==> expected[i].0 in model
    ensures r.None? <==> forall i :: 0 <= i < |expected| ==> model[expected[i].0] == expected[i].1
    ensures r.Some? ==> exists i :: 0 <= i < |expected| && expected[i].0 == r.value && model[r.value] != expected[i].1
  {
    if expected == [] then None
    else if model[expected[0].0] != expected[0].1 then Some(expected[0].0)
    else FirstChanged(expected[1..], model)
  }

  /** Each protected field paired with its value in the original. */
  function AgainstOriginal(attributes: seq<(string, Value)>, original: map<string, Value>): seq<(string, Value)>
    requires forall i :: 0 <= i < |attributes| ==> attributes[i].0 in original
  {
    seq(|attributes|, i requires 0 <= i < |attributes| => (attributes[i].0, original[attributes[i].0]))
  }

  /**
   * ProtectedAttributesValidator: on Create every protected field must hold
   * its default, on Update its stored value; a failure to load the original
   * is returned as a fatal error. Fields must exist on the model (MustGet
   * panics otherwise).
   */
  function ProtectedAttributesValidator(attributes: seq<(string, Value)>, ctx: Ctx): (r: Option<Error>)
    requires forall i :: 0 <= i < |attributes| ==> attributes[i].0 in ctx.model
    requires ctx.original.Ok? ==> forall i :: 0 <= i < |attributes| ==> attributes[i].0 in ctx.original.value
  {
    if !CreateOrUpdate(ctx) then None
    else if ctx.action == Fire.Create then
      match FirstChanged(attributes, ctx.model)
      case None => None
      case Some(field) => Some(ProtectedError(field))
    else if ctx.original.Err? then Some(Fatal(ctx.original.error))
    else
      match FirstChanged(AgainstOriginal(attributes, ctx.original.value), ctx.model)
      case None => None
      case Some(field) => Some(ProtectedError(field))
  }

  /** What ProtectedAttributesValidator guarantees, case by case. */
  lemma ProtectedAttributesVerdict(attributes: seq<(string, Value)>, ctx: Ctx)
    requires forall i :: 0 <= i < |attributes| ==> attributes[i].0 in ctx.model
    requires ctx.original.Ok? ==> forall i :: 0 <= i < |attributes| ==> attributes[i].0 in ctx.original.value
    ensures !CreateOrUpdate(ctx) ==> ProtectedAttributesValidator(attributes, ctx).None?
    ensures ctx.action == Fire.Create ==>
      (ProtectedAttributesValidator(attributes, ctx).None? <==>
       forall i :: 0 <= i < |attributes| ==> ctx.model[attributes[i].0] == attributes[i].1)
    ensures ctx.action == Fire.Update && ctx.original.Err? ==>
      ProtectedAttributesValidator(attributes, ctx) == Some(Fatal(ctx.original.error))
    ensures ctx.action == Fire.Update && ctx.original.Ok? ==>
      (ProtectedAttributesValidator(attributes, ctx).None? <==>
       forall i :: 0 <= i < |attributes| ==> ctx.model[attributes[i].0] == ctx.original.value[attributes[i].0])
    ensures ProtectedAttributesValidator(attributes, ctx).Some? && !IsFatal(ProtectedAttributesValidator(attributes, ctx).value) ==>
      exists i :: 0 <= i < |attributes| && ProtectedAttributesValidator(attributes, ctx) == Some(ProtectedError(attributes[i].0))
  {
    if ctx.action == Fire.Update && ctx.original.Ok? {
      var pairs := AgainstOriginal(attributes, ctx.original.value);
      assert |pairs| == |attributes|;
      assert forall i :: 0 <= i < |pairs| ==> pairs[i] == (attributes[i].0, ctx.original.value[attributes[i].0]);
      var r := FirstChanged(pairs, ctx.model);
      if r.Some? {
        var i :| 0 <= i < |pairs| && pairs[i].0 == r.value;
        assert attributes[i].0 == r.value;
      }
    } else if ctx.action == Fire.Create {
      var r := FirstChanged(attributes, ctx.model);
      if r.Some? {
        var i :| 0 <= i < |attributes| && attributes[i].0 == r.value && ctx.model[r.value] != attributes[i].1;
        assert ProtectedAttributesValidator(attributes, ctx) == Some(ProtectedError(attributes[i].0));
      }
    }
  }

  /** The scan of DependentResourcesValidator over (collection, field) pairs. */
  function DependentScan(resources: seq<(string, string)>, id: Value, store: Store): (r: Option<Error>)
    ensures resources == [] ==> r.None?
    ensures resources != [] && store.failure.Some? ==> r == Some(Fatal(store.failure.value))
    ensures store.failure.None? ==>
      (r.None? <==> forall i :: 0 <= i < |resources| ==> !Exists(store, resources[i].0, map[resources[i].1 := id]))
    ensures store.failure.None? && r.Some? ==> r == Some(Error("Resource has dependent resources"))
  {
    if resources == [] then None
    else if store.failure.Some? then Some(Fatal(store.failure.value))
    else if Exists(store, resources[0].0, map[resources[0].1 := id]) then Some(Error("Resource has dependent resources"))
    else DependentScan(resources[1..], id, store)
  }

  /** DependentResourcesValidator: on Delete, fail when any listed collection references the deleted id. */
  function DependentResourcesValidator(resources: seq<(string, string)>, ctx: Ctx, store: Store): (r: Option<Error>)
    ensures ctx.action != Fire.Delete ==> r.None?
    ensures ctx.action == Fire.Delete && store.failure.None? ==>
      (r.None? <==> forall i :: 0 <= i < |resources| ==> !Exists(store, resources[i].0, map[resources[i].1 := ctx.queryId]))
  {
    if ctx.action != Fire.Delete then None else DependentScan(resources, ctx.queryId, store)
  }

  function MissingRelationship(field: string): Error {
    Error("Missing required relationship " + field)
  }

  /** The scan of VerifyReferencesValidator over (field, collection) pairs. */
  function VerifyScan(references: seq<(string, string)>, model: map<string, Value>, store: Store): (r: Option<Error>)
    requires forall i :: 0 <= i < |references| ==> references[i].0 in model
    ensures store.failure.None? ==>
      (r.None? <==> forall i :: 0 <= i < |references| ==>
        model[references[i].0] == NilRef || Exists(store, references[i].1, map["_id" := model[references[i].0]]))
    ensures store.failure.None? && r.Some? ==>
      exists i :: 0 <= i < |references| && r == Some(MissingRelationship(references[i].0))
  {
    if references == [] then None
    else
      var field := references[0].0;
      var id := model[field];
      if id == NilRef then VerifyScan(references[1..], model, store)
      else if store.failure.Some? then Some(Fatal(store.failure.value))
      else if !Exists(store, references[0].1, map["_id" := id]) then Some(MissingRelationship(field))
      else VerifyScan(references[1..], model, store)
  }

  /** VerifyReferencesValidator: on Create and Update, every set reference must name an existing document. */
  function VerifyReferencesValidator(references: seq<(string, string)>, ctx: Ctx, store: Store): (r: Option<Error>)
    requires forall i :: 0 <= i < |references| ==> references[i].0 in ctx.model
    ensures !CreateOrUpdate(ctx) ==> r.None?
    ensures CreateOrUpdate(ctx) ==> r == VerifyScan(references, ctx.model, store)
  {
    if !CreateOrUpdate(ctx) then None else VerifyScan(references, ctx.model, store)
  }

  /** A nil optional reference is skipped and never looked up. */
  lemma NilReferencesAreSkipped(references: seq<(string, string)>, ctx: Ctx, store: Store)
    requires forall i :: 0 <= i < |references| ==> references[i].0 in ctx.model
    requires forall i :: 0 <= i < |references| ==> ctx.model[references[i].0] == NilRef
    ensures VerifyReferencesValidator(references, ctx, store).None?
  {
    if CreateOrUpdate(ctx) {
      NilScanPasses(references, ctx.model, store);
    }
  }

  lemma {:induction false} NilScanPasses(references: seq<(string, string)>, model: map<string, Value>, store: Store)
    requires forall i :: 0 <= i < |references| ==> references[i].0 in model
    requires forall i :: 0 <= i < |references| ==> model[references[i].0] == NilRef
    ensures VerifyScan(references, model, store).None?
  {
    if references != [] {
      NilScanPasses(references[1..], model, store);
    }
  }

  /** The matching query: `_id` set to the main reference, then each target field set to the model's value. */
  function Query(id: Value, matcher: seq<(string, string)>, model: map<string, Value>): map<string, Value>
    requires forall i :: 0 <= i < |matcher| ==> matcher[i].1 in model
  {
    if matcher == [] then map["_id" := id]
    else
      var last := matcher[|matcher| - 1];
      Query(id, matcher[..|matcher| - 1], model)[last.0 := model[last.1]]
  }

  /**
   * With distinct target fields other than `_id`, a document matches the
   * query exactly when it holds the main reference as `_id` and every
   * target field matches the model's value.
   */
  lemma {:induction false} QueryMatchesReferences(id: Value, matcher: seq<(string, string)>, model: map<string, Value>, doc: Doc)
    requires forall i :: 0 <= i < |matcher| ==> matcher[i].1 in model
    requires forall i :: 0 <= i < |matcher| ==> matcher[i].0 != "_id"
    requires forall i, j :: 0 <= i < j < |matcher| ==> matcher[i].0 != matcher[j].0
    ensures Matches(doc, Query(id, matcher, model)) <==>
      && "_id" in doc && FieldMatches(doc["_id"], id)
      && forall i :: 0 <= i < |matcher| ==> matcher[i].0 in doc && FieldMatches(doc[matcher[i].0], model[matcher[i].1])
  {
    if matcher != [] {
      var n := |matcher| - 1;
      var init := matcher[..n];
      var last := matcher[n];
      QueryMatchesReferences(id, init, model, doc);
      var q := Query(id, init, model);
      assert last.0 !in q by {
        QueryKeys(id, init, model);
      }
      assert Query(id, matcher, model) == q[last.0 := model[last.1]];
      assert forall i :: 0 <= i < n ==> init[i] == matcher[i];
    }
  }

  /** The keys of the query: `_id` and the target fields. */
  lemma {:induction false} QueryKeys(id: Value, matcher: seq<(string, string)>, model: map<string, Value>)
    requires forall i :: 0 <= i < |matcher| ==> matcher[i].1 in model
    ensures forall k :: k in Query(id, matcher, model) <==> k == "_id" || exists i :: 0 <= i < |matcher| && matcher[i].0 == k
  {
    if matcher != [] {
      var n := |matcher| - 1;
      QueryKeys(id, matcher[..n], model);
      assert forall i :: 0 <= i < n ==> matcher[..n][i] == matcher[i];
    }
  }

  /**
   * MatchingReferencesValidator: on Create and Update, a set main reference
   * must name a document of `collection` that also matches every pair of
   * the matcher; a nil matched reference is reported as a missing id.
   */
  method MatchingReferencesValidator(collection: string, reference: string, matcher: seq<(string, string)>, ctx: Ctx, store: Store)
    returns (r: Option<Error>)
    requires reference in ctx.model
    requires forall i :: 0 <= i < |matcher| ==> matcher[i].1 in ctx.model
    ensures !CreateOrUpdate(ctx) || ctx.model[reference] == NilRef ==> r.None?
    ensures CreateOrUpdate(ctx) && ctx.model[reference] != NilRef ==>
      (r == Some(Error("Missing ID")) <==> exists i :: 0 <= i < |matcher| && ctx.model[matcher[i].1] == NilRef)
    ensures (CreateOrUpdate(ctx) && ctx.model[reference] != NilRef
             && forall i :: 0 <= i < |matcher| ==> ctx.model[matcher[i].1] != NilRef) ==>
      && (store.failure.Some? ==> r == Some(Fatal(store.failure.value)))
      && (store.failure.None? ==>
          (r.None? <==> Exists(store, collection, Query(ctx.model[reference], matcher, ctx.model)))
          && (r.Some? ==> r == Some(Error("References do not match"))))
  {
    // only run validator on Create and Update
    if !CreateOrUpdate(ctx) {
      return None;
    }

    // get main reference
    var id := ctx.model[reference];
    if id == NilRef {
      return None;
    }

    // prepare query and add other references
    var query := map["_id" := id];
    var i := 0;
    while i < |matcher|
      invariant 0 <= i <= |matcher|
      invariant query == Query(id, matcher[..i], ctx.model)
      invariant forall j :: 0 <= j < i ==> ctx.model[matcher[j].1] != NilRef
    {
      var value := ctx.model[matcher[i].1];
      if value == NilRef {
        return Some(Error("Missing ID"));
      }
      assert matcher[..i + 1][..i] == matcher[..i];
      query := query[matcher[i].0 := value];
      i := i + 1;
    }
    assert matcher[..i] == matcher;

    // query db
    if store.failure.Some? {
      return Some(Fatal(store.failure.value));
    }
    if !Exists(store, collection, query) {
      return Some(Error("References do not match"));
    }
    r := None;
  }
}
