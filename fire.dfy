/**
 * The parts of fire's request context that the modelled callbacks read and
 * write: the operation, the data map, the store, the query selector and
 * filters, the field lists, the requested action names, the tracer stack
 * and the deferred callbacks. HTTP request and response objects are not
 * part of this model.
 */
module Fire {
  import opened Common

  /** The controller operations; Unset is the zero value of the Go type. */
  datatype Operation = Unset | List | Find | Create | Update | Delete | CollectionAction | ResourceAction
  {
    /** Whether the operation is one of the two action operations. */
    predicate Action() {
      this == CollectionAction || this == ResourceAction
    }
  }

  /** A matcher built with fire.Only: true for the listed operations. */
  predicate Only(ops: set<Operation>, op: Operation) {
    op in ops
  }

  /** A matcher built with fire.Except: true for all other operations. */
  predicate Except(ops: set<Operation>, op: Operation) {
    op !in ops
  }

  /** A query filter document. */
  type Filter = map<string, string>

  /** A Go context.Context value; Background is context.Background(). */
  datatype RequestContext = Background | Custom(tag: nat)

  /**
   * The request context. Go's nil maps and slices are None; values stored
   * in the data map have the type V chosen by the package that uses it.
   */
  class Context<V> {
    var operation: Operation
    var context: Option<RequestContext>
    var data: Option<map<string, V>>
    var store: Option<nat>
    var selector: Option<map<string, string>>
    var filters: Option<seq<Filter>>
    var readableFields: seq<string>
    var writableFields: seq<string>
    var collectionAction: string
    var resourceAction: string
    var tracer: seq<string>
    var deferred: seq<string>

    /** A context with every field at its zero value. */
    constructor ()
      ensures operation == Unset && context == None && data == None && store == None
      ensures selector == None && filters == None
      ensures readableFields == [] && writableFields == []
      ensures collectionAction == "" && resourceAction == ""
      ensures tracer == [] && deferred == []
    {
      operation := Unset;
      context := None;
      data := None;
      store := None;
      selector := None;
      filters := None;
      readableFields := [];
      writableFields := [];
      collectionAction := "";
      resourceAction := "";
      tracer := [];
      deferred := [];
    }
  }
}
