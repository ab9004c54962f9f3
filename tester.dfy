/**
 * The test helper (tester.go): request paths under an optional prefix,
 * resetting the tester between tests, and filling in the defaults of a
 * context before a handler runs with it. The HTTP request, response
 * recorder and the coal tester's collections are not part of this model.
 */
module Testing {
  import opened Common
  import Fire

  /** Drop every leading slash. */
  function TrimLeftSlashes(s: string): (r: string)
    ensures |r| <= |s| && r == s[|s| - |r|..]
    ensures r == [] || r[0] != '/'
    ensures forall i :: 0 <= i < |s| - |r| ==> s[i] == '/'
  {
    if |s| > 0 && s[0] == '/' then TrimLeftSlashes(s[1..]) else s
  }

  /** Drop every trailing slash. */
  function TrimRightSlashes(s: string): (r: string)
    ensures |r| <= |s| && r == s[..|r|]
    ensures r == [] || r[|r| - 1] != '/'
    ensures forall i :: |r| <= i < |s| ==> s[i] == '/'
  {
    if |s| > 0 && s[|s| - 1] == '/' then TrimRightSlashes(s[..|s| - 1]) else s
  }

  /** strings.Trim(s, "/"). */
  function Trim(s: string): string {
    TrimRightSlashes(TrimLeftSlashes(s))
  }

  /** How many slashes Trim drops at the front. */
  function TrimStart(s: string): (n: nat)
    ensures n <= |s|
  {
    |s| - |TrimLeftSlashes(s)|
  }

  /**
   * Trim removes the slashes at both ends and nothing else: the result is a
   * slice of the input bounded by runs of slashes, and it neither starts nor
   * ends with a slash.
   */
  lemma TrimKeepsInnerSlashes(s: string)
    ensures var r := Trim(s); var i := TrimStart(s);
      && (r == [] || (r[0] != '/' && r[|r| - 1] != '/'))
      && i + |r| <= |s| && r == s[i..i + |r|]
      && (forall k :: 0 <= k < i ==> s[k] == '/')
      && (forall k :: i + |r| <= k < |s| ==> s[k] == '/')
  {
    var left := TrimLeftSlashes(s);
    var r := TrimRightSlashes(left);
    var i := |s| - |left|;
    assert left == s[i..];
    assert r == left[..|r|];
    assert r == s[i..i + |r|] by {
      assert s[i..][..|r|] == s[i..i + |r|];
    }
    forall k | i + |r| <= k < |s|
      ensures s[k] == '/'
    {
      assert s[k] == left[k - i];
    }
    if r != [] {
      assert left != [] && r[0] == left[0];
    }
  }

  /** A string without slashes at its ends is left alone by Trim, also after one more leading slash. */
  lemma TrimOfTrimmed(t: string)
    requires t == [] || (t[0] != '/' && t[|t| - 1] != '/')
    ensures Trim(t) == t && Trim("/" + t) == t
  {
    assert ("/" + t)[1..] == t;
  }

  /** Tester.Path: "/" plus the trimmed path, under "/" + prefix when a prefix is set. */
  function Path(prefix: string, path: string): (r: string)
    ensures |r| > 0 && r[0] == '/'
    ensures prefix != "" ==> r == "/" + prefix + "/" + Trim(path)
    ensures prefix == "" ==> r == "/" + Trim(path)
  {
    var rooted := "/" + Trim(path);
    if prefix != "" then "/" + prefix + rooted else rooted
  }

  /** Without a prefix, Path is idempotent. */
  lemma PathIdempotent(path: string)
    ensures Path("", Path("", path)) == Path("", path)
  {
    TrimKeepsInnerSlashes(path);
    TrimOfTrimmed(Trim(path));
  }

  /** The root tracer span a handler runs under. */
  const RunHandlerSpan: string := "fire/Tester.RunHandler"

  class Tester {
    /** A path prefix, e.g. "api". */
    var prefix: string
    /** The header set on all requests and contexts. */
    var header: map<string, string>
    /** The context set on fake requests. */
    var context: Fire.RequestContext
    /** The store of the embedded coal tester. */
    var store: nat

    /** NewTester: an empty header and the background context. */
    constructor (store: nat)
      ensures this.store == store && prefix == "" && header == map[] && context == Fire.Background
    {
      this.store := store;
      prefix := "";
      header := map[];
      context := Fire.Background;
    }

    /** Clean: reset the header and the context; the prefix and store stay. */
    method Clean()
      modifies this
      ensures header == map[] && context == Fire.Background
      ensures prefix == old(prefix) && store == old(store)
    {
      header := map[];
      context := Fire.Background;
    }

    /**
     * The defaulting RunHandler applies to a context: every unset field
     * gets its default, every set one stays, and the tracer is replaced by
     * one rooted at the tester's span.
     */
    method Prepare<V>(c: Fire.Context<V>)
      modifies c
      ensures c.operation == (if old(c.operation) == Fire.Unset then Fire.List else old(c.operation))
      ensures c.context == (if old(c.context).None? then Some(context) else old(c.context))
      ensures c.data == (if old(c.data).None? then Some(map[]) else old(c.data))
      ensures c.store == (if old(c.store).None? then Some(store) else old(c.store))
      ensures c.selector == (if old(c.selector).None? then Some(map[]) else old(c.selector))
      ensures c.filters == (if old(c.filters).None? then Some([]) else old(c.filters))
      ensures c.tracer == [RunHandlerSpan]
      ensures c.readableFields == old(c.readableFields) && c.writableFields == old(c.writableFields)
      ensures c.deferred == old(c.deferred)
      ensures c.collectionAction == old(c.collectionAction) && c.resourceAction == old(c.resourceAction)
    {
      SetMissing(c);
      InitQueries(c);
    }

    /** Set the context, data, operation and store if missing. */
    method SetMissing<V>(c: Fire.Context<V>)
      modifies c
      ensures c.operation == (if old(c.operation) == Fire.Unset then Fire.List else old(c.operation))
      ensures c.context == (if old(c.context).None? then Some(context) else old(c.context))
      ensures c.data == (if old(c.data).None? then Some(map[]) else old(c.data))
      ensures c.store == (if old(c.store).None? then Some(store) else old(c.store))
      ensures c.selector == old(c.selector) && c.filters == old(c.filters)
      ensures c.readableFields == old(c.readableFields) && c.writableFields == old(c.writableFields)
      ensures c.deferred == old(c.deferred)
      ensures c.collectionAction == old(c.collectionAction) && c.resourceAction == old(c.resourceAction)
    {
      if c.context.None? {
        c.context := Some(context);
      }
      if c.data.None? {
        c.data := Some(map[]);
      }
      if c.operation == Fire.Unset {
        c.operation := Fire.List;
      }
      if c.store.None? {
        c.store := Some(store);
      }
    }

    /** Initialise the selector and filters if missing and set the tracer. */
    method InitQueries<V>(c: Fire.Context<V>)
      modifies c
      ensures c.selector == (if old(c.selector).None? then Some(map[]) else old(c.selector))
      ensures c.filters == (if old(c.filters).None? then Some([]) else old(c.filters))
      ensures c.tracer == [RunHandlerSpan]
      ensures c.operation == old(c.operation) && c.context == old(c.context)
      ensures c.data == old(c.data) && c.store == old(c.store)
      ensures c.readableFields == old(c.readableFields) && c.writableFields == old(c.writableFields)
      ensures c.deferred == old(c.deferred)
      ensures c.collectionAction == old(c.collectionAction) && c.resourceAction == old(c.resourceAction)
    {
      if c.selector.None? {
        c.selector := Some(map[]);
      }
      if c.filters.None? {
        c.filters := Some([]);
      }
      c.tracer := [RunHandlerSpan];
    }

    /**
     * RunHandler: prepare the given context, or a new one when there is
     * none, and return what the handler returns (`handlerResult`).
     */
    method RunHandler<V>(ctx: Fire.Context?<V>, handlerResult: Option<string>) returns (c: Fire.Context<V>, err: Option<string>)
      modifies ctx
      ensures err == handlerResult
      ensures ctx != null ==> c == ctx
      ensures ctx == null ==> fresh(c)
      ensures c.operation != Fire.Unset && c.context.Some? && c.data.Some? && c.store.Some?
      ensures c.selector.Some? && c.filters.Some? && c.tracer == [RunHandlerSpan]
      ensures ctx == null ==>
        && c.operation == Fire.List && c.context == Some(context) && c.data == Some(map[])
        && c.store == Some(store) && c.selector == Some(map[]) && c.filters == Some([])
      ensures ctx != null ==>
        && c.operation == (if old(ctx.operation) == Fire.Unset then Fire.List else old(ctx.operation))
        && c.context == (if old(ctx.context).None? then Some(context) else old(ctx.context))
        && c.data == (if old(ctx.data).None? then Some(map[]) else old(ctx.data))
        && c.store == (if old(ctx.store).None? then Some(store) else old(ctx.store))
        && c.selector == (if old(ctx.selector).None? then Some(map[]) else old(ctx.selector))
        && c.filters == (if old(ctx.filters).None? then Some([]) else old(ctx.filters))
        && c.readableFields == old(ctx.readableFields) && c.writableFields == old(ctx.writableFields)
        && c.deferred == old(ctx.deferred)
        && c.collectionAction == old(ctx.collectionAction) && c.resourceAction == old(ctx.resourceAction)
    {
      if ctx == null {
        c := new Fire.Context<V>();
      } else {
        c := ctx;
      }
      Prepare(c);

      // call handler
      err := handlerResult;
    }
  }

  /**
   * Defaults are filled in once: preparing a context twice leaves it as
   * preparing it once does.
   */
  method PrepareTwice(t: Tester, c: Fire.Context<int>)
    modifies c
    ensures c.operation == (if old(c.operation) == Fire.Unset then Fire.List else old(c.operation))
    ensures c.context == (if old(c.context).None? then Some(t.context) else old(c.context))
    ensures c.data == (if old(c.data).None? then Some(map[]) else old(c.data))
    ensures c.store == (if old(c.store).None? then Some(t.store) else old(c.store))
    ensures c.selector == (if old(c.selector).None? then Some(map[]) else old(c.selector))
    ensures c.filters == (if old(c.filters).None? then Some([]) else old(c.filters))
    ensures c.tracer == [RunHandlerSpan]
    ensures c.readableFields == old(c.readableFields) && c.writableFields == old(c.writableFields)
    ensures c.deferred == old(c.deferred)
    ensures c.collectionAction == old(c.collectionAction) && c.resourceAction == old(c.resourceAction)
  {
    t.Prepare(c);
    t.Prepare(c);
  }
}
