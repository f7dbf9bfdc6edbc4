/**
 * The resource binder of rest (rest/rest.go): the Go methods Get, Post, Put and
 * Delete of a value become the handlers of the HTTP verbs GET, POST, PUT and
 * DELETE, and a verb without a handler is answered with 405.
 */
module Rest {
  import opened Wrappers
  import opened Types
  import opened Http
  import opened Content
  import opened Rpc
  import Context

  /** Resource: one optional adapter per verb. */
  datatype Resource = Resource(geth: Option<RpcType>, posth: Option<RpcType>, puth: Option<RpcType>, deleteh: Option<RpcType>)

  /** Every adapter present is one makeRpc could build. */
  predicate ResourceValid(res: Resource)
  {
    (res.geth.Some? ==> WellFormed(res.geth.value)) &&
    (res.posth.Some? ==> WellFormed(res.posth.value)) &&
    (res.puth.Some? ==> WellFormed(res.puth.value)) &&
    (res.deleteh.Some? ==> WellFormed(res.deleteh.value))
  }

  const MakeRpcPanicMsg := "rest: makeRpc error"
  const MethodNotAllowedMsg := "Method not allowed"

  /** What mustMakeRpc does: an adapter (none for an absent method), or a panic. */
  datatype Adapter = Adapter(rpc: Option<RpcType>) | AdapterPanic(msg: string)

  /** A method the resource can bind: absent, or with an accepted signature. */
  predicate Bindable(recv: Receiver, name: string)
  {
    name !in recv || Accepted(recv[name])
  }

  /** The adapter for a bindable method. */
  function AdapterFor(recv: Receiver, name: string): Option<RpcType>
  {
    if name in recv then Some(RpcFor(name, recv[name])) else None
  }

  /**
   * mustMakeRpc (rest/rest.go:20-26). An absent method yields no adapter. The guard's
   * own panic is unreachable, since makeRpc returns no error other than ErrMethodNotFound.
   */
  method MustMakeRpc(recv: Receiver, name: string) returns (a: Adapter)
    ensures name !in recv ==> a == Adapter(None)
    ensures Bindable(recv, name) <==> a.Adapter?
    ensures a.Adapter? ==> a.rpc == AdapterFor(recv, name)
    ensures a.Adapter? && a.rpc.Some? ==> WellFormed(a.rpc.value) && a.rpc.value.name == name
    ensures a.AdapterPanic? ==> a.msg == SigPanicMsg
    ensures a != AdapterPanic(MakeRpcPanicMsg)
  {
    var r := MakeRpc(recv, name);
    match r
    case MethodNotFound =>
      a := Adapter(None);
    case Made(rpc) =>
      a := Adapter(Some(rpc));
    case SignaturePanic(msg) =>
      a := AdapterPanic(msg);
  }

  datatype NewResult = Created(resource: Resource) | NewPanic(msg: string)

  /** New (rest/rest.go:33-42): bind Get, Post, Put and Delete in that order; the first bad signature panics. */
  method New(recv: Receiver) returns (res: NewResult)
    ensures res.Created? <==>
      Bindable(recv, "Get") && Bindable(recv, "Post") && Bindable(recv, "Put") && Bindable(recv, "Delete")
    ensures res.Created? ==>
      res.resource == Resource(AdapterFor(recv, "Get"), AdapterFor(recv, "Post"), AdapterFor(recv, "Put"), AdapterFor(recv, "Delete")) &&
      ResourceValid(res.resource)
    ensures res.NewPanic? ==> res.msg == SigPanicMsg
  {
    var resource := Resource(None, None, None, None);
    var a := MustMakeRpc(recv, "Get");
    if a.AdapterPanic? {
      return NewPanic(a.msg);
    }
    resource := resource.(geth := a.rpc);
    a := MustMakeRpc(recv, "Post");
    if a.AdapterPanic? {
      return NewPanic(a.msg);
    }
    resource := resource.(posth := a.rpc);
    a := MustMakeRpc(recv, "Put");
    if a.AdapterPanic? {
      return NewPanic(a.msg);
    }
    resource := resource.(puth := a.rpc);
    a := MustMakeRpc(recv, "Delete");
    if a.AdapterPanic? {
      return NewPanic(a.msg);
    }
    resource := resource.(deleteh := a.rpc);
    return Created(resource);
  }

  /** The verb switch of Resource.ServeHTTPWithContext (rest/rest.go:45-56): exact, case-sensitive verbs. */
  function Select(res: Resource, verb: string): (h: Option<RpcType>)
    ensures verb == "GET" ==> h == res.geth
    ensures verb == "POST" ==> h == res.posth
    ensures verb == "PUT" ==> h == res.puth
    ensures verb == "DELETE" ==> h == res.deleteh
    ensures verb != "GET" && verb != "POST" && verb != "PUT" && verb != "DELETE" ==> h == None
  {
    if verb == "GET" then res.geth
    else if verb == "POST" then res.posth
    else if verb == "PUT" then res.puth
    else if verb == "DELETE" then res.deleteh
    else None
  }

  /** The Go method bound to an HTTP verb. */
  function MethodName(verb: string): string
  {
    if verb == "GET" then "Get"
    else if verb == "POST" then "Post"
    else if verb == "PUT" then "Put"
    else if verb == "DELETE" then "Delete"
    else ""
  }

  /** On a resource New built, a verb has a handler exactly when the value has the matching Go method, and that is the method served. */
  lemma VerbBindsMethod(recv: Receiver, res: Resource, verb: string)
    requires res == Resource(AdapterFor(recv, "Get"), AdapterFor(recv, "Post"), AdapterFor(recv, "Put"), AdapterFor(recv, "Delete"))
    ensures Select(res, verb).Some? <==>
      (verb == "GET" || verb == "POST" || verb == "PUT" || verb == "DELETE") && MethodName(verb) in recv
    ensures Select(res, verb).Some? ==> Select(res, verb).value == RpcFor(MethodName(verb), recv[MethodName(verb)])
  {
  }

  /** Resource.ServeHTTPWithContext (rest/rest.go:44-66): the selected adapter's reply, or 405 and ErrMethodNotAllowed. */
  method ServeResource(res: Resource, parent: Context.Ctx, w: ResponseWriter, r: Request, call: Call, marshal: Rsp -> Marshalled)
    returns (s: Served)
    requires ResourceValid(res)
    modifies w
    ensures Select(res, r.verb).None? ==>
      s == Returned(Context.WithErr(parent, Some(Context.ErrMethodNotAllowed))) &&
      w.events == old(w.events) + [ErrorReplied(MethodNotAllowedMsg, StatusMethodNotAllowed)]
    ensures Select(res, r.verb).Some? ==>
      var o := ServeSpec(Select(res, r.verb).value, parent, r, call, marshal);
      (o.ReplyPanic? ==> s == Panicked(o.msg) && w.events == old(w.events)) &&
      (o.Reply? ==> s == Returned(o.ctx) && w.events == old(w.events) + o.events)
  {
    var h := Select(res, r.verb);
    if h.Some? {
      s := ServeRpc(h.value, parent, w, r, call, marshal);
      return;
    }
    w.Error(MethodNotAllowedMsg, StatusMethodNotAllowed);
    return Returned(Context.WithErr(parent, Some(Context.ErrMethodNotAllowed)));
  }

  /** The answer to a verb without a handler carries ErrMethodNotAllowed whatever the parent context held. */
  lemma NotAllowedErr(parent: Context.Ctx)
    ensures Context.Err(Context.WithErr(parent, Some(Context.ErrMethodNotAllowed))) == Some(Context.ErrMethodNotAllowed)
  {
  }

  /** The value with only a Get(context.Context) (bool, error) method (rest/rest_test.go:90-103). */
  const GetOnly: Receiver := map["Get" := Signature([ContextType], [Named("bool", ""), ErrorType])]

  /** Binding it gives a GET handler of arity 1 and no other; a POST is refused with ErrMethodNotAllowed. */
  lemma GetOnlyResource(recv: Receiver)
    requires recv == GetOnly
    ensures Bindable(recv, "Get") && Bindable(recv, "Post") && Bindable(recv, "Put") && Bindable(recv, "Delete")
    ensures var res := Resource(AdapterFor(recv, "Get"), AdapterFor(recv, "Post"), AdapterFor(recv, "Put"), AdapterFor(recv, "Delete"));
      Select(res, "GET") == Some(RpcType("Get", 1, None)) && Select(res, "POST") == None
  {
    assert GetOnly["Get"].ins == [ContextType];
  }

  /** An empty value binds with no handler at all, as New(struct{}{}) does (rest/rest.go:10). */
  lemma EmptyResource(verb: string)
    ensures Bindable(map[], "Get") && Bindable(map[], "Post") && Bindable(map[], "Put") && Bindable(map[], "Delete")
    ensures Select(Resource(AdapterFor(map[], "Get"), AdapterFor(map[], "Post"), AdapterFor(map[], "Put"), AdapterFor(map[], "Delete")), verb) == None
  {
  }
}
