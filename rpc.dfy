/**
 * The method adapter of rest (rest/rpc.go): a method of the bound value is
 * classified by its signature, and a request is served by decoding its
 * parameter, calling the method, and mapping the method's result to a reply
 * and a context. Reflection is replaced by a signature descriptor per method and
 * the call itself by a function from the argument list to the method's results.
 */
module Rpc {
  import opened Wrappers
  import opened Types
  import opened Http
  import opened Content
  import Context

  /** A method's parameter and result types. */
  datatype Signature = Signature(ins: seq<Ty>, outs: seq<Ty>)

  /** The methods reflection finds on the bound value, by name. */
  type Receiver = map<string, Signature>

  /** rpcType: the method, its arity, and the declared request type when it has one. */
  datatype RpcType = RpcType(name: string, numIn: nat, reqType: Option<Ty>)

  const SigPanicMsg := "rest rpc: method signature not match."

  /** What makeRpc does: an adapter, ErrMethodNotFound, or a signature panic. */
  datatype MakeRpcResult = Made(rpc: RpcType) | MethodNotFound | SignaturePanic(msg: string)

  /** Two results, the second of type error. */
  predicate ResultsMatch(sig: Signature)
  {
    |sig.outs| == 2 && sig.outs[1] == ErrorType
  }

  /** The four accepted parameter lists: (ctx), (ctx, req), (ctx, w, r), (ctx, w, r, req). */
  predicate ParamsMatch(ins: seq<Ty>)
  {
    || ins == [ContextType]
    || (|ins| == 2 && ins[0] == ContextType && ExportedOrBuiltin(ins[1]))
    || ins == [ContextType, ResponseWriterType, RequestPtrType]
    || (|ins| == 4 && ins[..3] == [ContextType, ResponseWriterType, RequestPtrType] && ExportedOrBuiltin(ins[3]))
  }

  predicate Accepted(sig: Signature)
  {
    ResultsMatch(sig) && ParamsMatch(sig.ins)
  }

  /** The adapter an accepted method yields: the request type is its last parameter in arities 2 and 4. */
  function RpcFor(name: string, sig: Signature): RpcType
  {
    RpcType(name, |sig.ins|,
      if |sig.ins| == 2 then Some(sig.ins[1])
      else if |sig.ins| == 4 then Some(sig.ins[3])
      else None)
  }

  /** What every adapter satisfies: arity 1 to 4, and a request type exactly in arities 2 and 4. */
  predicate WellFormed(rpc: RpcType)
  {
    1 <= rpc.numIn <= 4 && (rpc.reqType.Some? <==> rpc.numIn == 2 || rpc.numIn == 4)
  }

  /** makeRpc (rest/rpc.go:57-106). */
  method MakeRpc(recv: Receiver, name: string) returns (r: MakeRpcResult)
    ensures r.MethodNotFound? <==> name !in recv
    ensures r.Made? <==> name in recv && Accepted(recv[name])
    ensures r.SignaturePanic? ==> r.msg == SigPanicMsg
    ensures r.Made? ==> r.rpc == RpcFor(name, recv[name]) && WellFormed(r.rpc)
    ensures r.Made? ==> r.rpc.numIn == |recv[name].ins|
    ensures r.Made? && r.rpc.numIn == 2 ==> r.rpc.reqType == Some(recv[name].ins[1])
    ensures r.Made? && r.rpc.numIn == 4 ==> r.rpc.reqType == Some(recv[name].ins[3])
  {
    if name !in recv {
      return MethodNotFound;
    }
    var sig := recv[name];
    if |sig.outs| != 2 || sig.outs[1] != ErrorType {
      return SignaturePanic(SigPanicMsg);
    }
    var numIn := |sig.ins|;
    var rpc := RpcType(name, numIn, None);
    if numIn == 1 {
      if sig.ins[0] != ContextType {
        return SignaturePanic(SigPanicMsg);
      }
      assert sig.ins == [ContextType];
      return Made(rpc);
    } else if numIn == 2 {
      var exported := IsExportedOrBuiltinType(sig.ins[1]);
      if sig.ins[0] != ContextType || !exported {
        return SignaturePanic(SigPanicMsg);
      }
      return Made(rpc.(reqType := Some(sig.ins[1])));
    } else if numIn == 3 {
      if sig.ins[0] != ContextType || sig.ins[1] != ResponseWriterType || sig.ins[2] != RequestPtrType {
        return SignaturePanic(SigPanicMsg);
      }
      assert sig.ins == [ContextType, ResponseWriterType, RequestPtrType];
      return Made(rpc);
    } else if numIn == 4 {
      var exported := IsExportedOrBuiltinType(sig.ins[3]);
      if sig.ins[0] != ContextType || sig.ins[1] != ResponseWriterType || sig.ins[2] != RequestPtrType || !exported {
        return SignaturePanic(SigPanicMsg);
      }
      assert sig.ins[..3] == [ContextType, ResponseWriterType, RequestPtrType];
      return Made(rpc.(reqType := Some(sig.ins[3])));
    } else {
      return SignaturePanic(SigPanicMsg);
    }
  }

  /** A value passed to the method. */
  datatype Arg = CtxArg(c: Context.Ctx) | WriterArg | RequestArg | ReqArg(value: Option<ReqValue>)

  /** The argument list for the adapter's arity (rest/rpc.go:143-157). */
  function ArgsFor(rpc: RpcType, c: Context.Ctx, req: Option<ReqValue>): (args: seq<Arg>)
    requires WellFormed(rpc)
    ensures |args| == rpc.numIn
    ensures args[0] == CtxArg(c)
    ensures rpc.numIn >= 3 ==> args[1] == WriterArg && args[2] == RequestArg
    ensures forall i :: 0 <= i < |args| ==> (args[i].ReqArg? <==> rpc.reqType.Some? && i == |args| - 1)
    ensures rpc.reqType.Some? ==> args[|args| - 1] == ReqArg(req)
  {
    if rpc.numIn == 1 then [CtxArg(c)]
    else if rpc.numIn == 2 then [CtxArg(c), ReqArg(req)]
    else if rpc.numIn == 3 then [CtxArg(c), WriterArg, RequestArg]
    else [CtxArg(c), WriterArg, RequestArg, ReqArg(req)]
  }

  /** The error a method returns: none, a plain error, or one that is also an http.Handler. */
  datatype CallErr = NoError | PlainError(id: nat) | HandlerError(h: ErrorHandler)

  /**
   * What a method call yields: its two results, and the calls the method itself
   * made on the ResponseWriter, which it can only reach when it is handed w
   * (arities 3 and 4).
   */
  datatype CallResult = CallResult(rsp: Rsp, err: CallErr, written: seq<Event>)

  /** The method's own calls on the writer: none unless the argument list holds w. */
  function MethodWrites(rpc: RpcType, res: CallResult): (e: seq<Event>)
    ensures rpc.numIn < 3 ==> e == []
    ensures rpc.numIn >= 3 ==> e == res.written
  {
    if rpc.numIn >= 3 then res.written else []
  }

  /** What the bound value's methods return, by method name and arguments. */
  type Call = (string, seq<Arg>) -> CallResult

  const ApiErrorMsg := "rest: api error."

  /** A served request: the context returned, the calls made on the writer, the arguments the method got (none when it was not called). */
  datatype Reply =
    | Reply(ctx: Context.Ctx, events: seq<Event>, args: Option<seq<Arg>>)
    | ReplyPanic(msg: string)

  /** What rpcType.ServeHTTPWithContext does with a request (rest/rpc.go:122-185). */
  function ServeSpec(rpc: RpcType, c: Context.Ctx, r: Request, call: Call, marshal: Rsp -> Marshalled): (o: Reply)
    requires WellFormed(rpc)
    ensures o.ReplyPanic? <==> Populate(r, rpc.reqType).PopulatePanic?
    ensures o.Reply? && o.args.None? ==> o.events == [] && Context.Err(o.ctx).Some?
    ensures o.Reply? && o.args.Some? ==> |o.args.value| == rpc.numIn && o.events != []
  {
    match Populate(r, rpc.reqType)
    case PopulatePanic(msg) => ReplyPanic(msg)
    case PopulateFailed(e) => Reply(Context.WithErr(c, Some(e)), [], None)
    case Populated(req) =>
      var args := ArgsFor(rpc, c, req);
      AnswerSpec(rpc, c, call(rpc.name, args), marshal, args)
  }

  /**
   * The reply to a method's result (rest/rpc.go:159-184): the method's own writes,
   * then the delegated handler, a 500, or the JSON reply.
   */
  function AnswerSpec(rpc: RpcType, c: Context.Ctx, res: CallResult, marshal: Rsp -> Marshalled, args: seq<Arg>): (o: Reply)
    ensures o.Reply? && o.args == Some(args)
    ensures MethodWrites(rpc, res) <= o.events
  {
    var own := MethodWrites(rpc, res);
    match res.err
    case HandlerError(h) => Reply(c, own + [Delegated(h)], Some(args))
    case PlainError(_) =>
      Reply(Context.WithErr(c, Some(Context.ErrRpcErr)), own + [ErrorReplied(ApiErrorMsg, StatusInternalServerError)], Some(args))
    case NoError =>
      match marshal(res.rsp)
      case MarshalFailed(_) =>
        Reply(Context.WithErr(c, Some(Context.ErrRpcErr)), own + [ErrorReplied(ApiErrorMsg, StatusInternalServerError)], Some(args))
      case Marshalled(data) => Reply(Context.WithErr(c, None), own + RespondTrace(data), Some(args))
  }

  /** A failed decoding ends the request: the context carries that error, the method is not called, nothing is written. */
  lemma DecodeFailureSkipsCall(rpc: RpcType, c: Context.Ctx, r: Request, call: Call, marshal: Rsp -> Marshalled)
    requires WellFormed(rpc) && Populate(r, rpc.reqType).PopulateFailed?
    ensures ServeSpec(rpc, c, r, call, marshal) == Reply(Context.WithErr(c, Some(Populate(r, rpc.reqType).err)), [], None)
    ensures Context.Err(ServeSpec(rpc, c, r, call, marshal).ctx) == Some(Populate(r, rpc.reqType).err)
  {
  }

  /** The method is called exactly when decoding succeeded, with an argument list of its arity. */
  lemma CalledWithItsArity(rpc: RpcType, c: Context.Ctx, r: Request, call: Call, marshal: Rsp -> Marshalled)
    requires WellFormed(rpc)
    ensures var o := ServeSpec(rpc, c, r, call, marshal);
      (o.Reply? && o.args.Some? <==> Populate(r, rpc.reqType).Populated?) &&
      (o.Reply? && o.args.Some? ==> o.args.value == ArgsFor(rpc, c, Populate(r, rpc.reqType).value) && |o.args.value| == rpc.numIn)
  {
  }

  /** How the method's result maps to the reply (rest/rpc.go:163-184). */
  lemma CallOutcomes(rpc: RpcType, c: Context.Ctx, r: Request, call: Call, marshal: Rsp -> Marshalled)
    requires WellFormed(rpc) && Populate(r, rpc.reqType).Populated?
    ensures
      var args := ArgsFor(rpc, c, Populate(r, rpc.reqType).value);
      var res := call(rpc.name, args);
      var o := ServeSpec(rpc, c, r, call, marshal);
      var own := MethodWrites(rpc, res);
      o.Reply? &&
      (res.err.HandlerError? ==> o.ctx == c && o.events == own + [Delegated(res.err.h)]) &&
      ((res.err.PlainError? || (res.err.NoError? && marshal(res.rsp).MarshalFailed?)) <==>
        Context.Err(o.ctx) == Some(Context.ErrRpcErr) && o.events == own + [ErrorReplied(ApiErrorMsg, StatusInternalServerError)]) &&
      (res.err.NoError? && marshal(res.rsp).Marshalled? ==>
        Context.Err(o.ctx) == None && o.events == own + RespondTrace(marshal(res.rsp).data))
  {
    var args := ArgsFor(rpc, c, Populate(r, rpc.reqType).value);
    var res := call(rpc.name, args);
    var own := MethodWrites(rpc, res);
    if res.err.HandlerError? {
      // a delegated reply ends differently from a 500 reply
      assert (own + [Delegated(res.err.h)])[|own|] == Delegated(res.err.h);
      assert (own + [ErrorReplied(ApiErrorMsg, StatusInternalServerError)])[|own|] != Delegated(res.err.h);
    }
  }

  /** What the adapter returns to its caller. */
  datatype Served = Returned(ctx: Context.Ctx) | Panicked(msg: string)

  /** rpcType.ServeHTTPWithContext (rest/rpc.go:122-185). */
  method ServeRpc(rpc: RpcType, c: Context.Ctx, w: ResponseWriter, r: Request, call: Call, marshal: Rsp -> Marshalled)
    returns (s: Served)
    requires WellFormed(rpc)
    modifies w
    ensures ServeSpec(rpc, c, r, call, marshal).ReplyPanic? ==>
      s == Panicked(ServeSpec(rpc, c, r, call, marshal).msg) && w.events == old(w.events)
    ensures ServeSpec(rpc, c, r, call, marshal).Reply? ==>
      s == Returned(ServeSpec(rpc, c, r, call, marshal).ctx) &&
      w.events == old(w.events) + ServeSpec(rpc, c, r, call, marshal).events
  {
    var req: Option<ReqValue> := None;
    if rpc.reqType.Some? {
      var p := PopulateRequest(r, rpc.reqType);
      match p
      case PopulatePanic(msg) =>
        return Panicked(msg);
      case PopulateFailed(e) =>
        return Returned(Context.WithErr(c, Some(e)));
      case Populated(v) =>
        req := v;
    }
    assert Populate(r, rpc.reqType) == Populated(req);

    var args: seq<Arg> := [];
    if rpc.numIn == 1 {
      args := args + [CtxArg(c)];
    } else if rpc.numIn == 2 {
      args := args + [CtxArg(c), ReqArg(req)];
    } else if rpc.numIn == 3 {
      args := args + [CtxArg(c), WriterArg, RequestArg];
    } else {
      // numIn == 4: WellFormed rules out the source's "not reached." panic
      args := args + [CtxArg(c), WriterArg, RequestArg, ReqArg(req)];
    }
    assert args == ArgsFor(rpc, c, req);

    var result := call(rpc.name, args);
    var ctx := Answer(rpc, c, w, result, marshal, args);
    return Returned(ctx);
  }

  /** The adapter's handling of the method's result (rest/rpc.go:159-184), writing to w. */
  method Answer(rpc: RpcType, c: Context.Ctx, w: ResponseWriter, result: CallResult, marshal: Rsp -> Marshalled, args: seq<Arg>)
    returns (ctx: Context.Ctx)
    modifies w
    ensures ctx == AnswerSpec(rpc, c, result, marshal, args).ctx
    ensures w.events == old(w.events) + AnswerSpec(rpc, c, result, marshal, args).events
  {
    if rpc.numIn >= 3 {
      w.Record(result.written);
    }
    match result.err
    case HandlerError(h) =>
      w.Delegate(h);
      return c;
    case PlainError(_) =>
      w.Error(ApiErrorMsg, StatusInternalServerError);
      return Context.WithErr(c, Some(Context.ErrRpcErr));
    case NoError =>
      var err := Respond(w, result.rsp, marshal);
      if err.Some? {
        w.Error(ApiErrorMsg, StatusInternalServerError);
        return Context.WithErr(c, Some(Context.ErrRpcErr));
      }
      return Context.WithErr(c, None);
  }
}
