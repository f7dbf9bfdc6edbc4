/**
 * The per-request value carrier (golang.org/x/net/context as used by mux and rest):
 * a chain of values, each under its own package's key. mux stores the capture map
 * (mux/mux.go:63-70), rest stores the last error (rest/rpc.go:109-120).
 */
module Context {
  import opened Wrappers

  /** The error values rest stores; `ErrMethodNotAllowed`'s text is "method not found" (rest/rest.go:11). */
  datatype Error =
    | ErrContentType                  // "Content-Type not supported"
    | ErrMultipartMismatch            // "multipart/form-data rpc mismatch"
    | MediaTypeError(reason: string)  // returned by mime.ParseMediaType
    | DecodeError(reason: string)     // returned by the JSON or form codec
    | ErrRpcErr                       // "rest rpc err"
    | ErrMethodNotAllowed

  /** A context: the background, or a parent with one more value under the mux key or the rest key. */
  datatype Ctx =
    | Background
    | WithCaptures(parent: Ctx, captures: Option<map<string, string>>)
    | WithErr(parent: Ctx, err: Option<Error>)

  /**
   * mux.FromContext: the innermost value under the mux key. A nil map is still a
   * value of the right type, so `ok` holds as soon as the router has stored one.
   */
  function FromContext(c: Ctx): (r: (Option<map<string, string>>, bool))
    ensures !r.1 ==> r.0 == None
    ensures c.WithCaptures? ==> r == (c.captures, true)
  {
    match c
    case Background => (None, false)
    case WithCaptures(_, caps) => (caps, true)
    case WithErr(p, _) => FromContext(p)
  }

  /** rest.Err: the innermost value under the rest key; a stored nil error reads as nil. */
  function Err(c: Ctx): (r: Option<Error>)
    ensures c.WithErr? ==> r == c.err
    ensures c == Background ==> r == None
  {
    match c
    case Background => None
    case WithCaptures(p, _) => Err(p)
    case WithErr(_, e) => e
  }

  /** The two packages' keys do not collide: each lookup sees through the other package's values. */
  lemma {:induction false} KeysIndependent(c: Ctx, caps: Option<map<string, string>>, e: Option<Error>)
    ensures Err(WithCaptures(c, caps)) == Err(c)
    ensures FromContext(WithErr(c, e)) == FromContext(c)
  {
  }
}
