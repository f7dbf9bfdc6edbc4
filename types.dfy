/**
 * Go types as far as the method adapter looks at them (rest/rpc.go:28-50): a type
 * is a pointer to another type or a named type with its package path. Unnamed
 * types have the empty name, and predeclared ones the empty package path.
 */
module Types {

  datatype Ty = Ptr(elem: Ty) | Named(name: string, pkgPath: string)

  /** The fixed types the adapter compares parameters against. */
  const ContextType := Named("Context", "golang.org/x/net/context")
  const ResponseWriterType := Named("ResponseWriter", "net/http")
  const RequestPtrType := Ptr(Named("Request", "net/http"))
  const MultipartFormType := Ptr(Named("Form", "mime/multipart"))
  const ErrorType := Named("error", "")

  /** unicode.IsUpper, for the ASCII letters. */
  predicate IsUpper(c: char)
  {
    'A' <= c <= 'Z'
  }

  /** isExported (rpc.go:37-40): the first rune is upper case; the empty name decodes to RuneError, which is not. */
  function IsExported(name: string): (r: bool)
    ensures r <==> |name| > 0 && 'A' <= name[0] <= 'Z'
    ensures name == "" ==> !r
  {
    |name| > 0 && IsUpper(name[0])
  }

  /** The named type under all pointer layers. */
  function Base(t: Ty): (b: Ty)
    ensures b.Named?
    ensures t.Named? ==> b == t
    ensures t.Ptr? ==> b == Base(t.elem)
  {
    match t
    case Ptr(e) => Base(e)
    case Named(_, _) => t
  }

  /** The judgement isExportedOrBuiltinType makes: the base type has an exported name or no package. */
  predicate ExportedOrBuiltin(t: Ty)
  {
    IsExported(Base(t).name) || Base(t).pkgPath == ""
  }

  /** isExportedOrBuiltinType (rpc.go:43-50): dereference every pointer layer, then judge the named type. */
  method IsExportedOrBuiltinType(t0: Ty) returns (b: bool)
    ensures b == ExportedOrBuiltin(t0)
  {
    var t := t0;
    while t.Ptr?
      invariant Base(t) == Base(t0)
      decreases t
    {
      t := t.elem;
    }
    b := IsExported(t.name) || t.pkgPath == "";
  }
}
