/**
  The part of a parsed Rust item declaration that the `Mock` derive reads: the
  item's name, whether it is a struct, an enum or a union, its fields or
  variants, and the attributes written on variants and fields. Generics,
  visibility, field types and container attributes are left out: the derive
  never inspects them.
 */
module Syn {
  import opened Wrappers

  /** A path segment `ident`, or `ident<..>` when `hasArguments` holds. */
  datatype PathSegment = PathSegment(ident: string, hasArguments: bool)

  /** A path such as `mock`, `damock::mock` or `::mock`. */
  datatype Path = Path(leadingColon: bool, segments: seq<PathSegment>)

  /** The three forms the contents of an attribute `#[..]` can take. */
  datatype Meta =
    | PathMeta(path: Path)                      // #[path]
    | ListMeta(path: Path, tokens: string)      // #[path(tokens)]
    | NameValueMeta(path: Path, value: string)  // #[path = value]

  datatype Attribute = Attribute(meta: Meta)

  /** A field of a struct or variant; `ident` is `None` for positional fields. */
  datatype Field = Field(attrs: seq<Attribute>, ident: Option<string>)

  /** The three field shapes: `{ a: A, .. }`, `(A, ..)` and no fields at all. */
  datatype Fields = Named(named: seq<Field>) | Unnamed(unnamed: seq<Field>) | Unit

  datatype Variant = Variant(attrs: seq<Attribute>, ident: string, fields: Fields)

  datatype Data = Struct(fields: Fields) | Enum(variants: seq<Variant>) | Union

  /** The item a derive macro is invoked on. */
  datatype DeriveInput = DeriveInput(ident: string, data: Data)

  /** `Path::is_ident`: the path is exactly the one plain identifier `name`. */
  predicate IsIdent(p: Path, name: string) {
    && !p.leadingColon
    && |p.segments| == 1
    && !p.segments[0].hasArguments
    && p.segments[0].ident == name
  }

  /** The attribute is written `#[name]`: a bare path, with no arguments and no value. */
  predicate IsBare(a: Attribute, name: string) {
    a.meta.PathMeta? && IsIdent(a.meta.path, name)
  }

  /** The attribute `#[name]`. */
  function BareAttribute(name: string): (a: Attribute)
    ensures IsBare(a, name)
  {
    Attribute(PathMeta(Path(false, [PathSegment(name, false)])))
  }

  /** Every field carries an identifier, as syn guarantees for named fields. */
  predicate HasIdents(fields: seq<Field>) {
    forall i :: 0 <= i < |fields| ==> fields[i].ident.Some?
  }

  /** Named fields all carry identifiers; other shapes need nothing. */
  predicate WellFormed(f: Fields) {
    f.Named? ==> HasIdents(f.named)
  }
}
