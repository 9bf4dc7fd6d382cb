/**
  The code the derive emits, as a small expression language: the
  `Self`-constructor forming the body of `fn mock()`, the initializer given to
  each field, and the whole expansion, which is either the `Mock` impl or a
  compile error.
 */
module Generated {

  /** The two field initializers. */
  datatype Init =
    | MockCall     // ::damock::Mock::mock()
    | DefaultCall  // Default::default()

  /** `name: init` inside a braced constructor. */
  datatype NamedInit = NamedInit(name: string, init: Init)

  /** The constructor path: `Self` for a struct, `Self::V` for variant `V`. */
  datatype Ctor = SelfType | SelfVariant(variant: string)

  /** `C { n1: e1, .. }`, `C(e1, ..)` or `C` alone. */
  datatype Body =
    | BracedBody(ctor: Ctor, named: seq<NamedInit>)
    | TupleBody(ctor: Ctor, positional: seq<Init>)
    | UnitBody(ctor: Ctor)

  /** A diagnostic: the message `syn::Error` carries (its span is not modelled). */
  datatype Error = Error(message: string)

  /** The expansion: `impl ::damock::Mock for T { fn mock() -> Self { body } }`, or a compile error. */
  datatype Output = MockImpl(typeName: string, body: Body) | CompileError(message: string)
}
