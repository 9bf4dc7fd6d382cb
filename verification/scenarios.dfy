/**
  Worked expansions for small declarations, each stated for its exact input.
 */
module Scenarios {
  import opened Wrappers
  import opened Syn
  import opened Generated
  import opened FieldInits
  import opened Derive

  function NamedField(name: string, attrs: seq<Attribute>): Field {
    Field(attrs, Some(name))
  }

  /** `struct Point { x: i32, y: i32 }` becomes `Self { x: mock(), y: mock() }`. */
  lemma PlainRecord()
    ensures DeriveMockImpl(DeriveInput("Point", Struct(Named([NamedField("x", []), NamedField("y", [])]))))
         == MockImpl("Point", BracedBody(SelfType, [NamedInit("x", MockCall), NamedInit("y", MockCall)]))
  {
  }

  /** `struct Wrapped(#[mock_default] String, i32)`: the first slot takes the default,
      the second the mock. */
  lemma DefaultedTupleSlot()
    ensures DeriveMockImpl(DeriveInput("Wrapped", Struct(Unnamed([Field([BareAttribute(MockDefault)], None),
                                                                  Field([], None)]))))
         == MockImpl("Wrapped", TupleBody(SelfType, [DefaultCall, MockCall]))
  {
  }

  /** `#[mock_default(x)]` and `#[damock::mock_default]` are not the bare marker. */
  lemma OtherMarkerFormsIgnored()
    ensures MockOrDefault([Attribute(ListMeta(Path(false, [PathSegment(MockDefault, false)]), "x"))]) == MockCall
    ensures MockOrDefault([Attribute(PathMeta(Path(false, [PathSegment("damock", false),
                                                           PathSegment(MockDefault, false)])))]) == MockCall
  {
  }

  const Circle: Variant := Variant([], "Circle", Named([NamedField("r", [])]))
  const Square: Variant := Variant([BareAttribute(MockMarker)], "Square", Named([NamedField("side", [])]))

  /** `enum Shape { Circle { r }, #[mock] Square { side } }` always builds `Square`. */
  lemma MarkedVariantBuilt()
    ensures DeriveMockImpl(DeriveInput("Shape", Enum([Circle, Square])))
         == MockImpl("Shape", BracedBody(SelfVariant("Square"), [NamedInit("side", MockCall)]))
  {
    assert Selected([Circle, Square], 1);
  }

  /** Two marked variants are ambiguous; none marked, or only `#[mock(..)]`, is an error too. */
  lemma SelectionErrors()
    ensures DeriveMockImpl(DeriveInput("Shape", Enum([Circle.(attrs := [BareAttribute(MockMarker)]), Square]))) == CompileError(AmbiguousMockVariant)
    ensures DeriveMockImpl(DeriveInput("Shape", Enum([Circle]))) == CompileError(NoMockVariant)
    ensures DeriveMockImpl(DeriveInput("Shape", Enum([Circle.(attrs := [Attribute(ListMeta(Path(false, [PathSegment(MockMarker, false)]), ""))])])))
         == CompileError(NoMockVariant)
  {
    assert IsMarked(Square);
    assert IsMarked(Circle.(attrs := [BareAttribute(MockMarker)]));
  }

  /** A union is always rejected. */
  lemma UnionRejected()
    ensures DeriveMockImpl(DeriveInput("Bits", Union)) == CompileError(UnionUnsupported)
  {
  }
}
