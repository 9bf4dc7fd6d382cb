/**
  The derivation itself: `derive_struct`, `derive_enum` and `derive_mock_impl`.
  A struct always yields a `Self` constructor; an enum yields the constructor of
  the one variant marked `#[mock]`, or an error when no variant or more than one
  is marked; a union is rejected. A successful body is placed inside the `Mock`
  impl for the type, and any error becomes a compile error instead.
 */
module Derive {
  import opened Wrappers
  import opened Syn
  import opened Generated
  import opened FieldInits
  import opened Tokens

  /** The variant attribute that selects the variant to construct. */
  const MockMarker: string := "mock"

  const UnionUnsupported: string := "union types not supported"
  const NoMockVariant: string := "no #[mock] attribute found in any of the listed variants"
  const AmbiguousMockVariant: string :=
    "expected only one #[mock] enum variant attribute, unable to infer which one to use."

  /** `Iterator::find` over attributes: the first one written `#[name]`, if any. */
  function FindBare(attrs: seq<Attribute>, name: string): (r: Option<Attribute>)
    ensures r.None? <==> forall i :: 0 <= i < |attrs| ==> !IsBare(attrs[i], name)
    ensures r.Some? ==> exists i :: 0 <= i < |attrs| && attrs[i] == r.value && IsBare(r.value, name)
  {
    if |attrs| == 0 then None
    else if IsBare(attrs[0], name) then Some(attrs[0])
    else
      var rest := FindBare(attrs[1..], name);
      assert forall i :: 1 <= i < |attrs| ==> attrs[i] == attrs[1..][i - 1];
      rest
  }

  /** The variant passes the `filter_map` of `derive_enum`: it carries a bare `#[mock]`. */
  predicate IsMarked(v: Variant) {
    FindBare(v.attrs, MockMarker).Some?
  }

  /** Variant `i` is the one and only marked variant. */
  predicate Selected(vs: seq<Variant>, i: int) {
    && 0 <= i < |vs|
    && IsMarked(vs[i])
    && forall j :: 0 <= j < |vs| && j != i ==> !IsMarked(vs[j])
  }

  /** `next()` on the filtered variant iterator positioned at `from`: the index of the
      first marked variant at or after `from`. */
  function NextMarked(vs: seq<Variant>, from: nat): (r: Option<nat>)
    requires from <= |vs|
    ensures r.None? <==> forall i :: from <= i < |vs| ==> !IsMarked(vs[i])
    ensures r.Some? ==> && from <= r.value < |vs|
                        && IsMarked(vs[r.value])
                        && forall i :: from <= i < r.value ==> !IsMarked(vs[i])
    decreases |vs| - from
  {
    if from == |vs| then None
    else if IsMarked(vs[from]) then Some(from)
    else NextMarked(vs, from + 1)
  }

  /** The shape dispatch shared by `derive_struct` and `derive_enum`: a braced, tuple
      or unit constructor, matching the shape of the fields. */
  function Construct(ctor: Ctor, fields: Fields): (b: Body)
    requires WellFormed(fields)
    ensures b.ctor == ctor
    ensures fields.Named? ==> b.BracedBody? && Names(b.named) == Idents(fields.named)
                              && Inits(b.named) == Tuple(fields.named)
    ensures fields.Unnamed? ==> b.TupleBody? && b.positional == Tuple(fields.unnamed)
    ensures fields.Unit? ==> b.UnitBody?
  {
    match fields
    case Named(fs) =>
      NamedKeepsNames(fs);
      NamedWithoutNamesIsTuple(fs);
      BracedBody(ctor, FieldInits.Named(fs))
    case Unnamed(fs) => TupleBody(ctor, FieldInits.Tuple(fs))
    case Unit => UnitBody(ctor)
  }

  /** `derive_struct`: never fails, and builds `Self` from the struct's own fields. */
  function DeriveStruct(fields: Fields): (r: Result<Body, Error>)
    requires WellFormed(fields)
    ensures r.Ok? && r.value.ctor == SelfType
    ensures fields.Named? <==> r.value.BracedBody?
    ensures fields.Unnamed? <==> r.value.TupleBody?
    ensures fields.Unit? <==> r.value.UnitBody?
    ensures fields.Named? ==> Names(r.value.named) == Idents(fields.named)
                              && Inits(r.value.named) == Tuple(fields.named)
    ensures fields.Unnamed? ==> r.value.positional == Tuple(fields.unnamed)
  {
    Ok(Construct(SelfType, fields))
  }

  /** The one marked variant, if any, has the identifiers its named fields need. */
  predicate SelectionWellFormed(vs: seq<Variant>) {
    forall i :: 0 <= i < |vs| && Selected(vs, i) ==> WellFormed(vs[i].fields)
  }

  /** `derive_enum`: the constructor of the sole `#[mock]` variant. */
  function DeriveEnum(vs: seq<Variant>): (r: Result<Body, Error>)
    requires SelectionWellFormed(vs)
    ensures r == Err(Error(NoMockVariant)) <==> forall i :: 0 <= i < |vs| ==> !IsMarked(vs[i])
    ensures r == Err(Error(AmbiguousMockVariant))
        <==> exists i, j :: 0 <= i < j < |vs| && IsMarked(vs[i]) && IsMarked(vs[j])
    ensures r.Ok? <==> exists i :: Selected(vs, i)
    ensures forall i :: Selected(vs, i) ==> r == Ok(Construct(SelfVariant(vs[i].ident), vs[i].fields))
  {
    match NextMarked(vs, 0)
    case None => Err(Error(NoMockVariant))
    case Some(i) =>
      if NextMarked(vs, i + 1).Some? then
        Err(Error(AmbiguousMockVariant))
      else
        assert Selected(vs, i);
        Ok(Construct(SelfVariant(vs[i].ident), vs[i].fields))
  }

  /** What the derive demands of its input beyond what the types say: the named fields
      it reads carry identifiers. */
  predicate Admissible(data: Data) {
    match data
    case Struct(fields) => WellFormed(fields)
    case Enum(vs) => SelectionWellFormed(vs)
    case Union => true
  }

  /** The body of `fn mock()`, or the reason there is none. */
  function DeriveBody(data: Data): (r: Result<Body, Error>)
    requires Admissible(data)
    ensures data.Union? ==> r == Err(Error(UnionUnsupported))
    ensures data.Struct? ==> r == Ok(Construct(SelfType, data.fields))
    ensures data.Enum? ==> r == DeriveEnum(data.variants)
  {
    match data
    case Struct(fields) => DeriveStruct(fields)
    case Enum(vs) => DeriveEnum(vs)
    case Union => Err(Error(UnionUnsupported))
  }

  /** `derive_mock_impl`: the `Mock` impl for the type, or a compile error and nothing else. */
  function DeriveMockImpl(input: DeriveInput): (r: Output)
    requires Admissible(input.data)
    ensures r.MockImpl? ==> r.typeName == input.ident
    ensures input.data.Union? ==> r == CompileError(UnionUnsupported)
    ensures input.data.Struct? ==> r == MockImpl(input.ident, Construct(SelfType, input.data.fields))
    ensures input.data.Enum? ==>
      (r.MockImpl? <==> exists i :: Selected(input.data.variants, i))
    ensures input.data.Enum? ==>
      forall i :: Selected(input.data.variants, i) ==>
        r == MockImpl(input.ident, Construct(SelfVariant(input.data.variants[i].ident),
                                             input.data.variants[i].fields))
    ensures r.CompileError? <==> DeriveBody(input.data).Err?
    ensures DeriveBody(input.data).Err? ==> r == CompileError(DeriveBody(input.data).error.message)
  {
    match DeriveBody(input.data)
    case Ok(body) => MockImpl(input.ident, body)
    case Err(e) => CompileError(e.message)
  }

  /** `derive_mock_impl` at the level of tokens: the stream the macro hands back to
      the compiler. It reads back as exactly the expansion, and it opens with `impl`
      precisely when the derivation succeeded. */
  function Expand(input: DeriveInput): (ts: seq<Token>)
    requires Admissible(input.data)
    ensures ParseOutput(ts) == Some(DeriveMockImpl(input))
    ensures DeriveBody(input.data).Ok? ==>
      ts == ImplHead + [Ident(input.ident),
                        Group(Brace, FnHead + [Group(Brace, BodyTokens(DeriveBody(input.data).value))])]
    ensures DeriveBody(input.data).Err? ==>
      ts == CompileErrorHead + [Group(Brace, [Literal(DeriveBody(input.data).error.message)])]
    ensures |ts| > 0 && (ts[0] == Ident("impl") <==> DeriveBody(input.data).Ok?)
  {
    OutputRoundTrip(DeriveMockImpl(input));
    OutputTokens(DeriveMockImpl(input))
  }

  // The lazy scan of `derive_enum` against the plain filter it abbreviates.

  /** The `filter_map` of `derive_enum` run to the end: the marked variants, in order. */
  function Marked(vs: seq<Variant>): seq<Variant> {
    if |vs| == 0 then []
    else (if IsMarked(vs[0]) then [vs[0]] else []) + Marked(vs[1..])
  }

  /** One `next()` on the filtered iterator takes the head of the remaining filter. */
  lemma {:induction false} NextMarkedIsFilterHead(vs: seq<Variant>, from: nat)
    requires from <= |vs|
    ensures NextMarked(vs, from).None? ==> Marked(vs[from..]) == []
    ensures NextMarked(vs, from).Some? ==>
      Marked(vs[from..]) == [vs[NextMarked(vs, from).value]] + Marked(vs[NextMarked(vs, from).value + 1..])
    decreases |vs| - from
  {
    if from == |vs| {
      assert vs[from..] == [];
    } else {
      var t := vs[from..];
      assert t[0] == vs[from];
      assert t[1..] == vs[from + 1..];
      assert Marked(t) == (if IsMarked(vs[from]) then [vs[from]] else []) + Marked(vs[from + 1..]);
      if !IsMarked(vs[from]) {
        NextMarkedIsFilterHead(vs, from + 1);
      }
    }
  }

  /** A single marked variant is the selected one. */
  lemma SingleMarkedIsSelected(vs: seq<Variant>)
    requires |Marked(vs)| == 1
    ensures exists i :: Selected(vs, i) && vs[i] == Marked(vs)[0]
  {
    assert vs[0..] == vs;
    NextMarkedIsFilterHead(vs, 0);
    var k := NextMarked(vs, 0).value;
    NextMarkedIsFilterHead(vs, k + 1);
    assert Selected(vs, k);
  }

  /** `derive_enum` written as a count over the whole filter: no marked variant, more
      than one, or exactly one. */
  function DeriveEnumByFilter(vs: seq<Variant>): Result<Body, Error>
    requires SelectionWellFormed(vs)
  {
    var m := Marked(vs);
    if |m| == 0 then Err(Error(NoMockVariant))
    else if |m| > 1 then Err(Error(AmbiguousMockVariant))
    else
      SingleMarkedIsSelected(vs);
      Ok(Construct(SelfVariant(m[0].ident), m[0].fields))
  }

  /** Taking two elements from the lazy iterator decides exactly what counting the
      whole filter decides. */
  lemma LazyScanIsFilter(vs: seq<Variant>)
    requires SelectionWellFormed(vs)
    ensures DeriveEnum(vs) == DeriveEnumByFilter(vs)
  {
    assert vs[0..] == vs;
    NextMarkedIsFilterHead(vs, 0);
    if NextMarked(vs, 0).Some? {
      var k := NextMarked(vs, 0).value;
      NextMarkedIsFilterHead(vs, k + 1);
      if NextMarked(vs, k + 1).Some? {
        var j := NextMarked(vs, k + 1).value;
        assert |Marked(vs[k + 1..])| >= 1;
      } else {
        assert Selected(vs, k);
      }
    }
  }

  /** Variants without a bare `#[mock]` have no influence on the output: two enums with
      the same marked variants, in the same order, derive the same body. */
  lemma OnlyMarkedVariantsMatter(vs: seq<Variant>, ws: seq<Variant>)
    requires SelectionWellFormed(vs) && SelectionWellFormed(ws)
    requires Marked(vs) == Marked(ws)
    ensures DeriveEnum(vs) == DeriveEnum(ws)
  {
    LazyScanIsFilter(vs);
    LazyScanIsFilter(ws);
  }

  /** The selected variant alone derives what the whole enum derives. */
  lemma SelectedVariantAlone(vs: seq<Variant>, i: int)
    requires SelectionWellFormed(vs) && Selected(vs, i)
    ensures DeriveEnum(vs) == DeriveEnum([vs[i]])
  {
  }
}
