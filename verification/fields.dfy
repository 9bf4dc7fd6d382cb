/**
  The field initializers of `mod fields`: every field becomes either
  `::damock::Mock::mock()` or, when it carries `#[mock_default]`,
  `Default::default()`; named fields pair that initializer with their
  identifier.
 */
module FieldInits {
  import opened Wrappers
  import opened Syn
  import opened Generated

  /** The field attribute that selects `Default::default()`. */
  const MockDefault: string := "mock_default"

  /** The field is marked `#[mock_default]` (reference definition). */
  predicate MarkedDefault(attrs: seq<Attribute>) {
    exists i :: 0 <= i < |attrs| && IsBare(attrs[i], MockDefault)
  }

  /** `Iterator::any` over attributes: the first bare `#[name]` found stops the scan. */
  function AnyBare(attrs: seq<Attribute>, name: string): (r: bool)
    ensures r <==> exists i :: 0 <= i < |attrs| && IsBare(attrs[i], name)
  {
    if |attrs| == 0 then false
    else if IsBare(attrs[0], name) then true
    else
      var rest := AnyBare(attrs[1..], name);
      assert forall i :: 1 <= i < |attrs| ==> attrs[i] == attrs[1..][i - 1];
      rest
  }

  /** `mock_or_default`: the initializer a field with these attributes receives. */
  function MockOrDefault(attrs: seq<Attribute>): (r: Init)
    ensures r == DefaultCall <==> MarkedDefault(attrs)
    ensures r == MockCall <==> !MarkedDefault(attrs)
  {
    if AnyBare(attrs, MockDefault) then DefaultCall else MockCall
  }

  /** `fields::named`: one `name: init` per field, in declaration order. */
  function Named(fields: seq<Field>): (r: seq<NamedInit>)
    requires HasIdents(fields)
    ensures |r| == |fields|
    ensures forall i :: 0 <= i < |r| ==> r[i].name == fields[i].ident.value
    ensures forall i :: 0 <= i < |r| ==> (r[i].init == DefaultCall <==> MarkedDefault(fields[i].attrs))
  {
    if |fields| == 0 then []
    else [NamedInit(fields[0].ident.value, MockOrDefault(fields[0].attrs))] + Named(fields[1..])
  }

  /** `fields::tuple`: initializer `i` fills positional slot `i`. */
  function Tuple(fields: seq<Field>): (r: seq<Init>)
    ensures |r| == |fields|
    ensures forall i :: 0 <= i < |r| ==> (r[i] == DefaultCall <==> MarkedDefault(fields[i].attrs))
  {
    if |fields| == 0 then []
    else [MockOrDefault(fields[0].attrs)] + Tuple(fields[1..])
  }

  /** The names a braced constructor assigns, in order. */
  function Names(ns: seq<NamedInit>): (r: seq<string>)
    ensures |r| == |ns|
    ensures forall i :: 0 <= i < |ns| ==> r[i] == ns[i].name
  {
    seq(|ns|, i requires 0 <= i < |ns| => ns[i].name)
  }

  /** The initializers of a braced constructor with the names dropped. */
  function Inits(ns: seq<NamedInit>): (r: seq<Init>)
    ensures |r| == |ns|
    ensures forall i :: 0 <= i < |ns| ==> r[i] == ns[i].init
  {
    seq(|ns|, i requires 0 <= i < |ns| => ns[i].init)
  }

  /** The declared identifiers of named fields, in order. */
  function Idents(fields: seq<Field>): (r: seq<string>)
    requires HasIdents(fields)
    ensures |r| == |fields|
    ensures forall i :: 0 <= i < |fields| ==> Some(r[i]) == fields[i].ident
  {
    seq(|fields|, i requires 0 <= i < |fields| && HasIdents(fields) => fields[i].ident.value)
  }

  /** The named initializers assign exactly the declared names, in declaration order. */
  lemma NamedKeepsNames(fields: seq<Field>)
    requires HasIdents(fields)
    ensures Names(Named(fields)) == Idents(fields)
  {
  }

  /** Dropping the names from `fields::named` gives `fields::tuple` of the same fields:
      both shapes choose each field's strategy the same way. */
  lemma NamedWithoutNamesIsTuple(fields: seq<Field>)
    requires HasIdents(fields)
    ensures Inits(Named(fields)) == Tuple(fields)
  {
  }

  /** Initializers are emitted field by field: splitting the field list splits the output. */
  lemma TupleAppend(a: seq<Field>, b: seq<Field>)
    ensures Tuple(a + b) == Tuple(a) + Tuple(b)
  {
  }

  /** Only which attributes occur matters, not their order or how often they repeat. */
  lemma AttributeSetDecides(a: seq<Attribute>, b: seq<Attribute>)
    requires forall x :: x in a <==> x in b
    ensures MockOrDefault(a) == MockOrDefault(b)
  {
    if MarkedDefault(a) {
      var i :| 0 <= i < |a| && IsBare(a[i], MockDefault);
      assert a[i] in b;
    }
    if MarkedDefault(b) {
      var i :| 0 <= i < |b| && IsBare(b[i], MockDefault);
      assert b[i] in a;
    }
  }

  /** A repeated `#[mock_default]` behaves like a single one. */
  lemma RepeatedMarkerActsOnce(pre: seq<Attribute>, post: seq<Attribute>)
    ensures MockOrDefault(pre + [BareAttribute(MockDefault)] + post)
         == MockOrDefault(pre + [BareAttribute(MockDefault), BareAttribute(MockDefault)] + post)
         == DefaultCall
  {
    AttributeSetDecides(pre + [BareAttribute(MockDefault)] + post,
                        pre + [BareAttribute(MockDefault), BareAttribute(MockDefault)] + post);
    assert (pre + [BareAttribute(MockDefault)] + post)[|pre|] == BareAttribute(MockDefault);
  }
}
