# damock `#[derive(Mock)]`, modelled in Dafny

damock's derive macro writes `impl ::damock::Mock for T { fn mock() -> Self { .. } }`
for a struct or an enum. The generated function builds a fixed test value of `T`.
Each field gets `::damock::Mock::mock()`, or `Default::default()` when the field is
marked `#[mock_default]`. An enum builds the single variant marked `#[mock]`.
This project models that derivation as pure functions over immutable datatypes
and proves what it promises.

- `wrappers.dfy` (`Wrappers`): `Option` and `Result`.
- `syn.dfy` (`Syn`): the parsed declaration the macro receives. It covers paths,
  the three attribute forms (`#[p]`, `#[p(..)]`, `#[p = ..]`), fields, the three
  field shapes, variants, and struct, enum and union data. It also holds
  `Path::is_ident`.
- `generated.dfy` (`Generated`): the generated code as a small expression
  language. It covers the two field initializers, `Self`/`Self::V` constructors
  in braced, tuple and unit form, and the expansion, which is either the impl or
  a compile error.
- `fields.dfy` (`FieldInits`): `mod fields`, that is `mock_or_default`, `named`
  and `tuple`.
- `derive.dfy` (`Derive`): `derive_struct`, `derive_enum` and `derive_mock_impl`.
  The lazy "take two from the filtered iterator" scan is proved equal to a
  count of the marked variants (`LazyScanIsFilter`).
- `tokens.dfy` (`Tokens`): the token trees `quote!` emits for the generated code,
  and a reader for them. Every expansion reads back from its tokens.
- `scenarios.dfy` (`Scenarios`): worked expansions of small declarations.

## Model

| member | source | states |
|---|---|---|
| FieldInits.AnyBare | crates/macros/src/lib.rs:135-137 | the scan of a field's attributes is true exactly when some attribute is the bare path `#[name]` |
| FieldInits.MockOrDefault | crates/macros/src/lib.rs:134-142 | a field gets `Default::default()` if and only if one of its attributes is a bare `#[mock_default]`, and `::damock::Mock::mock()` otherwise |
| FieldInits.AttributeSetDecides | crates/macros/src/lib.rs:134-142 | the strategy depends only on which attributes occur, not on their order or how often they repeat |
| FieldInits.RepeatedMarkerActsOnce | crates/macros/src/lib.rs:134-142 | a doubled `#[mock_default]` selects the default exactly as a single one does |
| FieldInits.Named | crates/macros/src/lib.rs:117-128 | one initializer per named field, in declaration order, each carrying that field's own identifier and strategy; identifiers are required |
| FieldInits.Tuple | crates/macros/src/lib.rs:130-132 | one initializer per positional field, and initializer i is the default exactly when field i carries the marker |
| FieldInits.NamedKeepsNames | crates/macros/src/lib.rs:117-128 | the names assigned in the braced body are exactly the declared identifiers, in order |
| FieldInits.NamedWithoutNamesIsTuple | crates/macros/src/lib.rs:117-132 | named and positional fields pick each field's strategy identically: dropping the names from the named initializers gives the tuple initializers |
| FieldInits.TupleAppend | crates/macros/src/lib.rs:130-132 | initializers are produced field by field, so concatenated field lists give concatenated initializers |
| Derive.FindBare | crates/macros/src/lib.rs:63-70 | the search of a variant's attributes finds something exactly when a bare `#[name]` is present, and what it finds is such an attribute |
| Derive.NextMarked | crates/macros/src/lib.rs:62-81 | one `next()` of the filtered variant iterator yields the first marked variant at or after the current position, or nothing when none remains |
| Derive.Construct | crates/macros/src/lib.rs:90-111 | the body has the shape of the fields: braced with the declared names and their strategies, tuple with per-slot strategies, or the bare path, under the given `Self`/`Self::V` constructor |
| Derive.DeriveStruct | crates/macros/src/lib.rs:41-59 | a struct never fails; it yields `Self {..}`, `Self(..)` or `Self` matching its field shape, with the declared names and per-field strategies |
| Derive.DeriveEnum | crates/macros/src/lib.rs:61-112 | the "no #[mock]" error if and only if no variant is marked; the "only one #[mock]" error if and only if two or more are; success if and only if exactly one is, and then the body is built from that variant's name and fields alone |
| Derive.DeriveBody | crates/macros/src/lib.rs:19-24 | dispatch on the declaration kind: a union is always "union types not supported", a struct always succeeds with `derive_struct`'s `Self` body, an enum is `derive_enum` |
| Derive.DeriveMockImpl | crates/macros/src/lib.rs:14-38 | the expansion is the impl for the declared type name exactly when the body was derived, and otherwise a compile error carrying exactly the derived error's message |
| Derive.Expand | crates/macros/src/lib.rs:26-38 | the returned token stream is `impl ::damock::Mock for T { fn mock() -> Self { body } }` on success and `::core::compile_error!{..}` on failure, starts with `impl` only on success, and reads back as the expansion |
| Derive.NextMarkedIsFilterHead | crates/macros/src/lib.rs:62-81 | a `next()` on the lazy iterator returns the head of the fully evaluated filter of marked variants |
| Derive.SingleMarkedIsSelected | crates/macros/src/lib.rs:74-88 | when the filter holds exactly one variant, that variant is the one and only marked variant of the enum |
| Derive.LazyScanIsFilter | crates/macros/src/lib.rs:61-86 | taking at most two elements of the lazy iterator decides exactly what counting all marked variants decides |
| Derive.OnlyMarkedVariantsMatter | crates/macros/src/lib.rs:88-111 | enums with the same marked variants derive the same result, whatever their unmarked variants are |
| Derive.SelectedVariantAlone | crates/macros/src/lib.rs:88-111 | the selected variant on its own derives what the whole enum derives |
| Tokens.InitTokens | crates/macros/src/lib.rs:139-140 | each initializer's tokens are non-empty and hold no top-level comma, so the list separators stay unambiguous |
| Tokens.NamedInitTokens | crates/macros/src/lib.rs:127 | `name: init` tokens are non-empty and hold no top-level comma |
| Tokens.InitItems | crates/macros/src/lib.rs:55 | the tuple list has one item per initializer, item i being the tokens of initializer i, each non-empty and comma-free |
| Tokens.NamedItems | crates/macros/src/lib.rs:46-50 | the braced list has one item per named initializer, item i being the tokens of `name_i: init_i`, each non-empty and comma-free |
| Tokens.SplitJoin | crates/macros/src/lib.rs:46-55 | the `#(..),*` separator loses nothing: cutting the joined list at its commas gives back the items |
| Tokens.BodyRoundTrip | crates/macros/src/lib.rs:90-111 | every generated constructor body is recovered from its tokens |
| Tokens.OutputRoundTrip | crates/macros/src/lib.rs:26-36 | every expansion, impl or compile error, is recovered from its tokens |
| Scenarios.PlainRecord | crates/macros/src/lib.rs:41-51 | `struct Point { x, y }` becomes `Self { x: mock(), y: mock() }` |
| Scenarios.DefaultedTupleSlot | crates/macros/src/lib.rs:52-55 | `struct Wrapped(#[mock_default] String, i32)` becomes `Self(Default::default(), mock())` |
| Scenarios.OtherMarkerFormsIgnored | crates/macros/src/lib.rs:137 | `#[mock_default(x)]` and `#[damock::mock_default]` do not select the default |
| Scenarios.MarkedVariantBuilt | crates/macros/src/lib.rs:88-99 | `enum Shape { Circle {r}, #[mock] Square {side} }` builds `Self::Square { side: mock() }` |
| Scenarios.SelectionErrors | crates/macros/src/lib.rs:74-86 | two marked variants are ambiguous; no marked variant, or only `#[mock(..)]`, is the "no #[mock]" error |
| Scenarios.UnionRejected | crates/macros/src/lib.rs:23 | a union yields only the "union types not supported" compile error |

## Left out

- Parsing the macro input (`parse_macro_input!`) and its failure path are left out. The model starts from an already parsed declaration.
- Error spans are not modelled. An error is its message only; in the source it also points at the `union` or `enum` keyword.
- Generics, visibility, field types and container attributes are not modelled. The impl header drops generics, and nothing else reads these.
- Conditional-compilation gating is left out. `derive_mock_impl` does not copy any `cfg_attr(.., derive(Mock))` predicate onto the impl, so there is no conditional-compilation handling to model.
- The runtime traits (`Mock`, `MockOther`, and the `Option<T>` and `()` impls in `crates/core/src/lib.rs`) are left out. `Mock::mock()` and `Default::default()` stay uninterpreted expression nodes.
- Whether `mock()` terminates for recursive types is left out. That is decided by the type system, not by the macro.
- A named field without an identifier is excluded by a precondition. It is not modelled as a panic, because syn never produces one.
- In the token model, `::`, `->` and `,` are single punctuation tokens rather than `proc_macro2`'s runs of joint one-character punctuation. A string literal token holds its value, not its quoted spelling.
