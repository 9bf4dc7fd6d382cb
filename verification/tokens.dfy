/**
  The token trees `quote!` emits for the generated code, and a reader for
  them. Rendering and reading are inverse: every generated expansion can be
  read back from its tokens, so the tokens say exactly what the expansion says.
  `::`, `->` and `,` are single punctuation tokens here, and a string literal
  token holds its value.
 */
module Tokens {
  import opened Wrappers
  import opened Generated

  datatype Delimiter = Parenthesis | Brace

  /** A token tree, as `proc_macro2::TokenTree`. */
  datatype Token =
    | Ident(name: string)
    | Punct(op: string)
    | Literal(text: string)
    | Group(delim: Delimiter, stream: seq<Token>)

  const Comma: Token := Punct(",")
  const PathSep: Token := Punct("::")

  /** `::damock::Mock::mock()` */
  const MockCallTokens: seq<Token> :=
    [PathSep, Ident("damock"), PathSep, Ident("Mock"), PathSep, Ident("mock"), Group(Parenthesis, [])]

  /** `Default::default()` */
  const DefaultCallTokens: seq<Token> :=
    [Ident("Default"), PathSep, Ident("default"), Group(Parenthesis, [])]

  /** `impl ::damock::Mock for`, the head of the impl before the type's name. */
  const ImplHead: seq<Token> := [Ident("impl"), PathSep, Ident("damock"), PathSep, Ident("Mock"), Ident("for")]

  /** `fn mock() -> Self`, the signature before the body's braces. */
  const FnHead: seq<Token> := [Ident("fn"), Ident("mock"), Group(Parenthesis, []), Punct("->"), Ident("Self")]

  /** `::core::compile_error!`, the head of what `syn::Error::to_compile_error` emits. */
  const CompileErrorHead: seq<Token> := [PathSep, Ident("core"), PathSep, Ident("compile_error"), Punct("!")]

  function InitTokens(e: Init): (ts: seq<Token>)
    ensures |ts| > 0 && Comma !in ts
  {
    match e
    case MockCall => MockCallTokens
    case DefaultCall => DefaultCallTokens
  }

  function NamedInitTokens(n: NamedInit): (ts: seq<Token>)
    ensures |ts| > 0 && Comma !in ts
  {
    [Ident(n.name), Punct(":")] + InitTokens(n.init)
  }

  /** The items of `#(#inits),*`, one token list per initializer. */
  function InitItems(es: seq<Init>): (items: seq<seq<Token>>)
    ensures |items| == |es|
    ensures forall i :: 0 <= i < |items| ==> items[i] == InitTokens(es[i])
    ensures forall i :: 0 <= i < |items| ==> |items[i]| > 0 && Comma !in items[i]
  {
    if |es| == 0 then [] else [InitTokens(es[0])] + InitItems(es[1..])
  }

  /** The items of `#(#fields),*` for named initializers. */
  function NamedItems(ns: seq<NamedInit>): (items: seq<seq<Token>>)
    ensures |items| == |ns|
    ensures forall i :: 0 <= i < |items| ==> items[i] == NamedInitTokens(ns[i])
    ensures forall i :: 0 <= i < |items| ==> |items[i]| > 0 && Comma !in items[i]
  {
    if |ns| == 0 then [] else [NamedInitTokens(ns[0])] + NamedItems(ns[1..])
  }

  /** `#(#items),*`: the items with a comma between neighbours and none trailing. */
  function Join(items: seq<seq<Token>>): seq<Token> {
    if |items| == 0 then []
    else if |items| == 1 then items[0]
    else items[0] + [Comma] + Join(items[1..])
  }

  function CtorTokens(c: Ctor): seq<Token> {
    match c
    case SelfType => [Ident("Self")]
    case SelfVariant(v) => [Ident("Self"), PathSep, Ident(v)]
  }

  function BodyTokens(b: Body): seq<Token> {
    match b
    case BracedBody(c, ns) => CtorTokens(c) + [Group(Brace, Join(NamedItems(ns)))]
    case TupleBody(c, es) => CtorTokens(c) + [Group(Parenthesis, Join(InitItems(es)))]
    case UnitBody(c) => CtorTokens(c)
  }

  /** The token stream the derive returns for an expansion. */
  function OutputTokens(o: Output): seq<Token> {
    match o
    case MockImpl(t, b) =>
      ImplHead + [Ident(t), Group(Brace, FnHead + [Group(Brace, BodyTokens(b))])]
    case CompileError(msg) =>
      CompileErrorHead + [Group(Brace, [Literal(msg)])]
  }

  // Reading tokens back.

  /** Cuts a token list at every top-level comma; always yields at least one piece. */
  function SplitAtCommas(ts: seq<Token>): (pieces: seq<seq<Token>>)
    ensures |pieces| > 0
  {
    if |ts| == 0 then [[]]
    else if ts[0] == Comma then [[]] + SplitAtCommas(ts[1..])
    else
      var rest := SplitAtCommas(ts[1..]);
      [[ts[0]] + rest[0]] + rest[1..]
  }

  /** The items of a comma-separated list; the empty list has none. */
  function Split(ts: seq<Token>): seq<seq<Token>> {
    if |ts| == 0 then [] else SplitAtCommas(ts)
  }

  function ParseInit(ts: seq<Token>): Option<Init> {
    if ts == MockCallTokens then Some(MockCall)
    else if ts == DefaultCallTokens then Some(DefaultCall)
    else None
  }

  function ParseNamedInit(ts: seq<Token>): Option<NamedInit> {
    if |ts| < 2 || !ts[0].Ident? || ts[1] != Punct(":") then None
    else match ParseInit(ts[2..])
      case Some(e) => Some(NamedInit(ts[0].name, e))
      case None => None
  }

  function ParseInits(items: seq<seq<Token>>): Option<seq<Init>> {
    if |items| == 0 then Some([])
    else match (ParseInit(items[0]), ParseInits(items[1..]))
      case (Some(e), Some(es)) => Some([e] + es)
      case _ => None
  }

  function ParseNamedInits(items: seq<seq<Token>>): Option<seq<NamedInit>> {
    if |items| == 0 then Some([])
    else match (ParseNamedInit(items[0]), ParseNamedInits(items[1..]))
      case (Some(n), Some(ns)) => Some([n] + ns)
      case _ => None
  }

  function ParseBody(ts: seq<Token>): Option<Body> {
    if |ts| == 0 || ts[0] != Ident("Self") then None
    else
      var variant := |ts| >= 3 && ts[1] == PathSep && ts[2].Ident?;
      var ctor := if variant then SelfVariant(ts[2].name) else SelfType;
      var rest := if variant then ts[3..] else ts[1..];
      if |rest| == 0 then Some(UnitBody(ctor))
      else if |rest| != 1 || !rest[0].Group? then None
      else if rest[0].delim == Brace then
        match ParseNamedInits(Split(rest[0].stream))
        case Some(ns) => Some(BracedBody(ctor, ns))
        case None => None
      else
        match ParseInits(Split(rest[0].stream))
        case Some(es) => Some(TupleBody(ctor, es))
        case None => None
  }

  function ParseOutput(ts: seq<Token>): Option<Output> {
    if |ts| == 8 && ts[..6] == ImplHead && ts[6].Ident? && ts[7].Group? && ts[7].delim == Brace then
      var f := ts[7].stream;
      if |f| == 6 && f[..5] == FnHead && f[5].Group? && f[5].delim == Brace then
        match ParseBody(f[5].stream)
        case Some(b) => Some(MockImpl(ts[6].name, b))
        case None => None
      else None
    else if |ts| == 6 && ts[..5] == CompileErrorHead && ts[5].Group? && ts[5].delim == Brace
         && |ts[5].stream| == 1 && ts[5].stream[0].Literal? then
      Some(CompileError(ts[5].stream[0].text))
    else None
  }

  // Round trips.

  /** A list without commas is one piece. */
  lemma {:induction false} SplitWithoutComma(a: seq<Token>)
    requires Comma !in a
    ensures SplitAtCommas(a) == [a]
  {
    if |a| > 0 {
      assert Comma !in a[1..];
      SplitWithoutComma(a[1..]);
      assert [a[0]] + a[1..] == a;
    }
  }

  /** A comma after a comma-free prefix ends the first piece. */
  lemma {:induction false} SplitAfterPiece(a: seq<Token>, b: seq<Token>)
    requires Comma !in a
    ensures SplitAtCommas(a + [Comma] + b) == [a] + SplitAtCommas(b)
  {
    if |a| == 0 {
      assert a + [Comma] + b == [Comma] + b;
      assert ([Comma] + b)[1..] == b;
    } else {
      assert (a + [Comma] + b)[1..] == a[1..] + [Comma] + b;
      assert Comma !in a[1..];
      SplitAfterPiece(a[1..], b);
      assert [a[0]] + a[1..] == a;
    }
  }

  /** Cutting a joined list at its commas gives back the items. */
  lemma {:induction false} SplitJoin(items: seq<seq<Token>>)
    requires forall i :: 0 <= i < |items| ==> |items[i]| > 0 && Comma !in items[i]
    ensures Split(Join(items)) == items
  {
    if |items| == 1 {
      SplitWithoutComma(items[0]);
    } else if |items| > 1 {
      SplitJoin(items[1..]);
      SplitAfterPiece(items[0], Join(items[1..]));
      assert |Join(items[1..])| > 0;
      assert [items[0]] + items[1..] == items;
    }
  }

  lemma {:induction false} InitItemsRoundTrip(es: seq<Init>)
    ensures ParseInits(InitItems(es)) == Some(es)
  {
    if |es| > 0 {
      InitItemsRoundTrip(es[1..]);
      assert InitItems(es)[1..] == InitItems(es[1..]);
      assert [es[0]] + es[1..] == es;
    }
  }

  lemma {:induction false} NamedItemsRoundTrip(ns: seq<NamedInit>)
    ensures ParseNamedInits(NamedItems(ns)) == Some(ns)
  {
    if |ns| > 0 {
      NamedItemsRoundTrip(ns[1..]);
      var ts := NamedInitTokens(ns[0]);
      assert ts[2..] == InitTokens(ns[0].init);
      assert ParseNamedInit(ts) == Some(ns[0]);
      assert NamedItems(ns)[0] == ts;
      assert NamedItems(ns)[1..] == NamedItems(ns[1..]);
      assert [ns[0]] + ns[1..] == ns;
    }
  }

  /** Every generated body is read back from its tokens. */
  lemma BodyRoundTrip(b: Body)
    ensures ParseBody(BodyTokens(b)) == Some(b)
  {
    match b
    case BracedBody(c, ns) =>
      SplitJoin(NamedItems(ns));
      NamedItemsRoundTrip(ns);
    case TupleBody(c, es) =>
      SplitJoin(InitItems(es));
      InitItemsRoundTrip(es);
    case UnitBody(c) =>
  }

  /** Every expansion, impl or compile error, is read back from its tokens. */
  lemma OutputRoundTrip(o: Output)
    ensures ParseOutput(OutputTokens(o)) == Some(o)
  {
    match o
    case MockImpl(t, b) =>
      var ts := OutputTokens(o);
      assert ts[..6] == ImplHead;
      var f := FnHead + [Group(Brace, BodyTokens(b))];
      assert f[..5] == FnHead;
      BodyRoundTrip(b);
    case CompileError(msg) =>
      assert OutputTokens(o)[..5] == CompileErrorHead;
  }
}
