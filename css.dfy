/** CSS classes (css.go): a class is a name and a set of `property: value`
    declarations, rendered as `.name {prop:value;prop:value;}`. */
module Css {
  /** One entry of the class's property map. */
  datatype Decl = Decl(prop: string, value: string)

  /** A CSS class.  The source keeps `attrs` in a Go map, whose iteration
      order is unspecified; here `attrs` lists the entries in the order one
      render visits them.  The properties proved about the rendered text that
      do not mention positions hold for every order (see
      DeclarationsPermutationLength). */
  datatype Class = Class(name: string, attrs: seq<Decl>)

  /** `CSSClass(name, attrs)`: keeps both arguments as they are. */
  function CssClass(name: string, attrs: seq<Decl>): (c: Class)
    ensures c.name == name && c.attrs == attrs
  {
    Class(name, attrs)
  }

  /** The text `%s:%s;` that one map entry contributes. */
  function DeclText(d: Decl): string
  {
    d.prop + ":" + d.value + ";"
  }

  /** The characters a list of declarations occupies: |k| + |v| + 2 each. */
  function DeclsSize(attrs: seq<Decl>): nat
  {
    if attrs == [] then 0 else |attrs[0].prop| + |attrs[0].value| + 2 + DeclsSize(attrs[1..])
  }

  /** The class body: every entry's text, concatenated in iteration order. */
  function Declarations(attrs: seq<Decl>): string
  {
    if attrs == [] then "" else DeclText(attrs[0]) + Declarations(attrs[1..])
  }

  /** The whole rule `.name {body}`. */
  function RenderClass(c: Class): (s: string)
    ensures |s| == |c.name| + 4 + DeclsSize(c.attrs)
    ensures s[..|c.name| + 3] == "." + c.name + " {" && s[|s| - 1] == '}'
    ensures c.attrs == [] ==> s == "." + c.name + " {}"
  {
    DeclarationsLength(c.attrs);
    "." + c.name + " {" + Declarations(c.attrs) + "}"
  }

  lemma {:induction false} DeclarationsLength(attrs: seq<Decl>)
    ensures |Declarations(attrs)| == DeclsSize(attrs)
  {
    if attrs != [] {
      DeclarationsLength(attrs[1..]);
    }
  }

  /** Rendering a split list renders the two parts one after the other. */
  lemma {:induction false} DeclarationsAppend(a: seq<Decl>, b: seq<Decl>)
    ensures Declarations(a + b) == Declarations(a) + Declarations(b)
  {
    if a == [] {
      assert a + b == b;
    } else {
      assert (a + b)[1..] == a[1..] + b;
      DeclarationsAppend(a[1..], b);
    }
  }

  /** Every entry's text sits in the body, between the entries visited
      before it and those visited after it. */
  lemma {:induction false} DeclarationAt(attrs: seq<Decl>, i: nat)
    requires i < |attrs|
    ensures Declarations(attrs) == Declarations(attrs[..i]) + DeclText(attrs[i]) + Declarations(attrs[i + 1..])
  {
    var pre, post := attrs[..i], attrs[i + 1..];
    assert attrs == pre + ([attrs[i]] + post);
    DeclarationsAppend(pre, [attrs[i]] + post);
    assert ([attrs[i]] + post)[1..] == post;
    assert Declarations([attrs[i]] + post) == DeclText(attrs[i]) + Declarations(post);
  }

  /** Taking one entry out of the body shortens it by that entry's text. */
  lemma DeclarationsRemoveLength(b: seq<Decl>, k: nat)
    requires k < |b|
    ensures |Declarations(b)| == |DeclText(b[k])| + |Declarations(b[..k] + b[k + 1..])|
  {
    DeclarationAt(b, k);
    DeclarationsAppend(b[..k], b[k + 1..]);
  }

  lemma MultisetRemove(a: seq<Decl>, b: seq<Decl>, k: nat)
    requires a != [] && k < |b| && b[k] == a[0]
    requires multiset(a) == multiset(b)
    ensures multiset(a[1..]) == multiset(b[..k] + b[k + 1..])
  {
    assert a == [a[0]] + a[1..];
    assert b == b[..k] + [b[k]] + b[k + 1..];
    calc {
      multiset(a[1..]);
      multiset(a) - multiset{a[0]};
      multiset(b) - multiset{b[k]};
      multiset(b[..k]) + multiset(b[k + 1..]);
      multiset(b[..k] + b[k + 1..]);
    }
  }

  /** The size of the body does not depend on the iteration order: any
      reordering of the entries renders a body of the same length. */
  lemma {:induction false} DeclarationsPermutationLength(a: seq<Decl>, b: seq<Decl>)
    requires multiset(a) == multiset(b)
    ensures |Declarations(a)| == |Declarations(b)|
    decreases |a|
  {
    if a == [] {
      assert |b| == |multiset(b)| == 0;
    } else {
      assert a[0] in multiset(b);
      var k :| 0 <= k < |b| && b[k] == a[0];
      MultisetRemove(a, b, k);
      DeclarationsPermutationLength(a[1..], b[..k] + b[k + 1..]);
      DeclarationsRemoveLength(b, k);
    }
  }

  /** `Class.Build`: formats each map entry into a scratch buffer, then
      writes `.name {buffer}` to the sink `w` in one call. */
  method BuildClass(c: Class, w: string) returns (w': string)
    ensures w' == w + RenderClass(c)
  {
    var buf := "";
    for i := 0 to |c.attrs|
      invariant buf == Declarations(c.attrs[..i])
    {
      buf := buf + DeclText(c.attrs[i]);
      DeclarationsAppend(c.attrs[..i], [c.attrs[i]]);
      assert c.attrs[..i + 1] == c.attrs[..i] + [c.attrs[i]];
    }
    assert c.attrs[..|c.attrs|] == c.attrs;
    w' := w + ("." + c.name + " {" + buf + "}");
  }
}
