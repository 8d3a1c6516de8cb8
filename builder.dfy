/** The builder tree and its rendering (builder.go, and the `Build` methods
    of html.go, partial.go and css.go).

    Every builder the library can make is one variant of `Builder`:
    - `Partial`: raw text written verbatim (partial.go),
    - `Joiner`: an ordered list of children (html.go),
    - `Elem`: a reference to a mutable element `Node` (html.go),
    - `Generated`: the builder `Each` makes from a generator (html.go),
    - `Rule`: a CSS class (css.go).

    A node is shared by reference: `Tag` on a node changes the rendering of
    every tree that holds it.  `Render` is the specification of one render;
    the `Build` methods issue the source's writes one by one and are proved to
    append exactly `Render` to the sink. */
module Builders {
  import opened Css

  datatype Option<T> = None | Some(value: T)

  /** One attribute `k="v"` (or the bare flag `k` when `v` is empty). */
  datatype Pair = Pair(key: string, val: string)

  /** The i-th call of the generator behind `Each`. */
  function Call(outputs: seq<Builder>, i: nat): Option<Builder>
  {
    if i < |outputs| then Some(outputs[i]) else None
  }

  datatype Builder =
    | Partial(bytes: string)
    | Joiner(children: seq<Builder>)
    | Elem(node: Node)
      /** The generator of `Each`, as the builders its successive calls
          return before the first nil: call `i` returns `outputs[i]` while
          `i < |outputs|`, and nil from then on. */
    | Generated(outputs: seq<Builder>)
    | Rule(cls: Class)

  /** An element: a tag name, an optional body (nil in the source when
      `None`) and the attributes in the order `Tag` added them. */
  class Node {
    const name: string
    const body: Option<Builder>
    var pairs: seq<Pair>
    /** The nodes reachable through `body`: a proof device that keeps the
        tree acyclic, fixed when the node is made. */
    ghost const reach: set<Node>

    constructor (name: string, body: Option<Builder>)
      ensures this.name == name && this.body == body && pairs == []
      ensures reach == BodyFoot(body)
      ensures NodeOk(this)
    {
      this.name := name;
      this.body := body;
      this.pairs := [];
      this.reach := BodyFoot(body);
      if body.Some? {
        FootAllocated(body.value);
      }
    }

    /** `node.Tag(k, v)`: appends one attribute and returns the node itself. */
    method Tag(k: string, v: string) returns (t: Node)
      modifies this
      ensures t == this
      ensures pairs == old(pairs) + [Pair(k, v)]
    {
      pairs := pairs + [Pair(k, v)];
      t := this;
    }
  }

  // ---------------------------------------------------------------------
  // Footprints and well-formedness

  /** The nodes a render of `b` visits. */
  ghost function Foot(b: Builder): set<Node>
  {
    match b
    case Partial(_) => {}
    case Joiner(cs) => FootSeq(cs)
    case Elem(n) => {n} + n.reach
    case Generated(outputs) => FootSeq(outputs)
    case Rule(_) => {}
  }

  ghost function FootSeq(cs: seq<Builder>): set<Node>
  {
    set i, m | 0 <= i < |cs| && m in Foot(cs[i]) :: m
  }

  ghost function BodyFoot(body: Option<Builder>): set<Node>
  {
    if body.Some? then Foot(body.value) else {}
  }

  /** A node does not reach itself, and `reach` is what its body reaches. */
  ghost predicate NodeOk(n: Node)
  {
    n !in n.reach && BodyFoot(n.body) == n.reach
  }

  /** Every node a render of `b` visits is acyclic.  Every builder the
      library constructs satisfies this, and `Tag` cannot break it. */
  ghost predicate WF(b: Builder)
  {
    forall m | m in Foot(b) :: NodeOk(m)
  }

  ghost predicate WFSeq(cs: seq<Builder>)
  {
    forall i | 0 <= i < |cs| :: WF(cs[i])
  }

  lemma {:induction false} FootAllocated(b: Builder)
    ensures forall m | m in Foot(b) :: allocated(m)
  {
    match b
    case Partial(_) =>
    case Joiner(cs) =>
      forall m | m in FootSeq(cs) ensures allocated(m) {
        var i :| 0 <= i < |cs| && m in Foot(cs[i]);
        FootAllocated(cs[i]);
      }
    case Elem(n) =>
    case Generated(outputs) =>
      forall m | m in FootSeq(outputs) ensures allocated(m) {
        var i :| 0 <= i < |outputs| && m in Foot(outputs[i]);
        FootAllocated(outputs[i]);
      }
    case Rule(_) =>
  }

  lemma FootSeqAllocated(cs: seq<Builder>)
    ensures forall m | m in FootSeq(cs) :: allocated(m)
  {
    forall m | m in FootSeq(cs) ensures allocated(m) {
      var i :| 0 <= i < |cs| && m in Foot(cs[i]);
      FootAllocated(cs[i]);
    }
  }

  /** A list of children is well formed exactly when each child is. */
  lemma WFSeqFoot(cs: seq<Builder>)
    ensures WFSeq(cs) <==> forall m | m in FootSeq(cs) :: NodeOk(m)
  {
    if WFSeq(cs) {
      forall m | m in FootSeq(cs) ensures NodeOk(m) {
        var i :| 0 <= i < |cs| && m in Foot(cs[i]);
      }
    } else {
      var i :| 0 <= i < |cs| && !WF(cs[i]);
      var m :| m in Foot(cs[i]) && !NodeOk(m);
      assert m in FootSeq(cs);
    }
  }

  // ---------------------------------------------------------------------
  // Rendering, as a specification

  /** `pair.Build`: ` k` when the value is empty, otherwise ` k="v"`, with
      the value written as it is (no escaping). */
  function RenderPair(p: Pair): string
  {
    if p.val == "" then " " + p.key else " " + p.key + "=\"" + p.val + "\""
  }

  /** The layout of one attribute: a space and the key; then, only for a
      non-empty value, `="`, the value character for character, and `"`. */
  lemma PairLayout(p: Pair)
    ensures RenderPair(p)[..1] == " " && RenderPair(p)[1..1 + |p.key|] == p.key
    ensures p.val == "" ==> |RenderPair(p)| == 1 + |p.key|
    ensures p.val != "" ==> |RenderPair(p)| == |p.key| + |p.val| + 4
    ensures p.val != "" ==> RenderPair(p)[1 + |p.key|..3 + |p.key|] == "=\""
    ensures p.val != "" ==> RenderPair(p)[3 + |p.key|..3 + |p.key| + |p.val|] == p.val
    ensures p.val != "" ==> RenderPair(p)[|RenderPair(p)| - 1] == '"'
  {
    var r, head := RenderPair(p), " " + p.key;
    assert head[..1] == " " && head[1..] == p.key;
    if p.val == "" {
      assert r == head;
    } else {
      var eq := head + "=\"";
      assert r == eq + p.val + "\"";
      assert r[..|eq|] == eq && eq[..|head|] == head;
      assert r[..|head|] == head;
      assert r[|eq|..|eq| + |p.val|] == p.val;
      assert eq[|head|..] == "=\"";
    }
  }

  function RenderPairs(ps: seq<Pair>): string
  {
    if ps == [] then "" else RenderPair(ps[0]) + RenderPairs(ps[1..])
  }

  /** `<name` + attributes + `>`. */
  function OpenTag(n: Node): string
    reads n
  {
    "<" + n.name + RenderPairs(n.pairs) + ">"
  }

  /** `</name>`. */
  function CloseTag(n: Node): string
  {
    "</" + n.name + ">"
  }

  /** What one render of `b` writes. */
  function Render(b: Builder): string
    requires WF(b)
    reads Foot(b)
    decreases Foot(b), b
  {
    match b
    case Partial(s) => s
    case Joiner(cs) =>
      WFSeqFoot(cs);
      RenderSeq(cs)
    case Elem(n) =>
      if n.body.None? then OpenTag(n)
      else OpenTag(n) + Render(n.body.value) + CloseTag(n)
    case Generated(outputs) =>
      WFSeqFoot(outputs);
      RenderSeq(outputs)
    case Rule(c) => RenderClass(c)
  }

  /** The children rendered one after the other, with no separator. */
  function RenderSeq(cs: seq<Builder>): string
    requires WFSeq(cs)
    reads FootSeq(cs)
    decreases FootSeq(cs), cs
  {
    if cs == [] then ""
    else
      FootSeqTail(cs);
      Render(cs[0]) + RenderSeq(cs[1..])
  }

  lemma FootSeqTail(cs: seq<Builder>)
    requires cs != []
    ensures Foot(cs[0]) <= FootSeq(cs) && FootSeq(cs[1..]) <= FootSeq(cs)
  {
    forall m | m in FootSeq(cs[1..]) ensures m in FootSeq(cs) {
      var i :| 0 <= i < |cs[1..]| && m in Foot(cs[1..][i]);
      assert cs[1..][i] == cs[i + 1];
    }
  }

  lemma FootSeqAt(cs: seq<Builder>, i: nat)
    requires i < |cs|
    ensures Foot(cs[i]) <= FootSeq(cs)
  {
  }

  // ---------------------------------------------------------------------
  // Concatenation lemmas

  /** Attributes render in insertion order: a split list renders as its
      two parts one after the other. */
  lemma {:induction false} RenderPairsAppend(a: seq<Pair>, b: seq<Pair>)
    ensures RenderPairs(a + b) == RenderPairs(a) + RenderPairs(b)
  {
    if a == [] {
      assert a + b == b;
    } else {
      assert (a + b)[1..] == a[1..] + b;
      RenderPairsAppend(a[1..], b);
    }
  }

  /** Children render in order: a split list renders as its two parts one
      after the other. */
  lemma {:induction false} RenderSeqAppend(a: seq<Builder>, b: seq<Builder>)
    requires WFSeq(a) && WFSeq(b)
    ensures WFSeq(a + b)
    ensures RenderSeq(a + b) == RenderSeq(a) + RenderSeq(b)
  {
    assert WFSeq(a + b) by {
      forall i | 0 <= i < |a + b| ensures WF((a + b)[i]) {
        if i < |a| { assert (a + b)[i] == a[i]; } else { assert (a + b)[i] == b[i - |a|]; }
      }
    }
    if a == [] {
      assert a + b == b;
    } else {
      assert (a + b)[1..] == a[1..] + b;
      assert (a + b)[0] == a[0];
      RenderSeqAppend(a[1..], b);
    }
  }

  lemma Assoc(a: string, b: string, c: string)
    ensures a + b + c == a + (b + c)
  {
  }

  lemma RenderPairsSnoc(ps: seq<Pair>, i: nat)
    requires i < |ps|
    ensures RenderPairs(ps[..i + 1]) == RenderPairs(ps[..i]) + RenderPair(ps[i])
  {
    assert ps[..i + 1] == ps[..i] + [ps[i]];
    RenderPairsAppend(ps[..i], [ps[i]]);
    assert [ps[i]][1..] == [];
  }

  lemma RenderSeqSnoc(cs: seq<Builder>, i: nat)
    requires i < |cs| && WFSeq(cs[..i]) && WF(cs[i])
    ensures WFSeq(cs[..i + 1])
    ensures RenderSeq(cs[..i + 1]) == RenderSeq(cs[..i]) + Render(cs[i])
  {
    assert cs[..i + 1] == cs[..i] + [cs[i]];
    RenderSeqAppend(cs[..i], [cs[i]]);
    assert [cs[i]][1..] == [];
  }

  // ---------------------------------------------------------------------
  // Rendering to a sink: the writes the source issues
  //
  // The sink is the text written to it so far; each method takes it and
  // returns it with the method's writes appended.

  /** `Build(w)` on any builder: dispatches to the variant's own method. */
  method Build(b: Builder, w: string) returns (w': string)
    requires WF(b)
    ensures w' == w + Render(b)
    decreases Foot(b), b, 1
  {
    match b
    case Partial(s) =>
      w' := BuildPartial(s, w);
    case Joiner(cs) =>
      WFSeqFoot(cs);
      w' := BuildJoiner(cs, w);
    case Elem(n) =>
      w' := BuildNode(n, w);
    case Generated(outputs) =>
      WFSeqFoot(outputs);
      w' := BuildEach(outputs, w);
    case Rule(c) =>
      w' := BuildClass(c, w);
  }

  /** `partial.Build`: one write of the raw bytes. */
  method BuildPartial(s: string, w: string) returns (w': string)
    ensures w' == w + s
  {
    w' := w + s;
  }

  /** `pair.Build`. */
  method BuildPair(p: Pair, w: string) returns (w': string)
    ensures w' == w + RenderPair(p)
  {
    if p.val == "" {
      w' := w + (" " + p.key);
      return;
    }
    w' := w + (" " + p.key + "=\"" + p.val + "\"");
  }

  /** `joiner.Build`: builds every child in order. */
  method BuildJoiner(cs: seq<Builder>, w: string) returns (w': string)
    requires WFSeq(cs)
    ensures w' == w + RenderSeq(cs)
    decreases FootSeq(cs), Joiner(cs), 0
  {
    w' := w;
    for i := 0 to |cs|
      invariant WFSeq(cs[..i])
      invariant w' == w + RenderSeq(cs[..i])
    {
      FootSeqAt(cs, i);
      FootSeqAllocated(cs[..i]);
      w' := Build(cs[i], w');
      Assoc(w, RenderSeq(cs[..i]), Render(cs[i]));
      RenderSeqSnoc(cs, i);
    }
    assert cs[..|cs|] == cs;
  }

  /** The closure `Each` returns: calls the generator, and builds what it
      returned, until it returns nil. */
  method BuildEach(outputs: seq<Builder>, w: string) returns (w': string)
    requires WFSeq(outputs)
    ensures w' == w + RenderSeq(outputs)
    decreases FootSeq(outputs), Generated(outputs), 0
  {
    w' := w;
    var i := 0;
    var next := Call(outputs, i);
    while next.Some?
      invariant 0 <= i <= |outputs|
      invariant next == Call(outputs, i)
      invariant WFSeq(outputs[..i])
      invariant w' == w + RenderSeq(outputs[..i])
      decreases |outputs| - i
    {
      FootSeqAt(outputs, i);
      FootSeqAllocated(outputs[..i]);
      w' := Build(next.value, w');
      Assoc(w, RenderSeq(outputs[..i]), Render(outputs[i]));
      RenderSeqSnoc(outputs, i);
      i := i + 1;
      next := Call(outputs, i);
    }
    assert outputs[..i] == outputs;
  }

  /** The first half of `node.Build`: `<`, the name, each attribute in
      order, `>`. */
  method BuildOpenTag(n: Node, w: string) returns (w': string)
    ensures w' == w + OpenTag(n)
  {
    w' := w + "<";
    w' := w' + n.name;
    ghost var start := w';
    for i := 0 to |n.pairs|
      invariant w' == start + RenderPairs(n.pairs[..i])
    {
      Assoc(start, RenderPairs(n.pairs[..i]), RenderPair(n.pairs[i]));
      w' := BuildPair(n.pairs[i], w');
      RenderPairsSnoc(n.pairs, i);
    }
    assert n.pairs[..|n.pairs|] == n.pairs;
    w' := w' + ">";
    Assoc(w, "<" + n.name, RenderPairs(n.pairs));
    Assoc(w, "<" + n.name + RenderPairs(n.pairs), ">");
  }

  /** `node.Build`: the opening tag; then, only when the body is not nil,
      the body, `</`, the name and `>`. */
  method BuildNode(n: Node, w: string) returns (w': string)
    requires WF(Elem(n))
    ensures w' == w + Render(Elem(n))
    decreases Foot(Elem(n)), Elem(n), 0
  {
    w' := BuildOpenTag(n, w);
    if n.body.None? {
      return;
    }
    w' := Build(n.body.value, w');
    w' := w' + "</";
    w' := w' + n.name;
    w' := w' + ">";
    assert w' == w + OpenTag(n) + Render(n.body.value) + CloseTag(n);
  }
}
