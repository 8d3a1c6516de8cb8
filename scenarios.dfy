/** The page built in html_test.go, and what a later `Tag` does to a
    compiled builder versus a live one. */
module Scenarios {
  import opened Builders
  import opened Partial
  import opened Html

  /** `toString`: builds `b` into an empty buffer. */
  method ToString(b: Builder) returns (s: string)
    requires WF(b)
    ensures s == Render(b)
  {
    s := Build(b, "");
  }

  /** The first page of `TestBasic`: a body holding raw text, so
      `<body>this is a test</body>`. */
  method TextPage() returns (page: string)
    ensures page == "<body>" + "this is a test" + "</body>"
  {
    var bb := Body([Raw("this is a test")]);
    SingleChild(Raw("this is a test"));
    FootAllocated(Elem(bb));
    page := ToString(Elem(bb));
  }

  /** The second page of `TestBasic`: a body holding a paragraph tagged
      `class` and then `xxx`, so
      `<body><p class="test" xxx="xxxx">whats up?</p></body>`; the
      attributes are written in the order they were added. */
  method ParagraphPage() returns (page: string)
    ensures page == "<body>" + "<p" + " class=\"test\"" + " xxx=\"xxxx\"" + ">" + "whats up?" + "</p>" + "</body>"
  {
    var para := P([Raw("whats up?")]);
    para := para.Tag("class", "test");
    para := para.Tag("xxx", "xxxx");
    SingleChild(Raw("whats up?"));
    RenderElement(para);
    RenderTwoPairs(Pair("class", "test"), Pair("xxx", "xxxx"));
    ghost var attrs := RenderPair(Pair("class", "test")) + RenderPair(Pair("xxx", "xxxx"));
    ParagraphAttrs();
    ElementText("p", attrs, "whats up?", "<p", "</p>");
    ghost var inner := Render(Elem(para));
    FootAllocated(Elem(para));
    var bb := Body([Elem(para)]);
    SingleChild(Elem(para));
    FootAllocated(Elem(bb));
    page := ToString(Elem(bb));
    assert page == "<body>" + inner + "</body>";
    assert inner == "<p" + attrs + ">" + "whats up?" + "</p>";
    Regroup("<body>", "<p", " class=\"test\"", " xxx=\"xxxx\"", ">", "whats up?", "</p>", "</body>");
  }

  lemma Regroup(a: string, b: string, c: string, d: string, e: string, f: string, g: string, h: string)
    ensures a + (b + (c + d) + e + f + g) + h == a + b + c + d + e + f + g + h
  {
  }

  /** A join of one child renders as that child. */
  lemma SingleChild(b: Builder)
    requires WF(b)
    ensures WFSeq([b]) && WF(Join([b])) && Render(Join([b])) == Render(b)
  {
    assert [b][1..] == [];
    assert RenderSeq([b]) == Render(b) + RenderSeq([]);
  }

  lemma ParagraphAttrs()
    ensures RenderPair(Pair("class", "test")) + RenderPair(Pair("xxx", "xxxx")) == " class=\"test\"" + " xxx=\"xxxx\""
  {
    assert RenderPair(Pair("class", "test")) == " class=\"test\"";
    assert RenderPair(Pair("xxx", "xxxx")) == " xxx=\"xxxx\"";
  }

  /** `Compile` fixes its output when it runs: tagging a node afterwards
      changes what the node renders (one more attribute, in last place) but
      not what the compiled builder renders. */
  method TagAfterCompile(n: Node, k: string, v: string) returns (compiled: string, live: string)
    requires WF(Elem(n))
    modifies n
    ensures n.pairs == old(n.pairs) + [Pair(k, v)]
    ensures compiled == old(Render(Elem(n)))
    ensures live == Render(Elem(n))
    ensures |live| == |compiled| + |RenderPair(Pair(k, v))| > |compiled|
  {
    var c := Compile([Elem(n)]);
    SingleChild(Elem(n));
    ghost var before := Render(Elem(n));
    ghost var oldPairs := n.pairs;
    ghost var body := if n.body.Some? then Render(n.body.value) else "";
    RenderElement(n);
    FootAllocated(Elem(n));
    var _ := n.Tag(k, v);
    RenderElement(n);
    RenderPairsAppend(oldPairs, [Pair(k, v)]);
    assert RenderPairs([Pair(k, v)]) == RenderPair(Pair(k, v)) + RenderPairs([]);
    compiled := ToString(c);
    live := ToString(Elem(n));
  }
}
