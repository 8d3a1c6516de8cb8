/** The element factories and combinators of html.go. */
module Html {
  import opened Builders
  import opened Partial

  /** `Join(bs...)`: the children in order.  Even with no children the
      result is a builder (not nil), so a factory that wraps it in a node
      always closes the tag. */
  function Join(bs: seq<Builder>): (b: Builder)
    ensures WF(b) <==> WFSeq(bs)
  {
    WFSeqFoot(bs);
    Joiner(bs)
  }

  /** `Each(f)`: the builder that, on each render, calls `f` and builds what
      it returns until `f` returns nil.  `outputs` lists what the calls
      return before that first nil. */
  function Each(outputs: seq<Builder>): (b: Builder)
    ensures WF(b) <==> WFSeq(outputs)
  {
    WFSeqFoot(outputs);
    Generated(outputs)
  }

  /** `Br`: the raw text `</br>` (not an element). */
  const Br: Builder := Raw("</br>")

  lemma BrText()
    ensures Br.Partial? && WF(Br) && Render(Br) == "</br>"
  {
  }

  // ---------------------------------------------------------------------
  // What joining and generating render

  /** Child `i` of a join is rendered right after the children before it
      and right before the children after it: no separators, nothing
      reordered. */
  lemma JoinChildAt(bs: seq<Builder>, i: nat)
    requires WFSeq(bs) && i < |bs|
    ensures WF(Join(bs))
    ensures Render(Join(bs)) == Render(Join(bs[..i])) + Render(bs[i]) + Render(Join(bs[i + 1..]))
  {
    assert bs == bs[..i] + ([bs[i]] + bs[i + 1..]);
    var rest := [bs[i]] + bs[i + 1..];
    assert WFSeq(bs[..i]) && WFSeq(rest) by {
      assert forall j | 0 <= j < i :: bs[..i][j] == bs[j];
      assert forall j | 0 <= j < |rest| :: rest[j] == bs[i + j];
    }
    RenderSeqAppend(bs[..i], rest);
    assert rest[1..] == bs[i + 1..];
  }

  /** Joining two lists renders the first list's output then the second's. */
  lemma JoinAppend(a: seq<Builder>, b: seq<Builder>)
    requires WFSeq(a) && WFSeq(b)
    ensures WF(Join(a + b))
    ensures Render(Join(a + b)) == Render(Join(a)) + Render(Join(b))
  {
    RenderSeqAppend(a, b);
  }

  /** `Each` renders what the generator returns, in call order, up to the
      first nil; a generator that returns nil at once renders nothing. */
  lemma EachRendersCalls(outputs: seq<Builder>, i: nat)
    requires WFSeq(outputs) && i <= |outputs|
    ensures WF(Each(outputs))
    ensures Call(outputs, i).Some? ==>
      Render(Each(outputs)) == Render(Join(outputs[..i])) + Render(Call(outputs, i).value) + Render(Join(outputs[i + 1..]))
    ensures Call(outputs, i).None? ==> Render(Each(outputs)) == Render(Join(outputs[..i]))
    ensures outputs == [] ==> Render(Each(outputs)) == ""
  {
    if i < |outputs| {
      JoinChildAt(outputs, i);
    } else {
      assert outputs[..i] == outputs;
    }
  }

  // ---------------------------------------------------------------------
  // Element factories

  /** How an element renders: `<`, its name, its attributes in order, `>`;
      then, only when it has a body, the body and the closing tag.  With no
      body there is no closing tag. */
  lemma RenderElement(t: Node)
    requires NodeOk(t) && (t.body.Some? ==> WF(t.body.value))
    ensures WF(Elem(t))
    ensures t.body.None? ==> Render(Elem(t)) == "<" + t.name + RenderPairs(t.pairs) + ">"
    ensures t.body.Some? ==>
      Render(Elem(t)) == "<" + t.name + RenderPairs(t.pairs) + ">" + Render(t.body.value) + "</" + t.name + ">"
  {
  }

  /** A single attribute renders as itself. */
  lemma RenderOnePair(p: Pair)
    ensures RenderPairs([p]) == RenderPair(p)
  {
    assert [p][1..] == [];
  }

  /** Two attributes render one after the other. */
  lemma RenderTwoPairs(p: Pair, q: Pair)
    ensures RenderPairs([p, q]) == RenderPair(p) + RenderPair(q)
  {
    RenderOnePair(p);
    RenderOnePair(q);
    RenderPairsAppend([p], [q]);
    assert [p] + [q] == [p, q];
  }

  /** The element text with the tag name written into the angle brackets. */
  lemma ElementText(name: string, attrs: string, body: string, open: string, close: string)
    requires open == "<" + name && close == "</" + name + ">"
    ensures "<" + name + attrs + ">" + body + "</" + name + ">" == open + attrs + ">" + body + close
  {
    Assoc("<" + name + attrs + ">" + body, "</", name + ">");
  }

  /** `Nav`: the navigation bar. */
  method Nav(bs: seq<Builder>) returns (t: Node)
    requires WFSeq(bs)
    ensures fresh(t) && t.name == "nav" && t.body == Some(Join(bs)) && t.pairs == []
    ensures WF(Elem(t)) && Render(Elem(t)) == "<nav>" + Render(Join(bs)) + "</nav>"
  {
    t := new Node("nav", Some(Join(bs)));
    RenderElement(t);
  }

  /** `Div`: a divider. */
  method Div(bs: seq<Builder>) returns (t: Node)
    requires WFSeq(bs)
    ensures fresh(t) && t.name == "div" && t.body == Some(Join(bs)) && t.pairs == []
    ensures WF(Elem(t)) && Render(Elem(t)) == "<div>" + Render(Join(bs)) + "</div>"
  {
    t := new Node("div", Some(Join(bs)));
    RenderElement(t);
  }

  /** `Header`: a page header. */
  method Header(bs: seq<Builder>) returns (t: Node)
    requires WFSeq(bs)
    ensures fresh(t) && t.name == "header" && t.body == Some(Join(bs)) && t.pairs == []
    ensures WF(Elem(t)) && Render(Elem(t)) == "<header>" + Render(Join(bs)) + "</header>"
  {
    t := new Node("header", Some(Join(bs)));
    RenderElement(t);
  }

  /** `Footer`: a page footer. */
  method Footer(bs: seq<Builder>) returns (t: Node)
    requires WFSeq(bs)
    ensures fresh(t) && t.name == "footer" && t.body == Some(Join(bs)) && t.pairs == []
    ensures WF(Elem(t)) && Render(Elem(t)) == "<footer>" + Render(Join(bs)) + "</footer>"
  {
    t := new Node("footer", Some(Join(bs)));
    RenderElement(t);
  }

  /** `Li`: a list element. */
  method Li(bs: seq<Builder>) returns (t: Node)
    requires WFSeq(bs)
    ensures fresh(t) && t.name == "li" && t.body == Some(Join(bs)) && t.pairs == []
    ensures WF(Elem(t)) && Render(Elem(t)) == "<li>" + Render(Join(bs)) + "</li>"
  {
    t := new Node("li", Some(Join(bs)));
    RenderElement(t);
  }

  /** `Span`: a span of text. */
  method Span(bs: seq<Builder>) returns (t: Node)
    requires WFSeq(bs)
    ensures fresh(t) && t.name == "span" && t.body == Some(Join(bs)) && t.pairs == []
    ensures WF(Elem(t)) && Render(Elem(t)) == "<span>" + Render(Join(bs)) + "</span>"
  {
    t := new Node("span", Some(Join(bs)));
    RenderElement(t);
  }

  /** `Ol`: an ordered list. */
  method Ol(bs: seq<Builder>) returns (t: Node)
    requires WFSeq(bs)
    ensures fresh(t) && t.name == "ol" && t.body == Some(Join(bs)) && t.pairs == []
    ensures WF(Elem(t)) && Render(Elem(t)) == "<ol>" + Render(Join(bs)) + "</ol>"
  {
    t := new Node("ol", Some(Join(bs)));
    RenderElement(t);
  }

  /** `Ul`: an unordered list; the tag written is `ol`, not `ul`. */
  method Ul(bs: seq<Builder>) returns (t: Node)
    requires WFSeq(bs)
    ensures fresh(t) && t.name == "ol" && t.body == Some(Join(bs)) && t.pairs == []
    ensures WF(Elem(t)) && Render(Elem(t)) == "<ol>" + Render(Join(bs)) + "</ol>"
  {
    t := new Node("ol", Some(Join(bs)));
    RenderElement(t);
  }

  /** `HTML`: the whole page.  The source returns it as a plain `Builder`;
      the result type here is the wider `Node`. */
  method HTML(bs: seq<Builder>) returns (t: Node)
    requires WFSeq(bs)
    ensures fresh(t) && t.name == "html" && t.body == Some(Join(bs)) && t.pairs == []
    ensures WF(Elem(t)) && Render(Elem(t)) == "<html>" + Render(Join(bs)) + "</html>"
  {
    t := new Node("html", Some(Join(bs)));
    RenderElement(t);
  }

  /** `P`: a paragraph. */
  method P(bs: seq<Builder>) returns (t: Node)
    requires WFSeq(bs)
    ensures fresh(t) && t.name == "p" && t.body == Some(Join(bs)) && t.pairs == []
    ensures WF(Elem(t)) && Render(Elem(t)) == "<p>" + Render(Join(bs)) + "</p>"
  {
    t := new Node("p", Some(Join(bs)));
    RenderElement(t);
  }

  /** `B`: bold text. */
  method B(bs: seq<Builder>) returns (t: Node)
    requires WFSeq(bs)
    ensures fresh(t) && t.name == "b" && t.body == Some(Join(bs)) && t.pairs == []
    ensures WF(Elem(t)) && Render(Elem(t)) == "<b>" + Render(Join(bs)) + "</b>"
  {
    t := new Node("b", Some(Join(bs)));
    RenderElement(t);
  }

  /** `H1`: a level-1 heading. */
  method H1(bs: seq<Builder>) returns (t: Node)
    requires WFSeq(bs)
    ensures fresh(t) && t.name == "h1" && t.body == Some(Join(bs)) && t.pairs == []
    ensures WF(Elem(t)) && Render(Elem(t)) == "<h1>" + Render(Join(bs)) + "</h1>"
  {
    t := new Node("h1", Some(Join(bs)));
    RenderElement(t);
  }

  /** `H2`: a level-2 heading. */
  method H2(bs: seq<Builder>) returns (t: Node)
    requires WFSeq(bs)
    ensures fresh(t) && t.name == "h2" && t.body == Some(Join(bs)) && t.pairs == []
    ensures WF(Elem(t)) && Render(Elem(t)) == "<h2>" + Render(Join(bs)) + "</h2>"
  {
    t := new Node("h2", Some(Join(bs)));
    RenderElement(t);
  }

  /** `H3`: a level-3 heading. */
  method H3(bs: seq<Builder>) returns (t: Node)
    requires WFSeq(bs)
    ensures fresh(t) && t.name == "h3" && t.body == Some(Join(bs)) && t.pairs == []
    ensures WF(Elem(t)) && Render(Elem(t)) == "<h3>" + Render(Join(bs)) + "</h3>"
  {
    t := new Node("h3", Some(Join(bs)));
    RenderElement(t);
  }

  /** `H4`: a level-4 heading. */
  method H4(bs: seq<Builder>) returns (t: Node)
    requires WFSeq(bs)
    ensures fresh(t) && t.name == "h4" && t.body == Some(Join(bs)) && t.pairs == []
    ensures WF(Elem(t)) && Render(Elem(t)) == "<h4>" + Render(Join(bs)) + "</h4>"
  {
    t := new Node("h4", Some(Join(bs)));
    RenderElement(t);
  }

  /** `HR`: a horizontal ruling; the tag written is `h4`, not `hr`. */
  method HR(bs: seq<Builder>) returns (t: Node)
    requires WFSeq(bs)
    ensures fresh(t) && t.name == "h4" && t.body == Some(Join(bs)) && t.pairs == []
    ensures WF(Elem(t)) && Render(Elem(t)) == "<h4>" + Render(Join(bs)) + "</h4>"
  {
    t := new Node("h4", Some(Join(bs)));
    RenderElement(t);
  }

  /** `Body`: the page body. */
  method Body(bs: seq<Builder>) returns (t: Node)
    requires WFSeq(bs)
    ensures fresh(t) && t.name == "body" && t.body == Some(Join(bs)) && t.pairs == []
    ensures WF(Elem(t)) && Render(Elem(t)) == "<body>" + Render(Join(bs)) + "</body>"
  {
    t := new Node("body", Some(Join(bs)));
    RenderElement(t);
  }

  /** `Title(name)`: the page title; its body is the raw text `name`. */
  method Title(name: string) returns (t: Node)
    ensures fresh(t) && t.name == "title" && t.body == Some(Raw(name)) && t.pairs == []
    ensures WF(Elem(t)) && Render(Elem(t)) == "<title>" + name + "</title>"
  {
    t := new Node("title", Some(Raw(name)));
    RenderElement(t);
  }

  /** `A(text, href)`: a link whose body is the raw text and whose one
      attribute is `href`.  An empty `href` is written as a bare `href`. */
  method A(text: string, href: string) returns (t: Node)
    ensures fresh(t) && t.name == "a" && t.body == Some(Join([Raw(text)]))
    ensures t.pairs == [Pair("href", href)]
    ensures WF(Elem(t))
    ensures href != "" ==> Render(Elem(t)) == "<a href=\"" + href + "\">" + text + "</a>"
    ensures href == "" ==> Render(Elem(t)) == "<a href>" + text + "</a>"
  {
    t := new Node("a", Some(Join([Raw(text)])));
    t := t.Tag("href", href);
    assert RenderSeq([Raw(text)]) == text + RenderSeq([]);
    RenderElement(t);
    RenderOnePair(Pair("href", href));
    LinkText(text, href);
  }

  /** `Form(action, bs)`: a form whose first (and only) attribute is
      `action`. */
  method Form(action: string, bs: seq<Builder>) returns (t: Node)
    requires WFSeq(bs)
    ensures fresh(t) && t.name == "form" && t.body == Some(Join(bs))
    ensures t.pairs == [Pair("action", action)]
    ensures WF(Elem(t))
    ensures Render(Elem(t)) == "<form" + RenderPair(Pair("action", action)) + ">" + Render(Join(bs)) + "</form>"
  {
    t := new Node("form", Some(Join(bs)));
    t := t.Tag("action", action);
    RenderElement(t);
    RenderOnePair(Pair("action", action));
    ElementText("form", RenderPair(Pair("action", action)), Render(Join(bs)), "<form", "</form>");
  }

  /** `Input(inputType, name)`: a form input with no body, so it has no
      closing tag; `type` comes before `name`. */
  method Input(inputType: string, name: string) returns (t: Node)
    ensures fresh(t) && t.name == "input" && t.body == None
    ensures t.pairs == [Pair("type", inputType), Pair("name", name)]
    ensures WF(Elem(t))
    ensures Render(Elem(t)) == "<input" + RenderPair(Pair("type", inputType)) + RenderPair(Pair("name", name)) + ">"
    ensures inputType != "" && name != "" ==>
      Render(Elem(t)) == "<input type=\"" + inputType + "\" name=\"" + name + "\">"
  {
    t := new Node("input", None);
    t := t.Tag("type", inputType);
    t := t.Tag("name", name);
    RenderElement(t);
    RenderTwoPairs(Pair("type", inputType), Pair("name", name));
    InputText(inputType, name);
  }

  // The text of the elements with attributes, on strings alone.

  lemma LinkText(text: string, href: string)
    ensures href != "" ==>
      "<" + "a" + RenderPair(Pair("href", href)) + ">" + text + "</" + "a" + ">" == "<a href=\"" + href + "\">" + text + "</a>"
    ensures href == "" ==>
      "<" + "a" + RenderPair(Pair("href", href)) + ">" + text + "</" + "a" + ">" == "<a href>" + text + "</a>"
  {
    var attr := RenderPair(Pair("href", href));
    assert "<" + "a" + attr + ">" + text + "</" + "a" + ">" == "<a" + attr + ">" + text + "</a>" by {
      ElementText("a", attr, text, "<a", "</a>");
    }
    if href != "" {
      assert attr == " href=\"" + href + "\"";
      QuotedLink(href, text);
    } else {
      assert attr == " href";
    }
  }

  lemma QuotedLink(href: string, text: string)
    ensures "<a" + (" href=\"" + href + "\"") + ">" + text + "</a>" == "<a href=\"" + href + "\">" + text + "</a>"
  {
  }

  lemma InputText(inputType: string, name: string)
    ensures "<" + "input" + (RenderPair(Pair("type", inputType)) + RenderPair(Pair("name", name))) + ">"
         == "<input" + RenderPair(Pair("type", inputType)) + RenderPair(Pair("name", name)) + ">"
    ensures inputType != "" && name != "" ==>
      "<input" + RenderPair(Pair("type", inputType)) + RenderPair(Pair("name", name)) + ">"
        == "<input type=\"" + inputType + "\" name=\"" + name + "\">"
  {
    var kind, named := RenderPair(Pair("type", inputType)), RenderPair(Pair("name", name));
    assert "<" + "input" + (kind + named) + ">" == "<input" + kind + named + ">";
    if inputType != "" && name != "" {
      assert kind == " type=\"" + inputType + "\"";
      assert named == " name=\"" + name + "\"";
      QuotedPairs(inputType, name);
    }
  }

  lemma QuotedPairs(x: string, y: string)
    ensures "<input" + (" type=\"" + x + "\"") + (" name=\"" + y + "\"") + ">" == "<input type=\"" + x + "\" name=\"" + y + "\">"
  {
  }
}
