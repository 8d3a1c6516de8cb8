/** The parts of css.go that touch elements: tagging an element with a
    class, and the `<style>` element that holds class rules. */
module Styles {
  import opened Css
  import opened Builders
  import opened Html

  /** `c.Style(t)`: tags `t` with `class` set to the class name and returns
      `t` itself. */
  method ClassStyle(c: Class, t: Node) returns (r: Node)
    modifies t
    ensures r == t
    ensures t.pairs == old(t.pairs) + [Pair("class", c.name)]
  {
    r := t.Tag("class", c.name);
  }

  /** The class rules one after another, in argument order. */
  function ClassesText(classes: seq<Class>): string
  {
    if classes == [] then "" else RenderClass(classes[0]) + ClassesText(classes[1..])
  }

  /** Each class as a rule builder, in argument order. */
  predicate AreRules(out: seq<Builder>, classes: seq<Class>)
  {
    |out| == |classes| && forall j | 0 <= j < |out| :: out[j] == Rule(classes[j])
  }

  /** The rules built from a list of classes render as those classes'
      text, in order. */
  lemma {:induction false} RulesText(out: seq<Builder>, classes: seq<Class>)
    requires AreRules(out, classes)
    ensures WFSeq(out)
    ensures RenderSeq(out) == ClassesText(classes)
    decreases |out|
  {
    if out != [] {
      RulesText(out[1..], classes[1..]);
    }
  }

  /** Two lists of classes render one after the other. */
  lemma {:induction false} ClassesTextAppend(a: seq<Class>, b: seq<Class>)
    ensures ClassesText(a + b) == ClassesText(a) + ClassesText(b)
    decreases |a|
  {
    if a == [] {
      assert a + b == b;
    } else {
      assert (a + b)[1..] == a[1..] + b;
      ClassesTextAppend(a[1..], b);
    }
  }

  /** `Style(classes...)`: a `style` element whose body joins one rule per
      class, in argument order.  The source returns it as a plain
      `Builder`; the result type here is the wider `Node`. */
  method Style(classes: seq<Class>) returns (t: Node)
    ensures fresh(t) && t.name == "style" && t.pairs == []
    ensures t.body.Some? && t.body.value.Joiner? && AreRules(t.body.value.children, classes)
    ensures WF(Elem(t))
    ensures Render(Elem(t)) == "<style>" + ClassesText(classes) + "</style>"
    ensures classes == [] ==> Render(Elem(t)) == "<style></style>"
  {
    var out: seq<Builder> := [];
    for i := 0 to |classes|
      invariant AreRules(out, classes[..i])
    {
      out := out + [Rule(classes[i])];
    }
    assert classes[..|classes|] == classes;
    t := new Node("style", Some(Join(out)));
    RulesText(out, classes);
    RenderElement(t);
    StyleText(ClassesText(classes));
  }

  lemma StyleText(rules: string)
    ensures "<" + "style" + RenderPairs([]) + ">" + rules + "</" + "style" + ">" == "<style>" + rules + "</style>"
    ensures rules == "" ==> "<style>" + rules + "</style>" == "<style></style>"
  {
    ElementText("style", "", rules, "<style", "</style>");
    assert "<style" + "" + ">" == "<style>";
  }
}
