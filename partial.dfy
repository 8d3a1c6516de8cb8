/** Raw text and pre-rendered builders (partial.go). */
module Partial {
  import opened Builders

  /** `Raw(s)`: a builder that writes `s` byte for byte, unescaped. */
  function Raw(s: string): (b: Builder)
    ensures b.Partial? && WF(b)
    ensures Render(b) == s
  {
    Partial(s)
  }

  /** `Compile(bs...)`: renders every builder, in order, into a scratch
      buffer once, and returns raw text holding the result.  It renders
      exactly what `Join(bs...)` renders, and with no builders renders
      nothing. */
  method Compile(bs: seq<Builder>) returns (c: Builder)
    requires WFSeq(bs)
    ensures c.Partial? && WF(c)
    ensures WF(Joiner(bs)) && Render(c) == Render(Joiner(bs))
    ensures bs == [] ==> Render(c) == ""
  {
    var buff := "";
    for i := 0 to |bs|
      invariant WFSeq(bs[..i])
      invariant buff == RenderSeq(bs[..i])
    {
      FootSeqAt(bs, i);
      FootSeqAllocated(bs[..i]);
      buff := Build(bs[i], buff);
      RenderSeqSnoc(bs, i);
    }
    assert bs[..|bs|] == bs;
    WFSeqFoot(bs);
    c := Partial(buff);
  }

  /** Compiling the result of a compile changes nothing: both render what
      the original builders render. */
  method CompileTwice(bs: seq<Builder>) returns (once: Builder, twice: Builder)
    requires WFSeq(bs)
    ensures WF(once) && WF(twice) && WF(Joiner(bs))
    ensures Render(twice) == Render(once) == Render(Joiner(bs))
  {
    once := Compile(bs);
    FootAllocated(Joiner(bs));
    twice := Compile([once]);
    assert [once][1..] == [];
    assert RenderSeq([once]) == Render(once) + RenderSeq([]);
  }
}
