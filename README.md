# builder: an HTML builder library, modelled in Dafny

The library builds HTML pages out of *builders*: raw text, joined lists of
children, elements with a tag name, an optional body and attributes, a
generator that yields builders until it yields nil, and CSS classes. Every
builder can write itself to an `io.Writer`. An element's attribute list is
mutable: `Tag` appends to it in place and returns the same element, so a later
`Tag` changes every later render of every tree holding that element. A CSS
class also keeps its caller's property map by reference, and Go visits that
map in a new order on each render. The model fixes both map behaviours (see "Left out").

The model has six modules:

- `Builders` (builder.dfy)
  - One `Builder` datatype with a variant per builder kind.
  - Elements are a `Node` class. `name` and `body` are constants and `pairs`
    is a mutable field, so a node shared by several trees is shared by
    reference.
  - `Render` is the specification of one render. It is a function that
    reads the nodes a render visits.
  - The `Build*` methods issue the writes of the source's `Build` methods
    one by one. Each is proved to append exactly `Render` to the sink.
  - The sink is the text written so far, passed in and returned.
- `Css` (css.dfy): classes, their declarations and their text.
- `Partial` (partial.dfy): raw text and `Compile`.
- `Html` (html.dfy):
  - `Join`, `Each`, `Br`
  - every element factory
  - how joins and elements render
- `Styles` (style.dfy): `Class.Style` and the `<style>` element.
- `Scenarios` (scenarios.dfy):
  - the pages built by `TestBasic`
  - a compiled builder versus a live node that is tagged afterwards

A render is only defined on acyclic builders (`WF`: no element reaches
itself through its body). Every factory returns an acyclic builder, and
`Tag` cannot make a cycle because bodies never change.

## Model

| member | source | states |
|---|---|---|
| `Builders.Node.constructor` | html.go:257-261 | a new node has the given name and body, no attributes, and is acyclic |
| `Builders.Node.Tag` | html.go:263-266 | appends exactly one pair at the end, keeps the earlier pairs (name and body cannot change) and returns the same node |
| `Builders.PairLayout` | html.go:235-241 | an attribute is a space and the key; for a non-empty value it is followed by `="`, the value verbatim (no escaping) and `"`; for an empty value nothing follows |
| `Builders.RenderPairsAppend` | html.go:279-281 | attributes render in insertion order: a split attribute list renders as its parts concatenated |
| `Builders.RenderSeqAppend` | html.go:245-249 | children render in order: a split child list renders as its parts concatenated, with no separator |
| `Builders.Build` | builder.go:6-8 | building any acyclic builder appends exactly its rendering to the sink and leaves what was already written untouched |
| `Builders.BuildPartial` | partial.go:10-12 | raw text appends its bytes verbatim |
| `Builders.BuildPair` | html.go:235-241 | writing a pair appends exactly its rendering (bare key for an empty value) |
| `Builders.BuildJoiner` | html.go:245-249 | building a joiner appends the children's renderings in order |
| `Builders.BuildEach` | html.go:117-125 | the generator loop calls until the first nil and appends what each call returned, in call order |
| `Builders.BuildOpenTag` | html.go:274-282 | writes `<`, the name, each attribute in order, then `>` |
| `Builders.BuildNode` | html.go:274-293 | writes the opening tag; with a nil body it stops there; otherwise it writes the body, then `</name>` |
| `Css.CssClass` | css.go:20-25 | a class keeps the name and the declarations it was given |
| `Css.RenderClass` | css.go:40-46 | a class renders as `.name {` + declarations + `}`, of length `|name| + 4 + sum(|k|+|v|+2)`; with no declarations it is `.name {}` |
| `Css.DeclarationsLength` | css.go:41-44 | the declaration text has length equal to the sum of `|k| + |v| + 2` over the entries |
| `Css.DeclarationsAppend` | css.go:41-44 | declarations render in iteration order: a split list renders as its parts concatenated |
| `Css.DeclarationAt` | css.go:41-44 | each entry's `k:v;` appears in the text between the entries visited before it and those visited after it |
| `Css.DeclarationsPermutationLength` | css.go:41-44 | the length of the declaration text does not depend on the map's iteration order |
| `Css.BuildClass` | css.go:40-46 | `Class.Build` appends exactly the class rendering, with entries in iteration order |
| `Partial.Raw` | partial.go:14-17 | `Raw(s)` is raw text that renders exactly `s` |
| `Partial.Compile` | partial.go:19-28 | the compiled builder is raw text that renders the same as joining the arguments; with no arguments it renders "" |
| `Partial.CompileTwice` | partial.go:19-28 | compiling a compiled builder renders the same as the first compilation and as the join |
| `Html.Join` | html.go:251-255 | a join is acyclic exactly when each child is |
| `Html.Each` | html.go:116-125 | an `Each` builder is acyclic exactly when each builder its generator returns is |
| `Html.BrText` | html.go:35-36 | `Br` is raw text rendering `</br>`, not an element |
| `Html.JoinChildAt` | html.go:243-255 | child `i` of a join renders right after children `0..i-1` and right before the children after it |
| `Html.JoinAppend` | html.go:245-255 | joining two lists renders the first join then the second |
| `Html.EachRendersCalls` | html.go:117-125 | `Each` renders the returned builders in call order up to the first nil; a generator that returns nil first renders "" |
| `Html.RenderElement` | html.go:274-293 | an element renders `<name` + attributes + `>`; only when its body is not nil does the body follow, then `</name>` |
| `Html.RenderTwoPairs` | html.go:279-281 | two attributes render one after the other, in the order they were added |
| `Html.Nav` | html.go:38-44 | a new `nav` element around the joined children renders `<nav>` + children + `</nav>` |
| `Html.Div` | html.go:46-52 | the same for `div` |
| `Html.Header` | html.go:54-60 | the same for `header` |
| `Html.Footer` | html.go:62-68 | the same for `footer` |
| `Html.Li` | html.go:70-76 | the same for `li` |
| `Html.Span` | html.go:78-84 | the same for `span` |
| `Html.Ol` | html.go:86-92 | the same for `ol` |
| `Html.Ul` | html.go:94-100 | `Ul` makes an `ol` element, rendering `<ol>` + children + `</ol>` |
| `Html.HTML` | html.go:108-114 | the same for `html` |
| `Html.P` | html.go:158-164 | the same for `p`; with no children it renders `<p></p>`, because an empty join is still a body |
| `Html.B` | html.go:166-172 | the same for `b` |
| `Html.H1` | html.go:174-180 | the same for `h1` |
| `Html.H2` | html.go:182-188 | the same for `h2` |
| `Html.H3` | html.go:190-196 | the same for `h3` |
| `Html.H4` | html.go:198-204 | the same for `h4` |
| `Html.HR` | html.go:206-212 | `HR` makes an `h4` element, rendering `<h4>` + children + `</h4>` |
| `Html.Body` | html.go:214-220 | the same for `body` |
| `Html.Title` | html.go:222-228 | `Title(n)` has the raw text as body and renders `<title>n</title>` |
| `Html.A` | html.go:132-138 | `A(text, href)` has one attribute `href` and renders `<a href="href">text</a>`, or `<a href>text</a>` when `href` is empty |
| `Html.Form` | html.go:140-147 | `Form` has `action` as its first and only attribute, and renders `<form` + that attribute + `>` + children + `</form>` |
| `Html.Input` | html.go:149-156 | `Input` has no body and no closing tag; `type` precedes `name`; with both values non-empty it renders `<input type="t" name="n">` |
| `Scenarios.ToString` | html_test.go:8-12 | building into an empty buffer gives exactly the rendering |
| `Scenarios.TextPage` | html_test.go:16-22 | `Body(Raw("this is a test"))` renders `<body>this is a test</body>` |
| `Scenarios.ParagraphPage` | html_test.go:24-31 | a body around a paragraph tagged `class` then `xxx` renders `<body><p class="test" xxx="xxxx">whats up?</p></body>` |
| `Scenarios.SingleChild` | html.go:245-255 | a join of one child renders as that child |
| `Scenarios.TagAfterCompile` | partial.go:19-28 | tagging a node after compiling it leaves the compiled output as it was, while the node's own rendering grows by exactly the new attribute |
| `Styles.ClassStyle` | css.go:15-18 | `c.Style(t)` appends exactly the pair `("class", c.name)` to `t` and returns `t` itself |
| `Styles.RulesText` | css.go:28-37 | one rule builder per class, in argument order, renders as the classes' texts concatenated |
| `Styles.ClassesTextAppend` | css.go:28-37 | two class lists render one after the other |
| `Styles.Style` | css.go:28-38 | `Style(classes...)` is a `style` element whose body joins one rule per class; it renders `<style>` + each class in argument order + `</style>`, and `<style></style>` with no classes |

## Left out

- `sToB` (util.go) is an unsafe zero-copy conversion from string to bytes. It is the identity on the tag name here, and text is `seq<char>` throughout.
- `Fmt` (html.go:128-130) wraps `fmt.Sprintf`, a foreign formatting library. It is not modelled; its result would be raw text, as for `Raw`.
- Write errors: the source ignores every result of `Write` and `Fprintf`. The sink here is an infallible, append-only string that each `Build` method takes and returns, rather than an `io.Writer` object.
- Go maps in `CSSClass` and `Class.Build`:
  - `attrs` is a sequence standing for the map in the order one render visits it.
  - Go picks a new iteration order on every `range`, so two renders of one class with two or more entries can differ. Here `Render(Rule(c))` is one fixed text. Only the length of the text is proved order-independent.
  - `CSSClass` keeps the caller's map by reference, so a later write to that map changes every later render of the class and of any `Style` holding it. Here a class is an immutable value, and this sharing is not modelled.
  - The duplicate-key freedom of a map is not modelled.
- `Builders.BuildEach`: the generator is the finite list of builders its calls return before the first nil. A generator that never returns nil, and the closure's own hidden state, are not modelled. A second render of the same `Each` replays the same list, whereas a Go closure may return different builders each time.
- `funcBuilder` (html.go:102-106) is used only by `Each` and is modelled as that variant. It is not a general function-backed builder.
- A node's body is fixed when the node is made: the source never reassigns `body`.
- Builders are assumed acyclic (`WF`). In Go a cycle can form in two ways:
  - A child slice is mutated after it was passed to `Join`, which aliases the joiner's storage. Here children are immutable sequences, so that aliasing is not modelled.
  - An `Each` generator returns a builder that holds the `Each` itself. An example is a closure that returns the enclosing `Div`. Rendering then recurses without end, or, if the closure later returns nil, renders finitely through the cycle. The finite-list model of the generator (the `Builders.BuildEach` line above) excludes this: a `Generated` list is fixed before any node that holds it exists.
  - `Tag` cannot create a cycle.
- Nil builders, nil classes and nil tag builders have no value in the model. Go accepts them and then panics:
  - a nil child of `Join`, or of a factory such as `Body`, panics when the joiner builds it (html.go:246-247);
  - a nil argument to `Compile` panics at partial.go:24;
  - a nil class passed to `Style` panics when it renders (css.go:42);
  - `c.Style(nil)` panics at css.go:16.
- The benchmark in html_test.go:35-60 measures time only.
- `Scenarios.TextPage`, `Scenarios.ParagraphPage`: the expected pages are written as a concatenation of the pieces each write produces. The concatenations spell the same strings as the test's literals.
