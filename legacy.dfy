/** The older engine, `phtml.py`: a Tag's content is `None`, `''` or a
    tuple, `render_tag` closes a tag itself when the content is `None`,
    nothing is indented, and a Block is a Tag that renders only its content. */
module Legacy {
  import opened Strings
  import opened Escaping
  import opened Outcomes
  import opened Output
  import Html
  import Rendering

  type Context = Html.Context

  /** `self.content`: `None`, `''`, or the tuple given to `__init__` or `__call__`. */
  datatype Content = Absent | Empty | Items(items: seq<Item>)

  /** An item of a content tuple: a string or any other object (by its
      `str`), a callable of the context, a tag class, or a Tag or Block instance. */
  datatype Item =
    | Str(text: string)
    | Call(produce: Context -> string)
    | Class(name: string)
    | Elem(tag: Element)

  /** An instance of a tag class (its class name, content and attribute
      dictionary with the values as `'%s' % v` prints them) or a `Block(name)`. */
  datatype Element =
    | Tag(name: string, content: Content, attributes: seq<(string, string)>)
    | Block(name: string, content: Content)

  /** The attribute text of `render_tag`, in dictionary order. */
  function AttrText(attributes: seq<(string, string)>): string
  {
    if attributes == [] then "" else AttrPiece(attributes[0]) + AttrText(attributes[1..])
  }

  /** ` key="value"`, with the trailing underscores of the key stripped. */
  function AttrPiece(attribute: (string, string)): string
  {
    " " + Rendering.AttributeName(attribute.0) + "=\"" + attribute.1 + "\""
  }

  /** `render_tag(name, content, attributes)`: content `None` gives `<name/>`;
      any string, the empty one included, is put between the two tags. */
  function RenderTag(name: string, content: Option<string>, attributes: seq<(string, string)>): string
  {
    "<" + name + AttrText(attributes) + (if content.Some? then ">" + content.value + "</" + name + ">" else "/>")
  }

  /** `render_tag` writing into its own buffer. */
  method WriteRenderTag(name: string, content: Option<string>, attributes: seq<(string, string)>) returns (r: string)
    ensures r == RenderTag(name, content, attributes)
  {
    var s := new Buffer();
    var open := "<" + name;
    s.Write(open);
    for i := 0 to |attributes|
      invariant s.content == open + AttrText(attributes[..i])
    {
      var k := attributes[i].0;
      if k != "" && k[|k| - 1] == '_' {
        k := RStrip(k, '_');
      }
      var piece := " " + k + "=\"" + attributes[i].1 + "\"";
      AttrTextStep(attributes, i);
      AppendAssoc(open, AttrText(attributes[..i]), piece);
      s.Write(piece);
    }
    assert attributes[..|attributes|] == attributes;
    ghost var head := s.content;
    ghost var tail := if content.Some? then ">" + content.value + "</" + name + ">" else "/>";
    if content.Some? {
      s.Write(">");
      s.Write(content.value);
      s.Write("</" + name + ">");
      AppendAssoc(head, ">", content.value);
      AppendAssoc(head, ">" + content.value, "</" + name + ">");
      AppendAssoc(">" + content.value, "</" + name, ">");
      AppendAssoc(">" + content.value, "</", name);
    } else {
      s.Write("/>");
    }
    assert s.content == head + tail;
    r := s.content;
  }

  lemma {:induction false} AttrTextAppend(a: seq<(string, string)>, b: seq<(string, string)>)
    ensures AttrText(a + b) == AttrText(a) + AttrText(b)
  {
    if a == [] {
      assert a + b == b;
    } else {
      assert (a + b)[1..] == a[1..] + b;
      AttrTextAppend(a[1..], b);
    }
  }

  lemma AttrTextStep(a: seq<(string, string)>, i: nat)
    requires i < |a|
    ensures AttrText(a[..i + 1]) == AttrText(a[..i]) + AttrPiece(a[i])
  {
    assert a[..i + 1] == a[..i] + [a[i]];
    AttrTextAppend(a[..i], [a[i]]);
    assert [a[i]][1..] == [];
  }

  /** `render_tag` keeps `None` and `''` apart, and different contents apart:
      the content can be read back from the text. */
  lemma RenderTagInjective(name: string, a: seq<(string, string)>, c: Option<string>, d: Option<string>)
    requires RenderTag(name, c, a) == RenderTag(name, d, a)
    ensures c == d
  {
    var prefix := "<" + name + AttrText(a);
    var close := "</" + name + ">";
    RenderTagMark(name, a, c);
    RenderTagMark(name, a, d);
    if c.Some? && d.Some? {
      RenderTagSome(name, a, c.value);
      RenderTagSome(name, a, d.value);
      TextBetween(prefix, c.value, close);
      TextBetween(prefix, d.value, close);
    }
  }

  /** Right after the attributes comes `>` when there is content and `/` when there is none. */
  lemma RenderTagMark(name: string, a: seq<(string, string)>, c: Option<string>)
    ensures |RenderTag(name, c, a)| > |"<" + name + AttrText(a)|
    ensures RenderTag(name, c, a)[|"<" + name + AttrText(a)|] == if c.Some? then '>' else '/'
  {
    var prefix := "<" + name + AttrText(a);
    if c.Some? {
      RenderTagSome(name, a, c.value);
      CharAt(prefix, ">" + c.value + ("</" + name + ">"));
    } else {
      CharAt(prefix, "/>");
    }
  }

  lemma RenderTagSome(name: string, a: seq<(string, string)>, m: string)
    ensures RenderTag(name, Some(m), a) == ("<" + name + AttrText(a)) + (">" + m + ("</" + name + ">"))
  {
    AppendAssoc(">" + m, "</" + name, ">");
    AppendAssoc(">" + m, "</", name);
  }

  lemma CharAt(p: string, x: string)
    requires x != ""
    ensures (p + x)[|p|] == x[0]
  {
  }

  /** The text between `>` and a closing tag of fixed length is determined. */
  lemma TextBetween(p: string, m: string, t: string)
    ensures |p + (">" + m + t)| - |t| - |p| - 1 == |m|
    ensures (p + (">" + m + t))[|p| + 1..|p| + 1 + |m|] == m
  {
    var r := p + (">" + m + t);
    assert forall i :: 0 <= i < |m| ==> r[|p| + 1 + i] == m[i];
  }

  /** `rendered_content` of `Tag.__str__`: `''` for `''`, the rendered items
      added together for a non-empty tuple, `None` otherwise. */
  function RenderedContent(c: Content, ctx: Context): Option<string>
    decreases c, 2
  {
    match c
    case Absent => None
    case Empty => Some("")
    case Items(xs) => if xs == [] then None else Some(RenderItems(xs, ctx))
  }

  /** `reduce(operator.add, map(_render_single, content))`. */
  function RenderItems(xs: seq<Item>, ctx: Context): string
    decreases xs, 1
  {
    if xs == [] then "" else RenderSingle(xs[0], ctx) + RenderItems(xs[1..], ctx)
  }

  /** `_render_single`: strings and other objects escaped, instances
      rendered, tag classes as `<name/>`, callables called and escaped. */
  function RenderSingle(x: Item, ctx: Context): string
    decreases x, 0
  {
    match x
    case Str(s) => Escaped(s, true)
    case Elem(t) => Render(t, false, ctx)
    case Class(name) => RenderTag(name, None, [])
    case Call(f) => Escaped(f(ctx), true)
  }

  /** `t.__str__(content_only, **context)`; a Block always renders only its content. */
  function Render(t: Element, contentOnly: bool, ctx: Context): string
    decreases t, 3
  {
    var rendered := RenderedContent(t.content, ctx);
    if t.Block? || contentOnly then (if rendered.Some? then rendered.value else "")
    else RenderTag(t.name, rendered, t.attributes)
  }

  /** `Tag.__init__(*content, **attributes)`: both at once fail the assertion;
      neither gives content `''`, so that the tag is not self-closing. */
  function Init(name: string, content: seq<Item>, attributes: seq<(string, string)>): (r: Result<Element>)
    ensures r.Err? <==> content != [] && attributes != []
    ensures r.Err? ==> r.error == AssertionFailed
    ensures r.Ok? ==> r.value.Tag? && r.value.name == name && r.value.attributes == attributes
    ensures r.Ok? ==> r.value.content == if content != [] then Items(content) else if attributes != [] then Absent else Empty
  {
    if content != [] && attributes != [] then Err(AssertionFailed)
    else if content != [] then Ok(Tag(name, Items(content), []))
    else if attributes != [] then Ok(Tag(name, Absent, attributes))
    else Ok(Tag(name, Empty, []))
  }

  /** `Block(name)`: content `''` and, for `Tag.__init__`'s sake, no attributes. */
  function NewBlock(name: string): Element
  {
    Block(name, Empty)
  }

  /** `t(*content)`: an empty call sets `''`. */
  function CallElement(t: Element, content: seq<Item>): (r: Element)
    ensures r.name == t.name && r.Block? == t.Block?
    ensures r.Tag? ==> r.attributes == t.attributes
    ensures r.content == if content == [] then Empty else Items(content)
  {
    if content == [] then t.(content := Empty) else t.(content := Items(content))
  }

  /** A tag built with attributes only closes itself; one built with nothing,
      or called with nothing, is written with an opening and a closing tag. */
  lemma InitLayout(name: string, attributes: seq<(string, string)>, ctx: Context)
    ensures Init(name, [], attributes).Ok?
    ensures attributes != [] ==> Render(Init(name, [], attributes).value, false, ctx) == "<" + name + AttrText(attributes) + "/>"
    ensures Render(CallElement(Init(name, [], attributes).value, []), false, ctx) == "<" + name + AttrText(attributes) + "></" + name + ">"
  {
    var t := Init(name, [], attributes).value;
    if attributes != [] {
      assert t == Tag(name, Absent, attributes);
      assert Render(t, false, ctx) == RenderTag(name, None, attributes);
    }
    var u := CallElement(t, []);
    assert u == Tag(name, Empty, attributes);
    assert Render(u, false, ctx) == RenderTag(name, Some(""), attributes);
    RenderTagEmpty(name, attributes);
  }

  /** Content `''` gives an opening and a closing tag with nothing between. */
  lemma RenderTagEmpty(name: string, a: seq<(string, string)>)
    ensures RenderTag(name, Some(""), a) == "<" + name + AttrText(a) + "></" + name + ">"
  {
    var p := "<" + name + AttrText(a);
    EmptyClose();
    AppendAssoc(p, "></" + name, ">");
    AppendAssoc(p, "></", name);
  }

  lemma EmptyClose()
    ensures ">" + "" + "</" == "></"
  {
  }

  /** `str(cls)` for a tag class, including `html`: self-closing. */
  lemma ClassLayout(name: string, ctx: Context)
    ensures RenderSingle(Class(name), ctx) == "<" + name + "/>"
  {
  }

  /** A Block renders its content and nothing else, whatever `content_only` says. */
  lemma BlockContentOnly(name: string, c: Content, only: bool, ctx: Context)
    ensures Render(Block(name, c), only, ctx) == Render(Tag(name, c, []), true, ctx)
    ensures c == Empty || c == Absent || c == Items([]) ==> Render(Block(name, c), only, ctx) == ""
  {
  }

  /** Text items are escaped: no raw markup comes from a string or a callable. */
  lemma {:induction false} ItemsEscaped(s: string, f: Context -> string, ctx: Context)
    ensures var r := RenderSingle(Str(s), ctx); '<' !in r && '>' !in r && '"' !in r && '\'' !in r
    ensures var r := RenderSingle(Call(f), ctx); '<' !in r && '>' !in r && '"' !in r && '\'' !in r
  {
    EscapedHasNoMarkup(s, true);
    EscapedHasNoMarkup(f(ctx), true);
  }

  /** `_find_blocks(name)`: the Blocks of that name among the content, in
      order, searching every other Tag and Block; iterating a `None`
      content raises `TypeError`. */
  function Found(t: Element, name: string): (r: Result<seq<Element>>)
    ensures r.Ok? ==> forall i :: 0 <= i < |r.value| ==> r.value[i].Block? && r.value[i].name == name
    decreases t, 2
  {
    match t.content
    case Absent => Err(TypeError)
    case Empty => Ok([])
    case Items(xs) => FoundItems(xs, name)
  }

  function FoundItems(xs: seq<Item>, name: string): (r: Result<seq<Element>>)
    ensures r.Ok? ==> forall i :: 0 <= i < |r.value| ==> r.value[i].Block? && r.value[i].name == name
    decreases xs, 1
  {
    if xs == [] then Ok([])
    else
      var here := FoundItem(xs[0], name);
      var rest := FoundItems(xs[1..], name);
      if here.Err? then here
      else if rest.Err? then rest
      else Ok(here.value + rest.value)
  }

  function FoundItem(x: Item, name: string): (r: Result<seq<Element>>)
    ensures r.Ok? ==> forall i :: 0 <= i < |r.value| ==> r.value[i].Block? && r.value[i].name == name
    decreases x, 0
  {
    if x.Elem? && x.tag.Block? && x.tag.name == name then Ok([x.tag])
    else if x.Elem? then Found(x.tag, name)
    else Ok([])
  }

  /** The tree with each Block `_find_blocks` would find given the content `(x,)`. */
  function FillTree(t: Element, name: string, x: Item): (r: Element)
    ensures r.name == t.name && r.Block? == t.Block?
    ensures r.Tag? ==> r.attributes == t.attributes
    ensures r.content.Items? <==> t.content.Items?
    decreases t, 2
  {
    match t.content
    case Items(xs) => t.(content := Items(FillItems(xs, name, x)))
    case _ => t
  }

  function FillItems(xs: seq<Item>, name: string, x: Item): (r: seq<Item>)
    ensures |r| == |xs|
    decreases xs, 1
  {
    if xs == [] then [] else [FillItem(xs[0], name, x)] + FillItems(xs[1..], name, x)
  }

  function FillItem(y: Item, name: string, x: Item): Item
    decreases y, 0
  {
    if y.Elem? && y.tag.Block? && y.tag.name == name then Elem(y.tag.(content := Items([x])))
    else if y.Elem? then Elem(FillTree(y.tag, name, x))
    else y
  }

  /** `self[name] = x`: the search runs first, so it raises `TypeError`
      exactly when it reaches a `None` content, before anything is filled;
      otherwise every Block found now holds `(x,)` and nothing else in the
      tree has changed. */
  function SetBlocks(t: Element, name: string, x: Item): (r: Result<Element>)
    ensures r.Err? <==> ReachesAbsent(t, name)
    ensures r.Err? ==> r.error == TypeError
    ensures r.Ok? ==> Found(t, name).Ok? && Found(r.value, name) == Ok(Called(Found(t, name).value, x))
    ensures r.Ok? ==> EraseTree(r.value, name) == EraseTree(t, name)
  {
    FoundAbsent(t, name);
    if Found(t, name).Err? then Err(TypeError)
    else
      FillFound(t, name, x);
      FillTreeFrame(t, name, x);
      Ok(FillTree(t, name, x))
  }

  /** The search reaches a `None` content: the element's own, or one inside
      an item it goes into (any Tag or Block but a Block of that name). */
  predicate ReachesAbsent(t: Element, name: string)
    decreases t, 2
  {
    match t.content
    case Absent => true
    case Empty => false
    case Items(xs) => ItemsReachAbsent(xs, name)
  }

  predicate ItemsReachAbsent(xs: seq<Item>, name: string)
    decreases xs, 1
  {
    exists i :: 0 <= i < |xs| && ItemReachAbsent(xs[i], name)
  }

  predicate ItemReachAbsent(y: Item, name: string)
    decreases y, 0
  {
    y.Elem? && !(y.tag.Block? && y.tag.name == name) && ReachesAbsent(y.tag, name)
  }

  lemma ItemsReachAbsentCons(xs: seq<Item>, name: string)
    requires xs != []
    ensures ItemsReachAbsent(xs, name) <==> ItemReachAbsent(xs[0], name) || ItemsReachAbsent(xs[1..], name)
  {
    if ItemsReachAbsent(xs, name) && !ItemReachAbsent(xs[0], name) {
      var i :| 0 <= i < |xs| && ItemReachAbsent(xs[i], name);
      assert xs[1..][i - 1] == xs[i];
    }
    if ItemsReachAbsent(xs[1..], name) {
      var i :| 0 <= i < |xs[1..]| && ItemReachAbsent(xs[1..][i], name);
      assert xs[i + 1] == xs[1..][i];
    }
  }

  /** The search fails exactly when it reaches a `None` content, and then
      with `TypeError`. */
  lemma {:induction false} FoundAbsent(t: Element, name: string)
    ensures Found(t, name).Err? <==> ReachesAbsent(t, name)
    ensures Found(t, name).Err? ==> Found(t, name).error == TypeError
    decreases t, 2
  {
    if t.content.Items? {
      FoundItemsAbsent(t.content.items, name);
    }
  }

  lemma {:induction false} FoundItemsAbsent(xs: seq<Item>, name: string)
    ensures FoundItems(xs, name).Err? <==> ItemsReachAbsent(xs, name)
    ensures FoundItems(xs, name).Err? ==> FoundItems(xs, name).error == TypeError
    decreases xs, 1
  {
    if xs != [] {
      FoundItemAbsent(xs[0], name);
      FoundItemsAbsent(xs[1..], name);
      ItemsReachAbsentCons(xs, name);
    }
  }

  lemma {:induction false} FoundItemAbsent(y: Item, name: string)
    ensures FoundItem(y, name).Err? <==> ItemReachAbsent(y, name)
    ensures FoundItem(y, name).Err? ==> FoundItem(y, name).error == TypeError
    decreases y, 0
  {
    if y.Elem? && !(y.tag.Block? && y.tag.name == name) {
      FoundAbsent(y.tag, name);
    }
  }

  /** A Block `b` is reached by the search: it is a Block of that name among
      the items, or is reached inside an item the search goes into (any Tag
      or Block but a Block of that name). */
  ghost predicate Reaches(t: Element, name: string, b: Element)
    decreases t, 2
  {
    t.content.Items? && ItemsReach(t.content.items, name, b)
  }

  ghost predicate ItemsReach(xs: seq<Item>, name: string, b: Element)
    decreases xs, 1
  {
    exists i :: 0 <= i < |xs| && ItemReach(xs[i], name, b)
  }

  ghost predicate ItemReach(y: Item, name: string, b: Element)
    decreases y, 0
  {
    y.Elem? && if y.tag.Block? && y.tag.name == name then y.tag == b else Reaches(y.tag, name, b)
  }

  lemma ItemsReachCons(xs: seq<Item>, name: string, b: Element)
    requires xs != []
    ensures ItemsReach(xs, name, b) <==> ItemReach(xs[0], name, b) || ItemsReach(xs[1..], name, b)
  {
    if ItemsReach(xs, name, b) && !ItemReach(xs[0], name, b) {
      var i :| 0 <= i < |xs| && ItemReach(xs[i], name, b);
      assert xs[1..][i - 1] == xs[i];
    }
    if ItemsReach(xs[1..], name, b) {
      var i :| 0 <= i < |xs[1..]| && ItemReach(xs[1..][i], name, b);
      assert xs[i + 1] == xs[1..][i];
    }
  }

  /** When the search succeeds it finds every Block it reaches and nothing
      else: Blocks of that name, looked for inside Tags and inside Blocks of
      other names. */
  lemma {:induction false} FoundReaches(t: Element, name: string, b: Element)
    ensures Found(t, name).Ok? ==> (b in Found(t, name).value <==> Reaches(t, name, b))
    decreases t, 2
  {
    if t.content.Items? {
      FoundItemsReach(t.content.items, name, b);
    }
  }

  lemma {:induction false} FoundItemsReach(xs: seq<Item>, name: string, b: Element)
    ensures FoundItems(xs, name).Ok? ==> (b in FoundItems(xs, name).value <==> ItemsReach(xs, name, b))
    decreases xs, 1
  {
    if xs != [] {
      FoundItemReach(xs[0], name, b);
      FoundItemsReach(xs[1..], name, b);
      ItemsReachCons(xs, name, b);
    }
  }

  lemma {:induction false} FoundItemReach(y: Item, name: string, b: Element)
    ensures FoundItem(y, name).Ok? ==> (b in FoundItem(y, name).value <==> ItemReach(y, name, b))
    decreases y, 0
  {
    if y.Elem? && !(y.tag.Block? && y.tag.name == name) {
      FoundReaches(y.tag, name, b);
    }
  }

  /** Searching two runs of items one after the other: the first failure
      wins, otherwise the finds of the first run come before those of the
      second. */
  lemma {:induction false} FoundItemsAppend(a: seq<Item>, c: seq<Item>, name: string)
    ensures FoundItems(a + c, name) ==
      if FoundItems(a, name).Err? then FoundItems(a, name)
      else if FoundItems(c, name).Err? then FoundItems(c, name)
      else Ok(FoundItems(a, name).value + FoundItems(c, name).value)
  {
    if a == [] {
      assert a + c == c;
      if FoundItems(c, name).Ok? {
        assert [] + FoundItems(c, name).value == FoundItems(c, name).value;
      }
    } else {
      assert (a + c)[0] == a[0] && (a + c)[1..] == a[1..] + c;
      FoundItemsAppend(a[1..], c, name);
      var here := FoundItem(a[0], name);
      var rest := FoundItems(a[1..], name);
      var tail := FoundItems(c, name);
      if here.Ok? && rest.Ok? && tail.Ok? {
        assert here.value + (rest.value + tail.value) == here.value + rest.value + tail.value;
      }
    }
  }

  /** The search rule of `phtml.py` at any position of a successful search:
      a Block of that name contributes itself without being looked into, any
      other Tag or Block contributes what it holds, and anything else
      nothing; the finds before and after keep their order. */
  lemma FoundItemsSplit(xs: seq<Item>, i: nat, name: string)
    requires i < |xs|
    ensures FoundItems(xs, name).Ok? ==>
      FoundItems(xs[..i], name).Ok? && FoundItem(xs[i], name).Ok? && FoundItems(xs[i + 1..], name).Ok? &&
      FoundItems(xs, name).value == FoundItems(xs[..i], name).value + FoundItem(xs[i], name).value + FoundItems(xs[i + 1..], name).value
    ensures FoundItems(xs, name).Ok? && xs[i].Elem? && xs[i].tag.Block? && xs[i].tag.name == name ==>
      FoundItems(xs, name).value == FoundItems(xs[..i], name).value + [xs[i].tag] + FoundItems(xs[i + 1..], name).value
    ensures FoundItems(xs, name).Ok? && xs[i].Elem? && !(xs[i].tag.Block? && xs[i].tag.name == name) ==>
      Found(xs[i].tag, name).Ok? &&
      FoundItems(xs, name).value == FoundItems(xs[..i], name).value + Found(xs[i].tag, name).value + FoundItems(xs[i + 1..], name).value
    ensures FoundItems(xs, name).Ok? && !xs[i].Elem? ==>
      FoundItems(xs, name).value == FoundItems(xs[..i], name).value + FoundItems(xs[i + 1..], name).value
  {
    FoundItemsAt(xs, i, name);
  }

  lemma FoundItemsAt(xs: seq<Item>, i: nat, name: string)
    requires i < |xs|
    ensures FoundItems(xs, name).Ok? ==>
      FoundItems(xs[..i], name).Ok? && FoundItem(xs[i], name).Ok? && FoundItems(xs[i + 1..], name).Ok? &&
      FoundItems(xs, name).value == FoundItems(xs[..i], name).value + FoundItem(xs[i], name).value + FoundItems(xs[i + 1..], name).value
  {
    assert xs == xs[..i] + ([xs[i]] + xs[i + 1..]);
    FoundItemsAppend(xs[..i], [xs[i]] + xs[i + 1..], name);
    FoundItemsAppend([xs[i]], xs[i + 1..], name);
    assert ([xs[i]] + xs[i + 1..])[0] == xs[i] && ([xs[i]] + xs[i + 1..])[1..] == xs[i + 1..];
  }

  /** The tree with the content of every Block the search finds emptied:
      what filling must leave as it was. */
  function EraseTree(t: Element, name: string): (r: Element)
    ensures r.name == t.name && r.Block? == t.Block?
    decreases t, 2
  {
    match t.content
    case Items(xs) => t.(content := Items(EraseItems(xs, name)))
    case _ => t
  }

  function EraseItems(xs: seq<Item>, name: string): (r: seq<Item>)
    ensures |r| == |xs|
    decreases xs, 1
  {
    if xs == [] then [] else [EraseItem(xs[0], name)] + EraseItems(xs[1..], name)
  }

  function EraseItem(y: Item, name: string): (r: Item)
    ensures r.Elem? <==> y.Elem?
    decreases y, 0
  {
    if y.Elem? && y.tag.Block? && y.tag.name == name then Elem(y.tag.(content := Empty))
    else if y.Elem? then Elem(EraseTree(y.tag, name))
    else y
  }

  /** Filling changes nothing but the content of the Blocks found. */
  lemma {:induction false} FillTreeFrame(t: Element, name: string, x: Item)
    ensures EraseTree(FillTree(t, name, x), name) == EraseTree(t, name)
    decreases t, 2
  {
    if t.content.Items? {
      FillItemsFrame(t.content.items, name, x);
    }
  }

  lemma {:induction false} FillItemsFrame(xs: seq<Item>, name: string, x: Item)
    ensures EraseItems(FillItems(xs, name, x), name) == EraseItems(xs, name)
    decreases xs, 1
  {
    if xs != [] {
      var ys := FillItems(xs, name, x);
      assert ys[0] == FillItem(xs[0], name, x) && ys[1..] == FillItems(xs[1..], name, x);
      FillItemFrame(xs[0], name, x);
      FillItemsFrame(xs[1..], name, x);
    }
  }

  lemma {:induction false} FillItemFrame(y: Item, name: string, x: Item)
    ensures EraseItem(FillItem(y, name, x), name) == EraseItem(y, name)
    decreases y, 0
  {
    if y.Elem? && !(y.tag.Block? && y.tag.name == name) {
      FillTreeFrame(y.tag, name, x);
    }
  }

  /** The Blocks found in place of `bs` once each has been called with `x`. */
  function Called(bs: seq<Element>, x: Item): (r: seq<Element>)
    ensures |r| == |bs|
  {
    seq(|bs|, i requires 0 <= i < |bs| => bs[i].(content := Items([x])))
  }

  lemma CalledAppend(a: seq<Element>, b: seq<Element>, x: Item)
    ensures Called(a + b, x) == Called(a, x) + Called(b, x)
  {
  }

  /** After filling, a search for the same name finds the same Blocks, each
      now holding `x`. */
  lemma {:induction false} FillFound(t: Element, name: string, x: Item)
    requires Found(t, name).Ok?
    ensures Found(FillTree(t, name, x), name) == Ok(Called(Found(t, name).value, x))
    decreases t, 2
  {
    if t.content.Items? {
      FillItemsFound(t.content.items, name, x);
    }
  }

  lemma {:induction false} FillItemsFound(xs: seq<Item>, name: string, x: Item)
    requires FoundItems(xs, name).Ok?
    ensures FoundItems(FillItems(xs, name, x), name) == Ok(Called(FoundItems(xs, name).value, x))
    decreases xs, 1
  {
    if xs != [] {
      var ys := FillItems(xs, name, x);
      assert ys[0] == FillItem(xs[0], name, x) && ys[1..] == FillItems(xs[1..], name, x);
      FillItemFound(xs[0], name, x);
      FillItemsFound(xs[1..], name, x);
      CalledAppend(FoundItem(xs[0], name).value, FoundItems(xs[1..], name).value, x);
    }
  }

  lemma {:induction false} FillItemFound(y: Item, name: string, x: Item)
    requires FoundItem(y, name).Ok?
    ensures FoundItem(FillItem(y, name, x), name) == Ok(Called(FoundItem(y, name).value, x))
    decreases y, 0
  {
    if y.Elem? && y.tag.Block? && y.tag.name == name {
      assert Called([y.tag], x) == [Block(name, Items([x]))];
    } else if y.Elem? {
      FillFound(y.tag, name, x);
    }
  }

  /** Nothing to find, nothing filled. */
  lemma {:induction false} FillNothing(t: Element, name: string, x: Item)
    requires Found(t, name) == Ok([])
    ensures FillTree(t, name, x) == t
    decreases t, 2
  {
    if t.content.Items? {
      FillItemsNothing(t.content.items, name, x);
    }
  }

  lemma {:induction false} FillItemsNothing(xs: seq<Item>, name: string, x: Item)
    requires FoundItems(xs, name) == Ok([])
    ensures FillItems(xs, name, x) == xs
    decreases xs, 1
  {
    if xs != [] {
      var here := FoundItem(xs[0], name);
      var rest := FoundItems(xs[1..], name);
      assert here.Ok? && rest.Ok? && here.value + rest.value == [];
      assert here.value == [] && rest.value == [];
      FillItemNothing(xs[0], name, x);
      FillItemsNothing(xs[1..], name, x);
      assert xs == [xs[0]] + xs[1..];
    }
  }

  lemma {:induction false} FillItemNothing(y: Item, name: string, x: Item)
    requires FoundItem(y, name) == Ok([])
    ensures FillItem(y, name, x) == y
    decreases y, 0
  {
    if y.Elem? && !(y.tag.Block? && y.tag.name == name) {
      FillNothing(y.tag, name, x);
    }
  }

  /** A Tag or Block instance as the object its methods update in place. */
  class Instance {
    const name: string
    const isBlock: bool
    var content: Content
    var attributes: seq<(string, string)>

    function Value(): (t: Element)
      reads this
      ensures t.name == name && t.Block? == isBlock && t.content == content
    {
      if isBlock then Block(name, content) else Tag(name, content, attributes)
    }

    constructor Of(t: Element)
      ensures Value() == t
    {
      name := t.name;
      isBlock := t.Block?;
      content := t.content;
      attributes := if t.Tag? then t.attributes else [];
    }

    /** `t(*content)`, returning the object itself. */
    method Call(items: seq<Item>) returns (r: Instance)
      modifies this
      ensures r == this && Value() == CallElement(old(Value()), items)
    {
      content := if items == [] then Empty else Items(items);
      r := this;
    }

    /** `self[name] = x`: a `TypeError` from the search changes nothing. */
    method SetItem(block: string, x: Item) returns (err: Option<Error>)
      modifies this
      ensures err.Some? <==> SetBlocks(old(Value()), block, x).Err?
      ensures err.Some? ==> err.value == TypeError && Value() == old(Value())
      ensures err.None? ==> Value() == SetBlocks(old(Value()), block, x).value
    {
      var r := SetBlocks(Value(), block, x);
      if r.Err? {
        return Some(TypeError);
      }
      content := r.value.content;
      return None;
    }

    /** `copy()`: an independent object holding the same tree. */
    method Copy() returns (e: Instance)
      ensures fresh(e) && e.Value() == Value()
    {
      e := new Instance.Of(Value());
    }
  }

  /** The module-level loop of `phtml.py`: one class per name, each exported. */
  const TagNames: seq<string> := [
    "html", "head", "body", "title", "div", "p", "h1", "h2", "h3", "h4", "h5", "h6",
    "u", "b", "i", "s", "a", "em", "strong", "span", "font", "del", "ins",
    "ul", "ol", "li", "dd", "dt", "dl", "article", "section", "nav", "aside",
    "audio", "video", "object_", "embed", "param",
    "fieldset", "legend", "button", "textarea", "label", "select", "option",
    "table", "thead", "tbody", "tr", "th", "td", "caption",
    "blockquote", "cite", "q", "abbr", "acronym", "address",
    "code", "samp", "pre", "var", "kbd", "dfn",
    "meta", "link", "br", "hr", "input"]

  class Module {
    /** The names bound to a class made by `create_tag`. */
    var classes: set<string>
    /** `__all__`. */
    var exported: seq<string>

    /** The body of `phtml.py`: `render_tag`, `Tag` and `Block` exported by
        their decorators, then the loop over the tag names. */
    constructor ()
      ensures classes == set n | n in TagNames
      ensures exported == ["render_tag", "Tag", "Block"] + TagNames
    {
      classes := {};
      exported := ["render_tag", "Tag", "Block"];
      new;
      for i := 0 to |TagNames|
        invariant classes == set n | n in TagNames[..i]
        invariant exported == ["render_tag", "Tag", "Block"] + TagNames[..i]
      {
        assert TagNames[..i + 1] == TagNames[..i] + [TagNames[i]];
        classes := classes + {TagNames[i]};
        exported := exported + [TagNames[i]];
      }
      assert TagNames[..|TagNames|] == TagNames;
    }
  }
}
