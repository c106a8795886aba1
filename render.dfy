/** What `Block.__str__`, `Tag.__str__` and `SelfClosingTag.__str__` write,
    as functions of the tree, the indentation and the context. */
module Rendering {
  import opened Strings
  import opened Escaping
  import opened Ordering
  import opened Outcomes
  import opened Html

  /** `INDENT_SIZE`. */
  const IndentSize: nat := 2

  /** The attribute name written for a stored key: `class_` is written `class`. */
  function AttributeName(key: string): (r: string)
    ensures r == RStrip(key, '_')
  {
    if key != "" && key[|key| - 1] == '_' then RStrip(key, '_') else key
  }

  /** The text written for an attribute value: `pyhtml.py` calls a callable
      with the context, `phtml/__init__.py` prints it as it is. */
  function ValueText(v: Variant, value: AttrValue, ctx: Context): string
  {
    match value
    case Fixed(s) => s
    case Computed(f, s) => if v == PyHtml then f(ctx) else s
  }

  /** ` key="value"` for each pair, in the given order; values are not escaped. */
  function AttrsInOrder(v: Variant, a: Attrs, ctx: Context): string
  {
    if a == [] then ""
    else " " + AttributeName(a[0].0) + "=\"" + ValueText(v, a[0].1, ctx) + "\"" + AttrsInOrder(v, a[1..], ctx)
  }

  /** The value a key maps to (a key that is absent never occurs below). */
  function ValueOf(a: Attrs, k: string): AttrValue
  {
    match Lookup(a, k)
    case Some(x) => x
    case None => Fixed("")
  }

  /** Each key with the value the dictionary gives it, in the order of `ks`. */
  function Paired(ks: seq<string>, a: Attrs): (r: Attrs)
    ensures |r| == |ks| && forall i :: 0 <= i < |r| ==> r[i] == (ks[i], ValueOf(a, ks[i]))
  {
    if ks == [] then [] else [(ks[0], ValueOf(a, ks[0]))] + Paired(ks[1..], a)
  }

  /** `sorted(attributes.items())`. */
  function SortedAttrs(a: Attrs): (r: Attrs)
    ensures Sorted(Keys(r))
    ensures multiset(Keys(r)) == multiset(Keys(a))
    ensures forall i :: 0 <= i < |r| ==> r[i].1 == ValueOf(a, r[i].0)
  {
    var ks := Sort(Keys(a));
    var r := Paired(ks, a);
    assert Keys(r) == ks;
    r
  }

  /** The attribute text of a tag. */
  function AttributesText(v: Variant, a: Attrs, ctx: Context): string
  {
    if v == PyHtml then AttrsInOrder(v, SortedAttrs(a), ctx) else AttrsInOrder(v, a, ctx)
  }

  /** `str` of a tag class: `<name/>` for a self-closing kind, `<name></name>` otherwise. */
  function BareText(k: Kind): string
  {
    if k.flavour == SelfClosing then "<" + k.name + "/>" else "<" + k.name + "></" + k.name + ">"
  }

  function Indented(lines: seq<string>, indent: nat): (r: seq<string>)
    ensures |r| == |lines| && forall i :: 0 <= i < |r| ==> r[i] == Spaces(indent) + lines[i]
  {
    if lines == [] then [] else [Spaces(indent) + lines[0]] + Indented(lines[1..], indent)
  }

  /** How a text is written: raw in a whitespace-sensitive owner, otherwise
      each line of `splitlines(True)` after `indent` spaces. */
  function Emit(ws: bool, s: string, indent: nat): string
  {
    if ws then s else Concat(Indented(SplitLines(s), indent))
  }

  /** The text of a child that is not a Block: a callable is called, and the
      text is escaped unless the owner is `safe`; a tag class is never escaped. */
  function LeafText(safe: bool, c: Child, ctx: Context): string
    requires !c.Sub?
  {
    match c
    case Bare(k) => BareText(k)
    case Lit(s) => if safe then s else Escaped(s, true)
    case Call(f) => if safe then f(ctx) else Escaped(f(ctx), true)
  }

  /** The doctype line, written when the kind has one. */
  function DoctypeLine(doctype: string, indent: nat): string
  {
    if doctype == "" then "" else Spaces(indent) + doctype + "\n"
  }

  /** The opening of a tag that is not self-closing: its doctype line, the
      indentation, `<name`, the attributes and `>`. */
  function OpenTag(v: Variant, k: Kind, a: Attrs, indent: nat, ctx: Context): string
  {
    DoctypeLine(k.doctype, indent) + Spaces(indent) + "<" + k.name + AttributesText(v, a, ctx) + ">"
  }

  function CloseTag(k: Kind): string
  {
    "</" + k.name + ">"
  }

  /** The rendered children between the tags: verbatim in a whitespace-sensitive
      tag, otherwise after a newline and followed by a newline and the indentation. */
  function Enclosed(ws: bool, body: string, indent: nat): string
  {
    if ws then body else "\n" + body + "\n" + Spaces(indent)
  }

  /** `SelfClosingTag.__str__`: the indentation, the name and the attributes, closed with `/>`. */
  function SelfClosingText(v: Variant, k: Kind, a: Attrs, indent: nat, ctx: Context): string
  {
    Spaces(indent) + "<" + k.name + AttributesText(v, a, ctx) + "/>"
  }

  /** What a tag that is not self-closing writes between its tags: nothing
      when it has no children. */
  function TagBody(v: Variant, ws: bool, safe: bool, cs: seq<Child>, indent: nat, ctx: Context): string
    decreases cs, 2
  {
    if cs == [] then "" else Enclosed(ws, RenderChildren(v, ws, safe, cs, indent + IndentSize, ctx), indent)
  }

  /** `node.__str__(out, indent, **ctx)`. */
  function RenderNode(v: Variant, n: Node, indent: nat, ctx: Context): string
    decreases n, 3
  {
    match n
    case Block(_, cs, safe) => RenderChildren(v, false, safe, cs, indent, ctx)
    case Tag(k, a, cs, safe) =>
      if k.flavour == SelfClosing then
        SelfClosingText(v, k, a, indent, ctx)
      else
        var ws := k.flavour == WhitespaceSensitive;
        OpenTag(v, k, a, indent, ctx) + TagBody(v, ws, safe, cs, indent, ctx) + CloseTag(k)
  }

  /** The loop of `Block.__str__`: each child, then `\n` unless it is the last
      one or the owner is whitespace-sensitive. */
  function RenderChildren(v: Variant, ws: bool, safe: bool, cs: seq<Child>, indent: nat, ctx: Context): string
    decreases cs, 1
  {
    if cs == [] then ""
    else RenderChild(v, ws, safe, cs[0], indent, ctx) + (if ws || |cs| == 1 then "" else "\n")
         + RenderChildren(v, ws, safe, cs[1..], indent, ctx)
  }

  /** One step of the children loop: the child at `i`, its separator, then the rest. */
  lemma ChildrenStep(v: Variant, ws: bool, safe: bool, cs: seq<Child>, i: nat, indent: nat, ctx: Context)
    requires i < |cs|
    ensures RenderChildren(v, ws, safe, cs[i..], indent, ctx)
         == RenderChild(v, ws, safe, cs[i], indent, ctx) + (if ws || i == |cs| - 1 then "" else "\n")
            + RenderChildren(v, ws, safe, cs[i + 1..], indent, ctx)
  {
    assert cs[i..][1..] == cs[i + 1..];
  }

  /** `_write_single`. */
  function RenderChild(v: Variant, ws: bool, safe: bool, c: Child, indent: nat, ctx: Context): string
    decreases c, 0
  {
    if c.Sub? then RenderNode(v, c.node, indent, ctx) else Emit(ws, LeafText(safe, c, ctx), indent)
  }

  /** `render(**ctx)`, and `str(node)` with the empty context. */
  function Render(v: Variant, n: Node, ctx: Context): string
  {
    RenderNode(v, n, 0, ctx)
  }
}
