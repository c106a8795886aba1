/** The writing side of `Block.__str__`, `_write_single`, `Tag.__str__`,
    `_write_attributes` and `SelfClosingTag.__str__`: each writes into a
    shared buffer piece by piece, and each is proved to append exactly the
    text the functions of `Rendering` describe. */
module Writer {
  import opened Strings
  import opened Escaping
  import opened Html
  import opened Rendering
  import opened Output

  /** One step of the attribute loop: the first pair's text, then the rest. */
  lemma AttrsStep(v: Variant, items: Attrs, i: nat, ctx: Context)
    requires i < |items|
    ensures AttrsInOrder(v, items[i..], ctx)
         == " " + AttributeName(items[i].0) + "=\"" + ValueText(v, items[i].1, ctx) + "\"" + AttrsInOrder(v, items[i + 1..], ctx)
  {
    assert items[i..][1..] == items[i + 1..];
  }

  /** `_write_attributes`: ` key="value"` for each pair, sorted in `pyhtml.py`,
      in dictionary order in `phtml/__init__.py`. */
  method WriteAttributes(v: Variant, a: Attrs, ctx: Context, out: Buffer)
    modifies out
    ensures out.content == old(out.content) + AttributesText(v, a, ctx)
  {
    var items := if v == PyHtml then SortedAttrs(a) else a;
    for i := 0 to |items|
      invariant old(out.content) + AttrsInOrder(v, items, ctx) == out.content + AttrsInOrder(v, items[i..], ctx)
    {
      var key := items[i].0;
      if key != "" && key[|key| - 1] == '_' {
        key := RStrip(key, '_');
      }
      var piece := " " + key + "=\"" + ValueText(v, items[i].1, ctx) + "\"";
      AttrsStep(v, items, i, ctx);
      ghost var rest := AttrsInOrder(v, items[i + 1..], ctx);
      AppendAssoc(out.content, piece, rest);
      out.Write(piece);
    }
  }

  /** The end of `_write_single`: the text raw in a whitespace-sensitive
      owner, otherwise each line of `splitlines(True)` after the indentation. */
  method WriteText(ws: bool, s: string, indent: nat, out: Buffer)
    modifies out
    ensures out.content == old(out.content) + Emit(ws, s, indent)
  {
    if !ws {
      var lines := SplitLines(s);
      for j := 0 to |lines|
        invariant old(out.content) + Concat(Indented(lines, indent)) == out.content + Concat(Indented(lines[j..], indent))
      {
        assert lines[j..][1..] == lines[j + 1..];
        var rest := Concat(Indented(lines[j + 1..], indent));
        assert Concat(Indented(lines[j..], indent)) == Spaces(indent) + lines[j] + rest;
        AppendAssoc(out.content, Spaces(indent) + lines[j], rest);
        AppendAssoc(out.content, Spaces(indent), lines[j]);
        out.Write(Spaces(indent));
        out.Write(lines[j]);
      }
    } else {
      out.Write(s);
    }
  }

  /** `_write_single` for a child that is not a Block: its text, escaped
      unless the owner is `safe` or the child is a tag class. */
  method WriteLeaf(ws: bool, safe: bool, c: Child, indent: nat, ctx: Context, out: Buffer)
    requires !c.Sub?
    modifies out
    ensures out.content == old(out.content) + Emit(ws, LeafText(safe, c, ctx), indent)
  {
    var s := match c
      case Call(f) => f(ctx)
      case Lit(t) => t
      case Bare(k) => BareText(k);
    if !c.Bare? && !safe {
      s := Escape(s, true);
    }
    WriteText(ws, s, indent, out);
  }

  /** `_write_single`: a Block or Tag child writes itself at the same indentation. */
  method WriteSingle(v: Variant, ws: bool, safe: bool, c: Child, indent: nat, ctx: Context, out: Buffer)
    modifies out
    ensures out.content == old(out.content) + RenderChild(v, ws, safe, c, indent, ctx)
    decreases c, 0
  {
    if c.Sub? {
      WriteNode(v, c.node, indent, ctx, out);
    } else {
      WriteLeaf(ws, safe, c, indent, ctx, out);
    }
  }

  /** The loop of `Block.__str__`: each child, then `\n` unless the owner is
      whitespace-sensitive or the child is the last one. */
  method WriteChildren(v: Variant, ws: bool, safe: bool, cs: seq<Child>, indent: nat, ctx: Context, out: Buffer)
    modifies out
    ensures out.content == old(out.content) + RenderChildren(v, ws, safe, cs, indent, ctx)
    decreases cs, 1
  {
    for i := 0 to |cs|
      invariant old(out.content) + RenderChildren(v, ws, safe, cs, indent, ctx)
             == out.content + RenderChildren(v, ws, safe, cs[i..], indent, ctx)
    {
      ChildrenStep(v, ws, safe, cs, i, indent, ctx);
      ghost var base := out.content;
      ghost var piece := RenderChild(v, ws, safe, cs[i], indent, ctx);
      ghost var sep := if ws || i == |cs| - 1 then "" else "\n";
      AppendAssoc(base, piece + sep, RenderChildren(v, ws, safe, cs[i + 1..], indent, ctx));
      AppendAssoc(base, piece, sep);
      WriteSingle(v, ws, safe, cs[i], indent, ctx, out);
      if !ws && i != |cs| - 1 {
        out.Write("\n");
      }
      assert out.content == base + piece + sep;
    }
  }

  /** The start of `Tag.__str__`: the doctype line when the kind has one,
      the indentation, `<name`, the attributes and `>`. */
  method WriteOpenTag(v: Variant, k: Kind, a: Attrs, indent: nat, ctx: Context, out: Buffer)
    modifies out
    ensures out.content == old(out.content) + OpenTag(v, k, a, indent, ctx)
  {
    ghost var base := out.content;
    var doctype := DoctypeLine(k.doctype, indent);
    if k.doctype != "" {
      out.Write(Spaces(indent));
      out.Write(k.doctype);
      AppendAssoc(base, Spaces(indent), k.doctype);
      out.Write("\n");
      AppendAssoc(base, Spaces(indent) + k.doctype, "\n");
    }
    assert out.content == base + doctype;
    out.Write(Spaces(indent));
    AppendAssoc(base, doctype, Spaces(indent));
    out.Write("<" + k.name);
    AppendAssoc(base, doctype + Spaces(indent), "<" + k.name);
    AppendAssoc(doctype + Spaces(indent), "<", k.name);
    ghost var named := doctype + Spaces(indent) + "<" + k.name;
    assert out.content == base + named;
    WriteAttributes(v, a, ctx, out);
    AppendAssoc(base, named, AttributesText(v, a, ctx));
    out.Write(">");
    AppendAssoc(base, named + AttributesText(v, a, ctx), ">");
  }

  /** `SelfClosingTag.__str__`. */
  method WriteSelfClosing(v: Variant, k: Kind, a: Attrs, indent: nat, ctx: Context, out: Buffer)
    modifies out
    ensures out.content == old(out.content) + SelfClosingText(v, k, a, indent, ctx)
  {
    ghost var base := out.content;
    out.Write(Spaces(indent));
    out.Write("<" + k.name);
    AppendAssoc(base, Spaces(indent), "<" + k.name);
    AppendAssoc(Spaces(indent), "<", k.name);
    ghost var named := Spaces(indent) + "<" + k.name;
    assert out.content == base + named;
    WriteAttributes(v, a, ctx, out);
    AppendAssoc(base, named, AttributesText(v, a, ctx));
    out.Write("/>");
    AppendAssoc(base, named + AttributesText(v, a, ctx), "/>");
  }

  /** The middle of `Tag.__str__`: the children, between newlines and
      followed by the indentation unless the tag is whitespace-sensitive. */
  method WriteBody(v: Variant, ws: bool, safe: bool, cs: seq<Child>, indent: nat, ctx: Context, out: Buffer)
    modifies out
    ensures out.content == old(out.content) + TagBody(v, ws, safe, cs, indent, ctx)
    decreases cs, 2
  {
    if cs == [] {
      return;
    }
    ghost var base := out.content;
    ghost var inner := RenderChildren(v, ws, safe, cs, indent + IndentSize, ctx);
    if !ws {
      out.Write("\n");
      WriteChildren(v, ws, safe, cs, indent + IndentSize, ctx, out);
      AppendAssoc(base, "\n", inner);
      out.Write("\n");
      AppendAssoc(base, "\n" + inner, "\n");
      out.Write(Spaces(indent));
      AppendAssoc(base, "\n" + inner + "\n", Spaces(indent));
    } else {
      WriteChildren(v, ws, safe, cs, indent + IndentSize, ctx, out);
    }
  }

  /** `Tag.__str__` of a tag that is not self-closing. */
  method WriteTag(v: Variant, k: Kind, a: Attrs, cs: seq<Child>, safe: bool, indent: nat, ctx: Context, out: Buffer)
    requires k.flavour != SelfClosing
    modifies out
    ensures out.content == old(out.content) + RenderNode(v, Tag(k, a, cs, safe), indent, ctx)
    decreases cs, 3
  {
    var ws := k.flavour == WhitespaceSensitive;
    ghost var open := OpenTag(v, k, a, indent, ctx);
    ghost var body := TagBody(v, ws, safe, cs, indent, ctx);
    WriteOpenTag(v, k, a, indent, ctx, out);
    WriteBody(v, ws, safe, cs, indent, ctx, out);
    AppendAssoc(old(out.content), open, body);
    out.Write(CloseTag(k));
    AppendAssoc(old(out.content), open + body, CloseTag(k));
  }

  /** `node.__str__(out, indent, **context)`. */
  method WriteNode(v: Variant, n: Node, indent: nat, ctx: Context, out: Buffer)
    modifies out
    ensures out.content == old(out.content) + RenderNode(v, n, indent, ctx)
    decreases n, 3
  {
    match n
    case Block(_, cs, safe) =>
      WriteChildren(v, false, safe, cs, indent, ctx, out);
    case Tag(k, a, cs, safe) =>
      if k.flavour == SelfClosing {
        WriteSelfClosing(v, k, a, indent, ctx, out);
      } else {
        WriteTag(v, k, a, cs, safe, indent, ctx, out);
      }
  }

  /** `str(node)` and `node.render(**context)`: a fresh buffer, written and read back. */
  method RenderToString(v: Variant, n: Node, ctx: Context) returns (s: string)
    ensures s == Render(v, n, ctx)
  {
    var out := new Buffer();
    WriteNode(v, n, 0, ctx, out);
    s := out.content;
  }
}
